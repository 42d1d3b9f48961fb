/** The filter call stack of pkg/server.go and pkg/core/filter.go, with the filters of
    pkg/filters that recover from a missing page or answer by themselves. */
module FilterChain {

  datatype File = File(content: string, breaks: bool)

  /** What filters do to the response writer. */
  datatype Write = Static(path: string, file: File) | Page404(file: File) | RedirectTo(target: string, code: int)
                 | Plain(code: int, text: string)

  type World = seq<Write>

  datatype Outcome = Ok | NotExist | Failed(reason: string)

  type Next = World -> (Outcome, World)

  type FilterCall = (World, Next) -> (Outcome, World)

  /** NotFountNextCall. */
  function NotFoundNext(w: World): (Outcome, World) {
    (NotExist, w)
  }

  /** NextCallWrapper. */
  function Wrap(call: FilterCall, parent: Next): Next {
    w => call(w, parent)
  }

  /** The call stack: each filter around the ones after it. */
  function Nested(calls: seq<FilterCall>): Next {
    if calls == [] then NotFoundNext else Wrap(calls[0], Nested(calls[1..]))
  }

  // ---------------------------------------------------------------- what filters do

  /** A filter hands the request on, answers without calling next, or calls next and acts
      when that reports a missing page. */
  datatype Kind = Passes | Answers(run: Next) | Recovers(run: Next)

  function Recovered(run: Next, r: (Outcome, World)): (Outcome, World) {
    if r.0 == NotExist then run(r.1) else r
  }

  function Meaning(k: Kind, w: World, next: Next): (Outcome, World) {
    match k
    case Passes => next(w)
    case Answers(run) => run(w)
    case Recovers(run) => Recovered(run, next(w))
  }

  ghost predicate Behaves(call: FilterCall, k: Kind) {
    forall w, next :: call(w, next) == Meaning(k, w, next)
  }

  ghost predicate AllBehave(calls: seq<FilterCall>, kinds: seq<Kind>) {
    |calls| == |kinds| && forall i :: 0 <= i < |calls| ==> Behaves(calls[i], kinds[i])
  }

  // ---------------------------------------------------------------- the flat scan

  /** The first filter that does not call next. */
  function CutAt(kinds: seq<Kind>): (i: nat)
    ensures i <= |kinds| && (i < |kinds| ==> kinds[i].Answers?) && forall j :: 0 <= j < i ==> !kinds[j].Answers?
  {
    if kinds == [] || kinds[0].Answers? then 0 else 1 + CutAt(kinds[1..])
  }

  /** Its result, or a missing page. */
  function Base(kinds: seq<Kind>, w: World): (Outcome, World) {
    var cut := CutAt(kinds);
    if cut < |kinds| then kinds[cut].run(w) else (NotExist, w)
  }

  /** The recovering filters before i act, nearest first, each on a missing page only. */
  function RecoverBefore(kinds: seq<Kind>, i: nat, r: (Outcome, World)): (Outcome, World)
    requires i <= |kinds|
  {
    if i == 0 then r
    else RecoverBefore(kinds, i - 1, if kinds[i - 1].Recovers? then Recovered(kinds[i - 1].run, r) else r)
  }

  function Flat(kinds: seq<Kind>, w: World): (Outcome, World) {
    RecoverBefore(kinds, CutAt(kinds), Base(kinds, w))
  }

  lemma {:induction false} RecoverShift(k: Kind, rest: seq<Kind>, i: nat, r: (Outcome, World))
    requires i <= |rest| && !k.Answers?
    ensures RecoverBefore([k] + rest, i + 1, r)
         == if k.Recovers? then Recovered(k.run, RecoverBefore(rest, i, r)) else RecoverBefore(rest, i, r)
  {
    if i > 0 {
      assert ([k] + rest)[i] == rest[i - 1];
      RecoverShift(k, rest, i - 1, if rest[i - 1].Recovers? then Recovered(rest[i - 1].run, r) else r);
    }
  }

  lemma FlatStep(kinds: seq<Kind>, w: World)
    requires kinds != []
    ensures Flat(kinds, w) == Meaning(kinds[0], w, v => Flat(kinds[1..], v))
  {
    if !kinds[0].Answers? {
      assert kinds == [kinds[0]] + kinds[1..];
      RecoverShift(kinds[0], kinds[1..], CutAt(kinds[1..]), Base(kinds[1..], w));
    }
  }

  lemma MeaningSame(k: Kind, w: World, next: Next, next': Next)
    requires forall v :: next(v) == next'(v)
    ensures Meaning(k, w, next) == Meaning(k, w, next')
  {}

  /** The nested closures mean the flat scan. */
  lemma {:induction false} NestedIsFlat(calls: seq<FilterCall>, kinds: seq<Kind>, w: World)
    requires AllBehave(calls, kinds)
    ensures Nested(calls)(w) == Flat(kinds, w)
    decreases |calls|
  {
    if calls != [] {
      var next := Nested(calls[1..]);
      forall v ensures next(v) == Flat(kinds[1..], v) {
        NestedIsFlat(calls[1..], kinds[1..], v);
      }
      assert Nested(calls)(w) == calls[0](w, next);
      MeaningSame(kinds[0], w, next, v => Flat(kinds[1..], v));
      FlatStep(kinds, w);
    }
  }

  // ---------------------------------------------------------------- who writes

  /** A filter that reports a missing page has written nothing. */
  ghost predicate Quiet(k: Kind) {
    !k.Passes? ==> forall w :: k.run(w).0 == NotExist ==> k.run(w).1 == w
  }

  ghost predicate AllQuiet(kinds: seq<Kind>) {
    forall k :: 0 <= k < |kinds| ==> Quiet(kinds[k])
  }

  predicate Acts(kinds: seq<Kind>, k: nat) {
    k < |kinds| && k <= CutAt(kinds) && !kinds[k].Passes?
  }

  /** k is the innermost filter below i that finds the page on the response w. */
  predicate WinsBelow(kinds: seq<Kind>, i: nat, k: nat, w: World) {
    && Acts(kinds, k) && k < i && kinds[k].run(w).0 != NotExist
    && forall j: nat :: k < j < i && Acts(kinds, j) ==> kinds[j].run(w).0 == NotExist
  }

  predicate NoneBelow(kinds: seq<Kind>, i: nat, w: World) {
    forall j: nat :: j < i && Acts(kinds, j) ==> kinds[j].run(w).0 == NotExist
  }

  lemma {:induction false} RecoverKeeps(kinds: seq<Kind>, i: nat, r: (Outcome, World))
    requires i <= |kinds| && r.0 != NotExist
    ensures RecoverBefore(kinds, i, r) == r
  {
    if i > 0 {
      RecoverKeeps(kinds, i - 1, r);
    }
  }

  lemma {:induction false} RecoverWinner(kinds: seq<Kind>, i: nat, w: World)
    requires i <= CutAt(kinds) && AllQuiet(kinds)
    ensures var r := RecoverBefore(kinds, i, (NotExist, w));
            || (r == (NotExist, w) && NoneBelow(kinds, i, w))
            || exists k: nat :: WinsBelow(kinds, i, k, w) && r == kinds[k].run(w)
  {
    if i > 0 {
      var k := kinds[i - 1];
      assert Quiet(k);
      if k.Recovers? && k.run(w).0 != NotExist {
        RecoverKeeps(kinds, i - 1, k.run(w));
        assert WinsBelow(kinds, i, i - 1, w);
      } else {
        RecoverWinner(kinds, i - 1, w);
        var r := RecoverBefore(kinds, i - 1, (NotExist, w));
        if !NoneBelow(kinds, i - 1, w) || r != (NotExist, w) {
          var m: nat :| WinsBelow(kinds, i - 1, m, w) && r == kinds[m].run(w);
          assert WinsBelow(kinds, i, m, w);
        }
      }
    }
  }

  /** If no filter writes when it reports a missing page, the response is what a single filter
      makes of the untouched response: the innermost reached one that finds something. */
  lemma OneWriter(kinds: seq<Kind>, w: World)
    requires AllQuiet(kinds)
    ensures || (Flat(kinds, w) == (NotExist, w) && NoneBelow(kinds, |kinds|, w))
            || exists k: nat :: WinsBelow(kinds, |kinds|, k, w) && Flat(kinds, w) == kinds[k].run(w)
  {
    var cut := CutAt(kinds);
    if cut < |kinds| && kinds[cut].run(w).0 != NotExist {
      RecoverKeeps(kinds, cut, kinds[cut].run(w));
      assert WinsBelow(kinds, |kinds|, cut, w);
    } else {
      assert cut < |kinds| ==> Quiet(kinds[cut]);
      RecoverWinner(kinds, cut, w);
      if !(Flat(kinds, w) == (NotExist, w) && NoneBelow(kinds, cut, w)) {
        var m: nat :| WinsBelow(kinds, cut, m, w) && Flat(kinds, w) == kinds[m].run(w);
        assert WinsBelow(kinds, |kinds|, m, w);
      }
    }
  }
}
