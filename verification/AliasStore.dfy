/** Domain aliases in the shared key-value store (pkg/core/alias.go).

    Go strings are byte sequences; a `string` here has one char per byte. */
module AliasStore {
  import opened Strings
  import opened Wrappers

  datatype Repo = Repo(owner: string, name: string)

  /** The store's keys by meaning; KeyText gives the text the source uses. */
  datatype Key = ListOf(repo: Repo) | Domain(name: string)

  /** Stored JSON documents: a repository's domain list, or the repository of a domain. */
  datatype Value = Domains(names: seq<string>) | AliasOf(repo: Repo)

  type Store = map<Key, Value>

  // ---------------------------------------------------------------- key texts

  predicate IsBytes(s: string) {
    forall i :: 0 <= i < |s| ==> s[i] as int < 256
  }

  function Digit(n: nat): char
    requires n < 64
  {
    if n < 26 then 'A' + n as char
    else if n < 52 then 'a' + (n - 26) as char
    else if n < 62 then '0' + (n - 52) as char
    else if n == 62 then '-'
    else '_'
  }

  lemma DigitInjective(m: nat, n: nat)
    requires m < 64 && n < 64 && Digit(m) == Digit(n)
    ensures m == n
  {
  }

  lemma DigitPlain(n: nat)
    requires n < 64
    ensures Digit(n) != '.' && Digit(n) != '=' && Digit(n) != '/'
  {
  }

  /** The 24 bits of three bytes as four digits. */
  function Quad(a: nat, b: nat, c: nat): (q: string)
    requires a < 256 && b < 256 && c < 256
    ensures |q| == 4
  {
    [Digit(a / 4), Digit(a % 4 * 16 + b / 16), Digit(b % 16 * 4 + c / 64), Digit(c % 64)]
  }

  lemma QuadPlain(a: nat, b: nat, c: nat)
    requires a < 256 && b < 256 && c < 256
    ensures forall i :: 0 <= i < 4 ==> Quad(a, b, c)[i] != '.' && Quad(a, b, c)[i] != '='
  {
    DigitPlain(a / 4);
    DigitPlain(a % 4 * 16 + b / 16);
    DigitPlain(b % 16 * 4 + c / 64);
    DigitPlain(c % 64);
  }

  lemma FirstByte(a: nat, b: nat, x: nat, y: nat)
    requires b < 256 && y < 256 && a / 4 == x / 4 && a % 4 * 16 + b / 16 == x % 4 * 16 + y / 16
    ensures a == x && b / 16 == y / 16
  {
  }

  lemma SecondByte(b: nat, c: nat, y: nat, z: nat)
    requires c < 256 && z < 256 && b / 16 == y / 16 && b % 16 * 4 + c / 64 == y % 16 * 4 + z / 64
    ensures b == y && c / 64 == z / 64
  {
  }

  lemma QuadInjective(a: nat, b: nat, c: nat, x: nat, y: nat, z: nat)
    requires a < 256 && b < 256 && c < 256 && x < 256 && y < 256 && z < 256
    requires Quad(a, b, c)[0] == Quad(x, y, z)[0] && Quad(a, b, c)[1] == Quad(x, y, z)[1]
    ensures a == x
    ensures Quad(a, b, c)[2] == Quad(x, y, z)[2] ==> b == y
    ensures Quad(a, b, c)[2] == Quad(x, y, z)[2] && Quad(a, b, c)[3] == Quad(x, y, z)[3] ==> c == z
  {
    DigitInjective(a / 4, x / 4);
    DigitInjective(a % 4 * 16 + b / 16, x % 4 * 16 + y / 16);
    FirstByte(a, b, x, y);
    if Quad(a, b, c)[2] == Quad(x, y, z)[2] {
      DigitInjective(b % 16 * 4 + c / 64, y % 16 * 4 + z / 64);
      SecondByte(b, c, y, z);
      if Quad(a, b, c)[3] == Quad(x, y, z)[3] {
        DigitInjective(c % 64, z % 64);
      }
    }
  }

  /** Padded URL-safe base64 (section 5 of RFC 4648). */
  function Base64Url(s: string): string
    requires IsBytes(s)
  {
    if |s| == 0 then ""
    else if |s| == 1 then Quad(s[0] as int, 0, 0)[..2] + "=="
    else if |s| == 2 then Quad(s[0] as int, s[1] as int, 0)[..3] + "="
    else Quad(s[0] as int, s[1] as int, s[2] as int) + Base64Url(s[3..])
  }

  /** The first group of a non-empty input, short inputs filled up with zero bytes. */
  function FirstQuad(s: string): (q: string)
    requires IsBytes(s) && s != ""
    ensures |q| == 4
  {
    Quad(s[0] as int, if |s| > 1 then s[1] as int else 0, if |s| > 2 then s[2] as int else 0)
  }

  lemma Base64Front(s: string)
    requires IsBytes(s) && s != ""
    ensures var p := Base64Url(s);
            && |p| >= 4
            && p[0] == FirstQuad(s)[0] && p[1] == FirstQuad(s)[1]
            && p[2] == (if |s| == 1 then '=' else FirstQuad(s)[2])
            && p[3] == (if |s| <= 2 then '=' else FirstQuad(s)[3])
            && (|s| >= 3 ==> p[4..] == Base64Url(s[3..]))
  {
  }

  /** Four digits, six bits each, make up the 24 bits of three bytes. */
  lemma QuadIs(a: nat, b: nat, c: nat) returns (k: nat, l: nat, m: nat, n: nat)
    requires a < 256 && b < 256 && c < 256
    ensures k < 64 && l < 64 && m < 64 && n < 64
    ensures Quad(a, b, c) == [Digit(k), Digit(l), Digit(m), Digit(n)]
    ensures ((k * 64 + l) * 64 + m) * 64 + n == (a * 256 + b) * 256 + c
  {
    k, l, m, n := a / 4, a % 4 * 16 + b / 16, b % 16 * 4 + c / 64, c % 64;
  }

  /** Test vectors of section 10 of RFC 4648, and one for the two characters of the URL-safe alphabet. */
  lemma Base64Vectors()
    ensures Base64Url("") == "" && Base64Url("f") == "Zg==" && Base64Url("fo") == "Zm8="
    ensures Base64Url("foo") == "Zm9v" && Base64Url("foobar") == "Zm9vYmFy"
    ensures Base64Url([251 as char, 255 as char]) == "-_8="
  {
    assert "foobar"[3..] == "bar" && "bar"[3..] == "" && "foo"[3..] == "";
    assert Base64Url("bar") == "YmFy" + Base64Url("");
  }

  /** The text goes group by group: four characters for three bytes. */
  lemma {:induction false} Base64Groups(s: string, g: nat)
    requires IsBytes(s) && 3 * g <= |s|
    ensures |Base64Url(s)| >= 4 * g && Base64Url(s)[4 * g..] == Base64Url(s[3 * g..])
  {
    if g > 0 {
      Base64Front(s);
      Base64Groups(s[3..], g - 1);
      assert s[3..][3 * (g - 1)..] == s[3 * g..];
      assert Base64Url(s)[4 * g..] == Base64Url(s)[4..][4 * (g - 1)..];
    }
  }

  lemma {:induction false} Base64Plain(s: string)
    requires IsBytes(s)
    ensures forall i :: 0 <= i < |Base64Url(s)| ==> Base64Url(s)[i] != '.'
  {
    if s != "" {
      QuadPlain(s[0] as int, if |s| > 1 then s[1] as int else 0, if |s| > 2 then s[2] as int else 0);
      if |s| >= 3 {
        Base64Plain(s[3..]);
      }
    }
  }

  lemma {:induction false} Base64Injective(s: string, t: string)
    requires IsBytes(s) && IsBytes(t) && Base64Url(s) == Base64Url(t)
    ensures s == t
  {
    if s != "" {
      Base64Front(s);
    }
    if t != "" {
      Base64Front(t);
    }
    if s != "" && t != "" {
      var b, c := if |s| > 1 then s[1] as int else 0, if |s| > 2 then s[2] as int else 0;
      var y, z := if |t| > 1 then t[1] as int else 0, if |t| > 2 then t[2] as int else 0;
      QuadPlain(s[0] as int, b, c);
      QuadPlain(t[0] as int, y, z);
      QuadInjective(s[0] as int, b, c, t[0] as int, y, z);
      if |s| >= 3 {
        Base64Injective(s[3..], t[3..]);
        assert s == s[..3] + s[3..] && t == t[..3] + t[3..];
      }
    }
  }

  predicate IsLower(c: char) { 'a' <= c <= 'z' }

  predicate IsAlnum(c: char) { IsLower(c) || '0' <= c <= '9' }

  /** One label of the host name pattern: 1 to 63 characters, no hyphen at either end. */
  predicate IsLabel(s: string) {
    && 1 <= |s| <= 63
    && IsAlnum(s[0]) && IsAlnum(s[|s| - 1])
    && forall i :: 0 <= i < |s| ==> IsAlnum(s[i]) || s[i] == '-'
  }

  predicate IsTopLevel(s: string) {
    2 <= |s| <= 18 && forall i :: 0 <= i < |s| ==> IsLower(s[i])
  }

  /** regexpHostname (pkg/core/meta.go:363). */
  predicate IsHostname(s: string) {
    var i := IndexOf(s, '.');
    i < |s| && IsLabel(s[..i]) && (IsTopLevel(s[i + 1..]) || IsHostname(s[i + 1..]))
  }

  /** A label as the pattern writes it: one letter or digit, or two with up to 61 characters between. */
  lemma LabelIs(s: string)
    ensures IsLabel(s) <==> (|s| == 1 && IsAlnum(s[0])) || exists a, m, b :: s == [a] + m + [b] && IsInner(a, m, b)
  {
    if IsLabel(s) && |s| > 1 {
      LabelParts(s);
    }
    if a, m, b :| s == [a] + m + [b] && IsInner(a, m, b) {
      LabelOf(a, m, b);
    }
  }

  predicate IsInner(a: char, m: string, b: char) {
    IsAlnum(a) && IsAlnum(b) && |m| <= 61 && forall i :: 0 <= i < |m| ==> IsAlnum(m[i]) || m[i] == '-'
  }

  lemma LabelParts(s: string)
    requires IsLabel(s) && |s| > 1
    ensures s == [s[0]] + s[1..|s| - 1] + [s[|s| - 1]] && IsInner(s[0], s[1..|s| - 1], s[|s| - 1])
  {}

  lemma LabelOf(a: char, m: string, b: char)
    requires IsInner(a, m, b)
    ensures IsLabel([a] + m + [b])
  {}

  function Dotted(labels: seq<string>, top: string): string {
    if labels == [] then top else labels[0] + "." + Dotted(labels[1..], top)
  }

  ghost predicate IsDotted(s: string, labels: seq<string>, top: string) {
    && labels != [] && (forall i :: 0 <= i < |labels| ==> IsLabel(labels[i]))
    && 2 <= |top| <= 18 && (forall i :: 0 <= i < |top| ==> 'a' <= top[i] <= 'z')
    && s == Dotted(labels, top)
  }

  lemma {:induction false} HostnameLabels(s: string) returns (labels: seq<string>, top: string)
    requires IsHostname(s)
    ensures IsDotted(s, labels, top)
    decreases |s|
  {
    var i := IndexOf(s, '.');
    assert s == s[..i] + "." + s[i + 1..];
    if IsTopLevel(s[i + 1..]) {
      labels, top := [s[..i]], s[i + 1..];
      assert Dotted(labels[1..], top) == top;
    } else {
      labels, top := HostnameLabels(s[i + 1..]);
      labels := [s[..i]] + labels;
    }
  }

  lemma {:induction false} DottedIsHostname(labels: seq<string>, top: string)
    requires IsDotted(Dotted(labels, top), labels, top)
    ensures IsHostname(Dotted(labels, top))
    decreases |labels|
  {
    var rest := Dotted(labels[1..], top);
    var s := labels[0] + "." + rest;
    IndexAfter(labels[0], '.', rest);
    assert s[..|labels[0]|] == labels[0] && s[|labels[0]| + 1..] == rest;
    if |labels| > 1 {
      DottedIsHostname(labels[1..], top);
    }
  }

  /** A host name is one label or more and a top-level domain, joined by dots. */
  lemma HostnameIff(s: string)
    ensures IsHostname(s) <==> exists labels, top :: IsDotted(s, labels, top)
  {
    if IsHostname(s) {
      var labels, top := HostnameLabels(s);
    }
    if labels, top :| IsDotted(s, labels, top) {
      DottedIsHostname(labels, top);
    }
  }

  /** What Bind is called with: repositories whose owner has no slash, checked domains. */
  predicate WellFormed(k: Key) {
    match k
    case ListOf(r) => IsBytes(r.owner) && IsBytes(r.name) && '/' !in r.owner
    case Domain(d) => IsHostname(d)
  }

  function KeyText(k: Key): string
    requires WellFormed(k)
  {
    match k
    case ListOf(r) => Base64Url(r.owner + "/" + r.name)
    case Domain(d) => d
  }

  lemma SlashJoinInjective(a: string, b: string, c: string, d: string)
    requires '/' !in a && '/' !in c && a + "/" + b == c + "/" + d
    ensures a == c && b == d
  {
    IndexAfter(a, '/', b);
    IndexAfter(c, '/', d);
    var s, t := a + "/" + b, c + "/" + d;
    assert a == s[..|a|] && c == t[..|c|];
    assert b == s[|a| + 1..] && d == t[|c| + 1..];
  }

  /** Lists and aliases share one key space without ever meeting: different keys have
      different texts. */
  lemma KeyTextInjective(k: Key, l: Key)
    requires WellFormed(k) && WellFormed(l)
    ensures KeyText(k) == KeyText(l) <==> k == l
  {
    match (k, l)
    case (ListOf(r), ListOf(q)) =>
      if KeyText(k) == KeyText(l) {
        Base64Injective(r.owner + "/" + r.name, q.owner + "/" + q.name);
        SlashJoinInjective(r.owner, r.name, q.owner, q.name);
      }
    case (ListOf(r), Domain(d)) =>
      Base64Plain(r.owner + "/" + r.name);
      assert d[IndexOf(d, '.')] == '.';
    case (Domain(d), ListOf(r)) =>
      Base64Plain(r.owner + "/" + r.name);
      assert d[IndexOf(d, '.')] == '.';
    case (Domain(_), Domain(_)) =>
  }

  // ---------------------------------------------------------------- Bind, alone

  /** The domains of a stored list; a document of another shape counts as no list. */
  function Listed(kv: Store, r: Repo): seq<string> {
    if ListOf(r) in kv then OldDomains(kv[ListOf(r)]) else []
  }

  function OldDomains(v: Value): seq<string> {
    match v
    case Domains(names) => names
    case AliasOf(_) => []
  }

  /** The entries of `before` that are not in `after`, in order. */
  function Dropped(before: seq<string>, after: seq<string>): (r: seq<string>)
    ensures forall d :: d in r <==> d in before && d !in after
  {
    if before == [] then []
    else if before[0] in after then Dropped(before[1..], after)
    else [before[0]] + Dropped(before[1..], after)
  }

  /** The effect of an undisturbed Bind on one key. */
  ghost predicate BoundAt(before: Store, after: Store, r: Repo, ds: seq<string>, k: Key) {
    if k == ListOf(r) then k in after && after[k] == Domains(ds)
    else if k.Domain? && k.name in ds then k in after && after[k] == AliasOf(r)
    else if k.Domain? && k.name in Listed(before, r) then k !in after
    else (k in after <==> k in before) && (k in after ==> after[k] == before[k])
  }

  ghost predicate IsBound(before: Store, after: Store, r: Repo, ds: seq<string>) {
    forall k :: BoundAt(before, after, r, ds, k)
  }

  /** The store, with the operations Bind uses. */
  class KV {
    var data: Store

    constructor ()
      ensures data == map[]
    {
      data := map[];
    }

    method PutIfNotExists(k: Key, v: Value) returns (success: bool)
      modifies this
      ensures success <==> k !in old(data)
      ensures data == if success then old(data)[k := v] else old(data)
    {
      success := k !in data;
      if success {
        data := data[k := v];
      }
    }

    method Get(k: Key) returns (v: Option<Value>)
      ensures v == if k in data then Some(data[k]) else None
    {
      v := if k in data then Some(data[k]) else None;
    }

    method CompareAndSwap(k: Key, seen: Value, v: Value) returns (success: bool)
      modifies this
      ensures success <==> k in old(data) && old(data)[k] == seen
      ensures data == if success then old(data)[k := v] else old(data)
    {
      success := k in data && data[k] == seen;
      if success {
        data := data[k := v];
      }
    }

    method Put(k: Key, v: Value)
      modifies this
      ensures data == old(data)[k := v]
    {
      data := data[k := v];
    }

    method Delete(k: Key)
      modifies this
      ensures data == old(data) - {k}
    {
      data := data - {k};
    }
  }

  class DomainAlias {
    const config: KV

    constructor (config: KV)
      ensures this.config == config
    {
      this.config := config;
    }

    method Query(domain: string) returns (r: Option<Repo>)
      ensures r == if Domain(domain) in config.data && config.data[Domain(domain)].AliasOf?
                   then Some(config.data[Domain(domain)].repo) else None
    {
      var v := config.Get(Domain(domain));
      match v
      case Some(AliasOf(repo)) => r := Some(repo);
      case _ => r := None;
    }

    method Unbind(domain: string)
      modifies config
      ensures config.data == old(config.data) - {Domain(domain)}
    {
      config.Delete(Domain(domain));
    }

    /** Bind without interference: the list is replaced, dropped domains are removed, the
        new ones point here, and nothing else changes. */
    method Bind(domains: seq<string>, r: Repo)
      modifies config
      ensures IsBound(old(config.data), config.data, r, domains)
    {
      var key := ListOf(r);
      var oldDomains: seq<string> := [];
      var done := false;
      while !done
        invariant !done ==> config.data == old(config.data)
        invariant done ==> config.data == old(config.data)[key := Domains(domains)]
        invariant done ==> oldDomains == Listed(old(config.data), r)
        decreases !done
      {
        done := config.PutIfNotExists(key, Domains(domains));
        if done {
          oldDomains := [];
        } else {
          var seen := config.Get(key);
          if seen.Some? {
            oldDomains := OldDomains(seen.value);
            done := config.CompareAndSwap(key, seen.value, Domains(domains));
          }
        }
      }
      UnbindDropped(oldDomains, domains);
      PointTo(domains, r);
    }

    /** The first pass over the domains: those no longer listed go. */
    method UnbindDropped(oldDomains: seq<string>, domains: seq<string>)
      modifies config
      ensures forall k :: k in config.data <==>
        k in old(config.data) && !(k.Domain? && k.name in oldDomains && k.name !in domains)
      ensures forall k :: k in config.data ==> config.data[k] == old(config.data)[k]
    {
      for i := 0 to |oldDomains|
        invariant forall k :: k in config.data <==>
          k in old(config.data) && !(k.Domain? && k.name in oldDomains[..i] && k.name !in domains)
        invariant forall k :: k in config.data ==> config.data[k] == old(config.data)[k]
      {
        if oldDomains[i] !in domains {
          Unbind(oldDomains[i]);
        }
      }
      assert oldDomains[..|oldDomains|] == oldDomains;
    }

    /** The second pass: the listed ones point to the repository. */
    method PointTo(domains: seq<string>, r: Repo)
      modifies config
      ensures forall k :: k in config.data <==> k in old(config.data) || (k.Domain? && k.name in domains)
      ensures forall k :: k in config.data ==>
        config.data[k] == if k.Domain? && k.name in domains then AliasOf(r) else old(config.data)[k]
    {
      for i := 0 to |domains|
        invariant forall k :: k in config.data <==> k in old(config.data) || (k.Domain? && k.name in domains[..i])
        invariant forall k :: k in config.data ==>
          config.data[k] == if k.Domain? && k.name in domains[..i] then AliasOf(r) else old(config.data)[k]
      {
        config.Put(Domain(domains[i]), AliasOf(r));
      }
      assert domains[..|domains|] == domains;
    }
  }

  // ---------------------------------------------------------------- Bind, step by step

  /** Where a Bind stands between two store operations. */
  datatype BindPc =
    | Try
    | Fetch
    | Swap(seen: Value)
    | Remove(rest: seq<string>)
    | Point(rest: seq<string>)

  const DONE := Point([])

  /** The next store operation of a Bind of `ds` for r. */
  function BindStep(kv: Store, r: Repo, ds: seq<string>, pc: BindPc): (Store, BindPc)
    requires pc != DONE
  {
    var key := ListOf(r);
    match pc
    case Try => if key in kv then (kv, Fetch) else (kv[key := Domains(ds)], Remove([]))
    case Fetch => if key in kv then (kv, Swap(kv[key])) else (kv, Try)
    case Swap(seen) =>
      if key in kv && kv[key] == seen
      then (kv[key := Domains(ds)], Remove(Dropped(OldDomains(seen), ds)))
      else (kv, Try)
    case Remove(rest) =>
      if rest == [] then (kv, Point(ds)) else (kv - {Domain(rest[0])}, Remove(rest[1..]))
    case Point(rest) => (kv[Domain(rest[0]) := AliasOf(r)], Point(rest[1..]))
  }

  /** A Bind that was overtaken writes nothing and starts over. */
  lemma OvertakenStartsOver(kv: Store, r: Repo, ds: seq<string>, seen: Value)
    ensures ListOf(r) !in kv ==> BindStep(kv, r, ds, Fetch) == (kv, Try)
    ensures ListOf(r) !in kv || kv[ListOf(r)] != seen ==> BindStep(kv, r, ds, Swap(seen)) == (kv, Try)
  {}

  /** Several operations of one Bind in a row, at most n. */
  function BindSteps(kv: Store, r: Repo, ds: seq<string>, pc: BindPc, n: nat): (Store, BindPc)
    decreases n
  {
    if n == 0 || pc == DONE then (kv, pc)
    else
      var (kv', pc') := BindStep(kv, r, ds, pc);
      BindSteps(kv', r, ds, pc', n - 1)
  }

  function WithoutDomains(kv: Store, names: seq<string>): Store {
    map k | k in kv && !(k.Domain? && k.name in names) :: kv[k]
  }

  lemma {:induction false} RemoveAll(kv: Store, r: Repo, ds: seq<string>, rest: seq<string>, n: nat)
    ensures BindSteps(kv, r, ds, Remove(rest), |rest| + 1 + n)
         == BindSteps(WithoutDomains(kv, rest), r, ds, Point(ds), n)
    decreases |rest|
  {
    if rest == [] {
      assert WithoutDomains(kv, rest) == kv;
    } else {
      var next := kv - {Domain(rest[0])};
      RemoveAll(next, r, ds, rest[1..], n);
      assert WithoutDomains(kv, rest) == WithoutDomains(next, rest[1..]);
    }
  }

  lemma {:induction false} PointAll(kv: Store, r: Repo, ds: seq<string>, rest: seq<string>)
    ensures var (after, pc) := BindSteps(kv, r, ds, Point(rest), |rest|);
            && pc == DONE
            && forall k {:trigger k in after} ::
                 (k in after <==> k in kv || (k.Domain? && k.name in rest))
                 && (k in after ==> after[k] == if k.Domain? && k.name in rest then AliasOf(r) else kv[k])
    decreases |rest|
  {
    if rest != [] {
      PointAll(kv[Domain(rest[0]) := AliasOf(r)], r, ds, rest[1..]);
    }
  }

  /** Run without interference, the steps have the effect that the Bind method has. */
  lemma StepsAloneBind(kv: Store, r: Repo, ds: seq<string>)
    ensures exists n :: BindSteps(kv, r, ds, Try, n).1 == DONE && IsBound(kv, BindSteps(kv, r, ds, Try, n).0, r, ds)
  {
    var key := ListOf(r);
    var first := if key in kv then Dropped(OldDomains(kv[key]), ds) else [];
    var listed := kv[key := Domains(ds)];
    var k := |first| + 1 + |ds|;
    var n := k + if key in kv then 3 else 1;
    if key in kv {
      assert BindSteps(kv, r, ds, Try, n) == BindSteps(kv, r, ds, Fetch, k + 2)
          == BindSteps(kv, r, ds, Swap(kv[key]), k + 1) == BindSteps(listed, r, ds, Remove(first), k);
    } else {
      assert BindSteps(kv, r, ds, Try, n) == BindSteps(listed, r, ds, Remove(first), k);
    }
    RemoveAll(listed, r, ds, first, |ds|);
    var cleaned := WithoutDomains(listed, first);
    PointAll(cleaned, r, ds, ds);
    var after := BindSteps(kv, r, ds, Try, n).0;
    forall d: string ensures d in first <==> d in Listed(kv, r) && d !in ds {
    }
    assert after == BindSteps(cleaned, r, ds, Point(ds), |ds|).0;
    forall k ensures BoundAt(kv, after, r, ds, k) {
    }
  }

  /** Two Binds of one repository must not overlap.  Here the first has written its list;
      the second then runs to its end, emptying the list; the first still points its domain
      at the repository, and the alias stays although no list mentions it. */
  lemma OverlappingBindsLeakAlias(r: Repo, d: string)
    ensures var (kv1, pc1) := BindSteps(map[], r, [d], Try, 2);
            var (kv2, pc2) := BindSteps(kv1, r, [], Try, 5);
            var (kv3, pc3) := BindSteps(kv2, r, [d], pc1, 1);
            && pc2 == DONE && pc3 == DONE
            && Listed(kv3, r) == [] && Domain(d) in kv3 && kv3[Domain(d)] == AliasOf(r)
  {
    var key := ListOf(r);
    var kv1: Store := map[key := Domains([d])];
    assert BindStep(map[], r, [d], Try) == (kv1, Remove([]));
    assert BindSteps(kv1, r, [d], Remove([]), 1) == BindSteps(kv1, r, [d], Point([d]), 0);
    assert BindSteps(map[], r, [d], Try, 2) == (kv1, Point([d]));
    assert Dropped([d], []) == [d];
    var kv2 := kv1[key := Domains([])];
    assert kv2 - {Domain(d)} == kv2;
    calc {
      BindSteps(kv1, r, [], Try, 5);
      BindSteps(kv1, r, [], Fetch, 4);
      BindSteps(kv1, r, [], Swap(Domains([d])), 3);
      BindSteps(kv2, r, [], Remove([d]), 2);
      BindSteps(kv2, r, [], Remove([]), 1);
      BindSteps(kv2, r, [], DONE, 0);
    }
  }
}
