/** Text helpers of Go's strings package and the quote-aware splitter of
    pkg/core/request.go. */
module HeaderText {
  import opened Strings

  /** unicode.IsSpace. */
  predicate IsSpace(c: char) {
    || ('\t' <= c <= '\r') || c == ' ' || c == '\U{0085}' || c == '\U{00A0}' || c == '\U{1680}'
    || ('\U{2000}' <= c <= '\U{200A}') || c == '\U{2028}' || c == '\U{2029}' || c == '\U{202F}'
    || c == '\U{205F}' || c == '\U{3000}'
  }

  function TrimLeft(s: string): (r: string)
    ensures |r| <= |s| && (s != "" && !IsSpace(s[0]) ==> r == s)
    ensures r != "" ==> !IsSpace(r[0]) && r[|r| - 1] == s[|s| - 1]
  {
    if s != "" && IsSpace(s[0]) then TrimLeft(s[1..]) else s
  }

  function TrimRight(s: string): (r: string)
    ensures |r| <= |s| && (s != "" && !IsSpace(s[|s| - 1]) ==> r == s)
    ensures r != "" ==> !IsSpace(r[|r| - 1]) && r[0] == s[0]
  {
    if s != "" && IsSpace(s[|s| - 1]) then TrimRight(s[..|s| - 1]) else s
  }

  /** strings.TrimSpace. */
  function Trim(s: string): (r: string)
    ensures |r| <= |s|
    ensures s != "" && !IsSpace(s[0]) && !IsSpace(s[|s| - 1]) ==> r == s
    ensures IsTrimmed(r)
  {
    TrimRight(TrimLeft(s))
  }

  /** Trimming takes off spaces at both ends and nothing else. */
  lemma TrimIs(s: string) returns (i: nat, j: nat)
    ensures i <= j <= |s| && Trim(s) == s[i..j]
    ensures forall k :: 0 <= k < i || j <= k < |s| ==> IsSpace(s[k])
  {
    i := TrimLeftIs(s);
    j := TrimRightIs(s[i..]);
    forall k | i + j <= k < |s| ensures IsSpace(s[k]) {
      assert s[k] == s[i..][k - i];
    }
    j := i + j;
  }

  lemma {:induction false} TrimLeftIs(s: string) returns (i: nat)
    ensures i <= |s| && TrimLeft(s) == s[i..] && forall k :: 0 <= k < i ==> IsSpace(s[k])
  {
    i := 0;
    if s != "" && IsSpace(s[0]) {
      i := TrimLeftIs(s[1..]);
      i := i + 1;
    }
  }

  lemma {:induction false} TrimRightIs(s: string) returns (j: nat)
    ensures j <= |s| && TrimRight(s) == s[..j] && forall k :: j <= k < |s| ==> IsSpace(s[k])
  {
    j := |s|;
    if s != "" && IsSpace(s[|s| - 1]) {
      j := TrimRightIs(s[..|s| - 1]);
    }
  }

  predicate IsTrimmed(s: string) {
    s == "" || (!IsSpace(s[0]) && !IsSpace(s[|s| - 1]))
  }

  /** The characters with the Unicode property White_Space. */
  lemma SpacesAre(c: char)
    ensures IsSpace(c) <==>
              c as int in [9, 10, 11, 12, 13, 32, 0x85, 0xA0, 0x1680, 0x2000, 0x2001, 0x2002, 0x2003, 0x2004, 0x2005,
                           0x2006, 0x2007, 0x2008, 0x2009, 0x200A, 0x2028, 0x2029, 0x202F, 0x205F, 0x3000]
  {}

  /** strings.Trim with a set of characters. */
  function TrimSet(s: string, cut: char -> bool): string
    decreases |s|
  {
    if s == "" then s
    else if cut(s[0]) then TrimSet(s[1..], cut)
    else if cut(s[|s| - 1]) then TrimSet(s[..|s| - 1], cut)
    else s
  }

  predicate AllCut(s: string, cut: char -> bool) {
    forall i :: 0 <= i < |s| ==> cut(s[i])
  }

  /** The characters of the set are taken off around a text, those inside stay. */
  lemma {:induction false} TrimSetIs(a: string, s: string, b: string, cut: char -> bool)
    requires AllCut(a, cut) && AllCut(b, cut) && (s != "" ==> !cut(s[0]) && !cut(s[|s| - 1]))
    ensures TrimSet(a + s + b, cut) == s
    decreases |a| + |b|
  {
    var all := a + s + b;
    if a != "" {
      assert all[1..] == a[1..] + s + b;
      TrimSetIs(a[1..], s, b, cut);
    } else if b != "" && s == "" {
      assert all[1..] == a + s + b[1..];
      TrimSetIs(a, s, b[1..], cut);
    } else if b != "" {
      assert all[..|all| - 1] == a + s + b[..|b| - 1];
      TrimSetIs(a, s, b[..|b| - 1], cut);
    } else {
      assert all == s;
    }
  }

  function Count(s: string, c: char): nat {
    if s == "" then 0 else (if s[0] == c then 1 else 0) + Count(s[1..], c)
  }

  lemma {:induction false} CountConcat(a: string, b: string, c: char)
    ensures Count(a + b, c) == Count(a, c) + Count(b, c)
  {
    if a == "" {
      assert a + b == b;
    } else {
      assert (a + b)[0] == a[0] && (a + b)[1..] == a[1..] + b;
      CountConcat(a[1..], b, c);
    }
  }

  lemma CountSlice(s: string, i: nat, j: nat, c: char)
    requires i <= j <= |s|
    ensures Count(s[i..j], c) <= Count(s, c)
  {
    CountConcat(s[..i], s[i..j], c);
    CountConcat(s[..j], s[j..], c);
    assert s[..j] == s[..i] + s[i..j] && s == s[..j] + s[j..];
  }

  lemma {:induction false} CountTrimLeft(s: string, c: char)
    ensures Count(TrimLeft(s), c) <= Count(s, c)
  {
    if s != "" && IsSpace(s[0]) {
      CountTrimLeft(s[1..], c);
    }
  }

  lemma {:induction false} CountTrimRight(s: string, c: char)
    ensures Count(TrimRight(s), c) <= Count(s, c)
  {
    if s != "" && IsSpace(s[|s| - 1]) {
      CountTrimRight(s[..|s| - 1], c);
      CountSlice(s, 0, |s| - 1, c);
    }
  }

  lemma CountTrim(s: string, c: char)
    ensures Count(Trim(s), c) <= Count(s, c)
  {
    CountTrimLeft(s, c);
    CountTrimRight(TrimLeft(s), c);
  }

  function Lower(s: string): (r: string)
    ensures |r| == |s|
  {
    seq(|s|, i requires 0 <= i < |s| => if 'A' <= s[i] <= 'Z' then s[i] - 'A' + 'a' else s[i])
  }

  /** s is t with some of its letters raised. */
  predicate Raised(s: string, t: string) {
    |s| == |t| && forall i :: 0 <= i < |s| ==>
      s[i] == t[i] || ('a' <= t[i] <= 'z' && s[i] as int == t[i] as int - 'a' as int + 'A' as int)
  }

  /** Lowering undoes exactly that. */
  lemma LowerRaised(s: string, t: string)
    requires forall i :: 0 <= i < |t| ==> !('A' <= t[i] <= 'Z')
    ensures Lower(s) == t <==> Raised(s, t)
  {
    if Raised(s, t) {
      assert forall i :: 0 <= i < |t| ==> Lower(s)[i] == t[i];
    }
    if Lower(s) == t {
      assert forall i :: 0 <= i < |s| ==> t[i] == Lower(s)[i];
    }
  }

  /** strings.ReplaceAll(s, x y, z) for a two-character pattern. */
  function ReplacePair(s: string, x: char, y: char, z: char): (r: string)
    ensures |r| <= |s|
  {
    if |s| < 2 then s
    else if s[0] == x && s[1] == y then [z] + ReplacePair(s[2..], x, y, z)
    else [s[0]] + ReplacePair(s[1..], x, y, z)
  }

  predicate HasPair(s: string, x: char, y: char) {
    exists i :: 0 <= i < |s| - 1 && s[i] == x && s[i + 1] == y
  }

  lemma {:induction false} ReplacePairShortens(s: string, x: char, y: char, z: char)
    ensures HasPair(s, x, y) ==> |ReplacePair(s, x, y, z)| < |s|
    ensures !HasPair(s, x, y) ==> ReplacePair(s, x, y, z) == s
  {
    if |s| >= 2 && !(s[0] == x && s[1] == y) {
      ReplacePairShortens(s[1..], x, y, z);
      if HasPair(s, x, y) {
        var i :| 0 <= i < |s| - 1 && s[i] == x && s[i + 1] == y;
        assert s[1..][i - 1] == x && s[1..][i] == y;
      } else {
        forall i | 0 <= i < |s[1..]| - 1 ensures !(s[1..][i] == x && s[1..][i + 1] == y) {
          assert s[1..][i] == s[i + 1] && s[1..][i + 1] == s[i + 2];
        }
      }
    }
  }

  /** The first pair is replaced, and the rest after it in the same way. */
  lemma {:induction false} ReplacePairAt(a: string, x: char, y: char, z: char, b: string)
    requires !HasPair(a + [x], x, y)
    ensures ReplacePair(a + [x, y] + b, x, y, z) == a + [z] + ReplacePair(b, x, y, z)
    decreases |a|
  {
    var s := a + [x, y] + b;
    if a == "" {
      assert s[2..] == b;
    } else {
      assert s[0] == a[0] == (a + [x])[0] && s[1] == (a + [x])[1];
      assert s[1..] == a[1..] + [x, y] + b;
      forall i | 0 <= i < |a[1..] + [x]| - 1 ensures !((a[1..] + [x])[i] == x && (a[1..] + [x])[i + 1] == y) {
        assert (a[1..] + [x])[i] == (a + [x])[i + 1] && (a[1..] + [x])[i + 1] == (a + [x])[i + 2];
      }
      ReplacePairAt(a[1..], x, y, z, b);
      assert [a[0]] + (a[1..] + [z] + ReplacePair(b, x, y, z)) == a + [z] + ReplacePair(b, x, y, z);
    }
  }

  lemma {:induction false} CountReplacePair(s: string, x: char, y: char, z: char, c: char)
    requires c != x && c != y && c != z
    ensures Count(ReplacePair(s, x, y, z), c) == Count(s, c)
  {
    if |s| >= 2 {
      if s[0] == x && s[1] == y {
        CountReplacePair(s[2..], x, y, z, c);
        assert s[1..][1..] == s[2..];
        assert ([z] + ReplacePair(s[2..], x, y, z))[1..] == ReplacePair(s[2..], x, y, z);
      } else {
        CountReplacePair(s[1..], x, y, z, c);
        assert ([s[0]] + ReplacePair(s[1..], x, y, z))[1..] == ReplacePair(s[1..], x, y, z);
      }
    }
  }

  /** The unescaping of trimQuotedString. */
  function Collapse(s: string): string {
    ReplacePair(ReplacePair(s, '\\', '"', '"'), '\\', '\\', '\\')
  }

  /** trimQuotedString: outer quotes off, then backslash pairs collapsed. */
  function TrimQuoted(raw: string): string {
    var s := Trim(raw);
    Collapse(if |s| >= 2 && s[0] == '"' && s[|s| - 1] == '"' then s[1..|s| - 1] else s)
  }

  /** Unescaping leaves a text alone exactly when it has no escape, and shortens any other. */
  lemma CollapseKeepsIff(s: string)
    ensures !HasPair(s, '\\', '"') && !HasPair(s, '\\', '\\') ==> Collapse(s) == s
    ensures HasPair(s, '\\', '"') || HasPair(s, '\\', '\\') ==> |Collapse(s)| < |s|
  {
    ReplacePairShortens(s, '\\', '"', '"');
    ReplacePairShortens(s, '\\', '\\', '\\');
  }

  lemma CountTrimQuoted(raw: string, c: char)
    requires c != '\\' && c != '"'
    ensures Count(TrimQuoted(raw), c) <= Count(raw, c)
  {
    var s := Trim(raw);
    CountTrim(raw, c);
    var inner := if |s| >= 2 && s[0] == '"' && s[|s| - 1] == '"' then s[1..|s| - 1] else s;
    if inner != s {
      CountSlice(s, 1, |s| - 1, c);
    }
    var once := ReplacePair(inner, '\\', '"', '"');
    CountReplacePair(inner, '\\', '"', '"', c);
    CountReplacePair(once, '\\', '\\', '\\', c);
  }

  lemma {:induction false} CountZero(s: string, c: char)
    requires forall i :: 0 <= i < |s| ==> s[i] != c
    ensures Count(s, c) == 0
  {
    if s != "" {
      CountZero(s[1..], c);
    }
  }

  /** What is left to split from the middle of a header value: `quoted` inside quotes,
      `escaped` after a backslash there, `current` the part collected so far. */
  function SplitFrom(raw: string, sep: char, quoted: bool, escaped: bool, current: string): (parts: seq<string>)
    ensures |parts| >= 1
    decreases |raw|
  {
    if raw == "" then [Trim(current)]
    else
      var c := raw[0];
      if escaped then SplitFrom(raw[1..], sep, quoted, false, current + [c])
      else if c == '\\' && quoted then SplitFrom(raw[1..], sep, quoted, true, current)
      else if c == '"' then SplitFrom(raw[1..], sep, !quoted, false, current + [c])
      else if c == sep && !quoted then [Trim(current)] + SplitFrom(raw[1..], sep, quoted, false, "")
      else SplitFrom(raw[1..], sep, quoted, false, current + [c])
  }

  /** No part, together with the separators that split it off, exceeds what was there. */
  lemma {:induction false} CountParts(raw: string, sep: char, quoted: bool, escaped: bool, current: string)
    ensures var parts := SplitFrom(raw, sep, quoted, escaped, current);
            forall p :: p in parts ==> Count(p, sep) + |parts| - 1 <= Count(raw, sep) + Count(current, sep)
    decreases |raw|
  {
    if raw == "" {
      CountTrim(current, sep);
    } else {
      var c, rest := raw[0], raw[1..];
      if !escaped && c == '\\' && quoted {
        CountParts(rest, sep, quoted, true, current);
      } else if !escaped && c != '"' && c == sep && !quoted {
        CountParts(rest, sep, quoted, false, "");
        CountTrim(current, sep);
        assert SplitFrom(rest, sep, quoted, false, "")[0] in SplitFrom(rest, sep, quoted, false, "");
      } else {
        CountConcat(current, [c], sep);
        CountParts(rest, sep, if !escaped && c == '"' then !quoted else quoted, false, current + [c]);
      }
    }
  }

  function Split(raw: string, sep: char): seq<string> {
    SplitFrom(raw, sep, false, false, "")
  }

  /** splitHeaderValues. */
  method SplitHeaderValues(raw: string, sep: char) returns (parts: seq<string>)
    ensures parts == Split(raw, sep)
  {
    parts := [];
    var current, inQuotes, escape := "", false, false;
    for i := 0 to |raw|
      invariant parts + SplitFrom(raw[i..], sep, inQuotes, escape, current) == Split(raw, sep)
    {
      var r := raw[i];
      assert raw[i..][0] == r && raw[i..][1..] == raw[i + 1..];
      if escape {
        current, escape := current + [r], false;
      } else if r == '\\' && inQuotes {
        escape := true;
      } else if r == '"' {
        inQuotes, current := !inQuotes, current + [r];
      } else if r == sep && !inQuotes {
        ghost var rest := SplitFrom(raw[i + 1..], sep, inQuotes, false, "");
        assert parts + ([Trim(current)] + rest) == parts + [Trim(current)] + rest;
        parts := parts + [Trim(current)];
        current := "";
      } else {
        current := current + [r];
      }
    }
    parts := parts + [Trim(current)];
  }

  /** Puts a character in front of the first part. */
  function Grow(c: char, parts: seq<string>): seq<string>
    requires parts != []
  {
    [[c] + parts[0]] + parts[1..]
  }

  /** strings.Split on one character. */
  function SplitOn(s: string, sep: char): (parts: seq<string>)
    ensures parts != []
  {
    if s == "" then [""]
    else if s[0] == sep then [""] + SplitOn(s[1..], sep)
    else Grow(s[0], SplitOn(s[1..], sep))
  }

  /** A text without the separator is its own only part. */
  lemma {:induction false} SplitOnPlain(s: string, sep: char)
    requires sep !in s
    ensures SplitOn(s, sep) == [s]
  {
    if s != "" {
      assert s[0] in s && sep !in s[1..];
      SplitOnPlain(s[1..], sep);
      assert [s[0]] + s[1..] == s;
    }
  }

  lemma GrowConcat(c: char, xs: seq<string>, ys: seq<string>)
    requires xs != []
    ensures Grow(c, xs + ys) == Grow(c, xs) + ys
  {}

  lemma SplitOnCons(c: char, s: string, sep: char)
    ensures SplitOn([c] + s, sep) == if c == sep then [""] + SplitOn(s, sep) else Grow(c, SplitOn(s, sep))
  {
    assert ([c] + s)[1..] == s;
  }

  lemma PartsGrouped(x: seq<string>, y: seq<string>, z: seq<string>)
    ensures x + (y + z) == (x + y) + z
  {}

  lemma JoinStep(c: char, rest: string, sep: char, b: string)
    requires SplitOn(rest + ([sep] + b), sep) == SplitOn(rest, sep) + SplitOn(b, sep)
    ensures SplitOn([c] + (rest + ([sep] + b)), sep) == SplitOn([c] + rest, sep) + SplitOn(b, sep)
  {
    SplitOnCons(c, rest + ([sep] + b), sep);
    SplitOnCons(c, rest, sep);
    if c == sep {
      PartsGrouped([""], SplitOn(rest, sep), SplitOn(b, sep));
    } else {
      GrowConcat(c, SplitOn(rest, sep), SplitOn(b, sep));
    }
  }

  /** Splitting two texts joined by the separator splits each of them. */
  lemma {:induction false} SplitOnJoin(a: string, sep: char, b: string)
    ensures SplitOn(a + ([sep] + b), sep) == SplitOn(a, sep) + SplitOn(b, sep)
  {
    if a == "" {
      SplitOnCons(sep, b, sep);
      assert a + ([sep] + b) == [sep] + b;
    } else {
      SplitOnJoin(a[1..], sep, b);
      JoinStep(a[0], a[1..], sep, b);
      assert a + ([sep] + b) == [a[0]] + (a[1..] + ([sep] + b)) && [a[0]] + a[1..] == a;
    }
  }

  // ---------------------------------------------------------------- several field lines

  /** The lines joined with a comma and any blank text after it, as section 5.3 of RFC 9110
      lets a proxy do. */
  function Joined(values: seq<string>, blank: string): string
    requires values != []
  {
    if |values| == 1 then values[0] else values[0] + ([','] + (blank + Joined(values[1..], blank)))
  }

  predicate Blank(s: string) {
    forall i :: 0 <= i < |s| ==> s[i] == ' ' || s[i] == '\t'
  }

  lemma {:induction false} TrimLeftBlank(blank: string, s: string)
    requires Blank(blank)
    ensures TrimLeft(blank + s) == TrimLeft(s)
  {
    if blank == "" {
      assert blank + s == s;
    } else {
      assert (blank + s)[1..] == blank[1..] + s;
      TrimLeftBlank(blank[1..], s);
    }
  }

  /** Blanks in front are trimmed as well. */
  lemma TrimBlank(blank: string, s: string)
    requires Blank(blank)
    ensures Trim(blank + s) == Trim(s)
  {
    TrimLeftBlank(blank, s);
  }

  /** Blanks in front of a value change no part of it. */
  lemma {:induction false} SplitFromBlank(
      raw: string, sep: char, quoted: bool, escaped: bool, blank: string, current: string)
    requires Blank(blank)
    ensures SplitFrom(raw, sep, quoted, escaped, blank + current) == SplitFrom(raw, sep, quoted, escaped, current)
    decreases |raw|
  {
    TrimBlank(blank, current);
    if raw != "" {
      var c, rest := raw[0], raw[1..];
      assert (blank + current) + [c] == blank + (current + [c]);
      if !escaped && c == '\\' && quoted {
        SplitFromBlank(rest, sep, quoted, true, blank, current);
      } else if escaped || c == '"' || c != sep || quoted {
        SplitFromBlank(rest, sep, if !escaped && c == '"' then !quoted else quoted, false, blank, current + [c]);
      }
    }
  }

  lemma {:induction false} BlankRead(blank: string, s: string, sep: char, current: string)
    requires Blank(blank) && sep != ' ' && sep != '\t'
    ensures SplitFrom(blank + s, sep, false, false, current) == SplitFrom(s, sep, false, false, current + blank)
    decreases |blank|
  {
    if blank == "" {
      assert blank + s == s && current + blank == current;
    } else {
      assert (blank + s)[0] == blank[0] && (blank + s)[1..] == blank[1..] + s;
      BlankRead(blank[1..], s, sep, current + [blank[0]]);
      assert (current + [blank[0]]) + blank[1..] == current + blank;
    }
  }

  lemma SplitAfterBlank(blank: string, s: string, sep: char)
    requires Blank(blank) && sep != ' ' && sep != '\t'
    ensures Split(blank + s, sep) == Split(s, sep)
  {
    BlankRead(blank, s, sep, "");
    SplitFromBlank(s, sep, false, false, blank, "");
    assert "" + blank == blank + "";
  }

  /** The text ends outside quotes, when it starts in the given state. */
  predicate EndsOutside(s: string, quoted: bool, escaped: bool)
    decreases |s|
  {
    if s == "" then !quoted && !escaped
    else if escaped then EndsOutside(s[1..], quoted, false)
    else if s[0] == '\\' && quoted then EndsOutside(s[1..], quoted, true)
    else EndsOutside(s[1..], if s[0] == '"' then !quoted else quoted, false)
  }

  lemma {:induction false} SplitFromJoin(
      a: string, sep: char, b: string, quoted: bool, escaped: bool, current: string)
    requires EndsOutside(a, quoted, escaped) && sep != '"'
    ensures SplitFrom(a + ([sep] + b), sep, quoted, escaped, current)
         == SplitFrom(a, sep, quoted, escaped, current) + Split(b, sep)
    decreases |a|
  {
    var s := a + ([sep] + b);
    if a == "" {
      assert s == [sep] + b && s[1..] == b;
    } else {
      var c := a[0];
      assert s[0] == c && s[1..] == a[1..] + ([sep] + b);
      if !escaped && c == '\\' && quoted {
        SplitFromJoin(a[1..], sep, b, quoted, true, current);
      } else if escaped || c == '"' || c != sep || quoted {
        SplitFromJoin(a[1..], sep, b, if !escaped && c == '"' then !quoted else quoted, false, current + [c]);
      } else {
        SplitFromJoin(a[1..], sep, b, quoted, false, "");
        var first, rest := Trim(current), SplitFrom(a[1..], sep, quoted, false, "");
        assert [first] + (rest + Split(b, sep)) == ([first] + rest) + Split(b, sep);
      }
    }
  }

  /** The quote-aware split of two joined texts is that of each, if the first closes its quotes. */
  lemma SplitJoin(a: string, sep: char, b: string)
    requires EndsOutside(a, false, false) && sep != '"'
    ensures Split(a + ([sep] + b), sep) == Split(a, sep) + Split(b, sep)
  {
    SplitFromJoin(a, sep, b, false, false, "");
  }
}
