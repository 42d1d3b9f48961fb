/** What the parser of pkg/core/request.go reads back from the Forwarded header that
    pkg/filters/proxy.go prints (section 4 of RFC 7239). */
module ForwardedRoundTrip {
  import opened Addresses
  import opened Forwarding
  import opened HeaderText
  import opened Strings
  import opened Wrappers

  // ---------------------------------------------------------------- splitting, piece by piece

  /** Not empty, and no space at either end. */
  predicate Firm(s: string) {
    s != "" && !IsSpace(s[0]) && !IsSpace(s[|s| - 1])
  }

  /** The splitter reads p, starting and ending in the given states, and keeps `kept` of it. */
  ghost predicate Reads(sep: char, p: string, quoted: bool, kept: string, quotedAfter: bool) {
    forall rest, cur ::
      SplitFrom(p + rest, sep, quoted, false, cur) == SplitFrom(rest, sep, quotedAfter, false, cur + kept)
  }

  lemma Regroup(p: string, p2: string, rest: string, cur: string, o: string, o2: string)
    ensures (p + p2) + rest == p + (p2 + rest) && cur + (o + o2) == (cur + o) + o2
  {}

  lemma ReadsBoth(sep: char, p: string, q: bool, o: string, q': bool, p2: string, o2: string, q'': bool)
    requires Reads(sep, p, q, o, q') && Reads(sep, p2, q', o2, q'')
    ensures Reads(sep, p + p2, q, o + o2, q'')
  {
    forall rest, cur ensures
      SplitFrom((p + p2) + rest, sep, q, false, cur) == SplitFrom(rest, sep, q'', false, cur + (o + o2))
    {
      Regroup(p, p2, rest, cur, o, o2);
    }
  }

  lemma ReadsNothing(sep: char, q: bool)
    ensures Reads(sep, "", q, "", q)
  {
    forall rest, cur ensures SplitFrom("" + rest, sep, q, false, cur) == SplitFrom(rest, sep, q, false, cur + "") {
      assert "" + rest == rest && cur + "" == cur;
    }
  }

  lemma ReadsOne(sep: char, c: char, q: bool)
    requires c == '"' || ((q || c != sep) && !(q && c == '\\'))
    ensures Reads(sep, [c], q, [c], if c == '"' then !q else q)
  {
    forall rest, cur ensures
      SplitFrom([c] + rest, sep, q, false, cur)
      == SplitFrom(rest, sep, if c == '"' then !q else q, false, cur + [c])
    {
      assert ([c] + rest)[1..] == rest;
    }
  }

  lemma ReadsEscaped(sep: char, c: char)
    ensures Reads(sep, ['\\', c], true, [c], true)
  {
    forall rest, cur ensures
      SplitFrom(['\\', c] + rest, sep, true, false, cur) == SplitFrom(rest, sep, true, false, cur + [c])
    {
      assert (['\\', c] + rest)[1..] == [c] + rest;
      assert ([c] + rest)[1..] == rest;
    }
  }

  /** Text without quotes is kept as it is: outside quotes if it has no separator, inside
      quotes if it has no backslash. */
  lemma {:induction false} ReadsPlain(sep: char, p: string, q: bool)
    requires sep != '"'
    requires forall i :: 0 <= i < |p| ==> p[i] != '"' && (q || p[i] != sep) && !(q && p[i] == '\\')
    ensures Reads(sep, p, q, p, q)
  {
    if p == "" {
      ReadsNothing(sep, q);
    } else {
      ReadsOne(sep, p[0], q);
      ReadsPlain(sep, p[1..], q);
      ReadsBoth(sep, [p[0]], q, [p[0]], q, p[1..], p[1..], q);
      assert [p[0]] + p[1..] == p;
    }
  }

  /** The split removes exactly the escapes that the printer added. */
  lemma {:induction false} ReadsEscape(sep: char, v: string)
    requires sep != '"'
    ensures Reads(sep, Escape(v), true, v, true)
  {
    if v == "" {
      ReadsNothing(sep, true);
    } else {
      ReadsEscape(sep, v[1..]);
      if v[0] == '\\' || v[0] == '"' {
        ReadsEscaped(sep, v[0]);
        ReadsBoth(sep, ['\\', v[0]], true, [v[0]], true, Escape(v[1..]), v[1..], true);
        assert Escape(v) == ['\\', v[0]] + Escape(v[1..]);
      } else {
        ReadsOne(sep, v[0], true);
        ReadsBoth(sep, [v[0]], true, [v[0]], true, Escape(v[1..]), v[1..], true);
      }
      assert [v[0]] + v[1..] == v;
    }
  }

  lemma ReadsQuoted(sep: char, inner: string, kept: string)
    requires sep != '"' && Reads(sep, inner, true, kept, true)
    ensures Reads(sep, "\"" + inner + "\"", false, "\"" + kept + "\"", false)
  {
    ReadsOne(sep, '"', false);
    ReadsOne(sep, '"', true);
    ReadsBoth(sep, "\"", false, "\"", true, inner, kept, true);
    ReadsBoth(sep, "\"" + inner, false, "\"" + kept, true, "\"", "\"", false);
  }

  predicate Quoted(v: string) { v == "" || HasSpecial(v) }

  /** A value after one split: still quoted, but no longer escaped. */
  function Once(v: string): string {
    if Quoted(v) then "\"" + v + "\"" else v
  }

  lemma ReadsValue(value: string)
    ensures var v := Trim(value); Reads(',', FormatValue(value), false, Once(v), false) && Firm(Once(v))
  {
    var v := Trim(value);
    if Quoted(v) {
      ReadsEscape(',', v);
      ReadsQuoted(',', Escape(v), v);
      assert FormatValue(value) == "\"" + Escape(v) + "\"";
    } else {
      forall i | 0 <= i < |v| ensures v[i] != ',' && v[i] != '"' {
        assert !IsSpecial(v[i]);
      }
      ReadsPlain(',', v, false);
    }
  }

  // ---------------------------------------------------------------- the first split

  lemma FirmConcat(a: string, b: string)
    requires Firm(a) && Firm(b)
    ensures Firm(a + b)
  {}

  predicate IsKey(key: string) { key in ["for", "proto", "host"] }

  lemma ReadsParam(sep: char, key: string, p: string, kept: string)
    requires IsKey(key) && sep in [',', ';'] && Reads(sep, p, false, kept, false) && Firm(kept)
    ensures Reads(sep, Param(key, p), false, Param(key, kept), false) && Firm(Param(key, kept))
  {
    ReadsPlain(sep, key + "=", false);
    ReadsBoth(sep, key + "=", false, key + "=", false, p, kept, false);
    FirmConcat(key + "=", kept);
  }

  function Brackets(a: Addr, s: string): string {
    if a.V6? then "[" + s + "]" else s
  }

  lemma AddrCharsArePlain(s: string)
    requires forall i :: 0 <= i < |s| ==> AddrChar(s[i])
    ensures IsTrimmed(s)
    ensures forall i :: 0 <= i < |s| ==> s[i] != '"' && s[i] != '\\' && s[i] != ',' && s[i] != ';' && !IsBracket(s[i])
    ensures HasSpecial(s) <==> ':' in s
  {
    if HasSpecial(s) {
      var i :| 0 <= i < |s| && IsSpecial(s[i]);
      assert s[i] == ':';
    }
    if ':' in s {
      var i :| 0 <= i < |s| && s[i] == ':';
      assert IsSpecial(s[i]);
    }
  }

  lemma BracketText(s: string)
    requires s != "" && ':' in s && AddrChar(s[0])
    ensures FormatNode(s) == if IsTrimmed(s) then FormatValue("[" + s + "]") else FormatNode(s)
    ensures Firm("[" + s + "]") && HasSpecial("[" + s + "]")
  {
    var i :| 0 <= i < |s| && s[i] == ':';
    assert ("[" + s + "]")[i + 1] == ':';
    assert IsSpecial(("[" + s + "]")[i + 1]);
  }

  /** The node that is printed for an address. */
  lemma NodeText(a: Addr, s: string)
    requires Printed(a, s)
    ensures FormatNode(s) == FormatValue(Brackets(a, s))
    ensures Firm(Brackets(a, s)) && HasSpecial(Brackets(a, s)) == a.V6?
  {
    AddrCharsArePlain(s);
    assert AddrChar(s[0]);
    if a.V6? {
      BracketText(s);
    }
  }

  function SchemePart(scheme: string): string {
    ";" + Param("proto", scheme)
  }

  function HostPart(host: string, value: string): string {
    if host != "" then ";" + Param("host", value) else ""
  }

  /** The single element that the first split yields. */
  function Element(node: string, scheme: string, host: string): string {
    Param("for", Once(node)) + SchemePart(scheme) + HostPart(host, Once(Trim(host)))
  }

  predicate IsScheme(s: string) { s == "http" || s == "https" }

  lemma ReadsScheme(scheme: string)
    requires IsScheme(scheme)
    ensures Reads(',', SchemePart(scheme), false, SchemePart(scheme), false) && Firm(SchemePart(scheme))
  {
    ReadsPlain(',', SchemePart(scheme), false);
  }

  lemma ReadsHost(host: string)
    ensures Reads(',', HostPart(host, FormatValue(host)), false, HostPart(host, Once(Trim(host))), false)
    ensures host != "" ==> Firm(HostPart(host, Once(Trim(host))))
  {
    ReadsNothing(',', false);
    if host != "" {
      ReadsOne(',', ';', false);
      ReadsValue(host);
      ReadsParam(',', "host", FormatValue(host), Once(Trim(host)));
      ReadsBoth(',', ";", false, ";", false, Param("host", FormatValue(host)), Param("host", Once(Trim(host))), false);
      FirmConcat(";", Param("host", Once(Trim(host))));
    }
  }

  lemma FirmElement(node: string, scheme: string, host: string)
    requires Firm(Param("for", Once(node))) && IsScheme(scheme)
    ensures Firm(Element(node, scheme, host))
  {
    ReadsScheme(scheme);
    FirmConcat(Param("for", Once(node)), SchemePart(scheme));
    ReadsHost(host);
    if host != "" {
      FirmConcat(Param("for", Once(node)) + SchemePart(scheme), HostPart(host, Once(Trim(host))));
    } else {
      assert Element(node, scheme, host) == Param("for", Once(node)) + SchemePart(scheme);
    }
  }

  lemma WholeRead(sep: char, p: string, kept: string)
    requires Reads(sep, p, false, kept, false) && Firm(kept)
    ensures Split(p, sep) == [kept]
  {
    assert p + "" == p && "" + kept == kept;
    assert SplitFrom(p + "", sep, false, false, "") == SplitFrom("", sep, false, false, "" + kept);
  }

  /** A printed header is read as one element. */
  lemma HeaderReads(a: Addr, s: string, scheme: string, host: string)
    requires Printed(a, s) && IsScheme(scheme)
    ensures Reads(',', FormatHeader(s, scheme, host), false, Element(Brackets(a, s), scheme, host), false)
    ensures Firm(Element(Brackets(a, s), scheme, host))
  {
    var n := Brackets(a, s);
    NodeText(a, s);
    ReadsValue(n);
    ReadsParam(',', "for", FormatValue(n), Once(n));
    ReadsScheme(scheme);
    ReadsHost(host);
    var p, o := Param("for", FormatValue(n)), Param("for", Once(n));
    ReadsBoth(',', p, false, o, false, SchemePart(scheme), SchemePart(scheme), false);
    ReadsBoth(',', p + SchemePart(scheme), false, o + SchemePart(scheme), false,
      HostPart(host, FormatValue(host)), HostPart(host, Once(Trim(host))), false);
    FirmElement(n, scheme, host);
  }

  lemma FirstSplit(a: Addr, s: string, scheme: string, host: string)
    requires Printed(a, s) && IsScheme(scheme)
    ensures Split(FormatHeader(s, scheme, host), ',') == [Element(Brackets(a, s), scheme, host)]
  {
    HeaderReads(a, s, scheme, host);
    WholeRead(',', FormatHeader(s, scheme, host), Element(Brackets(a, s), scheme, host));
  }

  // ---------------------------------------------------------------- the second split

  /** Up to a separator outside quotes, what is read becomes one part. */
  lemma PartRead(sep: char, p: string, kept: string, rest: string)
    requires sep != '"' && Reads(sep, p, false, kept, false) && Firm(kept)
    ensures SplitFrom(p + ([sep] + rest), sep, false, false, "") == [kept] + Split(rest, sep)
  {
    assert "" + kept == kept && ([sep] + rest)[1..] == rest;
    assert SplitFrom(p + ([sep] + rest), sep, false, false, "")
        == SplitFrom([sep] + rest, sep, false, false, "" + kept);
  }

  lemma QuotedNodeAgain(s: string)
    requires s != "" && forall i :: 0 <= i < |s| ==> s[i] != '"' && s[i] != '\\'
    ensures var n := "\"" + ("[" + s + "]") + "\""; Reads(';', n, false, n, false) && Firm(n)
  {
    ReadsPlain(';', "[" + s + "]", true);
    ReadsQuoted(';', "[" + s + "]", "[" + s + "]");
  }

  lemma NodeAgain(a: Addr, s: string)
    requires Printed(a, s)
    ensures var n := Once(Brackets(a, s)); Reads(';', n, false, n, false) && Firm(n)
  {
    NodeText(a, s);
    AddrCharsArePlain(s);
    if a.V6? {
      QuotedNodeAgain(s);
    } else {
      ReadsPlain(';', s, false);
    }
  }

  lemma Regrouped(p1: string, p2: string, p3: string)
    ensures p1 + (";" + p2) + (";" + p3) == p1 + ([';'] + (p2 + ([';'] + p3)))
    ensures p1 + (";" + p2) + "" == p1 + ([';'] + p2)
  {}

  /** The parameters of the element: address and scheme, then what the host splits into. */
  lemma SecondSplit(a: Addr, s: string, scheme: string, host: string)
    requires Printed(a, s) && IsScheme(scheme)
    ensures Split(Element(Brackets(a, s), scheme, host), ';')
         == [Param("for", Once(Brackets(a, s)))] + ([Param("proto", scheme)]
            + (if host == "" then [] else Split(Param("host", Once(Trim(host))), ';')))
  {
    var n := Once(Brackets(a, s));
    var p1, p2, p3 := Param("for", n), Param("proto", scheme), Param("host", Once(Trim(host)));
    NodeAgain(a, s);
    ReadsParam(';', "for", n, n);
    ReadsPlain(';', scheme, false);
    ReadsParam(';', "proto", scheme, scheme);
    Regrouped(p1, p2, p3);
    if host == "" {
      PartRead(';', p1, p1, p2);
      WholeRead(';', p2, p2);
    } else {
      PartRead(';', p1, p1, p2 + ([';'] + p3));
      PartRead(';', p2, p2, p3);
    }
  }

  // ---------------------------------------------------------------- the host

  /** Backslashes only outside the quotes of v and semicolons only inside, if v starts
      inside quotes or outside. */
  predicate SafeFrom(v: string, quoted: bool) {
    v == "" ||
    var c := v[0];
    && (c == '\\' ==> !quoted)
    && (c == ';' ==> quoted)
    && SafeFrom(v[1..], if c == '"' then !quoted else quoted)
  }

  /** Exactly the hosts that come back unchanged. */
  predicate Survives(v: string) {
    SafeFrom(v, true) && !HasPair(v, '\\', '"') && !HasPair(v, '\\', '\\')
  }

  /** The usual case: no quote and no backslash. */
  lemma {:induction false} PlainIsSafe(v: string)
    requires forall i :: 0 <= i < |v| ==> v[i] != '"' && v[i] != '\\'
    ensures SafeFrom(v, true)
  {
    if v != "" {
      PlainIsSafe(v[1..]);
    }
  }

  lemma PlainHostSurvives(v: string)
    requires forall i :: 0 <= i < |v| ==> v[i] != '"' && v[i] != '\\'
    ensures Survives(v)
  {
    PlainIsSafe(v);
  }

  /** What the splitter keeps of v and a closing quote; None if it splits v. */
  function Scan(v: string, quoted: bool, escaped: bool): Option<string> {
    if v == "" then Some("")
    else
      var c := v[0];
      if escaped then Cons(c, Scan(v[1..], quoted, false))
      else if c == '\\' && quoted then Scan(v[1..], quoted, true)
      else if c == '"' then Cons(c, Scan(v[1..], !quoted, false))
      else if c == ';' && !quoted then None
      else Cons(c, Scan(v[1..], quoted, false))
  }

  function Cons(c: char, s: Option<string>): Option<string> {
    match s case Some(x) => Some([c] + x) case None => None
  }

  lemma {:induction false} ScanLength(v: string, quoted: bool, escaped: bool)
    ensures var r := Scan(v, quoted, escaped); r.Some? ==> |r.value| <= |v|
  {
    if v != "" {
      ScanLength(v[1..], quoted, false);
      ScanLength(v[1..], quoted, true);
      ScanLength(v[1..], !quoted, false);
    }
  }

  /** Nothing is lost exactly when v is safe. */
  lemma {:induction false} ScanKeepsIff(v: string, quoted: bool)
    ensures SafeFrom(v, quoted) ==> Scan(v, quoted, false) == Some(v)
    ensures !SafeFrom(v, quoted) ==> var r := Scan(v, quoted, false); r.Some? ==> |r.value| < |v|
  {
    if v != "" {
      var c := v[0];
      assert [c] + v[1..] == v;
      ScanLength(v[1..], quoted, true);
      ScanKeepsIff(v[1..], if c == '"' then !quoted else quoted);
    }
  }

  lemma LastQuote(quoted: bool, escaped: bool, cur: string)
    ensures SplitFrom("\"", ';', quoted, escaped, cur) == [Trim(cur + "\"")]
  {
    assert "\""[1..] == "";
  }

  /** c in front of what is kept of the rest. */
  lemma ScanCons(c: char, kept: Option<string>, cur: string, parts: seq<string>)
    requires match kept case Some(w) => parts == [Trim((cur + [c]) + w + "\"")] case None => |parts| >= 2
    ensures match Cons(c, kept) case Some(w) => parts == [Trim(cur + w + "\"")] case None => |parts| >= 2
  {
    if kept.Some? {
      assert (cur + [c]) + kept.value == cur + ([c] + kept.value);
    }
  }

  lemma {:induction false} ScanIs(v: string, quoted: bool, escaped: bool, cur: string)
    ensures var parts := SplitFrom(v + "\"", ';', quoted, escaped, cur);
            match Scan(v, quoted, escaped)
            case Some(w) => parts == [Trim(cur + w + "\"")]
            case None => |parts| >= 2
    decreases |v|
  {
    if v == "" {
      LastQuote(quoted, escaped, cur);
      assert v + "\"" == "\"" && cur + "" == cur;
    } else {
      var c, rest := v[0], v[1..];
      assert (v + "\"")[0] == c && (v + "\"")[1..] == rest + "\"";
      if !escaped && c == '\\' && quoted {
        ScanIs(rest, quoted, true, cur);
      } else if escaped || c == '"' || quoted || c != ';' {
        var q := if !escaped && c == '"' then !quoted else quoted;
        ScanIs(rest, q, false, cur + [c]);
        ScanCons(c, Scan(rest, q, false), cur, SplitFrom(rest + "\"", ';', q, false, cur + [c]));
      }
    }
  }

  // ---------------------------------------------------------------- reading the parameters

  lemma LowerLetters(s: string)
    requires s != "" && forall i :: 0 <= i < |s| ==> 'a' <= s[i] <= 'z'
    ensures Trim(s) == s && Lower(s) == s
  {}

  lemma LowerKey(key: string)
    requires IsKey(key)
    ensures Trim(key) == key && Lower(key) == key && forall i :: 0 <= i < |key| ==> key[i] != '='
  {
    LowerLetters(key);
  }

  lemma ParamIs(t: AddrText, f: Found, key: string, value: string)
    requires IsKey(key) && Firm(value)
    ensures TakeParam(t, f, Param(key, value)) == TakeKey(t, f, key, TrimQuoted(value))
  {
    var p := Param(key, value);
    LowerKey(key);
    IndexAfter(key, '=', value);
    assert p[..|key|] == key && p[|key| + 1..] == value;
  }

  lemma UnquotedWrapped(v: string)
    ensures TrimQuoted("\"" + v + "\"") == Collapse(v)
  {
    var s := "\"" + v + "\"";
    assert Trim(s) == s && s[1..|s| - 1] == v;
  }

  lemma PlainStays(v: string)
    requires Firm(v) && forall i :: 0 <= i < |v| ==> v[i] != '"' && v[i] != '\\'
    ensures TrimQuoted(v) == v && Collapse(v) == v
  {
    CollapseKeepsIff(v);
  }

  lemma BracketsArePlain(a: Addr, s: string)
    requires forall i :: 0 <= i < |s| ==> s[i] != '"' && s[i] != '\\'
    ensures forall i :: 0 <= i < |Brackets(a, s)| ==> Brackets(a, s)[i] != '"' && Brackets(a, s)[i] != '\\'
  {}

  lemma UnquotedNode(n: string, quoted: bool)
    requires Firm(n) && HasSpecial(n) == quoted && forall i :: 0 <= i < |n| ==> n[i] != '"' && n[i] != '\\'
    ensures TrimQuoted(Once(n)) == n
  {
    PlainStays(n);
    if quoted {
      UnquotedWrapped(n);
    }
  }

  lemma UnquotedAddr(a: Addr, s: string)
    requires Printed(a, s)
    ensures TrimQuoted(Once(Brackets(a, s))) == Brackets(a, s)
  {
    NodeText(a, s);
    AddrCharsArePlain(s);
    BracketsArePlain(a, s);
    UnquotedNode(Brackets(a, s), a.V6?);
  }

  lemma {:induction false} NoColon(s: string)
    requires ':' !in s
    ensures LastIndexOf(s, ':') == -1
  {}

  /** Brackets around an address are neither a host nor part of the address. */
  lemma BracketsOff(s: string)
    requires s != "" && forall i :: 0 <= i < |s| ==> !IsBracket(s[i])
    ensures TrimBrackets(s) == s && TrimBrackets("[" + s + "]") == s
    ensures SplitHost("[" + s + "]") == None
  {
    var b := "[" + s + "]";
    TrimSetIs("", s, "", IsBracket);
    TrimSetIs("[", s, "]", IsBracket);
    assert "" + s + "" == s;
    assert b == ("[" + s) + [']'] + "";
    IndexAfter("[" + s, ']', "");
  }

  lemma NodeParsed(t: AddrText, a: Addr)
    requires Faithful(t) && a.Valid()
    ensures ParseNode(t, Brackets(a, t.show(a))) == Some(a.Unmap())
  {
    var s := t.show(a);
    var n := Brackets(a, s);
    NodeText(a, s);
    AddrCharsArePlain(s);
    BracketsOff(s);
    assert AddrChar(s[0]) && Lower(n)[0] != 'u';
    if a.V4? {
      NoColon(s);
    }
  }

  lemma {:induction false} LastColon(front: string, port: string)
    requires ':' !in port
    ensures LastIndexOf(front + ([':'] + port), ':') == |front|
    decreases |port|
  {
    var s := front + ([':'] + port);
    if port == "" {
      assert s[|s| - 1] == ':';
    } else {
      var less := port[..|port| - 1];
      LastColon(front, less);
      assert s[|s| - 1] == port[|port| - 1] && port[|port| - 1] in port;
      assert s[..|s| - 1] == front + ([':'] + less);
    }
  }

  /** The parts of a bracketed host with a port. */
  lemma BracketedParts(host: string, port: string)
    requires forall i :: 0 <= i < |host| ==> !IsBracket(host[i])
    requires forall i :: 0 <= i < |port| ==> '0' <= port[i] <= '9'
    ensures var s := ("[" + host) + [']'] + ([':'] + port);
            && s[1..|host| + 1] == host && '[' !in s[1..] && ']' !in s[|host| + 2..]
            && IndexOf(s, ']') == |host| + 1 && LastIndexOf(s, ':') == |host| + 2
  {
    var s := ("[" + host) + [']'] + ([':'] + port);
    LastColon(("[" + host) + [']'], port);
    IndexAfter("[" + host, ']', [':'] + port);
    assert s[1..] == host + "]" + ([':'] + port);
    assert s[|host| + 2..] == [':'] + port;
  }

  lemma BracketedHost(host: string, port: string)
    requires forall i :: 0 <= i < |host| ==> !IsBracket(host[i])
    requires forall i :: 0 <= i < |port| ==> '0' <= port[i] <= '9'
    ensures SplitHost("[" + host + "]" + ([':'] + port)) == Some(host)
  {
    BracketedParts(host, port);
    assert "[" + host + "]" + ([':'] + port) == ("[" + host) + [']'] + ([':'] + port);
  }

  /** A host before a port, in brackets or not. */
  lemma HostBeforePort(host: string, bracketed: bool, port: string)
    requires host != "" && forall i :: 0 <= i < |host| ==> !IsBracket(host[i])
    requires forall i :: 0 <= i < |port| ==> '0' <= port[i] <= '9'
    requires !bracketed ==> ':' !in host
    ensures SplitHost((if bracketed then "[" + host + "]" else host) + ([':'] + port)) == Some(host)
  {
    if bracketed {
      BracketedHost(host, port);
    } else {
      LastColon(host, port);
      assert (host + ([':'] + port))[..|host|] == host;
    }
  }

  lemma PortEnds(a: Addr, s: string, port: string)
    requires Printed(a, s) && forall i :: 0 <= i < |port| ==> '0' <= port[i] <= '9'
    ensures Firm(Brackets(a, s) + ([':'] + port))
  {
    NodeText(a, s);
    FirmConcat(Brackets(a, s), [':'] + port);
  }

  /** An address with a port, as a connection reports its peer, parses to the address. */
  lemma AddrWithPort(t: AddrText, a: Addr, port: string)
    requires Faithful(t) && a.Valid() && forall i :: 0 <= i < |port| ==> '0' <= port[i] <= '9'
    ensures ParseAddr(t, Brackets(a, t.show(a)) + ([':'] + port)) == Some(a.Unmap())
  {
    var s := t.show(a);
    AddrCharsArePlain(s);
    PortEnds(a, s, port);
    HostBeforePort(s, a.V6?, port);
    BracketsOff(s);
  }

  lemma ValueCount(p: string, i: nat, c: char)
    requires i <= |p| && c != '\\' && c != '"'
    ensures Count(TrimQuoted(Trim(p[i..])), c) <= Count(p, c)
  {
    CountTrimQuoted(Trim(p[i..]), c);
    CountTrim(p[i..], c);
    CountSlice(p, i, |p|, c);
    assert p[i..] == p[i..|p|];
  }

  lemma KeyOnlyHost(t: AddrText, f: Found, key: string, value: string)
    requires f.addr.Some? && f.proto != ""
    ensures TakeKey(t, f, key, value) == f || TakeKey(t, f, key, value) == f.(host := value)
  {}

  lemma CutCount(p: string, i: nat, n: nat)
    requires i < |p| && Count(p, ';') < n
    ensures Count(TrimQuoted(Trim(p[i + 1..])), ';') < n
  {
    ValueCount(p, i + 1, ';');
  }

  /** Once address and scheme are known, a parameter can only set the host. */
  lemma ParamOnlyHost(t: AddrText, f: Found, p: string, n: nat)
    requires f.addr.Some? && f.proto != "" && Count(f.host, ';') < n && Count(p, ';') < n
    ensures var r := TakeParam(t, f, p);
            r.addr == f.addr && r.proto == f.proto && Count(r.host, ';') < n
  {
    var i := IndexOf(p, '=');
    if i < |p| {
      CutCount(p, i, n);
      KeyOnlyHost(t, f, Lower(Trim(p[..i])), TrimQuoted(Trim(p[i + 1..])));
    }
  }

  lemma {:induction false} OnlyHost(t: AddrText, f: Found, params: seq<string>, n: nat)
    requires f.addr.Some? && f.proto != "" && Count(f.host, ';') < n
    requires forall p :: p in params ==> Count(p, ';') < n
    ensures var r := TakeParams(t, f, params);
            r.addr == f.addr && r.proto == f.proto && Count(r.host, ';') < n
    decreases |params|
  {
    if params != [] {
      ParamOnlyHost(t, f, params[0], n);
      OnlyHost(t, TakeParam(t, f, params[0]), params[1..], n);
    }
  }

  /** r is shorter than v or has fewer semicolons, so it is neither v nor a text around v. */
  predicate Less(r: string, v: string) {
    |r| < |v| || Count(r, ';') < Count(v, ';')
  }

  /** The printed host was split up: no part can be the host. */
  lemma BrokenHost(t: AddrText, f: Found, v: string)
    requires f.addr.Some? && f.proto != "" && f.host == ""
    requires Scan(v, true, false) == None
    ensures var r := TakeParams(t, f, SplitFrom(v + "\"", ';', true, false, "host=\""));
            r.addr == f.addr && r.proto == f.proto && Less(r.host, v)
  {
    var parts := SplitFrom(v + "\"", ';', true, false, "host=\"");
    ScanIs(v, true, false, "host=\"");
    CountParts(v + "\"", ';', true, false, "host=\"");
    CountZero("host=\"", ';');
    CountZero("\"", ';');
    CountConcat(v, "\"", ';');
    assert parts[0] in parts;
    OnlyHost(t, f, parts, Count(v, ';'));
  }

  lemma WholeHost(t: AddrText, f: Found, v: string, w: string)
    requires f.host == "" && Scan(v, true, false) == Some(w)
    ensures TakeParams(t, f, SplitFrom(v + "\"", ';', true, false, "host=\"")) == f.(host := Collapse(w))
  {
    var q := "\"" + w + "\"";
    var p := Param("host", q);
    ScanIs(v, true, false, "host=\"");
    assert "host=\"" + w + "\"" == p && Trim(p) == p;
    ParamIs(t, f, "host", q);
    UnquotedWrapped(w);
    assert TakeParams(t, f, [p]) == TakeParams(t, TakeParam(t, f, p), []);
  }

  lemma QuotedHost(t: AddrText, f: Found, v: string)
    requires f.addr.Some? && f.proto != "" && f.host == ""
    ensures var r := TakeParams(t, f, SplitFrom(v + "\"", ';', true, false, "host=\""));
            && r.addr == f.addr && r.proto == f.proto
            && (if Survives(v) then r.host == v else Less(r.host, v))
  {
    ScanKeepsIff(v, true);
    match Scan(v, true, false)
    case None => BrokenHost(t, f, v);
    case Some(w) =>
      WholeHost(t, f, v, w);
      CollapseKeepsIff(w);
  }

  /** The host that is found again. */
  lemma HostBack(t: AddrText, f: Found, host: string)
    requires f.addr.Some? && f.proto != "" && f.host == "" && host != ""
    ensures var v := Trim(host);
            var r := TakeParams(t, f, Split(Param("host", Once(v)), ';'));
            && r.addr == f.addr && r.proto == f.proto
            && (if Survives(v) then r.host == v else Less(r.host, v))
  {
    var v := Trim(host);
    if Quoted(v) {
      QuotedStart(v);
      QuotedHost(t, f, v);
    } else {
      forall i | 0 <= i < |v| ensures v[i] != '"' && v[i] != '\\' && v[i] != ';' {
        assert !IsSpecial(v[i]);
      }
      ReadsPlain(';', v, false);
      ReadsParam(';', "host", v, v);
      WholeRead(';', Param("host", v), Param("host", v));
      ParamIs(t, f, "host", v);
      PlainStays(v);
      PlainHostSurvives(v);
      assert TakeParams(t, f, [Param("host", v)]) == TakeParams(t, TakeParam(t, f, Param("host", v)), []);
    }
  }

  lemma QuotedStart(v: string)
    ensures Split(Param("host", "\"" + v + "\""), ';') == SplitFrom(v + "\"", ';', true, false, "host=\"")
  {
    ReadsPlain(';', "host=", false);
    ReadsOne(';', '"', false);
    ReadsBoth(';', "host=", false, "host=", false, "\"", "\"", true);
    assert Param("host", "\"" + v + "\"") == ("host=" + "\"") + (v + "\"");
    assert "" + ("host=" + "\"") == "host=\"";
  }

  // ---------------------------------------------------------------- the round trip

  lemma AddrTaken(t: AddrText, f: Found, a: Addr)
    requires Faithful(t) && a.Valid() && f.addr.None?
    ensures TakeParam(t, f, Param("for", Once(Brackets(a, t.show(a))))) == f.(addr := Some(a.Unmap()))
  {
    NodeAgain(a, t.show(a));
    ParamIs(t, f, "for", Once(Brackets(a, t.show(a))));
    UnquotedAddr(a, t.show(a));
    NodeParsed(t, a);
  }

  lemma SchemeTaken(t: AddrText, f: Found, scheme: string)
    requires IsScheme(scheme)
    ensures TakeParam(t, f, Param("proto", scheme)) == if f.proto == "" then f.(proto := scheme) else f
  {
    ParamIs(t, f, "proto", scheme);
    PlainStays(scheme);
    LowerScheme(scheme);
  }

  /** Address and scheme, whatever was found before and whatever the host does. */
  lemma AddrAndScheme(t: AddrText, f: Found, a: Addr, scheme: string, more: seq<string>)
    requires Faithful(t) && a.Valid() && IsScheme(scheme) && f.addr.None?
    ensures TakeParams(t, f, [Param("for", Once(Brackets(a, t.show(a))))] + ([Param("proto", scheme)] + more))
         == TakeParams(t, Found(Some(a.Unmap()), if f.proto == "" then scheme else f.proto, f.host), more)
  {
    AddrTaken(t, f, a);
    SchemeTaken(t, f.(addr := Some(a.Unmap())), scheme);
    TwoParams(t, f, Param("for", Once(Brackets(a, t.show(a)))), Param("proto", scheme), more);
  }

  lemma LowerScheme(scheme: string)
    requires IsScheme(scheme)
    ensures Lower(Trim(scheme)) == scheme
  {
    LowerLetters(scheme);
  }

  lemma TwoParams(t: AddrText, f: Found, p1: string, p2: string, more: seq<string>)
    ensures TakeParams(t, f, [p1] + ([p2] + more)) == TakeParams(t, TakeParam(t, TakeParam(t, f, p1), p2), more)
  {
    assert ([p1] + ([p2] + more))[1..] == [p2] + more;
    assert ([p2] + more)[1..] == more;
  }

  /** Once everything is known, no parameter changes it. */
  lemma {:induction false} NothingNew(t: AddrText, f: Found, params: seq<string>)
    requires f.addr.Some? && f.proto != "" && f.host != ""
    ensures TakeParams(t, f, params) == f
    decreases |params|
  {
    if params != [] {
      NothingNew(t, f, params[1..]);
    }
  }

  /** An element adds its address at the end of the chain, and its scheme and host if none is known. */
  lemma ElementTaken(t: AddrText, w: Forwarded, a: Addr, scheme: string, host: string)
    requires Faithful(t) && a.Valid() && IsScheme(scheme)
    ensures var r := TakeElement(t, w, Element(Brackets(a, t.show(a)), scheme, host));
            && r.chain == w.chain + [a.Unmap()] && r.proto == (if w.proto == "" then scheme else w.proto)
            && (w.host != "" ==> r.host == w.host)
            && (w.host == "" ==>
                  var v := Trim(host);
                  if host != "" && !Survives(v) then Less(r.host, v) else r.host == v)
  {
    var more := if host == "" then [] else Split(Param("host", Once(Trim(host))), ';');
    var f := Found(Some(a.Unmap()), if w.proto == "" then scheme else w.proto, w.host);
    SecondSplit(a, t.show(a), scheme, host);
    AddrAndScheme(t, Found(None, w.proto, w.host), a, scheme, more);
    if w.host != "" {
      NothingNew(t, f, more);
    } else if host != "" {
      HostBack(t, f, host);
    }
  }

  lemma OneValue(t: AddrText, value: string, element: string)
    requires Split(value, ',') == [element]
    ensures TakeValues(t, NOTHING, [value]) == TakeElement(t, NOTHING, element)
  {
    assert [value][1..] == [] && [element][1..] == [];
    assert TakeElements(t, NOTHING, [element]) == TakeElements(t, TakeElement(t, NOTHING, element), []);
    assert TakeValues(t, NOTHING, [value]) == TakeValues(t, TakeElements(t, NOTHING, [element]), []);
  }

  /** For every address, both schemes and every host: the parser finds the same address (in
      its unmapped form) and scheme, and finds the same host exactly when the host has no outer
      spaces and survives the two splits. */
  lemma RoundTrip(t: AddrText, a: Addr, scheme: string, host: string)
    requires Faithful(t) && a.Valid() && IsScheme(scheme)
    ensures var w := TakeValues(t, NOTHING, [FormatHeader(t.show(a), scheme, host)]);
            && w.chain == [a.Unmap()] && w.proto == scheme
            && (w.host == host <==> IsTrimmed(host) && Survives(host))
  {
    FirstSplit(a, t.show(a), scheme, host);
    OneValue(t, FormatHeader(t.show(a), scheme, host), Element(Brackets(a, t.show(a)), scheme, host));
    ElementTaken(t, NOTHING, a, scheme, host);
    CountTrim(host, ';');
  }

  lemma OnlyClient(a: Addr, prefixes: seq<Prefix>)
    requires AllValid(prefixes)
    ensures ClientOf([a], prefixes) == a
  {
    ClientOfIs([a], prefixes);
  }

  /** One backslash is enough to lose the host. */
  lemma BackslashIsLost(t: AddrText)
    requires Faithful(t)
    ensures TakeValues(t, NOTHING, [FormatHeader(t.show(V4(1)), "http", ['\\', 'a'])]).host != ['\\', 'a']
  {
    RoundTrip(t, V4(1), "http", ['\\', 'a']);
  }

  /** So for hosts without quote and backslash, whatever else they hold, nothing is lost,
      under every trust policy. */
  lemma PlainRoundTrip(t: AddrText, a: Addr, scheme: string, host: string, prefixes: seq<Prefix>, peer: Addr)
    requires Faithful(t) && a.Valid() && a.Unmap() == a && IsScheme(scheme) && AllValid(prefixes)
    requires IsTrimmed(host) && forall i :: 0 <= i < |host| ==> host[i] != '"' && host[i] != '\\'
    ensures var w := TakeValues(t, NOTHING, [FormatHeader(t.show(a), scheme, host)]);
            Resolve(t, w.chain, prefixes, peer) == t.show(a) && w.proto == scheme && w.host == host
  {
    RoundTrip(t, a, scheme, host);
    PlainHostSurvives(host);
    OnlyClient(a, prefixes);
  }
}
