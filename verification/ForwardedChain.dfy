/** Several Forwarded headers, printed one after the other by a chain of proxies
    (pkg/filters/proxy.go) and parsed together (pkg/core/request.go). */
module ForwardedChain {
  import opened Addresses
  import opened ForwardedFor
  import opened ForwardedRoundTrip
  import opened Forwarding
  import opened HeaderText
  import opened Strings
  import opened Wrappers

  /** What one proxy reports. */
  datatype Hop = Hop(addr: Addr, scheme: string, host: string)

  ghost predicate AllGood(hops: seq<Hop>) {
    forall i :: 0 <= i < |hops| ==> hops[i].addr.Valid() && IsScheme(hops[i].scheme)
  }

  function Header(t: AddrText, h: Hop): string {
    FormatHeader(t.show(h.addr), h.scheme, h.host)
  }

  function Headers(t: AddrText, hops: seq<Hop>): (r: seq<string>)
    ensures |r| == |hops| && forall i :: 0 <= i < |r| ==> r[i] == Header(t, hops[i])
  {
    if hops == [] then [] else [Header(t, hops[0])] + Headers(t, hops[1..])
  }

  /** The element that the first split makes of a header. */
  function Part(t: AddrText, h: Hop): string {
    Element(Brackets(h.addr, t.show(h.addr)), h.scheme, h.host)
  }

  function Parts(t: AddrText, hops: seq<Hop>): seq<string> {
    if hops == [] then [] else [Part(t, hops[0])] + Parts(t, hops[1..])
  }

  /** The addresses reported, in order. */
  function Reported(hops: seq<Hop>): (r: seq<Addr>)
    ensures |r| == |hops| && forall i :: 0 <= i < |r| ==> r[i] == hops[i].addr.Unmap()
  {
    if hops == [] then [] else [hops[0].addr.Unmap()] + Reported(hops[1..])
  }

  lemma ElementsStep(t: AddrText, w: Forwarded, element: string, rest: seq<string>)
    ensures TakeElements(t, w, [element] + rest) == TakeElements(t, TakeElement(t, w, element), rest)
  {
    assert ([element] + rest)[1..] == rest;
  }

  lemma ValuesStep(t: AddrText, w: Forwarded, line: string, rest: seq<string>)
    ensures TakeValues(t, w, [line] + rest) == TakeValues(t, TakeElements(t, w, Split(line, ',')), rest)
  {
    assert ([line] + rest)[1..] == rest;
  }

  lemma ChainGrouped(a: seq<Addr>, b: seq<Addr>, c: seq<Addr>)
    ensures (a + b) + c == a + (b + c)
  {}

  lemma HopTaken(t: AddrText, w: Forwarded, h: Hop)
    requires Faithful(t) && h.addr.Valid() && IsScheme(h.scheme)
    ensures var r := TakeElement(t, w, Part(t, h));
            && r.chain == w.chain + [h.addr.Unmap()] && r.proto == (if w.proto == "" then h.scheme else w.proto)
            && (w.host != "" ==> r.host == w.host)
            && (w.host == "" && Survives(Trim(h.host)) ==> r.host == Trim(h.host))
  {
    ElementTaken(t, w, h.addr, h.scheme, h.host);
  }

  /** All elements together add their addresses in order, and the first scheme. */
  lemma {:induction false} HopsTaken(t: AddrText, w: Forwarded, hops: seq<Hop>)
    requires Faithful(t) && AllGood(hops)
    ensures var r := TakeElements(t, w, Parts(t, hops));
            && r.chain == w.chain + Reported(hops)
            && r.proto == (if w.proto != "" || hops == [] then w.proto else hops[0].scheme)
            && (w.host != "" ==> r.host == w.host)
    decreases |hops|
  {
    if hops == [] {
      assert w.chain + Reported(hops) == w.chain;
    } else {
      var v := TakeElement(t, w, Part(t, hops[0]));
      HopTaken(t, w, hops[0]);
      HopsTaken(t, v, hops[1..]);
      ElementsStep(t, w, Part(t, hops[0]), Parts(t, hops[1..]));
      ChainGrouped(w.chain, [hops[0].addr.Unmap()], Reported(hops[1..]));
    }
  }

  lemma {:induction false} ElementsTwice(t: AddrText, w: Forwarded, a: seq<string>, b: seq<string>)
    ensures TakeElements(t, w, a + b) == TakeElements(t, TakeElements(t, w, a), b)
    decreases |a|
  {
    if a == [] {
      assert a + b == b;
    } else {
      assert (a + b)[0] == a[0] && (a + b)[1..] == a[1..] + b;
      ElementsTwice(t, TakeElement(t, w, a[0]), a[1..], b);
    }
  }

  lemma {:induction false} PartsJoin(t: AddrText, a: seq<Hop>, b: seq<Hop>)
    ensures Parts(t, a + b) == Parts(t, a) + Parts(t, b)
  {
    if a == [] {
      assert a + b == b;
    } else {
      assert (a + b)[0] == a[0] && (a + b)[1..] == a[1..] + b;
      PartsJoin(t, a[1..], b);
    }
  }

  ghost predicate AllBlank(hops: seq<Hop>) {
    forall i :: 0 <= i < |hops| ==> Trim(hops[i].host) == ""
  }

  lemma {:induction false} NoHostTaken(t: AddrText, w: Forwarded, hops: seq<Hop>)
    requires Faithful(t) && AllGood(hops) && AllBlank(hops) && w.host == ""
    ensures TakeElements(t, w, Parts(t, hops)).host == ""
    decreases |hops|
  {
    if hops != [] {
      PlainHostSurvives("");
      HopTaken(t, w, hops[0]);
      ElementsStep(t, w, Part(t, hops[0]), Parts(t, hops[1..]));
      NoHostTaken(t, TakeElement(t, w, Part(t, hops[0])), hops[1..]);
    }
  }

  /** A hop that names a host after hops that name none. */
  lemma HostTaken(t: AddrText, w: Forwarded, h: Hop, rest: seq<Hop>)
    requires Faithful(t) && h.addr.Valid() && IsScheme(h.scheme) && AllGood(rest) && w.host == ""
    requires Trim(h.host) != "" && Survives(Trim(h.host))
    ensures TakeElements(t, w, Parts(t, [h] + rest)).host == Trim(h.host)
  {
    HopTaken(t, w, h);
    PartsJoin(t, [h], rest);
    OnePart(t, h);
    ElementsStep(t, w, Part(t, h), Parts(t, rest));
    HopsTaken(t, TakeElement(t, w, Part(t, h)), rest);
  }

  lemma OnePart(t: AddrText, h: Hop)
    ensures Parts(t, [h]) == [Part(t, h)]
  {
    assert [h][1..] == [];
  }

  // ---------------------------------------------------------------- lines, or one line

  lemma HopSplit(t: AddrText, h: Hop)
    requires Faithful(t) && h.addr.Valid() && IsScheme(h.scheme)
    ensures Split(Header(t, h), ',') == [Part(t, h)]
  {
    FirstSplit(h.addr, t.show(h.addr), h.scheme, h.host);
  }

  lemma OneElement(t: AddrText, w: Forwarded, element: string)
    ensures TakeElements(t, w, [element]) == TakeElement(t, w, element)
  {
    assert [element][1..] == [];
    assert TakeElements(t, w, [element]) == TakeElements(t, TakeElement(t, w, element), []);
  }

  /** Header lines, one for each hop. */
  lemma {:induction false} LinesAreParts(t: AddrText, w: Forwarded, hops: seq<Hop>)
    requires Faithful(t) && AllGood(hops)
    ensures TakeValues(t, w, Headers(t, hops)) == TakeElements(t, w, Parts(t, hops))
    decreases |hops|
  {
    if hops != [] {
      HopSplit(t, hops[0]);
      OneElement(t, w, Part(t, hops[0]));
      LinesAreParts(t, TakeElement(t, w, Part(t, hops[0])), hops[1..]);
      ElementsStep(t, w, Part(t, hops[0]), Parts(t, hops[1..]));
      ValuesStep(t, w, Header(t, hops[0]), Headers(t, hops[1..]));
    }
  }

  /** A header in front of a line is one more element. */
  lemma HeaderInFront(t: AddrText, h: Hop, blank: string, rest: string)
    requires Faithful(t) && h.addr.Valid() && IsScheme(h.scheme) && Blank(blank)
    ensures Split(Header(t, h) + ([','] + (blank + rest)), ',') == [Part(t, h)] + Split(rest, ',')
  {
    HeaderReads(h.addr, t.show(h.addr), h.scheme, h.host);
    PartRead(',', Header(t, h), Part(t, h), blank + rest);
    SplitAfterBlank(blank, rest, ',');
  }

  lemma JoinedStep(first: string, rest: seq<string>, blank: string)
    requires rest != []
    ensures Joined([first] + rest, blank) == first + ([','] + (blank + Joined(rest, blank)))
  {
    assert ([first] + rest)[1..] == rest;
  }

  /** One line with all of them, blanks after the commas. */
  lemma {:induction false} JoinedSplit(t: AddrText, hops: seq<Hop>, blank: string)
    requires Faithful(t) && AllGood(hops) && hops != [] && Blank(blank)
    ensures Split(Joined(Headers(t, hops), blank), ',') == Parts(t, hops)
    decreases |hops|
  {
    if |hops| == 1 {
      HopSplit(t, hops[0]);
    } else {
      var rest := Headers(t, hops[1..]);
      JoinedSplit(t, hops[1..], blank);
      JoinedStep(Header(t, hops[0]), rest, blank);
      HeaderInFront(t, hops[0], blank, Joined(rest, blank));
    }
  }

  lemma OneLineTaken(t: AddrText, w: Forwarded, line: string)
    ensures TakeValues(t, w, [line]) == TakeElements(t, w, Split(line, ','))
  {
    assert [line][1..] == [];
    assert TakeValues(t, w, [line]) == TakeValues(t, TakeElements(t, w, Split(line, ',')), []);
  }

  /** Every chain of proxies.  Their headers, as several lines or joined by commas into one, parse to
      their addresses in the order they were printed and to the first scheme. */
  lemma ChainRoundTrip(t: AddrText, hops: seq<Hop>, blank: string)
    requires Faithful(t) && AllGood(hops) && Blank(blank)
    ensures var w := TakeValues(t, NOTHING, Headers(t, hops));
            && w.chain == Reported(hops) && w.proto == (if hops == [] then "" else hops[0].scheme)
            && (AllBlank(hops) ==> w.host == "")
            && (hops != [] ==> TakeValues(t, NOTHING, [Joined(Headers(t, hops), blank)]) == w)
  {
    LinesAreParts(t, NOTHING, hops);
    HopsTaken(t, NOTHING, hops);
    if AllBlank(hops) {
      NoHostTaken(t, NOTHING, hops);
    }
    if hops != [] {
      JoinedSplit(t, hops, blank);
      OneLineTaken(t, NOTHING, Joined(Headers(t, hops), blank));
    }
  }

  /** The host that is found is that of the first hop with one, if it survives the two splits. */
  lemma FirstHostFound(t: AddrText, front: seq<Hop>, h: Hop, rest: seq<Hop>)
    requires Faithful(t) && AllGood(front + ([h] + rest)) && AllBlank(front)
    requires Trim(h.host) != "" && Survives(Trim(h.host))
    ensures TakeValues(t, NOTHING, Headers(t, front + ([h] + rest))).host == Trim(h.host)
  {
    GoodParts(front, h, rest);
    LinesAreParts(t, NOTHING, front + ([h] + rest));
    PartsJoin(t, front, [h] + rest);
    ElementsTwice(t, NOTHING, Parts(t, front), Parts(t, [h] + rest));
    NoHostTaken(t, NOTHING, front);
    HostTaken(t, TakeElements(t, NOTHING, Parts(t, front)), h, rest);
  }

  lemma GoodParts(front: seq<Hop>, h: Hop, rest: seq<Hop>)
    requires AllGood(front + ([h] + rest))
    ensures AllGood(front) && AllGood(rest) && h.addr.Valid() && IsScheme(h.scheme)
  {
    var all := front + ([h] + rest);
    assert forall i :: 0 <= i < |front| ==> front[i] == all[i];
    assert forall i :: 0 <= i < |rest| ==> rest[i] == all[|front| + 1 + i];
    assert h == all[|front|];
  }

  // ---------------------------------------------------------------- what is put in front

  lemma SameAddrOnce(t: AddrText, f: Found, g: Found, param: string)
    requires f.addr == g.addr
    ensures TakeParam(t, f, param).addr == TakeParam(t, g, param).addr
  {}

  /** Scheme and host found so far make no difference to the address of an element. */
  lemma {:induction false} SameAddr(t: AddrText, f: Found, g: Found, params: seq<string>)
    requires f.addr == g.addr
    ensures TakeParams(t, f, params).addr == TakeParams(t, g, params).addr
    decreases |params|
  {
    if params != [] {
      SameAddrOnce(t, f, g, params[0]);
      SameAddr(t, TakeParam(t, f, params[0]), TakeParam(t, g, params[0]), params[1..]);
    }
  }

  lemma ElementGrows(t: AddrText, w: Forwarded, v: Forwarded, front: seq<Addr>, element: string)
    requires w.chain == front + v.chain
    ensures TakeElement(t, w, element).chain == front + TakeElement(t, v, element).chain
  {
    SameAddr(t, Found(None, w.proto, w.host), Found(None, v.proto, v.host), Split(element, ';'));
  }

  lemma {:induction false} ElementsGrow(
      t: AddrText, w: Forwarded, v: Forwarded, front: seq<Addr>, elements: seq<string>)
    requires w.chain == front + v.chain
    ensures TakeElements(t, w, elements).chain == front + TakeElements(t, v, elements).chain
    decreases |elements|
  {
    if elements != [] {
      ElementGrows(t, w, v, front, elements[0]);
      ElementsGrow(t, TakeElement(t, w, elements[0]), TakeElement(t, v, elements[0]), front, elements[1..]);
    }
  }

  lemma {:induction false} ValuesGrow(t: AddrText, w: Forwarded, v: Forwarded, front: seq<Addr>, values: seq<string>)
    requires w.chain == front + v.chain
    ensures TakeValues(t, w, values).chain == front + TakeValues(t, v, values).chain
    decreases |values|
  {
    if values != [] {
      var elements := Split(values[0], ',');
      ElementsGrow(t, w, v, front, elements);
      ValuesGrow(t, TakeElements(t, w, elements), TakeElements(t, v, elements), front, values[1..]);
    }
  }

  lemma {:induction false} ValuesTwice(t: AddrText, w: Forwarded, a: seq<string>, b: seq<string>)
    ensures TakeValues(t, w, a + b) == TakeValues(t, TakeValues(t, w, a), b)
    decreases |a|
  {
    if a == [] {
      assert a + b == b;
    } else {
      assert (a + b)[0] == a[0] && (a + b)[1..] == a[1..] + b;
      ValuesTwice(t, TakeElements(t, w, Split(a[0], ',')), a[1..], b);
    }
  }

  function ChainIn(t: AddrText, values: seq<string>): seq<Addr> {
    TakeValues(t, NOTHING, values).chain
  }

  /** Whatever lines come first, the client stays the same as soon as the later ones name an
      untrusted address. */
  lemma FrontLinesIgnored(t: AddrText, front: seq<string>, values: seq<string>, prefixes: seq<Prefix>, peer: Addr)
    requires AllValid(prefixes) && HasUntrusted(ChainIn(t, values), prefixes)
    ensures Resolve(t, ChainIn(t, front + values), prefixes, peer) == Resolve(t, ChainIn(t, values), prefixes, peer)
  {
    var w := TakeValues(t, NOTHING, front);
    ValuesTwice(t, NOTHING, front, values);
    assert w.chain == w.chain + NOTHING.chain;
    ValuesGrow(t, w, NOTHING, w.chain, values);
    ClientUnmoved(w.chain, ChainIn(t, values), prefixes);
  }

  /** The same for text and a comma in front of a line, if the text closes its quotes. */
  lemma FrontTextIgnored(t: AddrText, text: string, line: string, prefixes: seq<Prefix>, peer: Addr)
    requires AllValid(prefixes) && HasUntrusted(ChainIn(t, [line]), prefixes) && EndsOutside(text, false, false)
    ensures Resolve(t, ChainIn(t, [text + ([','] + line)]), prefixes, peer)
         == Resolve(t, ChainIn(t, [line]), prefixes, peer)
  {
    var w := TakeElements(t, NOTHING, Split(text, ','));
    SplitJoin(text, ',', line);
    OneLineTaken(t, NOTHING, text + ([','] + line));
    OneLineTaken(t, NOTHING, line);
    ElementsTwice(t, NOTHING, Split(text, ','), Split(line, ','));
    assert w.chain == w.chain + NOTHING.chain;
    ElementsGrow(t, w, NOTHING, w.chain, Split(line, ','));
    ClientUnmoved(w.chain, ChainIn(t, [line]), prefixes);
  }

  /** Without that it fails: one open quote in front hides every address of the line. */
  lemma OpenQuoteHides(t: AddrText, a: Addr)
    requires Faithful(t) && a.Valid() && a.V4?
    ensures ChainIn(t, ["for=" + t.show(a)]) == [a]
    ensures ChainIn(t, ["\"" + ([','] + ("for=" + t.show(a)))]) == []
  {
    var s := t.show(a);
    var line := "for=" + s;
    var all := "\"" + ([','] + line);
    NodeText(a, s);
    AddrCharsArePlain(s);
    ReadsPlain(',', line, false);
    WholeRead(',', line, line);
    ReadsPlain(';', line, false);
    WholeRead(';', line, line);
    OneLineTaken(t, NOTHING, line);
    OneElement(t, NOTHING, line);
    assert Param("for", Once(Brackets(a, s))) == line;
    AddrTaken(t, Found(None, "", ""), a);
    OneParam(t, Found(None, "", ""), line);
    HiddenLine(t, s);
  }

  lemma QuoteOpens(sep: char, rest: string)
    requires sep != '"' && Firm("\"" + rest)
    requires forall i :: 0 <= i < |rest| ==> rest[i] != '"' && rest[i] != '\\'
    ensures Split("\"" + rest, sep) == ["\"" + rest]
  {
    ReadsOne(sep, '"', false);
    ReadsPlain(sep, rest, true);
    ReadsBoth(sep, "\"", false, "\"", true, rest, rest, true);
    var all := "\"" + rest;
    assert all + "" == all && "" + all == all;
    assert SplitFrom(all + "", sep, false, false, "") == SplitFrom("", sep, true, false, "" + all);
  }

  lemma HiddenText(s: string)
    requires s != "" && forall i :: 0 <= i < |s| ==> AddrChar(s[i])
    ensures "\"" + ([','] + ("for=" + s)) == "\",for" + ['='] + s
    ensures var rest := [','] + ("for=" + s);
            Firm("\"" + rest) && forall i :: 0 <= i < |rest| ==> rest[i] != '"' && rest[i] != '\\'
  {}

  lemma HiddenKey(t: AddrText, f: Found, s: string)
    ensures TakeParam(t, f, "\",for" + ['='] + s) == f
  {
    assert Trim("\",for") == "\",for" && Lower("\",for")[0] == '"';
    OtherKey(t, f, "\",for", s);
  }

  /** An element that is one parameter and names nothing. */
  lemma NothingNamed(t: AddrText, all: string)
    requires Split(all, ',') == [all] && Split(all, ';') == [all]
    requires TakeParam(t, Found(None, "", ""), all) == Found(None, "", "")
    ensures ChainIn(t, [all]) == []
  {
    OneLineTaken(t, NOTHING, all);
    OneElement(t, NOTHING, all);
    OneParam(t, Found(None, "", ""), all);
  }

  lemma HiddenLine(t: AddrText, s: string)
    requires s != "" && forall i :: 0 <= i < |s| ==> AddrChar(s[i])
    ensures ChainIn(t, ["\"" + ([','] + ("for=" + s))]) == []
  {
    var rest := [','] + ("for=" + s);
    HiddenText(s);
    QuoteOpens(',', rest);
    QuoteOpens(';', rest);
    HiddenKey(t, Found(None, "", ""), s);
    NothingNamed(t, "\"" + rest);
  }

  lemma OneParam(t: AddrText, f: Found, p: string)
    ensures TakeParams(t, f, [p]) == TakeParam(t, f, p)
  {
    assert [p][1..] == [];
    assert TakeParams(t, f, [p]) == TakeParams(t, TakeParam(t, f, p), []);
  }

  // ---------------------------------------------------------------- X-Forwarded-For

  function Shown(t: AddrText, addrs: seq<Addr>): (r: seq<string>)
    ensures |r| == |addrs| && forall i :: 0 <= i < |r| ==> r[i] == t.show(addrs[i])
  {
    if addrs == [] then [] else [t.show(addrs[0])] + Shown(t, addrs[1..])
  }

  function Unmapped(addrs: seq<Addr>): (r: seq<Addr>)
    ensures |r| == |addrs| && forall i :: 0 <= i < |r| ==> r[i] == addrs[i].Unmap()
  {
    if addrs == [] then [] else [addrs[0].Unmap()] + Unmapped(addrs[1..])
  }

  /** The last colon of a bare IPv6 address is no port: there is one before it. */
  lemma NoPort(a: Addr, s: string)
    requires Printed(a, s)
    ensures SplitHost(s) == None
  {
    AddrCharsArePlain(s);
    assert AddrChar(s[0]);
    var k := LastIndexOf(s, ':');
    if a.V6? {
      var i, j :| 0 <= i < j < |s| && s[i] == ':' && s[j] == ':';
      assert j <= k && s[..k][i] == ':';
    }
  }

  lemma BareAddr(t: AddrText, a: Addr)
    requires Faithful(t) && a.Valid()
    ensures ParseAddr(t, t.show(a)) == Some(a.Unmap())
  {
    var s := t.show(a);
    AddrCharsArePlain(s);
    NoPort(a, s);
    BracketsOff(s);
  }

  lemma OneShown(t: AddrText, a: Addr)
    requires Faithful(t) && a.Valid()
    ensures AddrsOf(t, SplitOn(t.show(a), ',')) == [a.Unmap()]
  {
    var s := t.show(a);
    BareAddr(t, a);
    AddrCharsArePlain(s);
    SplitOnPlain(s, ',');
    assert [s][1..] == [] && AddrsOf(t, [s]) == [a.Unmap()] + AddrsOf(t, []);
  }

  lemma {:induction false} ShownLines(t: AddrText, addrs: seq<Addr>)
    requires Faithful(t) && forall i :: 0 <= i < |addrs| ==> addrs[i].Valid()
    ensures ChainOf(t, Shown(t, addrs)) == Unmapped(addrs)
  {
    if addrs != [] {
      OneShown(t, addrs[0]);
      ShownLines(t, addrs[1..]);
      ChainStep(t, t.show(addrs[0]), Shown(t, addrs[1..]));
    }
  }

  /** The addresses of X-Forwarded-For, as several lines or joined by commas into one, parse to these
      addresses in their order. */
  lemma AddressesRoundTrip(t: AddrText, addrs: seq<Addr>, blank: string)
    requires Faithful(t) && (forall i :: 0 <= i < |addrs| ==> addrs[i].Valid()) && Blank(blank)
    ensures ChainOf(t, Shown(t, addrs)) == Unmapped(addrs)
    ensures addrs != [] ==> ChainOf(t, [Joined(Shown(t, addrs), blank)]) == Unmapped(addrs)
  {
    ShownLines(t, addrs);
    if addrs != [] {
      LinesJoin(t, Shown(t, addrs), blank);
    }
  }

  lemma ChainStep(t: AddrText, line: string, rest: seq<string>)
    ensures ChainOf(t, [line] + rest) == AddrsOf(t, SplitOn(line, ',')) + ChainOf(t, rest)
  {
    assert ([line] + rest)[1..] == rest;
  }

  // ---------------------------------------------------------------- what a parameter can do

  lemma ParamParts(t: AddrText, f: Found, key: string, value: string)
    requires '=' !in key
    ensures TakeParam(t, f, key + ['='] + value) == TakeKey(t, f, Lower(Trim(key)), TrimQuoted(Trim(value)))
  {
    var p := key + ['='] + value;
    IndexAfter(key, '=', value);
    assert p[..|key|] == key && p[|key| + 1..] == value;
  }

  /** A parameter with another name changes nothing. */
  lemma OtherKey(t: AddrText, f: Found, key: string, value: string)
    requires '=' !in key && !IsKey(Lower(Trim(key)))
    ensures TakeParam(t, f, key + ['='] + value) == f
  {
    ParamParts(t, f, key, value);
  }

  /** A parameter names nothing new once its kind is known, and what it names it names itself; keys
      and schemes are read in any case. */
  lemma ParamDecides(t: AddrText, f: Found, key: string, name: string, value: string)
    requires '=' !in key && IsKey(name) && Raised(Trim(key), name)
    ensures var r, v := TakeParam(t, f, key + ['='] + value), TrimQuoted(Trim(value));
            && r.addr == (if name == "for" && f.addr.None? then ParseNode(t, v) else f.addr)
            && r.host == (if name == "host" && f.host == "" then v else f.host)
            && (f.proto != "" || name != "proto" ==> r.proto == f.proto)
            && (f.proto == "" && name == "proto" ==>
                  && (Raised(Trim(v), "http") ==> r.proto == "http")
                  && (Raised(Trim(v), "https") ==> r.proto == "https")
                  && (!Raised(Trim(v), "http") && !Raised(Trim(v), "https") ==> r.proto == ""))
  {
    ParamParts(t, f, key, value);
    LowerKey(name);
    LowerRaised(Trim(key), name);
    var v := TrimQuoted(Trim(value));
    if name == "proto" && f.proto == "" {
      SchemeDecides(t, f, v);
    }
  }

  lemma SchemeDecides(t: AddrText, f: Found, v: string)
    requires f.proto == ""
    ensures var r := TakeKey(t, f, "proto", v);
            && r.addr == f.addr && r.host == f.host
            && (Raised(Trim(v), "http") ==> r.proto == "http")
            && (Raised(Trim(v), "https") ==> r.proto == "https")
            && (!Raised(Trim(v), "http") && !Raised(Trim(v), "https") ==> r.proto == "")
  {
    LowerRaised(Trim(v), "http");
    LowerRaised(Trim(v), "https");
  }

  /** "unknown", in any case, and names that start with an underscore stand for no address
      (section 6 of RFC 7239), whatever the address parser would make of them. */
  lemma ObfuscatedNamesNothing(t: AddrText, node: string)
    requires Raised(Trim(node), "unknown") || (Trim(node) != "" && Trim(node)[0] == '_')
    ensures ParseNode(t, node) == None
  {
    if Raised(Trim(node), "unknown") {
      LowerRaised(Trim(node), "unknown");
    }
  }
}
