/** The X-Forwarded headers (parseLegacyForwardedValues of pkg/core/request.go). */
module ForwardedFor {
  import opened Addresses
  import opened Forwarding
  import opened HeaderText
  import opened Wrappers

  /** The addresses of the parts of one field line; parts that are no address are skipped. */
  function AddrsOf(t: AddrText, parts: seq<string>): seq<Addr> {
    if parts == [] then []
    else (match ParseAddr(t, parts[0]) case Some(a) => [a] case None => []) + AddrsOf(t, parts[1..])
  }

  function ChainOf(t: AddrText, values: seq<string>): seq<Addr> {
    if values == [] then [] else AddrsOf(t, SplitOn(values[0], ',')) + ChainOf(t, values[1..])
  }

  lemma {:induction false} AddrsOfConcat(t: AddrText, a: seq<string>, b: seq<string>)
    ensures AddrsOf(t, a + b) == AddrsOf(t, a) + AddrsOf(t, b)
  {
    if a == [] {
      assert a + b == b;
    } else {
      assert (a + b)[0] == a[0] && (a + b)[1..] == a[1..] + b;
      AddrsOfConcat(t, a[1..], b);
    }
  }

  // ---------------------------------------------------------------- several field lines

  lemma {:induction false} SplitBlank(blank: string, s: string)
    requires Blank(blank)
    ensures SplitOn(blank + s, ',') == [blank + SplitOn(s, ',')[0]] + SplitOn(s, ',')[1..]
  {
    if blank == "" {
      assert blank + s == s && blank + SplitOn(s, ',')[0] == SplitOn(s, ',')[0];
    } else {
      SplitBlank(blank[1..], s);
      assert blank + s == [blank[0]] + (blank[1..] + s);
      SplitOnCons(blank[0], blank[1..] + s, ',');
      assert [blank[0]] + (blank[1..] + SplitOn(s, ',')[0]) == blank + SplitOn(s, ',')[0];
    }
  }

  lemma BlankAddr(t: AddrText, blank: string, part: string, rest: seq<string>)
    requires Blank(blank)
    ensures AddrsOf(t, [blank + part] + rest) == AddrsOf(t, [part] + rest)
  {
    TrimLeftBlank(blank, part);
    assert ([blank + part] + rest)[1..] == rest && ([part] + rest)[1..] == rest;
  }

  /** Blanks in front of a line change no address. */
  lemma BlankIgnored(t: AddrText, blank: string, s: string)
    requires Blank(blank)
    ensures AddrsOf(t, SplitOn(blank + s, ',')) == AddrsOf(t, SplitOn(s, ','))
  {
    var parts := SplitOn(s, ',');
    SplitBlank(blank, s);
    BlankAddr(t, blank, parts[0], parts[1..]);
    assert [parts[0]] + parts[1..] == parts;
  }

  /** Several field lines mean what one line with all of them means. */
  lemma {:induction false} LinesJoin(t: AddrText, values: seq<string>, blank: string)
    requires values != [] && Blank(blank)
    ensures ChainOf(t, [Joined(values, blank)]) == ChainOf(t, values)
  {
    if |values| == 1 {
      assert values == [values[0]];
    } else {
      var rest := Joined(values[1..], blank);
      LinesJoin(t, values[1..], blank);
      LineChain(t, Joined(values, blank));
      LineChain(t, rest);
      SplitOnJoin(values[0], ',', blank + rest);
      AddrsOfConcat(t, SplitOn(values[0], ','), SplitOn(blank + rest, ','));
      BlankIgnored(t, blank, rest);
    }
  }

  lemma LineChain(t: AddrText, line: string)
    ensures ChainOf(t, [line]) == AddrsOf(t, SplitOn(line, ','))
  {
    assert [line][1..] == [];
  }

  // ---------------------------------------------------------------- text a client put in front

  predicate HasUntrusted(chain: seq<Addr>, prefixes: seq<Prefix>)
    requires AllValid(prefixes)
  {
    exists i :: 0 <= i < |chain| && !InSome(prefixes, chain[i])
  }

  /** Addresses in front of a chain with an untrusted address do not matter. */
  lemma {:induction false} FrontIgnored(front: seq<Addr>, chain: seq<Addr>, prefixes: seq<Prefix>, i: nat)
    requires AllValid(prefixes) && i <= |chain| && HasUntrusted(chain[..i], prefixes)
    ensures ClientFrom(front + chain, prefixes, |front| + i) == ClientFrom(chain, prefixes, i)
  {
    var k :| 0 <= k < i && !InSome(prefixes, chain[..i][k]);
    assert (front + chain)[|front| + i - 1] == chain[i - 1];
    if InSome(prefixes, chain[i - 1]) {
      assert chain[..i - 1][k] == chain[k];
      FrontIgnored(front, chain, prefixes, i - 1);
    }
  }

  /** Whatever text and comma are put in front of a line, the client stays the same as soon as
      the line already names an untrusted address. */
  lemma PrependedIgnored(t: AddrText, text: string, line: string, prefixes: seq<Prefix>, peer: Addr)
    requires AllValid(prefixes) && HasUntrusted(ChainOf(t, [line]), prefixes)
    ensures Resolve(t, ChainOf(t, [text + ([','] + line)]), prefixes, peer)
         == Resolve(t, ChainOf(t, [line]), prefixes, peer)
  {
    LineChain(t, line);
    LineChain(t, text + ([','] + line));
    SplitOnJoin(text, ',', line);
    AddrsOfConcat(t, SplitOn(text, ','), SplitOn(line, ','));
    ClientUnmoved(AddrsOf(t, SplitOn(text, ',')), AddrsOf(t, SplitOn(line, ',')), prefixes);
  }

  lemma ClientUnmoved(front: seq<Addr>, chain: seq<Addr>, prefixes: seq<Prefix>)
    requires AllValid(prefixes) && HasUntrusted(chain, prefixes)
    ensures chain != [] && ClientOf(front + chain, prefixes) == ClientOf(chain, prefixes)
  {
    assert chain[..|chain|] == chain;
    FrontIgnored(front, chain, prefixes, |chain|);
  }

  // ---------------------------------------------------------------- scheme and host

  /** What X-Forwarded-Proto looks for in a piece, and what X-Forwarded-Host does; "" is nothing. */
  function PickScheme(piece: string): string {
    var s := Lower(Trim(piece)); if s == "http" || s == "https" then s else ""
  }

  function PickHost(piece: string): string {
    Trim(piece)
  }

  /** A scheme is http or https in any case, with spaces around it, and nothing else. */
  lemma PickSchemeIs(piece: string)
    ensures PickScheme(piece) == "http" <==> Raised(Trim(piece), "http")
    ensures PickScheme(piece) == "https" <==> Raised(Trim(piece), "https")
    ensures PickScheme(piece) in ["http", "https", ""]
  {
    LowerRaised(Trim(piece), "http");
    LowerRaised(Trim(piece), "https");
  }

  /** The first thing picked from the pieces, then from all lines. */
  function FirstOf(pick: string -> string, pieces: seq<string>): string {
    if pieces == [] then "" else if pick(pieces[0]) != "" then pick(pieces[0]) else FirstOf(pick, pieces[1..])
  }

  function FirstOfLines(pick: string -> string, values: seq<string>): string {
    if values == [] then ""
    else
      var first := FirstOf(pick, SplitOn(values[0], ','));
      if first != "" then first else FirstOfLines(pick, values[1..])
  }

  lemma {:induction false} FirstOfIs(pick: string -> string, pieces: seq<string>)
    ensures var f := FirstOf(pick, pieces);
            if f == "" then forall i :: 0 <= i < |pieces| ==> pick(pieces[i]) == ""
            else exists k :: 0 <= k < |pieces| && pick(pieces[k]) == f
                             && forall i :: 0 <= i < k ==> pick(pieces[i]) == ""
  {
    if pieces != [] && pick(pieces[0]) == "" {
      var rest := pieces[1..];
      FirstOfIs(pick, rest);
      if FirstOf(pick, rest) == "" {
        assert forall i :: 0 < i < |pieces| ==> pieces[i] == rest[i - 1];
      } else {
        var k :| 0 <= k < |rest| && pick(rest[k]) == FirstOf(pick, rest)
                 && forall i :: 0 <= i < k ==> pick(rest[i]) == "";
        assert pick(pieces[k + 1]) == FirstOf(pick, pieces);
        assert forall i :: 0 < i < k + 1 ==> pieces[i] == rest[i - 1];
      }
    }
  }

  lemma {:induction false} FirstOfConcat(pick: string -> string, a: seq<string>, b: seq<string>)
    ensures FirstOf(pick, a + b) == if FirstOf(pick, a) != "" then FirstOf(pick, a) else FirstOf(pick, b)
  {
    if a == [] {
      assert a + b == b;
    } else {
      assert (a + b)[0] == a[0] && (a + b)[1..] == a[1..] + b;
      FirstOfConcat(pick, a[1..], b);
    }
  }

  /** Blanks in front of a piece make no difference. */
  ghost predicate SkipsBlanks(pick: string -> string) {
    forall blank, piece :: Blank(blank) ==> pick(blank + piece) == pick(piece)
  }

  lemma BothSkipBlanks()
    ensures SkipsBlanks(PickScheme) && SkipsBlanks(PickHost)
  {
    forall blank, piece | Blank(blank)
      ensures PickScheme(blank + piece) == PickScheme(piece) && PickHost(blank + piece) == PickHost(piece)
    {
      TrimLeftBlank(blank, piece);
    }
  }

  lemma BlankFirst(pick: string -> string, blank: string, s: string)
    requires SkipsBlanks(pick) && Blank(blank)
    ensures FirstOf(pick, SplitOn(blank + s, ',')) == FirstOf(pick, SplitOn(s, ','))
  {
    var parts := SplitOn(s, ',');
    SplitBlank(blank, s);
    assert ([blank + parts[0]] + parts[1..])[1..] == parts[1..];
  }

  lemma OneLine(pick: string -> string, line: string)
    ensures FirstOfLines(pick, [line]) == FirstOf(pick, SplitOn(line, ','))
  {
    assert [line][1..] == [];
  }

  /** Several field lines name the scheme, or host, that their joined form names. */
  lemma {:induction false} FirstLinesJoin(pick: string -> string, values: seq<string>, blank: string)
    requires SkipsBlanks(pick) && values != [] && Blank(blank)
    ensures FirstOfLines(pick, [Joined(values, blank)]) == FirstOfLines(pick, values)
  {
    if |values| == 1 {
      assert values == [values[0]];
    } else {
      var rest := Joined(values[1..], blank);
      FirstLinesJoin(pick, values[1..], blank);
      OneLine(pick, Joined(values, blank));
      OneLine(pick, rest);
      SplitOnJoin(values[0], ',', blank + rest);
      FirstOfConcat(pick, SplitOn(values[0], ','), SplitOn(blank + rest, ','));
      BlankFirst(pick, blank, rest);
    }
  }

  lemma SchemeAndHostJoin(values: seq<string>, blank: string)
    requires values != [] && Blank(blank)
    ensures FirstOfLines(PickScheme, [Joined(values, blank)]) == FirstOfLines(PickScheme, values)
    ensures FirstOfLines(PickHost, [Joined(values, blank)]) == FirstOfLines(PickHost, values)
  {
    BothSkipBlanks();
    FirstLinesJoin(PickScheme, values, blank);
    FirstLinesJoin(PickHost, values, blank);
  }

  method FirstForwardedProto(values: seq<string>) returns (scheme: string)
    ensures scheme == FirstOfLines(PickScheme, values)
  {
    for i := 0 to |values|
      invariant FirstOfLines(PickScheme, values[i..]) == FirstOfLines(PickScheme, values)
    {
      assert values[i..][1..] == values[i + 1..];
      var parts := SplitOn(values[i], ',');
      for j := 0 to |parts|
        invariant FirstOf(PickScheme, parts[j..]) == FirstOf(PickScheme, parts)
      {
        assert parts[j..][1..] == parts[j + 1..];
        var part := Lower(Trim(parts[j]));
        if part == "http" || part == "https" {
          return part;
        }
      }
    }
    scheme := "";
  }

  method FirstForwardedHost(values: seq<string>) returns (host: string)
    ensures host == FirstOfLines(PickHost, values)
  {
    for i := 0 to |values|
      invariant FirstOfLines(PickHost, values[i..]) == FirstOfLines(PickHost, values)
    {
      assert values[i..][1..] == values[i + 1..];
      var parts := SplitOn(values[i], ',');
      for j := 0 to |parts|
        invariant FirstOf(PickHost, parts[j..]) == FirstOf(PickHost, parts)
      {
        assert parts[j..][1..] == parts[j + 1..];
        var part := Trim(parts[j]);
        if part != "" {
          return part;
        }
      }
    }
    host := "";
  }

  // ---------------------------------------------------------------- the client

  /** The first address among X-Real-IP values. */
  function RealIP(t: AddrText, values: seq<string>): string {
    if values == [] then ""
    else match ParseAddr(t, values[0]) case Some(a) => t.show(a) case None => RealIP(t, values[1..])
  }

  /** The same chain, collected from the left as the loops do. */
  function AddAddr(t: AddrText, chain: seq<Addr>, part: string): seq<Addr> {
    match ParseAddr(t, part) case Some(a) => chain + [a] case None => chain
  }

  function AddParts(t: AddrText, chain: seq<Addr>, parts: seq<string>): seq<Addr>
    decreases |parts|
  {
    if parts == [] then chain else AddParts(t, AddAddr(t, chain, parts[0]), parts[1..])
  }

  function AddLines(t: AddrText, chain: seq<Addr>, values: seq<string>): seq<Addr>
    decreases |values|
  {
    if values == [] then chain else AddLines(t, AddParts(t, chain, SplitOn(values[0], ',')), values[1..])
  }

  lemma Grouped(a: seq<Addr>, b: seq<Addr>, c: seq<Addr>)
    ensures (a + b) + c == a + (b + c)
  {}

  lemma OneFound(t: AddrText, chain: seq<Addr>, part: string)
    ensures AddAddr(t, chain, part) == chain + AddrsOf(t, [part])
  {
    assert [part][1..] == [];
  }

  lemma {:induction false} AddPartsIs(t: AddrText, chain: seq<Addr>, parts: seq<string>)
    ensures AddParts(t, chain, parts) == chain + AddrsOf(t, parts)
    decreases |parts|
  {
    if parts != [] {
      var found := AddrsOf(t, [parts[0]]);
      AddrsOfConcat(t, [parts[0]], parts[1..]);
      assert [parts[0]] + parts[1..] == parts;
      AddPartsIs(t, chain + found, parts[1..]);
      Grouped(chain, found, AddrsOf(t, parts[1..]));
      assert AddAddr(t, chain, parts[0]) == chain + found by { OneFound(t, chain, parts[0]); }
    }
  }

  lemma {:induction false} AddLinesIs(t: AddrText, chain: seq<Addr>, values: seq<string>)
    ensures AddLines(t, chain, values) == chain + ChainOf(t, values)
    decreases |values|
  {
    if values != [] {
      var parts := SplitOn(values[0], ',');
      AddPartsIs(t, chain, parts);
      AddLinesIs(t, chain + AddrsOf(t, parts), values[1..]);
      Grouped(chain, AddrsOf(t, parts), ChainOf(t, values[1..]));
    }
  }

  method FirstRealIP(t: AddrText, values: seq<string>) returns (client: string)
    ensures client == RealIP(t, values)
    ensures (forall i :: 0 <= i < |values| ==> ParseAddr(t, values[i]).None?) ==> client == ""
    ensures forall k :: 0 <= k < |values| && ParseAddr(t, values[k]).Some?
                        && (forall i :: 0 <= i < k ==> ParseAddr(t, values[i]).None?) ==>
              client == t.show(ParseAddr(t, values[k]).value)
  {
    for i := 0 to |values|
      invariant RealIP(t, values[i..]) == RealIP(t, values)
      invariant forall k :: 0 <= k < i ==> ParseAddr(t, values[k]).None?
    {
      assert values[i..][1..] == values[i + 1..];
      var addr := ParseAddr(t, values[i]);
      if addr.Some? {
        return t.show(addr.value);
      }
    }
    client := "";
  }

  /** parseLegacyForwardedValues. */
  method ParseLegacyForwardedValues(
      t: AddrText, forValues: seq<string>, protoValues: seq<string>, hostValues: seq<string>,
      realIPValues: seq<string>, prefixes: seq<Prefix>, peer: Addr)
    returns (client: string, scheme: string, host: string)
    requires AllValid(prefixes)
    ensures scheme == FirstOfLines(PickScheme, protoValues) && host == FirstOfLines(PickHost, hostValues)
    ensures var r := Resolve(t, ChainOf(t, forValues), prefixes, peer);
            client == if r != "" then r else RealIP(t, realIPValues)
  {
    var chain: seq<Addr> := [];
    AddLinesIs(t, [], forValues);
    for i := 0 to |forValues|
      invariant AddLines(t, chain, forValues[i..]) == ChainOf(t, forValues)
    {
      var parts := SplitOn(forValues[i], ',');
      ghost var line := AddParts(t, chain, parts);
      for j := 0 to |parts|
        invariant AddParts(t, chain, parts[j..]) == line
      {
        chain := AddAddr(t, chain, parts[j]);
      }
    }
    client := ResolveClientIPFromChain(t, chain, prefixes, peer);
    if client == "" {
      client := FirstRealIP(t, realIPValues);
    }
    scheme := FirstForwardedProto(protoValues);
    host := FirstForwardedHost(hostValues);
  }
}
