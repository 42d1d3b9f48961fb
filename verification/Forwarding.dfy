/** Forwarding headers: the printer of pkg/filters/proxy.go and the parsers of
    pkg/core/request.go. */
module Forwarding {
  import opened Addresses
  import opened HeaderText
  import opened Strings
  import opened Wrappers

  /** The address syntax of net/netip: its parser and its printer. */
  datatype AddrText = AddrText(parse: string -> Option<Addr>, show: Addr -> string)

  predicate AddrChar(c: char) {
    '0' <= c <= '9' || 'a' <= c <= 'f' || c == ':' || c == '.'
  }

  /** The printed form of an address without zone: digits, dots and, for IPv6, two colons or more. */
  ghost predicate Printed(a: Addr, s: string) {
    && s != ""
    && (forall i :: 0 <= i < |s| ==> AddrChar(s[i]))
    && (a.V6? <==> exists i :: 0 <= i < |s| && s[i] == ':')
    && (a.V6? ==> exists i, j :: 0 <= i < j < |s| && s[i] == ':' && s[j] == ':')
  }

  /** Parsing undoes printing. */
  ghost predicate Faithful(t: AddrText) {
    forall a: Addr :: a.Valid() ==> t.parse(t.show(a)) == Some(a) && Printed(a, t.show(a))
  }

  // ---------------------------------------------------------------- the printer

  function Escape(s: string): string {
    if s == "" then ""
    else (if s[0] == '\\' then "\\\\" else if s[0] == '"' then "\\\"" else [s[0]]) + Escape(s[1..])
  }

  /** The characters that make a value quoted. */
  predicate IsSpecial(c: char) {
    c == ':' || c == ';' || c == ',' || c == ' ' || c == '"' || c == '=' || c == '\\'
  }

  predicate HasSpecial(s: string) {
    exists i :: 0 <= i < |s| && IsSpecial(s[i])
  }

  function FormatValue(value: string): string {
    var v := Trim(value);
    if v == "" then "\"\"" else if HasSpecial(v) then "\"" + Escape(v) + "\"" else v
  }

  lemma {:induction false} EscapeGrows(s: string)
    ensures |Escape(s)| >= |s|
  {
    if s != "" {
      EscapeGrows(s[1..]);
    }
  }

  /** A value is printed as it is exactly if it is not empty and holds none of these characters. */
  lemma BareIff(value: string)
    ensures FormatValue(value) == Trim(value) <==>
              Trim(value) != "" && forall c :: c in Trim(value) ==> c !in [':', ';', ',', ' ', '"', '=', '\\']
  {
    var v := Trim(value);
    EscapeGrows(v);
    if HasSpecial(v) {
      var i :| 0 <= i < |v| && IsSpecial(v[i]);
      assert v[i] in v;
    }
  }

  function FormatNode(addr: string): string {
    var a := Trim(addr);
    if ':' in a && !(a != "" && a[0] == '[') then FormatValue("[" + a + "]") else FormatValue(a)
  }

  function Param(key: string, value: string): string {
    key + "=" + value
  }

  /** formatForwardedHeader. */
  function FormatHeader(clientIP: string, scheme: string, host: string): string {
    Param("for", FormatNode(clientIP))
    + (if scheme == "http" || scheme == "https" then ";" + Param("proto", scheme) else "")
    + (if host != "" then ";" + Param("host", FormatValue(host)) else "")
  }

  // ---------------------------------------------------------------- the parser

  function LastIndexOf(s: string, c: char): (i: int)
    ensures -1 <= i < |s|
    ensures i >= 0 ==> s[i] == c
    ensures forall j :: i < j < |s| ==> s[j] != c
  {
    if s == "" then -1
    else if s[|s| - 1] == c then |s| - 1
    else LastIndexOf(s[..|s| - 1], c)
  }

  /** The host of net.SplitHostPort, when there is a port. */
  function SplitHost(s: string): Option<string> {
    var i := LastIndexOf(s, ':');
    if i < 0 then None
    else if s[0] == '[' then
      var end := IndexOf(s, ']');
      if end + 1 == i && '[' !in s[1..] && ']' !in s[end + 1..] then Some(s[1..end]) else None
    else if ':' in s[..i] || '[' in s || ']' in s then None
    else Some(s[..i])
  }

  predicate IsBracket(c: char) { c == '[' || c == ']' }

  /** strings.Trim(s, "[]"). */
  function TrimBrackets(s: string): string {
    TrimSet(s, IsBracket)
  }

  function ParseAddr(t: AddrText, raw: string): Option<Addr> {
    var r := Trim(raw);
    if r == "" then None
    else
      var host := match SplitHost(r) case Some(h) => h case None => r;
      match t.parse(TrimBrackets(host))
      case Some(a) => Some(a.Unmap())
      case None => None
  }

  function ParseNode(t: AddrText, raw: string): Option<Addr> {
    var r := Trim(raw);
    if r == "" || Lower(r) == "unknown" || r[0] == '_' then None else ParseAddr(t, r)
  }

  /** What has been found: one element's address, and the first scheme and host of all. */
  datatype Found = Found(addr: Option<Addr>, proto: string, host: string)

  function TakeKey(t: AddrText, f: Found, key: string, value: string): Found {
    if key == "for" then
      (if f.addr.Some? then f else f.(addr := ParseNode(t, value)))
    else if key == "proto" then
      var current := Lower(Trim(value));
      if f.proto == "" && (current == "http" || current == "https") then f.(proto := current) else f
    else if key == "host" then
      (if f.host == "" then f.(host := value) else f)
    else f
  }

  function TakeParam(t: AddrText, f: Found, param: string): Found {
    var i := IndexOf(param, '=');
    if i == |param| then f
    else TakeKey(t, f, Lower(Trim(param[..i])), TrimQuoted(Trim(param[i + 1..])))
  }

  function TakeParams(t: AddrText, f: Found, params: seq<string>): Found
    decreases |params|
  {
    if params == [] then f else TakeParams(t, TakeParam(t, f, params[0]), params[1..])
  }

  datatype Forwarded = Forwarded(chain: seq<Addr>, proto: string, host: string)

  function TakeElement(t: AddrText, w: Forwarded, element: string): Forwarded {
    var f := TakeParams(t, Found(None, w.proto, w.host), Split(element, ';'));
    Forwarded(if f.addr.Some? then w.chain + [f.addr.value] else w.chain, f.proto, f.host)
  }

  function TakeElements(t: AddrText, w: Forwarded, elements: seq<string>): Forwarded
    decreases |elements|
  {
    if elements == [] then w else TakeElements(t, TakeElement(t, w, elements[0]), elements[1..])
  }

  function TakeValues(t: AddrText, w: Forwarded, values: seq<string>): Forwarded
    decreases |values|
  {
    if values == [] then w else TakeValues(t, TakeElements(t, w, Split(values[0], ',')), values[1..])
  }

  const NOTHING := Forwarded([], "", "")

  /** The scan of resolveClientIPFromChain with the addresses below i still to see. */
  function ClientFrom(chain: seq<Addr>, prefixes: seq<Prefix>, i: nat): Addr
    requires chain != [] && i <= |chain| && AllValid(prefixes)
  {
    if i == 0 then chain[0]
    else if !InSome(prefixes, chain[i - 1]) then chain[i - 1]
    else ClientFrom(chain, prefixes, i - 1)
  }

  function ClientOf(chain: seq<Addr>, prefixes: seq<Prefix>): Addr
    requires chain != [] && AllValid(prefixes)
  {
    ClientFrom(chain, prefixes, |chain|)
  }

  /** a is the last untrusted address below i, or the first of all when there is none. */
  predicate IsClientBelow(chain: seq<Addr>, prefixes: seq<Prefix>, i: nat, a: Addr)
    requires chain != [] && i <= |chain| && AllValid(prefixes)
  {
    || (a == chain[0] && forall j :: 0 <= j < i ==> InSome(prefixes, chain[j]))
    || exists k :: 0 <= k < i && a == chain[k] && !InSome(prefixes, chain[k])
                   && forall j :: k < j < i ==> InSome(prefixes, chain[j])
  }

  lemma {:induction false} ClientFromIs(chain: seq<Addr>, prefixes: seq<Prefix>, i: nat)
    requires chain != [] && i <= |chain| && AllValid(prefixes)
    ensures IsClientBelow(chain, prefixes, i, ClientFrom(chain, prefixes, i))
  {
    if i > 0 && InSome(prefixes, chain[i - 1]) {
      ClientFromIs(chain, prefixes, i - 1);
    }
  }

  /** The client of a chain is its last untrusted address, or the first if all are trusted. */
  lemma ClientOfIs(chain: seq<Addr>, prefixes: seq<Prefix>)
    requires chain != [] && AllValid(prefixes)
    ensures IsClientBelow(chain, prefixes, |chain|, ClientOf(chain, prefixes))
  {
    ClientFromIs(chain, prefixes, |chain|);
  }

  /** The three results of the source; without an address the client is the peer, if untrusted. */
  function Resolve(t: AddrText, chain: seq<Addr>, prefixes: seq<Prefix>, peer: Addr): string
    requires AllValid(prefixes)
  {
    if chain != [] then t.show(ClientOf(chain, prefixes))
    else if !InSome(prefixes, peer) then t.show(peer)
    else ""
  }

  /** resolveClientIPFromChain. */
  method ResolveClientIPFromChain(t: AddrText, chain: seq<Addr>, prefixes: seq<Prefix>, peer: Addr) returns (s: string)
    requires AllValid(prefixes)
    ensures s == Resolve(t, chain, prefixes, peer)
    ensures chain != [] ==> exists a :: IsClientBelow(chain, prefixes, |chain|, a) && s == t.show(a)
    ensures chain == [] ==>
              s == if exists i :: 0 <= i < |prefixes| && prefixes[i].Contains(peer.Unmap()) then "" else t.show(peer)
  {
    if |chain| > 0 {
      ClientOfIs(chain, prefixes);
      var i := |chain| - 1;
      while i >= 0
        invariant -1 <= i < |chain|
        invariant ClientOf(chain, prefixes) == ClientFrom(chain, prefixes, i + 1)
      {
        var trusted := IsTrusted(prefixes, chain[i]);
        if !trusted {
          return t.show(chain[i]);
        }
        i := i - 1;
      }
      return t.show(chain[0]);
    }
    var trusted := IsTrusted(prefixes, peer);
    if !trusted {
      return t.show(peer);
    }
    return "";
  }

  /** parseForwardedValues: header lines, then elements, then parameters. */
  method ParseForwardedValues(t: AddrText, values: seq<string>, prefixes: seq<Prefix>, peer: Addr)
    returns (client: string, proto: string, host: string, ok: bool)
    requires AllValid(prefixes)
    ensures var w := TakeValues(t, NOTHING, values);
            && ok == (w.chain != [])
            && (ok ==> client == Resolve(t, w.chain, prefixes, peer) && proto == w.proto && host == w.host)
  {
    var chain: seq<Addr> := [];
    proto, host := "", "";
    for i := 0 to |values|
      invariant TakeValues(t, Forwarded(chain, proto, host), values[i..]) == TakeValues(t, NOTHING, values)
    {
      var elements := SplitHeaderValues(values[i], ',');
      ghost var line := TakeElements(t, Forwarded(chain, proto, host), elements);
      for j := 0 to |elements|
        invariant TakeElements(t, Forwarded(chain, proto, host), elements[j..]) == line
      {
        var params := SplitHeaderValues(elements[j], ';');
        var addr: Option<Addr> := None;
        ghost var element := TakeParams(t, Found(None, proto, host), params);
        for k := 0 to |params|
          invariant TakeParams(t, Found(addr, proto, host), params[k..]) == element
        {
          var found := TakeParam(t, Found(addr, proto, host), params[k]);
          addr, proto, host := found.addr, found.proto, found.host;
        }
        if addr.Some? {
          chain := chain + [addr.value];
        }
      }
    }
    if |chain| == 0 {
      return "", "", "", false;
    }
    client := ResolveClientIPFromChain(t, chain, prefixes, peer);
    ok := true;
  }
}
