/** Server-sent events: the encoder of pkg/filters/goja/framework_bootstrap.go against the
    event stream parser of the WHATWG HTML standard (sections 9.2.5 and 9.2.6). */
module ServerSentEvents {
  import opened HeaderText
  import opened Strings
  import opened Wrappers

  /** The arguments of one send; an absent option is the empty text, and a retry that is
      not positive is None.  `retry` is the number as JavaScript prints it. */
  datatype Send = Send(data: string, event: string, id: string, retry: Option<string>)

  const LF := '\n'
  const CR := '\r'

  predicate OneLine(s: string) {
    LF !in s && CR !in s
  }

  /** What a caller of the encoder must keep to: names, ids and numbers of one line. */
  predicate Sendable(s: Send) {
    && OneLine(s.event)
    && OneLine(s.id) && '\0' !in s.id
    && (s.retry.Some? ==> OneLine(s.retry.value))
  }

  // ---------------------------------------------------------------- the encoder

  function WithoutCR(s: string): string {
    if s == "" then "" else (if s[0] == CR then "" else [s[0]]) + WithoutCR(s[1..])
  }

  /** The text split at line feeds; always at least one line. */
  function SplitLines(s: string): (lines: seq<string>)
    ensures |lines| >= 1
  {
    if s == "" then [""]
    else
      var rest := SplitLines(s[1..]);
      if s[0] == LF then [""] + rest else [[s[0]] + rest[0]] + rest[1..]
  }

  /** The lines joined by line feeds: the inverse of SplitLines. */
  function JoinLines(lines: seq<string>): string
    requires |lines| >= 1
  {
    if |lines| == 1 then lines[0] else lines[0] + [LF] + JoinLines(lines[1..])
  }

  lemma JoinCons(line: string, rest: seq<string>)
    ensures JoinLines([line] + rest) == if rest == [] then line else line + [LF] + JoinLines(rest)
  {
    assert ([line] + rest)[1..] == rest;
  }

  lemma Regroup(c: char, line: string, joined: string)
    ensures ([c] + line) + [LF] + joined == [c] + (line + [LF] + joined)
  {
  }

  lemma JoinGrows(c: char, lines: seq<string>)
    requires |lines| >= 1
    ensures JoinLines([[c] + lines[0]] + lines[1..]) == [c] + JoinLines(lines)
  {
    var line, rest := lines[0], lines[1..];
    JoinCons([c] + line, rest);
    JoinCons(line, rest);
    assert [line] + rest == lines;
    if rest != [] {
      Regroup(c, line, JoinLines(rest));
    }
  }

  lemma {:induction false} JoinSplit(s: string)
    ensures JoinLines(SplitLines(s)) == s
    ensures forall i :: 0 <= i < |SplitLines(s)| ==> LF !in SplitLines(s)[i]
    ensures CR !in s ==> forall i :: 0 <= i < |SplitLines(s)| ==> CR !in SplitLines(s)[i]
  {
    if s != "" {
      JoinSplit(s[1..]);
      var rest := SplitLines(s[1..]);
      assert s == [s[0]] + s[1..];
      if s[0] == LF {
        assert SplitLines(s)[1..] == rest;
        assert JoinLines(SplitLines(s)) == "" + [LF] + JoinLines(rest);
      } else {
        JoinGrows(s[0], rest);
      }
    }
  }

  lemma {:induction false} WithoutCRConcat(a: string, b: string)
    ensures WithoutCR(a + b) == WithoutCR(a) + WithoutCR(b)
  {
    if a == "" {
      assert a + b == b;
    } else {
      assert (a + b)[0] == a[0] && (a + b)[1..] == a[1..] + b;
      WithoutCRConcat(a[1..], b);
    }
  }

  /** A text without carriage returns stays as it is. */
  lemma {:induction false} WithoutCRKeeps(s: string)
    ensures CR !in WithoutCR(s)
    ensures CR !in s ==> WithoutCR(s) == s
  {
    if s != "" {
      WithoutCRKeeps(s[1..]);
    }
  }

  lemma WithoutOnlyCR()
    ensures WithoutCR([CR]) == ""
  {
    assert [CR][1..] == "";
  }

  /** A carriage return is taken out wherever it stands, and nothing with it. */
  lemma WithoutCRTakesOut(a: string, b: string)
    ensures WithoutCR(a + [CR] + b) == WithoutCR(a) + WithoutCR(b)
  {
    WithoutCRConcat(a + [CR], b);
    WithoutCRConcat(a, [CR]);
    WithoutOnlyCR();
    assert WithoutCR(a) + "" == WithoutCR(a);
  }

  lemma {:induction false} SplitLinesCount(s: string)
    ensures |SplitLines(s)| == 1 + Count(s, LF)
  {
    if s != "" {
      SplitLinesCount(s[1..]);
    }
  }

  lemma {:induction false} WithoutCRCount(s: string)
    ensures Count(WithoutCR(s), LF) == Count(s, LF)
  {
    if s != "" {
      var rest := WithoutCR(s[1..]);
      WithoutCRCount(s[1..]);
      assert "" + rest == rest && ([s[0]] + rest)[1..] == rest;
    }
  }

  function FieldIf(given: bool, prefix: string, value: string): seq<string> {
    if given then [prefix + value] else []
  }

  function RetryText(s: Send): string {
    if s.retry.Some? then s.retry.value else ""
  }

  /** The lines of one payload before its data. */
  function HeadLines(s: Send): seq<string> {
    FieldIf(s.event != "", "event: ", s.event) + FieldIf(s.id != "", "id: ", s.id)
    + FieldIf(s.retry.Some?, "retry: ", RetryText(s))
  }

  /** The lines of one payload, without their line feeds. */
  function PayloadLines(s: Send): seq<string> {
    HeadLines(s) + DataLines(SplitLines(WithoutCR(s.data))) + [""]
  }

  function DataLines(lines: seq<string>): seq<string> {
    if lines == [] then [] else ["data: " + lines[0]] + DataLines(lines[1..])
  }

  /** One data line for each line of the text: one more than it has line feeds. */
  lemma PayloadLineCount(s: Send)
    ensures |PayloadLines(s)| == |HeadLines(s)| + (Count(s.data, LF) + 1) + 1
  {
    SplitLinesCount(WithoutCR(s.data));
    WithoutCRCount(s.data);
    DataLinesAt(SplitLines(WithoutCR(s.data)));
  }

  lemma {:induction false} DataLinesAt(lines: seq<string>)
    ensures |DataLines(lines)| == |lines|
    ensures forall i :: 0 <= i < |lines| ==> DataLines(lines)[i] == "data: " + lines[i]
  {
    if lines != [] {
      DataLinesAt(lines[1..]);
      forall i | 0 < i < |lines| ensures DataLines(lines)[i] == "data: " + lines[i] {
        assert DataLines(lines)[i] == DataLines(lines[1..])[i - 1] && lines[1..][i - 1] == lines[i];
      }
    }
  }

  /** Each line followed by a line feed. */
  function Terminated(lines: seq<string>): string {
    if lines == [] then "" else lines[0] + [LF] + Terminated(lines[1..])
  }

  lemma {:induction false} TerminatedConcat(a: seq<string>, b: seq<string>)
    ensures Terminated(a + b) == Terminated(a) + Terminated(b)
  {
    if a == [] {
      assert a + b == b;
    } else {
      assert (a + b)[1..] == a[1..] + b;
      TerminatedConcat(a[1..], b);
    }
  }

  lemma {:induction false} DataLinesConcat(a: seq<string>, b: seq<string>)
    ensures DataLines(a + b) == DataLines(a) + DataLines(b)
  {
    if a == [] {
      assert a + b == b;
    } else {
      assert (a + b)[1..] == a[1..] + b;
      DataLinesConcat(a[1..], b);
    }
  }

  lemma TerminatedSnoc(lines: seq<string>, line: string)
    ensures Terminated(lines + [line]) == Terminated(lines) + line + "\n"
  {
    TerminatedConcat(lines, [line]);
    assert Terminated([line]) == line + [LF] + Terminated([]) == line + "\n";
  }

  /** The optional lines at the front. */
  method EncodeHead(s: Send) returns (payload: string)
    ensures payload == Terminated(HeadLines(s))
    ensures payload == (if s.event != "" then "event: " + s.event + "\n" else "")
                       + (if s.id != "" then "id: " + s.id + "\n" else "")
                       + (if s.retry.Some? then "retry: " + s.retry.value + "\n" else "")
  {
    payload := "";
    ghost var done: seq<string> := [];
    if s.event != "" {
      payload := payload + ("event: " + s.event) + "\n";
      TerminatedSnoc(done, "event: " + s.event);
      done := done + ["event: " + s.event];
    }
    assert done == FieldIf(s.event != "", "event: ", s.event);
    if s.id != "" {
      payload := payload + ("id: " + s.id) + "\n";
      TerminatedSnoc(done, "id: " + s.id);
      done := done + ["id: " + s.id];
    }
    assert done == FieldIf(s.event != "", "event: ", s.event) + FieldIf(s.id != "", "id: ", s.id);
    if s.retry.Some? {
      payload := payload + ("retry: " + s.retry.value) + "\n";
      TerminatedSnoc(done, "retry: " + s.retry.value);
      done := done + ["retry: " + s.retry.value];
    }
    assert done == HeadLines(s);
  }

  /** The data lines, appended one by one. */
  method AppendData(before: string, lines: seq<string>) returns (payload: string)
    ensures payload == before + Terminated(DataLines(lines))
  {
    payload := before;
    for i := 0 to |lines|
      invariant payload == before + Terminated(DataLines(lines[..i]))
    {
      assert lines[..i + 1] == lines[..i] + [lines[i]];
      DataLinesConcat(lines[..i], [lines[i]]);
      assert DataLines([lines[i]]) == ["data: " + lines[i]];
      TerminatedSnoc(DataLines(lines[..i]), "data: " + lines[i]);
      ghost var done := Terminated(DataLines(lines[..i]));
      assert before + (done + ("data: " + lines[i]) + "\n") == before + done + ("data: " + lines[i]) + "\n";
      payload := payload + ("data: " + lines[i]) + "\n";
    }
    assert lines[..|lines|] == lines;
  }

  /** encodeSSEPayload: the payload grows line by line and ends with an empty line. */
  method EncodePayload(s: Send) returns (payload: string)
    ensures payload == Terminated(PayloadLines(s))
  {
    payload := EncodeHead(s);
    var lines := SplitLines(WithoutCR(s.data));
    TerminatedConcat(HeadLines(s), DataLines(lines));
    payload := AppendData(payload, lines);
    TerminatedSnoc(HeadLines(s) + DataLines(lines), "");
    payload := payload + "\n";
  }

  // ---------------------------------------------------------------- the parser

  /** The stream cut into lines ended by CR LF, LF or CR; an unfinished line is dropped. */
  function StreamLines(s: string): seq<string> {
    LinesFrom(s, "")
  }

  function LinesFrom(s: string, line: string): seq<string>
    decreases |s|
  {
    if s == "" then []
    else if s[0] == CR && |s| > 1 && s[1] == LF then [line] + LinesFrom(s[2..], "")
    else if s[0] == CR || s[0] == LF then [line] + LinesFrom(s[1..], "")
    else LinesFrom(s[1..], line + [s[0]])
  }

  datatype Event = Event(kind: string, data: string, lastId: string)

  /** The parser's buffers and the events it has dispatched. */
  datatype Parser = Parser(data: string, kind: string, id: string, retry: Option<string>, events: seq<Event>)

  const FRESH := Parser("", "", "", None, [])

  predicate AllDigits(s: string) {
    s != "" && forall i :: 0 <= i < |s| ==> '0' <= s[i] <= '9'
  }

  function Field(p: Parser, name: string, value: string): Parser {
    if name == "event" then p.(kind := value)
    else if name == "data" then p.(data := p.data + value + [LF])
    else if name == "id" then (if '\0' in value then p else p.(id := value))
    else if name == "retry" then (if AllDigits(value) then p.(retry := Some(value)) else p)
    else p
  }

  function Dispatch(p: Parser): Parser {
    if p.data == "" then p.(kind := "")
    else
      var data := if p.data[|p.data| - 1] == LF then p.data[..|p.data| - 1] else p.data;
      var kind := if p.kind == "" then "message" else p.kind;
      p.(data := "", kind := "", events := p.events + [Event(kind, data, p.id)])
  }

  function TakeLine(p: Parser, line: string): Parser {
    if line == "" then Dispatch(p)
    else
      var i := IndexOf(line, ':');
      if i == 0 then p
      else if i == |line| then Field(p, line, "")
      else
        var value := line[i + 1..];
        Field(p, line[..i], if value != "" && value[0] == ' ' then value[1..] else value)
  }

  function TakeLines(p: Parser, lines: seq<string>): Parser
    decreases |lines|
  {
    if lines == [] then p else TakeLines(TakeLine(p, lines[0]), lines[1..])
  }

  /** The stream up to here, without the byte order mark it may begin with. */
  function Parse(stream: string): Parser {
    TakeLines(FRESH, StreamLines(if stream != "" && stream[0] == '\U{FEFF}' then stream[1..] else stream))
  }

  // ---------------------------------------------------------------- round trip

  lemma {:induction false} LineScanned(line: string, rest: string, before: string)
    requires OneLine(line)
    ensures LinesFrom(line + [LF] + rest, before) == [before + line] + LinesFrom(rest, "")
    decreases |line|
  {
    var s := line + [LF] + rest;
    if line == "" {
      assert s[0] == LF && s[1..] == rest && before + line == before;
    } else {
      assert s[0] == line[0] && s[1..] == line[1..] + [LF] + rest;
      LineScanned(line[1..], rest, before + [line[0]]);
      assert before + line == before + [line[0]] + line[1..];
    }
  }

  /** The parser sees exactly the lines that were terminated. */
  lemma {:induction false} StreamLinesOfTerminated(lines: seq<string>)
    requires forall i :: 0 <= i < |lines| ==> OneLine(lines[i])
    ensures StreamLines(Terminated(lines)) == lines
  {
    if lines != [] {
      LineScanned(lines[0], Terminated(lines[1..]), "");
      assert "" + lines[0] == lines[0];
      StreamLinesOfTerminated(lines[1..]);
    }
  }

  lemma {:induction false} TakeLinesConcat(p: Parser, a: seq<string>, b: seq<string>)
    ensures TakeLines(p, a + b) == TakeLines(TakeLines(p, a), b)
    decreases |a|
  {
    if a == [] {
      assert a + b == b;
    } else {
      assert (a + b)[0] == a[0] && (a + b)[1..] == a[1..] + b;
      TakeLinesConcat(TakeLine(p, a[0]), a[1..], b);
    }
  }

  /** A "name: value" line sets that field to exactly the value, blanks and colons kept. */
  lemma FieldLine(p: Parser, name: string, value: string)
    requires name != "" && ':' !in name
    ensures TakeLine(p, name + ": " + value) == Field(p, name, value)
  {
    var line := name + ": " + value;
    assert forall j :: 0 <= j < |name| ==> line[j] == name[j] && name[j] in name;
    assert line[|name|] == ':';
    assert IndexOf(line, ':') == |name|;
    assert line[..|name|] == name && line[|name| + 1..] == " " + value;
    assert (" " + value)[1..] == value;
  }

  lemma {:induction false} DataLinesTaken(p: Parser, lines: seq<string>)
    requires |lines| >= 1
    ensures TakeLines(p, DataLines(lines)) == p.(data := p.data + JoinLines(lines) + [LF])
    decreases |lines|
  {
    FieldLine(p, "data", lines[0]);
    var first := p.data + lines[0] + [LF];
    var q := p.(data := first);
    assert DataLines(lines)[0] == "data" + ": " + lines[0] && DataLines(lines)[1..] == DataLines(lines[1..]);
    if |lines| > 1 {
      DataLinesTaken(q, lines[1..]);
      var rest := JoinLines(lines[1..]);
      assert first + rest == p.data + (lines[0] + [LF] + rest);
    } else {
      assert DataLines(lines[1..]) == [];
    }
  }

  /** What a listener is told about a send that follows one with the given last id. */
  function Told(s: Send, lastId: string): Event {
    Event(if s.event == "" then "message" else s.event, WithoutCR(s.data), if s.id == "" then lastId else s.id)
  }

  /** The parser after one whole payload. */
  function Heard(p: Parser, s: Send): Parser {
    var told := Told(s, p.id);
    p.(data := "", kind := "", id := told.lastId, events := p.events + [told],
       retry := if s.retry.Some? && AllDigits(s.retry.value) then s.retry else p.retry)
  }

  lemma OptionalField(p: Parser, given: bool, name: string, prefix: string, value: string)
    requires name != "" && ':' !in name && prefix == name + ": "
    ensures TakeLines(p, FieldIf(given, prefix, value)) == if given then Field(p, name, value) else p
  {
    if given {
      FieldLine(p, name, value);
      assert FieldIf(given, prefix, value)[1..] == [];
    }
  }

  lemma HeadHeard(p: Parser, s: Send)
    requires Sendable(s) && p.kind == ""
    ensures TakeLines(p, HeadLines(s)) ==
              p.(kind := s.event, id := if s.id == "" then p.id else s.id,
                 retry := if s.retry.Some? && AllDigits(s.retry.value) then s.retry else p.retry)
  {
    var event, id := FieldIf(s.event != "", "event: ", s.event), FieldIf(s.id != "", "id: ", s.id);
    OptionalField(p, s.event != "", "event", "event: ", s.event);
    var p1 := TakeLines(p, event);
    OptionalField(p1, s.id != "", "id", "id: ", s.id);
    TakeLinesConcat(p, event, id);
    var p2 := TakeLines(p1, id);
    OptionalField(p2, s.retry.Some?, "retry", "retry: ", RetryText(s));
    TakeLinesConcat(p, event + id, FieldIf(s.retry.Some?, "retry: ", RetryText(s)));
  }

  lemma PayloadHeard(p: Parser, s: Send)
    requires Sendable(s) && p.data == "" && p.kind == ""
    ensures TakeLines(p, PayloadLines(s)) == Heard(p, s)
  {
    var text := WithoutCR(s.data);
    var lines := SplitLines(text);
    HeadHeard(p, s);
    var p1 := TakeLines(p, HeadLines(s));
    DataLinesTaken(p1, lines);
    JoinSplit(text);
    TakeLinesConcat(p, HeadLines(s), DataLines(lines));
    TakeLinesConcat(p, HeadLines(s) + DataLines(lines), [""]);
    var p2 := p1.(data := text + [LF]);
    assert p1.data + text + [LF] == p2.data;
    assert TakeLines(p2, [""]) == TakeLine(p2, "");
    assert p2.data[..|p2.data| - 1] == text;
  }

  function Blocks(sends: seq<Send>): seq<seq<string>> {
    seq(|sends|, i requires 0 <= i < |sends| => PayloadLines(sends[i]))
  }

  function Concat(blocks: seq<seq<string>>): seq<string> {
    if blocks == [] then [] else blocks[0] + Concat(blocks[1..])
  }

  /** The payloads one after the other, as they arrive on the stream. */
  function Payloads(blocks: seq<seq<string>>): string {
    if blocks == [] then "" else Terminated(blocks[0]) + Payloads(blocks[1..])
  }

  function Stream(sends: seq<Send>): string {
    Payloads(Blocks(sends))
  }

  /** The events of a series of sends; an id stays in force until the next one. */
  function AllTold(sends: seq<Send>, lastId: string): seq<Event> {
    if sends == [] then []
    else [Told(sends[0], lastId)] + AllTold(sends[1..], Told(sends[0], lastId).lastId)
  }

  lemma {:induction false} DataLinesOneLine(lines: seq<string>)
    requires forall i :: 0 <= i < |lines| ==> OneLine(lines[i])
    ensures forall i :: 0 <= i < |DataLines(lines)| ==> OneLine(DataLines(lines)[i])
  {
    if lines != [] {
      DataLinesOneLine(lines[1..]);
    }
  }

  lemma FieldIfOneLine(given: bool, prefix: string, value: string)
    requires OneLine(prefix) && (given ==> OneLine(value))
    ensures AllOneLine(FieldIf(given, prefix, value))
  {
  }

  lemma BothOneLine(a: seq<string>, b: seq<string>)
    requires AllOneLine(a) && AllOneLine(b)
    ensures AllOneLine(a + b)
  {
  }

  lemma HeadLinesOneLine(s: Send)
    requires Sendable(s)
    ensures AllOneLine(HeadLines(s))
  {
    var event, id := FieldIf(s.event != "", "event: ", s.event), FieldIf(s.id != "", "id: ", s.id);
    FieldIfOneLine(s.event != "", "event: ", s.event);
    FieldIfOneLine(s.id != "", "id: ", s.id);
    FieldIfOneLine(s.retry.Some?, "retry: ", RetryText(s));
    BothOneLine(event, id);
    BothOneLine(event + id, FieldIf(s.retry.Some?, "retry: ", RetryText(s)));
  }

  lemma PayloadLinesOneLine(s: Send)
    requires Sendable(s)
    ensures AllOneLine(PayloadLines(s))
  {
    var data := SplitLines(WithoutCR(s.data));
    WithoutCRKeeps(s.data);
    JoinSplit(WithoutCR(s.data));
    DataLinesOneLine(data);
    HeadLinesOneLine(s);
    BothOneLine(HeadLines(s), DataLines(data));
    BothOneLine(HeadLines(s) + DataLines(data), [""]);
  }

  ghost predicate AllOneLine(lines: seq<string>) {
    forall i :: 0 <= i < |lines| ==> OneLine(lines[i])
  }

  lemma {:induction false} PayloadsAreLines(blocks: seq<seq<string>>)
    ensures Payloads(blocks) == Terminated(Concat(blocks))
    ensures (forall i :: 0 <= i < |blocks| ==> AllOneLine(blocks[i])) ==> AllOneLine(Concat(blocks))
  {
    if blocks != [] {
      PayloadsAreLines(blocks[1..]);
      TerminatedConcat(blocks[0], Concat(blocks[1..]));
    }
  }

  lemma {:induction false} BlocksTaken(states: seq<Parser>, blocks: seq<seq<string>>)
    requires |states| == |blocks| + 1
    requires forall i :: 0 <= i < |blocks| ==> TakeLines(states[i], blocks[i]) == states[i + 1]
    ensures TakeLines(states[0], Concat(blocks)) == states[|blocks|]
    decreases |blocks|
  {
    if blocks != [] {
      TakeLinesConcat(states[0], blocks[0], Concat(blocks[1..]));
      BlocksTaken(states[1..], blocks[1..]);
    }
  }

  /** The reconnection time in force after some sends: the last one made of digits only. */
  function LastRetry(sends: seq<Send>, before: Option<string>): Option<string>
    decreases |sends|
  {
    if sends == [] then before
    else
      var retry := sends[0].retry;
      LastRetry(sends[1..], if retry.Some? && AllDigits(retry.value) then retry else before)
  }

  /** The parser before each send and after the last. */
  lemma {:induction false} HeardStates(p: Parser, sends: seq<Send>) returns (states: seq<Parser>)
    requires p.data == "" && p.kind == ""
    ensures |states| == |sends| + 1 && states[0] == p
    ensures forall i :: 0 <= i < |sends| ==>
              states[i].data == "" && states[i].kind == "" && states[i + 1] == Heard(states[i], sends[i])
    ensures states[|sends|].events == p.events + AllTold(sends, p.id)
    ensures states[|sends|].retry == LastRetry(sends, p.retry)
    decreases |sends|
  {
    if sends == [] {
      states := [p];
    } else {
      var q := Heard(p, sends[0]);
      var rest := HeardStates(q, sends[1..]);
      states := [p] + rest;
      var later := AllTold(sends[1..], q.id);
      assert p.events + [Told(sends[0], p.id)] + later == p.events + ([Told(sends[0], p.id)] + later);
    }
  }

  /** One event for each send; a text without carriage returns arrives as it was sent. */
  lemma {:induction false} ToldAsSent(sends: seq<Send>, lastId: string)
    ensures |AllTold(sends, lastId)| == |sends|
    ensures forall i :: 0 <= i < |sends| && CR !in sends[i].data ==> AllTold(sends, lastId)[i].data == sends[i].data
    decreases |sends|
  {
    if sends != [] {
      var told := AllTold(sends, lastId);
      WithoutCRKeeps(sends[0].data);
      ToldAsSent(sends[1..], told[0].lastId);
      forall i | 0 < i < |sends| && CR !in sends[i].data ensures told[i].data == sends[i].data {
        assert told[i] == AllTold(sends[1..], told[0].lastId)[i - 1] && sends[1..][i - 1] == sends[i];
      }
    }
  }

  lemma NoByteOrderMark(sends: seq<Send>)
    ensures Stream(sends) != "" ==> Stream(sends)[0] != '\U{FEFF}'
  {
    if sends != [] {
      var s := sends[0];
      var lines := Blocks(sends)[0];
      var data := SplitLines(WithoutCR(s.data));
      assert DataLines(data)[0] == "data: " + data[0];
      assert lines[0] == (if s.event != "" then "event: " + s.event
                          else if s.id != "" then "id: " + s.id
                          else if s.retry.Some? then "retry: " + s.retry.value
                          else "data: " + data[0]);
      assert Stream(sends)[0] == lines[0][0];
    }
  }

  /** The parser reads a stream of payloads as their lines. */
  lemma StreamRead(sends: seq<Send>)
    requires forall i :: 0 <= i < |sends| ==> Sendable(sends[i])
    ensures Parse(Stream(sends)) == TakeLines(FRESH, Concat(Blocks(sends)))
  {
    var blocks := Blocks(sends);
    forall i | 0 <= i < |blocks| ensures AllOneLine(blocks[i]) {
      PayloadLinesOneLine(sends[i]);
    }
    NoByteOrderMark(sends);
    PayloadsAreLines(blocks);
    StreamLinesOfTerminated(Concat(blocks));
  }

  /** Round trip.  The parser turns the concatenated payloads back into exactly one event
      per send, in order: its type, its text without carriage returns (empty lines, leading
      blanks and embedded line feeds included), and the id in force.  It ends with the last
      reconnection time made of digits. */
  lemma RoundTrip(sends: seq<Send>)
    requires forall i :: 0 <= i < |sends| ==> Sendable(sends[i])
    ensures Parse(Stream(sends)).events == AllTold(sends, "") && |AllTold(sends, "")| == |sends|
    ensures forall i :: 0 <= i < |sends| && CR !in sends[i].data ==> AllTold(sends, "")[i].data == sends[i].data
    ensures Parse(Stream(sends)).retry == LastRetry(sends, None)
  {
    var blocks := Blocks(sends);
    var states := HeardStates(FRESH, sends);
    forall i | 0 <= i < |sends| ensures TakeLines(states[i], blocks[i]) == states[i + 1] {
      PayloadHeard(states[i], sends[i]);
    }
    StreamRead(sends);
    BlocksTaken(states, blocks);
    ToldAsSent(sends, "");
  }

  // ---------------------------------------------------------------- exactness

  ghost predicate Clean(p: Parser) {
    && OneLine(p.kind) && OneLine(p.id) && '\0' !in p.id
    && forall i :: 0 <= i < |p.events| ==>
         OneLine(p.events[i].kind) && OneLine(p.events[i].lastId) && '\0' !in p.events[i].lastId
  }

  lemma {:induction false} LinesAreOneLine(s: string, line: string)
    requires OneLine(line)
    ensures forall i :: 0 <= i < |LinesFrom(s, line)| ==> OneLine(LinesFrom(s, line)[i])
    decreases |s|
  {
    if s == "" {
    } else if s[0] == CR && |s| > 1 && s[1] == LF {
      LinesAreOneLine(s[2..], "");
    } else if s[0] == CR || s[0] == LF {
      LinesAreOneLine(s[1..], "");
    } else {
      LinesAreOneLine(s[1..], line + [s[0]]);
    }
  }

  lemma PartsOneLine(line: string, i: nat)
    requires OneLine(line) && i <= |line|
    ensures OneLine(line[..i]) && OneLine(line[i..])
  {
  }

  lemma TakeLineClean(p: Parser, line: string)
    requires Clean(p) && OneLine(line)
    ensures Clean(TakeLine(p, line))
  {
    var i := IndexOf(line, ':');
    PartsOneLine(line, i);
    if i < |line| {
      PartsOneLine(line, i + 1);
      if line[i + 1..] != "" {
        PartsOneLine(line[i + 1..], 1);
      }
    }
  }

  lemma {:induction false} TakeLinesClean(p: Parser, lines: seq<string>)
    requires Clean(p) && forall i :: 0 <= i < |lines| ==> OneLine(lines[i])
    ensures Clean(TakeLines(p, lines))
    decreases |lines|
  {
    if lines != [] {
      TakeLineClean(p, lines[0]);
      TakeLinesClean(TakeLine(p, lines[0]), lines[1..]);
    }
  }

  lemma {:induction false} CleanTellsSendable(sends: seq<Send>, lastId: string)
    requires forall i :: 0 <= i < |sends| && sends[i].retry.Some? ==> OneLine(sends[i].retry.value)
    requires forall i :: 0 <= i < |AllTold(sends, lastId)| ==>
               var e := AllTold(sends, lastId)[i];
               OneLine(e.kind) && OneLine(e.lastId) && '\0' !in e.lastId
    ensures forall i :: 0 <= i < |sends| ==> Sendable(sends[i])
    decreases |sends|
  {
    if sends != [] {
      var all := AllTold(sends, lastId);
      assert all[0] == Told(sends[0], lastId);
      var rest := AllTold(sends[1..], all[0].lastId);
      forall i | 0 <= i < |rest|
        ensures OneLine(rest[i].kind) && OneLine(rest[i].lastId) && '\0' !in rest[i].lastId
      {
        assert rest[i] == all[i + 1];
      }
      CleanTellsSendable(sends[1..], all[0].lastId);
    }
  }

  /** The condition is exact: with an event name or an id that spans lines, or an id with a
      NUL, the parser never reports what was sent. */
  lemma RoundTripExactly(sends: seq<Send>)
    requires forall i :: 0 <= i < |sends| && sends[i].retry.Some? ==> OneLine(sends[i].retry.value)
    ensures Parse(Stream(sends)).events == AllTold(sends, "") <==>
              forall i :: 0 <= i < |sends| ==> Sendable(sends[i])
  {
    var stream := Stream(sends);
    var text := if stream != "" && stream[0] == '\U{FEFF}' then stream[1..] else stream;
    LinesAreOneLine(text, "");
    TakeLinesClean(FRESH, StreamLines(text));
    if Parse(stream).events == AllTold(sends, "") {
      CleanTellsSendable(sends, "");
    }
    if forall i :: 0 <= i < |sends| ==> Sendable(sends[i]) {
      RoundTrip(sends);
    }
  }
}
