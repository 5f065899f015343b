/** From the wire to the message: what framed events arrive as, which event sequences raise, and what
    the finished message says besides its texts. */
module ProxyConduct {
  import opened Options
  import opened Strings
  import opened ProxyStream

  // ----- Framing -----

  /** A line as the server writes it: an event's data, or anything else. */
  datatype Line = Carries(data: string) | Other(text: string)

  function Written(line: Line): string {
    match line
    case Carries(data) => "data: " + data
    case Other(text) => text
  }

  function Wire(lines: seq<Line>): string {
    if lines == [] then "" else Written(lines[0]) + "\n" + Wire(lines[1..])
  }

  function Carried(lines: seq<Line>): seq<string> {
    if lines == [] then [] else (if lines[0].Carries? then [lines[0].data] else []) + Carried(lines[1..])
  }

  /** One line each; data is trimmed and not empty, and nothing else looks like data. */
  ghost predicate WellFramed(line: Line, trim: string -> string) {
    && '\n' !in Written(line)
    && match line
       case Carries(data) => data != "" && trim(data) == data
       case Other(text) => !IsData(text, trim)
  }

  lemma FramedLine(line: Line, trim: string -> string)
    requires WellFramed(line, trim)
    ensures DataOf([Written(line)], trim) == if line.Carries? then [line.data] else []
  {
    var text := Written(line);
    assert DataOf([text], trim) == (if IsData(text, trim) then [trim(text[6..])] else []) + DataOf([], trim);
    if line.Carries? {
      assert text[..6] == Prefix && text[6..] == line.data;
    }
  }

  /** Every data line of a stream arrives, trimmed, once and in order, and nothing else does. */
  lemma {:induction false} WireArrives(lines: seq<Line>, trim: string -> string)
    requires forall i :: 0 <= i < |lines| ==> WellFramed(lines[i], trim)
    ensures Payloads(Wire(lines), trim) == Carried(lines) && Last(Split(Wire(lines), '\n')) == ""
  {
    if lines != [] {
      var text, rest := Written(lines[0]), Wire(lines[1..]);
      WireArrives(lines[1..], trim);
      assert Wire(lines) == text + ['\n'] + rest;
      SplitAtSeparator(text, rest, '\n');
      var parts := Split(rest, '\n');
      assert AllButLast([text] + parts) == [text] + AllButLast(parts);
      DataOfAppend([text], AllButLast(parts), trim);
      FramedLine(lines[0], trim);
    }
  }

  // ----- Which events raise -----

  /** The kind of the block last started at an index. */
  function KindAt(events: seq<Event>, index: nat): Option<Kind> {
    if events == [] then None
    else
      var e := events[|events| - 1];
      if StartsAt(e, index) then Some(e.kind) else KindAt(events[..|events| - 1], index)
  }

  /** One event changes the kind at an index only by starting a block there. */
  lemma KindStep(m: Message, e: Event, index: nat, kind: Kind)
    requires Process(m, e).Some?
    ensures Open(Process(m, e).value, index, kind) <==> if StartsAt(e, index) then e.kind == kind else Open(m, index, kind)
  {
  }

  lemma {:induction false} KindsFollowStarts(events: seq<Event>, index: nat, kind: Kind)
    requires ProcessAll(events).Some?
    ensures Open(ProcessAll(events).value, index, kind) <==> KindAt(events, index) == Some(kind)
  {
    if events != [] {
      var past := events[..|events| - 1];
      KindsFollowStarts(past, index, kind);
      KindStep(ProcessAll(past).value, events[|events| - 1], index, kind);
    }
  }

  /** A delta, or the end of a text or of thinking, belongs to a started block of its kind. */
  predicate Belongs(past: seq<Event>, e: Event) {
    match e
    case BlockDelta(i, kind, _) => KindAt(past, i) == Some(kind)
    case BlockEnd(i, kind, _, _) => kind.ToolCall? || KindAt(past, i) == Some(kind)
    case _ => true
  }

  predicate Sequenced(events: seq<Event>) {
    events == [] || (Sequenced(events[..|events| - 1]) && Belongs(events[..|events| - 1], events[|events| - 1]))
  }

  /** A sequence of events is accepted exactly if each belongs where it comes. */
  lemma {:induction false} AcceptedIff(events: seq<Event>)
    ensures ProcessAll(events).Some? <==> Sequenced(events)
  {
    if events != [] {
      var past, e := events[..|events| - 1], events[|events| - 1];
      AcceptedIff(past);
      if ProcessAll(past).Some? && (e.BlockDelta? || e.BlockEnd?) {
        KindsFollowStarts(past, e.index, e.kind);
      }
    }
  }

  /** An event is passed on unless it ends a tool call where none is open. */
  lemma SilentIff(events: seq<Event>, e: Event)
    requires ProcessAll(events + [e]).Some?
    ensures ProcessAll(events).Some?
    ensures ReportOf(ProcessAll(events).value, e).Silent?
       <==> e.BlockEnd? && e.kind.ToolCall? && KindAt(events, e.index) != Some(ToolCall)
  {
    assert (events + [e])[..|events|] == events;
    if e.BlockEnd? { KindsFollowStarts(events, e.index, e.kind); }
  }

  // ----- The finished message -----

  /** The reason the last closing event gave. */
  function LastReason(events: seq<Event>): string {
    if events == [] then "pending"
    else
      var e := events[|events| - 1];
      if e.Done? || e.Failed? then e.reason else LastReason(events[..|events| - 1])
  }

  lemma {:induction false} StopIsLastReason(events: seq<Event>)
    requires ProcessAll(events).Some?
    ensures ProcessAll(events).value.stop == LastReason(events)
  {
    if events != [] {
      StopIsLastReason(events[..|events| - 1]);
    }
  }

  /** What is known of the block at an index besides its text. */
  datatype Tail = Unmarked | Signed(signature: Option<string>) | Called(call: string, json: Option<string>)

  /** Read off the events alone: a text or thinking block carries its last end's signature, a tool call
      what its last end or else its start gave it, with the argument text since. */
  function TailAt(events: seq<Event>, index: nat): Tail {
    if events == [] then Unmarked
    else
      var before, e := TailAt(events[..|events| - 1], index), events[|events| - 1];
      if StartsAt(e, index) then if e.kind.ToolCall? then Called(e.call, Some("")) else Signed(None)
      else if EndsAt(e, index) && e.kind.ToolCall? then if before.Called? then Called(e.call, None) else before
      else if EndsAt(e, index) then Signed(e.signature)
      else if e.BlockDelta? && e.index == index && before.Called? then
        Called(before.call, Some((if before.json.Some? then before.json.value else "undefined") + e.delta))
      else before
  }

  function TailOf(m: Message, index: nat): Tail {
    if index !in m.content then Unmarked
    else match m.content[index]
      case TextBlock(_, signature) => Signed(signature)
      case ThinkingBlock(_, signature) => Signed(signature)
      case ToolBlock(call, json) => Called(call, json)
  }

  lemma {:induction false} TailsFollowEnds(events: seq<Event>, index: nat)
    requires ProcessAll(events).Some?
    ensures TailOf(ProcessAll(events).value, index) == TailAt(events, index)
  {
    if events != [] {
      TailsFollowEnds(events[..|events| - 1], index);
    }
  }

  // ----- From payloads to events -----

  ghost predicate Parses(payloads: seq<string>, events: seq<Event>, parse: string -> Option<Event>) {
    |payloads| == |events| && forall i :: 0 <= i < |events| ==> parse(payloads[i]) == Some(events[i])
  }

  lemma ProcessFirst(m: Message, payloads: seq<string>, last: string, parse: string -> Option<Event>)
    ensures var (n, ok) := Consume(m, payloads, parse);
            Consume(m, payloads + [last], parse)
            == if ok && parse(last).Some? && Process(n, parse(last).value).Some? then (Process(n, parse(last).value).value, true) else (n, false)
  {
    ConsumeAppend(m, payloads, [last], parse);
    var (n, ok) := Consume(m, payloads, parse);
    if ok && parse(last).Some? && Process(n, parse(last).value).Some? {
      assert Consume(n, [last], parse) == Consume(Process(n, parse(last).value).value, [], parse);
    }
  }

  /** The loop makes of its payloads the message their events make, and stops at the first that raises. */
  lemma {:induction false} ConsumeIsProcessAll(payloads: seq<string>, events: seq<Event>, parse: string -> Option<Event>)
    requires Parses(payloads, events, parse)
    ensures var (m, ok) := Consume(Pending, payloads, parse);
            && (ok <==> Sequenced(events))
            && (ok ==> ProcessAll(events) == Some(m))
            && (!ok ==> exists k :: 0 <= k < |events| && ProcessAll(events[..k]) == Some(m) && !Belongs(events[..k], events[k]))
  {
    AcceptedIff(events);
    if events != [] {
      var n := |events| - 1;
      var past, e := events[..n], events[n];
      ConsumeIsProcessAll(payloads[..n], past, parse);
      ProcessFirst(Pending, payloads[..n], payloads[n], parse);
      assert payloads[..n] + [payloads[n]] == payloads;
      AcceptedIff(past);
      if !Sequenced(past) {
        var m := Consume(Pending, payloads[..n], parse).0;
        var k :| 0 <= k < |past| && ProcessAll(past[..k]) == Some(m) && !Belongs(past[..k], past[k]);
        assert past[..k] == events[..k] && past[k] == events[k];
      } else if !Sequenced(events) {
        assert ProcessAll(events[..n]) == Some(Consume(Pending, payloads, parse).0) && !Belongs(events[..n], events[n]);
      }
    }
  }

  /** End to end: events written one to a line, between any other lines and cut anywhere, make the
      message they make on the server's side. */
  lemma StreamRoundTrip(lines: seq<Line>, events: seq<Event>, chunks: seq<string>, trim: string -> string, parse: string -> Option<Event>)
    requires forall i :: 0 <= i < |lines| ==> WellFramed(lines[i], trim)
    requires Parses(Carried(lines), events, parse) && Concat(chunks) == Wire(lines) && Sequenced(events)
    ensures var (m, ok) := Consume(Pending, FeedAll(chunks, trim).1, parse); ok && ProcessAll(events) == Some(m)
  {
    FeedRefinesBatch(chunks, trim);
    WireArrives(lines, trim);
    ConsumeIsProcessAll(Carried(lines), events, parse);
  }
}
