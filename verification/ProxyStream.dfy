/** Reassembling an assistant message from a proxied event stream: text arrives in arbitrary chunks,
    is cut into `data: ` lines, and each line's event updates a partial message whose content blocks
    are addressed by index. The UTF-8 decoder, `JSON.parse` and `trim` are parameters. */
module ProxyStream {
  import opened Options
  import opened Strings

  // ----- Lines -----

  function Concat(chunks: seq<string>): string {
    if chunks == [] then "" else Concat(chunks[..|chunks| - 1]) + chunks[|chunks| - 1]
  }

  const Prefix := "data: "

  predicate IsData(line: string, trim: string -> string) {
    |line| >= 6 && line[..6] == Prefix && trim(line[6..]) != ""
  }

  function DataOf(lines: seq<string>, trim: string -> string): seq<string> {
    if lines == [] then []
    else (if IsData(lines[0], trim) then [trim(lines[0][6..])] else []) + DataOf(lines[1..], trim)
  }

  lemma {:induction false} DataOfAppend(a: seq<string>, b: seq<string>, trim: string -> string)
    ensures DataOf(a + b, trim) == DataOf(a, trim) + DataOf(b, trim)
  {
    if a == [] {
      assert a + b == b;
    } else {
      assert (a + b)[1..] == a[1..] + b;
      DataOfAppend(a[1..], b, trim);
    }
  }

  /** The data of every terminated line of a text; an unterminated last line is dropped. */
  function Payloads(text: string, trim: string -> string): seq<string> {
    DataOf(AllButLast(Split(text, '\n')), trim)
  }

  lemma PayloadsAppend(a: string, b: string, trim: string -> string)
    ensures Payloads(a + b, trim) == Payloads(a, trim) + Payloads(Last(Split(a, '\n')) + b, trim)
    ensures Last(Split(a + b, '\n')) == Last(Split(Last(Split(a, '\n')) + b, '\n'))
  {
    SplitAppend(a, b, '\n');
    var done, more := AllButLast(Split(a, '\n')), Split(Last(Split(a, '\n')) + b, '\n');
    assert AllButLast(done + more) == done + AllButLast(more);
    DataOfAppend(done, AllButLast(more), trim);
  }

  /** One round of the read loop's line splitter: the new buffer, and the data lines it completes. */
  function Feed(buffer: string, chunk: string, trim: string -> string): (string, seq<string>) {
    var lines := Split(buffer + chunk, '\n');
    (Last(lines), DataOf(AllButLast(lines), trim))
  }

  function FeedAll(chunks: seq<string>, trim: string -> string): (string, seq<string>) {
    if chunks == [] then ("", [])
    else
      var (buffer, data) := FeedAll(chunks[..|chunks| - 1], trim);
      var (next, more) := Feed(buffer, chunks[|chunks| - 1], trim);
      (next, data + more)
  }

  /** The incremental splitter refines splitting the whole text at once. */
  lemma {:induction false} FeedRefinesBatch(chunks: seq<string>, trim: string -> string)
    ensures FeedAll(chunks, trim) == (Last(Split(Concat(chunks), '\n')), Payloads(Concat(chunks), trim))
  {
    if chunks != [] {
      var past := chunks[..|chunks| - 1];
      FeedRefinesBatch(past, trim);
      PayloadsAppend(Concat(past), chunks[|chunks| - 1], trim);
    }
  }

  /** Every cut of the same text yields the same data lines in the same order. */
  lemma ChunkingIrrelevant(a: seq<string>, b: seq<string>, trim: string -> string)
    requires Concat(a) == Concat(b)
    ensures FeedAll(a, trim) == FeedAll(b, trim)
  {
    FeedRefinesBatch(a, trim);
    FeedRefinesBatch(b, trim);
  }

  // ----- Events -----

  datatype Kind = Text | Thinking | ToolCall

  /** `json` is the raw argument text of a tool call until its end event replaces the call. */
  datatype Block =
    | TextBlock(text: string, signature: Option<string>)
    | ThinkingBlock(text: string, signature: Option<string>)
    | ToolBlock(call: string, json: Option<string>)

  datatype Event =
    | Started
    | BlockStart(index: nat, kind: Kind, call: string)
    | BlockDelta(index: nat, kind: Kind, delta: string)
    | BlockEnd(index: nat, kind: Kind, signature: Option<string>, call: string)
    | Done(reason: string)
    | Failed(reason: string)

  datatype Message = Message(content: map<nat, Block>, stop: string)

  const Pending := Message(map[], "pending")

  /** What an event makes the stream report: nothing, an event, or an event quoting a finished block. */
  datatype Report = Silent | Reported | Quoted(text: string)

  predicate OfKind(b: Block, kind: Kind) {
    match kind
    case Text => b.TextBlock?
    case Thinking => b.ThinkingBlock?
    case ToolCall => b.ToolBlock?
  }

  function Fresh(kind: Kind, call: string): Block {
    match kind
    case Text => TextBlock("", None)
    case Thinking => ThinkingBlock("", None)
    case ToolCall => ToolBlock(call, Some(""))
  }

  /** A delta after the end of a tool call extends the text `undefined`. */
  function Extend(b: Block, delta: string): Block {
    match b
    case ToolBlock(call, json) => ToolBlock(call, Some((if json.Some? then json.value else "undefined") + delta))
    case TextBlock(text, signature) => TextBlock(text + delta, signature)
    case ThinkingBlock(text, signature) => ThinkingBlock(text + delta, signature)
  }

  function Close(b: Block, signature: Option<string>, call: string): Block {
    match b
    case ToolBlock(_, _) => ToolBlock(call, None)
    case TextBlock(text, _) => TextBlock(text, signature)
    case ThinkingBlock(text, _) => ThinkingBlock(text, signature)
  }

  predicate Open(m: Message, index: nat, kind: Kind) {
    index in m.content && OfKind(m.content[index], kind)
  }

  /** `None` when the event raises. */
  function Process(m: Message, e: Event): Option<Message> {
    match e
    case Started => Some(m)
    case BlockStart(i, kind, call) => Some(m.(content := m.content[i := Fresh(kind, call)]))
    case BlockDelta(i, kind, delta) =>
      if Open(m, i, kind) then Some(m.(content := m.content[i := Extend(m.content[i], delta)])) else None
    case BlockEnd(i, kind, signature, call) =>
      if Open(m, i, kind) then Some(m.(content := m.content[i := Close(m.content[i], signature, call)]))
      else if kind.ToolCall? then Some(m) else None
    case Done(reason) => Some(m.(stop := reason))
    case Failed(reason) => Some(m.(stop := reason))
  }

  function ReportOf(m: Message, e: Event): Report {
    if e.BlockEnd? && !Open(m, e.index, e.kind) then Silent
    else if e.BlockEnd? && !e.kind.ToolCall? then Quoted(m.content[e.index].text)
    else Reported
  }

  function ProcessAll(events: seq<Event>): Option<Message> {
    if events == [] then Some(Pending)
    else
      var before := ProcessAll(events[..|events| - 1]);
      if before.None? then None else Process(before.value, events[|events| - 1])
  }

  // ----- Each block is the concatenation of its deltas -----

  predicate StartsAt(e: Event, index: nat) { e.BlockStart? && e.index == index }
  predicate EndsAt(e: Event, index: nat) { e.BlockEnd? && e.index == index }

  function DeltasAt(events: seq<Event>, index: nat): string {
    if events == [] then ""
    else DeltasAt(events[..|events| - 1], index)
         + if events[|events| - 1].BlockDelta? && events[|events| - 1].index == index then events[|events| - 1].delta else ""
  }

  /** Position `s` is the last start of a block at `index`. */
  predicate LastStart(events: seq<Event>, index: nat, s: nat) {
    s < |events| && StartsAt(events[s], index) && forall i :: s < i < |events| ==> !StartsAt(events[i], index)
  }

  predicate Unended(events: seq<Event>, index: nat, s: nat) {
    forall i :: s < i < |events| ==> !EndsAt(events[i], index)
  }

  /** The block at `index` against the events since its start at `s`. */
  predicate Accumulated(events: seq<Event>, m: Message, index: nat, s: nat) {
    && LastStart(events, index, s) && index in m.content && OfKind(m.content[index], events[s].kind)
    && (match m.content[index]
        case ToolBlock(call, json) =>
          Unended(events, index, s) ==> json == Some(DeltasAt(events[s + 1..], index)) && call == events[s].call
        case block => block.text == DeltasAt(events[s + 1..], index))
  }

  lemma DeltasSnoc(events: seq<Event>, e: Event, index: nat)
    ensures DeltasAt(events + [e], index)
         == if e.BlockDelta? && e.index == index then DeltasAt(events, index) + e.delta else DeltasAt(events, index)
  {
    assert DeltasAt(events, index) + "" == DeltasAt(events, index);
    assert (events + [e])[..|events|] == events;
  }

  /** One more event that does not restart the block. */
  lemma BlockStep(before: Message, e: Event, after: Message, index: nat)
    requires index in before.content && Process(before, e) == Some(after) && !StartsAt(e, index)
    ensures index in after.content
    ensures var b := before.content[index];
            after.content[index] == if e.BlockDelta? && e.index == index then Extend(b, e.delta)
                                    else if EndsAt(e, index) && Open(before, index, e.kind) then Close(b, e.signature, e.call)
                                    else b
  {
  }

  lemma {:induction false} SameIndexStays(events: seq<Event>, e: Event, before: Message, after: Message, index: nat, s: nat)
    requires Accumulated(events, before, index, s) && Process(before, e) == Some(after) && !StartsAt(e, index)
    ensures Accumulated(events + [e], after, index, s)
  {
    var all := events + [e];
    assert LastStart(all, index, s);
    assert all[s + 1..] == events[s + 1..] + [e];
    DeltasSnoc(events[s + 1..], e, index);
    BlockStep(before, e, after, index);
    if Unended(all, index, s) {
      assert Unended(events, index, s) && !EndsAt(all[|events|], index);
    }
  }

  /** After any accepted event sequence there is a block at an index exactly if one was started there,
      and it is the concatenation of the deltas since its last start (a tool call's raw text, until
      its end event). */
  lemma {:induction false} BlocksAreTheirDeltas(events: seq<Event>, index: nat)
    requires ProcessAll(events).Some?
    ensures var m := ProcessAll(events).value;
            if index in m.content then exists s: nat :: Accumulated(events, m, index, s)
            else forall i :: 0 <= i < |events| ==> !StartsAt(events[i], index)
  {
    if events != [] {
      var n := |events| - 1;
      var past, e := events[..n], events[n];
      assert events == past + [e];
      BlocksAreTheirDeltas(past, index);
      var before, after := ProcessAll(past).value, ProcessAll(events).value;
      if StartsAt(e, index) {
        assert events[n + 1..] == [];
        assert Accumulated(events, after, index, n);
      } else if index in before.content {
        var s: nat :| Accumulated(past, before, index, s);
        SameIndexStays(past, e, before, after, index, s);
      } else {
        assert forall i :: 0 <= i < n ==> events[i] == past[i];
      }
    }
  }

  /** The text that an end event quotes is the concatenation of the block's deltas. */
  lemma EndQuotesTheWhole(events: seq<Event>, e: Event)
    requires ProcessAll(events).Some? && ReportOf(ProcessAll(events).value, e).Quoted?
    ensures exists s: nat :: LastStart(events, e.index, s)
              && ReportOf(ProcessAll(events).value, e).text == DeltasAt(events[s + 1..], e.index)
  {
    BlocksAreTheirDeltas(events, e.index);
    var m := ProcessAll(events).value;
    var s: nat :| Accumulated(events, m, e.index, s);
  }

  // ----- The read loop -----

  /** Handle payloads in order until one raises; the flag says whether all were accepted. */
  function Consume(m: Message, payloads: seq<string>, parse: string -> Option<Event>): (Message, bool)
    decreases |payloads|
  {
    if payloads == [] then (m, true)
    else
      var e := parse(payloads[0]);
      if e.None? || Process(m, e.value).None? then (m, false)
      else Consume(Process(m, e.value).value, payloads[1..], parse)
  }

  lemma {:induction false} ConsumeAppend(m: Message, a: seq<string>, b: seq<string>, parse: string -> Option<Event>)
    ensures var (n, ok) := Consume(m, a, parse);
            Consume(m, a + b, parse) == if ok then Consume(n, b, parse) else (n, false)
    decreases |a|
  {
    if a == [] {
      assert a + b == b;
    } else {
      assert (a + b)[1..] == a[1..] + b;
      var e := parse(a[0]);
      if e.Some? && Process(m, e.value).Some? {
        ConsumeAppend(Process(m, e.value).value, a[1..], b, parse);
      }
    }
  }

  /** The partial message, updated in place by the events of one response. */
  class PartialMessage {
    var content: map<nat, Block>
    var stop: string

    function View(): Message
      reads this
    {
      Message(content, stop)
    }

    constructor ()
      ensures View() == Pending
    {
      content, stop := map[], "pending";
    }

    method ProcessProxyEvent(e: Event) returns (ok: bool, report: Report)
      modifies this
      ensures ok == Process(old(View()), e).Some?
      ensures View() == if ok then Process(old(View()), e).value else old(View())
      ensures ok ==> report == ReportOf(old(View()), e)
    {
      ok, report := true, Reported;
      match e {
        case Started =>
        case BlockStart(i, kind, call) => content := content[i := Fresh(kind, call)];
        case BlockDelta(i, kind, delta) =>
          if i !in content || !OfKind(content[i], kind) { return false, Silent; }
          content := content[i := Extend(content[i], delta)];
        case BlockEnd(i, kind, signature, call) =>
          if i !in content || !OfKind(content[i], kind) { return kind.ToolCall?, Silent; }
          if !kind.ToolCall? { report := Quoted(content[i].text); }
          content := content[i := Close(content[i], signature, call)];
        case Done(reason) => stop := reason;
        case Failed(reason) => stop := reason;
      }
    }

    /** The lines of one buffer, until one raises. */
    method ConsumeLines(lines: seq<string>, trim: string -> string, parse: string -> Option<Event>) returns (ok: bool)
      modifies this
      ensures (View(), ok) == Consume(old(View()), DataOf(lines, trim), parse)
    {
      var n := 0;
      while n < |lines|
        invariant n <= |lines|
        invariant Consume(old(View()), DataOf(lines, trim), parse) == Consume(View(), DataOf(lines[n..], trim), parse)
      {
        var line := lines[n];
        assert lines[n..][0] == line && lines[n..][1..] == lines[n + 1..];
        assert !IsData(line, trim) ==> DataOf(lines[n..], trim) == DataOf(lines[n + 1..], trim);
        if |line| >= 6 && line[..6] == Prefix {
          var data := trim(line[6..]);
          if data != "" {
            assert DataOf(lines[n..], trim)[1..] == DataOf(lines[n + 1..], trim);
            var e := parse(data);
            if e.None? { return false; }
            var accepted, _ := ProcessProxyEvent(e.value);
            if !accepted { return false; }
          }
        }
        n := n + 1;
      }
      return true;
    }

    /** The read loop: whatever the chunking, the message ends as if the whole text had been split
        into lines at once. */
    method ReadAll(chunks: seq<string>, trim: string -> string, parse: string -> Option<Event>) returns (ok: bool)
      modifies this
      ensures (View(), ok) == Consume(old(View()), Payloads(Concat(chunks), trim), parse)
    {
      var buffer := "";
      var n := 0;
      while n < |chunks|
        invariant n <= |chunks|
        invariant buffer == Last(Split(Concat(chunks[..n]), '\n'))
        invariant Consume(old(View()), Payloads(Concat(chunks[..n]), trim), parse) == (View(), true)
      {
        ghost var past := Concat(chunks[..n]);
        assert chunks[..n + 1][..n] == chunks[..n];
        assert Concat(chunks[..n + 1]) == past + chunks[n];
        PayloadsAppend(past, chunks[n], trim);
        buffer := buffer + chunks[n];
        var lines := Split(buffer, '\n');
        ConsumeAppend(old(View()), Payloads(past, trim), DataOf(AllButLast(lines), trim), parse);
        buffer := Last(lines);
        ok := ConsumeLines(AllButLast(lines), trim, parse);
        if !ok {
          RaisesForGood(old(View()), chunks, n + 1, trim, parse);
          return;
        }
        n := n + 1;
      }
      assert chunks[..n] == chunks;
      return true;
    }
  }

  /** Once a payload raised, later chunks do not matter. */
  lemma RaisesForGood(m: Message, chunks: seq<string>, n: nat, trim: string -> string, parse: string -> Option<Event>)
    requires n <= |chunks| && !Consume(m, Payloads(Concat(chunks[..n]), trim), parse).1
    ensures Consume(m, Payloads(Concat(chunks), trim), parse) == Consume(m, Payloads(Concat(chunks[..n]), trim), parse)
    decreases |chunks| - n
  {
    if n == |chunks| {
      assert chunks[..n] == chunks;
    } else {
      var past := Concat(chunks[..n]);
      assert chunks[..n + 1][..n] == chunks[..n];
      PayloadsAppend(past, chunks[n], trim);
      ConsumeAppend(m, Payloads(past, trim), Payloads(Last(Split(past, '\n')) + chunks[n], trim), parse);
      RaisesForGood(m, chunks, n + 1, trim, parse);
    }
  }
}
