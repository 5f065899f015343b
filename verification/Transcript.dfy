/** Messages of the agent transcript, the tool calls a transcript leaves unanswered, and what it
    means for a transcript to record every tool result at most once.
    Timestamps, usage and provider fields carry no control flow and are left out. */
module Transcript {
  import opened Options

  datatype ToolCall = ToolCall(id: string, name: string, arguments: string)

  datatype Block = Text(text: string) | Thinking(thinking: string) | Call(call: ToolCall)

  datatype StopReason = Stop | Length | ToolUse | Failed | Cancelled

  datatype Message =
    | User(body: string)
    | Custom(body: string)
    | Assistant(content: seq<Block>, stop: StopReason)
    | ToolResult(callId: string, toolName: string, text: string, isError: bool)

  /** The tool calls of an assistant message, in source order. */
  function Calls(content: seq<Block>): (calls: seq<ToolCall>)
    ensures forall c :: c in calls <==> Call(c) in content
  {
    if content == [] then []
    else
      var rest := Calls(content[..|content| - 1]);
      var last := content[|content| - 1];
      assert content == content[..|content| - 1] + [last];
      if last.Call? then rest + [last.call] else rest
  }

  predicate DistinctIds(calls: seq<ToolCall>) {
    forall i, j :: 0 <= i < j < |calls| ==> calls[i].id != calls[j].id
  }

  function Ids(calls: seq<ToolCall>): (ids: set<string>) {
    set i | 0 <= i < |calls| :: calls[i].id
  }

  /** The calls whose id is not in `answered`, in order. */
  function Unanswered(calls: seq<ToolCall>, answered: set<string>): (rest: seq<ToolCall>)
    ensures forall c :: c in rest <==> c in calls && c.id !in answered
    ensures DistinctIds(calls) ==> DistinctIds(rest)
  {
    if calls == [] then []
    else
      var last := calls[|calls| - 1];
      var rest := Unanswered(calls[..|calls| - 1], answered);
      assert calls == calls[..|calls| - 1] + [last];
      if last.id in answered then rest else rest + [last]
  }

  lemma UnansweredIds(calls: seq<ToolCall>, answered: set<string>)
    ensures Ids(Unanswered(calls, answered)) == Ids(calls) - answered
  {
    var rest := Unanswered(calls, answered);
    forall id | id in Ids(calls) - answered
      ensures id in Ids(rest)
    {
      var i :| 0 <= i < |calls| && calls[i].id == id;
      assert calls[i] in rest;
    }
    forall id | id in Ids(rest)
      ensures id in Ids(calls) - answered
    {
      var i :| 0 <= i < |rest| && rest[i].id == id;
      assert rest[i] in calls;
    }
  }

  // ----- Pending tool calls -----

  datatype Pending = Pending(assistant: Message, calls: seq<ToolCall>)

  /** The backward scan as a recursion: `answered` are the ids of the results already passed. */
  function PendingFrom(messages: seq<Message>, answered: set<string>): Option<Pending> {
    if messages == [] then None
    else
      var front := messages[..|messages| - 1];
      match messages[|messages| - 1]
      case ToolResult(id, _, _, _) => PendingFrom(front, answered + {id})
      case User(_) => None
      case Custom(_) => PendingFrom(front, answered)
      case Assistant(content, stop) =>
        var open := Unanswered(Calls(content), answered);
        if stop == ToolUse && open != [] then Some(Pending(messages[|messages| - 1], open)) else None
  }

  function PendingCalls(messages: seq<Message>): Option<Pending> {
    PendingFrom(messages, {})
  }

  method FindPendingToolCalls(messages: seq<Message>) returns (pending: Option<Pending>)
    ensures pending == PendingCalls(messages)
  {
    var answered: set<string> := {};
    var index := |messages|;
    assert messages[..index] == messages;
    while index > 0
      invariant 0 <= index <= |messages|
      invariant PendingCalls(messages) == PendingFrom(messages[..index], answered)
    {
      index := index - 1;
      var message := messages[index];
      assert messages[..index + 1][..index] == messages[..index];
      match message {
        case ToolResult(id, _, _, _) => answered := answered + {id};
        case User(_) => return None;
        case Custom(_) =>
        case Assistant(content, stop) =>
          if stop != ToolUse { return None; }
          var open := Unanswered(Calls(content), answered);
          return if open != [] then Some(Pending(message, open)) else None;
      }
    }
    pending := None;
  }

  // ----- The open turn, read forwards -----

  /** The assistant message that later results answer, and the ids answered since. */
  datatype Turn = Turn(assistant: Message, answered: set<string>)

  /** What appending one message does to the open turn: a user message settles it, an assistant
      message replaces it, a tool result answers one call. */
  function Extend(turn: Option<Turn>, m: Message): Option<Turn> {
    match m
    case User(_) => None
    case Custom(_) => turn
    case Assistant(_, _) => Some(Turn(m, {}))
    case ToolResult(id, _, _, _) =>
      if turn.None? then None else Some(turn.value.(answered := turn.value.answered + {id}))
  }

  function OpenTurn(messages: seq<Message>): (turn: Option<Turn>)
    ensures turn.Some? ==> turn.value.assistant.Assistant?
  {
    if messages == [] then None
    else Extend(OpenTurn(messages[..|messages| - 1]), messages[|messages| - 1])
  }

  function OpenCalls(messages: seq<Message>): seq<ToolCall> {
    match OpenTurn(messages)
    case None => []
    case Some(t) => Unanswered(Calls(t.assistant.content), t.answered)
  }

  /** Ids of the open turn's calls that have no result yet. */
  function Outstanding(messages: seq<Message>): set<string> {
    Ids(OpenCalls(messages))
  }

  lemma OpenTurnAppend(messages: seq<Message>, m: Message)
    ensures OpenTurn(messages + [m]) == Extend(OpenTurn(messages), m)
  {
    assert (messages + [m])[..|messages|] == messages;
  }

  lemma OutstandingAppend(messages: seq<Message>, m: Message)
    ensures m.User? ==> Outstanding(messages + [m]) == {}
    ensures m.Custom? ==> Outstanding(messages + [m]) == Outstanding(messages)
    ensures m.Assistant? ==> Outstanding(messages + [m]) == Ids(Calls(m.content))
    ensures m.ToolResult? ==> Outstanding(messages + [m]) == Outstanding(messages) - {m.callId}
  {
    OpenTurnAppend(messages, m);
    if m.Assistant? {
      UnansweredIds(Calls(m.content), {});
    } else if m.ToolResult? && OpenTurn(messages).Some? {
      var t := OpenTurn(messages).value;
      UnansweredIds(Calls(t.assistant.content), t.answered);
      UnansweredIds(Calls(t.assistant.content), t.answered + {m.callId});
    }
  }

  /** The backward scan finds exactly the open turn's unanswered calls, in source order, when that
      turn stopped for tool use and still has one. */
  lemma {:induction false} PendingIsOpen(messages: seq<Message>)
    ensures PendingCalls(messages) ==
            var t := OpenTurn(messages);
            if t.Some? && t.value.assistant.stop == ToolUse && OpenCalls(messages) != []
            then Some(Pending(t.value.assistant, OpenCalls(messages))) else None
  {
    PendingFromIsOpen(messages, {});
    if OpenTurn(messages).Some? {
      assert OpenTurn(messages).value.answered + {} == OpenTurn(messages).value.answered;
    }
  }

  lemma {:induction false} PendingFromIsOpen(messages: seq<Message>, later: set<string>)
    ensures PendingFrom(messages, later) ==
            match OpenTurn(messages)
            case None => None
            case Some(t) =>
              var open := Unanswered(Calls(t.assistant.content), t.answered + later);
              if t.assistant.stop == ToolUse && open != [] then Some(Pending(t.assistant, open)) else None
  {
    if messages != [] {
      var front, last := messages[..|messages| - 1], messages[|messages| - 1];
      match last {
        case ToolResult(id, _, _, _) =>
          PendingFromIsOpen(front, later + {id});
          if OpenTurn(front).Some? {
            var t := OpenTurn(front).value;
            assert (t.answered + {id}) + later == t.answered + (later + {id});
          }
        case Custom(_) => PendingFromIsOpen(front, later);
        case User(_) =>
        case Assistant(_, _) => assert {} + later == later;
      }
    }
  }

  /** After a tool-use turn the ids found pending are exactly the outstanding ones. */
  lemma PendingIds(messages: seq<Message>)
    ensures Outstanding(messages) == {} ==> PendingCalls(messages).None?
    ensures OpenTurn(messages).Some? && OpenTurn(messages).value.assistant.stop == ToolUse ==>
              Outstanding(messages) == if PendingCalls(messages).Some? then Ids(PendingCalls(messages).value.calls) else {}
  {
    PendingIsOpen(messages);
    if OpenCalls(messages) != [] {
      assert OpenCalls(messages)[0].id in Outstanding(messages);
    }
  }

  // ----- Transcripts that record each result at most once -----

  /** Every tool result answers a call that was still open when it was recorded. */
  predicate Legal(messages: seq<Message>) {
    forall i {:trigger messages[i]} :: 0 <= i < |messages| && messages[i].ToolResult? ==>
      messages[i].callId in Outstanding(messages[..i])
  }

  lemma LegalAppend(messages: seq<Message>, m: Message)
    requires Legal(messages)
    requires m.ToolResult? ==> m.callId in Outstanding(messages)
    ensures Legal(messages + [m])
  {
    var all := messages + [m];
    forall i | 0 <= i < |all| && all[i].ToolResult?
      ensures all[i].callId in Outstanding(all[..i])
    {
      assert all[..i] == messages[..i];
      if i == |messages| {
        assert messages[..i] == messages;
      } else {
        assert all[i] == messages[i];
      }
    }
  }

  /** An id answered at position i stays closed until another assistant message appears. */
  lemma {:induction false} StaysAnswered(messages: seq<Message>, i: nat, n: nat)
    requires i < n <= |messages| && messages[i].ToolResult?
    requires forall k :: i < k < n ==> !messages[k].Assistant?
    ensures messages[i].callId !in Outstanding(messages[..n])
  {
    assert messages[..n] == messages[..n - 1] + [messages[n - 1]];
    OutstandingAppend(messages[..n - 1], messages[n - 1]);
    if i < n - 1 {
      StaysAnswered(messages, i, n - 1);
    }
  }

  /** In a legal transcript two results for one id are separated by a new assistant message: no
      call is ever answered twice. */
  lemma AnsweredAtMostOnce(messages: seq<Message>, i: nat, j: nat)
    requires Legal(messages)
    requires i < j < |messages| && messages[i].ToolResult? && messages[j].ToolResult?
    requires messages[i].callId == messages[j].callId
    ensures exists k :: i < k < j && messages[k].Assistant?
  {
    if forall k :: i < k < j ==> !messages[k].Assistant? {
      StaysAnswered(messages, i, j);
      assert false;
    }
  }

  // ----- Counting the results of the open turn -----

  predicate TurnOf(messages: seq<Message>, m: Message) {
    OpenTurn(messages).Some? && OpenTurn(messages).value.assistant == m
  }

  /** The open turn's message stands at `pos`; only results and custom messages follow it. */
  predicate OpensAt(messages: seq<Message>, pos: nat, m: Message) {
    && pos < |messages| && messages[pos] == m && m.Assistant?
    && forall k :: pos < k < |messages| ==> messages[k].ToolResult? || messages[k].Custom?
  }

  predicate ResultAt(messages: seq<Message>, k: int, id: string) {
    0 <= k < |messages| && messages[k].ToolResult? && messages[k].callId == id
  }

  /** Exactly one result for `id` follows position `pos`. */
  ghost predicate AnsweredOnce(messages: seq<Message>, pos: nat, id: string) {
    exists k :: pos < k && ResultAt(messages, k, id) && forall j :: pos < j && ResultAt(messages, j, id) ==> j == k
  }

  ghost predicate AnsweredNever(messages: seq<Message>, pos: nat, id: string) {
    forall k :: pos < k ==> !ResultAt(messages, k, id)
  }

  lemma {:induction false} OpenTurnFound(messages: seq<Message>) returns (pos: nat)
    requires OpenTurn(messages).Some?
    ensures OpensAt(messages, pos, OpenTurn(messages).value.assistant)
    ensures forall id :: id in OpenTurn(messages).value.answered <==> !AnsweredNever(messages, pos, id)
  {
    var n := |messages| - 1;
    var front, last := messages[..n], messages[n];
    if last.Assistant? {
      pos := n;
    } else {
      pos := OpenTurnFound(front);
      forall id
        ensures id in OpenTurn(messages).value.answered <==> !AnsweredNever(messages, pos, id)
      {
        assert forall k :: k < n ==> (ResultAt(front, k, id) <==> ResultAt(messages, k, id));
        if last.ToolResult? && last.callId == id {
          assert ResultAt(messages, n, id);
        } else {
          assert !ResultAt(messages, n, id);
        }
      }
    }
  }

  /** In a legal transcript the calls of the open turn are the outstanding ones, which have no
      result, and the others, each of which has exactly one. */
  lemma TurnAccount(messages: seq<Message>, m: Message) returns (pos: nat)
    requires Legal(messages) && TurnOf(messages, m)
    ensures OpensAt(messages, pos, m)
    ensures forall c :: c in Calls(m.content) ==>
              if c.id in Outstanding(messages) then AnsweredNever(messages, pos, c.id) else AnsweredOnce(messages, pos, c.id)
  {
    pos := OpenTurnFound(messages);
    var t := OpenTurn(messages).value;
    UnansweredIds(Calls(m.content), t.answered);
    forall c | c in Calls(m.content)
      ensures if c.id in Outstanding(messages) then AnsweredNever(messages, pos, c.id) else AnsweredOnce(messages, pos, c.id)
    {
      assert c.id in Ids(Calls(m.content));
      if c.id !in Outstanding(messages) {
        OneResult(messages, pos, m, c.id);
      }
    }
  }

  lemma OneResult(messages: seq<Message>, pos: nat, m: Message, id: string)
    requires Legal(messages) && OpensAt(messages, pos, m) && !AnsweredNever(messages, pos, id)
    ensures AnsweredOnce(messages, pos, id)
  {
    var k :| pos < k && ResultAt(messages, k, id);
    forall j | pos < j && ResultAt(messages, j, id)
      ensures j == k
    {
      if j < k {
        AnsweredAtMostOnce(messages, j, k);
      } else if k < j {
        AnsweredAtMostOnce(messages, k, j);
      }
    }
  }
}
