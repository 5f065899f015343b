/** Queue conservation: every steering and follow-up message is delivered once and in order, one at a
    time where that is the mode, and an aborted run takes nothing more. */
module AgentMail {
  import opened Options
  import opened Transcript
  import opened EventGrammar
  import opened AgentSession
  import opened MailLedger
  import ToolBatch

  /** Drained and not yet injected. */
  function Held(run: Locals, steering: bool): seq<Message> {
    if run.pendingIsSteering != steering then []
    else if run.pc.Injecting? then run.pc.queued else run.pending
  }

  /** Injected since the last model request. */
  function Since(l: Log, o: Origin): seq<Message>
    requires Balanced(l) && l.requestAt <= |l.newMessages|
  {
    Select(l.newMessages[l.requestAt..], l.origins[l.requestAt..], o)
  }

  /** Steering delivered over all runs of the process, then steering drained for the next request. */
  function Front(s: Session): seq<Message> {
    s.mail.priorSteered + Delivered(s.log, Steered) + Held(s.run, true)
  }

  function FollowFront(s: Session): seq<Message> {
    s.mail.priorFollowed + Delivered(s.log, FollowedUp) + Held(s.run, false)
  }

  function PreludeOf(m: Mail): seq<Message> {
    if m.prelude.Some? then m.prelude.value else []
  }

  /** Delivered, held and queued messages, in this order, are exactly the messages passed in. */
  predicate Conserved(s: Session) {
    && s.mail.steered == Front(s) + PreludeOf(s.mail) + s.mail.steer.messages
    && s.mail.followed == FollowFront(s) + s.mail.follow.messages
  }

  predicate Books(s: Session) {
    && Ledger(s.mail.steered, Front(s), PreludeOf(s.mail), s.mail.steer.messages, s.mail.orderly)
    && s.mail.followed == FollowFront(s) + s.mail.follow.messages
  }

  predicate Opening(pc: Control) {
    pc.Begin? || pc.BeginTurn? || pc.Prompting? || pc.PrepareInitial?
  }

  /** An answer was requested and nothing was injected since. */
  predicate Settled(run: Locals) {
    || run.pc.Streaming? || run.pc.Closing? || run.pc.Answered? || run.pc.InBatch? || run.pc.StopCheck?
    || run.pc.FollowUpPoll? || run.pc.Ending? || run.pc.Over?
    || (run.turnDone && (run.pc.LoopCheck? || run.pc.PrepareNext? || run.pc.TurnOpening?))
  }

  /** Where drained messages may be waiting, and when the first turn is still to come. */
  predicate HeldAt(run: Locals) {
    && (!(run.pc.LoopCheck? || run.pc.PrepareNext? || run.pc.TurnOpening? || run.pc.SteeringHook?) ==> run.pending == [])
    && (run.pending == [] && !run.pc.Injecting? ==> run.pendingIsSteering)
    && (Opening(run.pc) ==> run.hasMore && !run.turnDone)
    && (run.pc.LoopCheck? && !run.turnDone ==> run.hasMore)
    && (run.pc.FollowUpPoll? || run.pc.PrepareNext? || run.pc.TurnOpening? ==> run.turnDone)
  }

  /** At most one message per one-at-a-time queue is injected or held since the last request. */
  predicate OnceAt(l: Log, run: Locals, mail: Mail) {
    && Balanced(l) && l.requestAt <= |l.newMessages|
    && (Settled(run) ==> Since(l, Steered) == [] && Since(l, FollowedUp) == [])
    && (mail.steer.mode.OneAtATime? ==>
          |Since(l, Steered)| + |Held(run, true)| <= 1 && (Opening(run.pc) && !run.skipPoll ==> Since(l, Steered) == []))
    && (mail.follow.mode.OneAtATime? ==> |Since(l, FollowedUp)| + |Held(run, false)| <= 1)
  }

  predicate MailInv(s: Session) {
    && Balanced(s.log) && Books(s) && PreludeAt(s.mail)
    && if s.run.pc.Idle? then s.run.pending == [] else HeldAt(s.run) && OnceAt(s.log, s.run, s.mail)
  }

  predicate PreludeAt(m: Mail) {
    m.prelude.Some? ==> m.prelude.value != [] && (m.steer.mode.OneAtATime? ==> |m.prelude.value| <= 1)
  }

  lemma SelectAppend(ms: seq<Message>, os: seq<Origin>, m: Message, src: Origin, o: Origin)
    requires |ms| == |os|
    ensures Select(ms + [m], os + [src], o) == Select(ms, os, o) + (if src == o then [m] else [])
  {
    assert (ms + [m])[..|ms|] == ms && (os + [src])[..|os|] == os;
  }

  lemma {:induction false} SelectRepeat(ms: seq<Message>, os: seq<Origin>, more: seq<Message>, src: Origin, o: Origin)
    requires |ms| == |os|
    ensures Select(ms + more, os + Repeat(src, |more|), o) == Select(ms, os, o) + (if src == o then more else [])
    decreases |more|
  {
    if more == [] {
      assert ms + more == ms && os + Repeat(src, 0) == os;
    } else {
      var front, last := more[..|more| - 1], more[|more| - 1];
      SelectRepeat(ms, os, front, src, o);
      SelectAppend(ms + front, os + Repeat(src, |front|), last, src, o);
      assert ms + more == ms + front + [last];
      assert os + Repeat(src, |more|) == os + Repeat(src, |front|) + [src];
      assert more == front + [last];
    }
  }

  lemma AppendDelivered(l: Log, ms: seq<Message>, src: Origin)
    requires Balanced(l)
    ensures var t := Append(l, ms, src);
            && Balanced(t)
            && Delivered(t, Steered) == Delivered(l, Steered) + (if src == Steered then ms else [])
            && Delivered(t, FollowedUp) == Delivered(l, FollowedUp) + (if src == FollowedUp then ms else [])
  {
    SelectRepeat(l.newMessages, l.origins, ms, src, Steered);
    SelectRepeat(l.newMessages, l.origins, ms, src, FollowedUp);
  }

  lemma AppendSince(l: Log, ms: seq<Message>, src: Origin, o: Origin)
    requires Balanced(l) && l.requestAt <= |l.newMessages|
    ensures Since(Append(l, ms, src), o) == Since(l, o) + (if src == o then ms else [])
  {
    var k := l.requestAt;
    SelectRepeat(l.newMessages[k..], l.origins[k..], ms, src, o);
    assert (l.newMessages + ms)[k..] == l.newMessages[k..] + ms;
    assert (l.origins + Repeat(src, |ms|))[k..] == l.origins[k..] + Repeat(src, |ms|);
  }

  lemma TakeRest(q: Queue)
    ensures Take(q) + Rest(q).messages == q.messages && Rest(q).mode == q.mode
    ensures q.mode.OneAtATime? ==> |Take(q)| <= 1
  {
  }

  // ----- One lemma per way a step can touch the ledger -----

  /** A step that neither drains, holds nor delivers anything. */
  lemma QuietMove(s: Session, log: Log, run: Locals)
    requires MailInv(s) && !s.run.pc.Idle?
    requires log.newMessages == s.log.newMessages && log.origins == s.log.origins && log.requestAt == s.log.requestAt
    requires run.pending == s.run.pending && run.pendingIsSteering == s.run.pendingIsSteering && run.skipPoll == s.run.skipPoll
    requires s.run.pc.Injecting? <==> run.pc.Injecting?
    requires run.pc.Injecting? ==> run.pc.queued == s.run.pc.queued
    requires (Settled(run) ==> Settled(s.run)) && (Opening(run.pc) ==> Opening(s.run.pc))
    requires HeldAt(run) && !run.pc.Idle?
    ensures MailInv(s.(log := log, run := run))
  {
    var t := s.(log := log, run := run);
    assert Front(t) == Front(s) && FollowFront(t) == FollowFront(s);
  }

  /** Assistant messages and tool results join the new messages. */
  lemma GeneratedMove(s: Session, ms: seq<Message>, log: Log, run: Locals)
    requires MailInv(s) && !s.run.pc.Idle? && !s.run.pc.Injecting? && !run.pc.Injecting?
    requires log.newMessages == s.log.newMessages + ms && log.origins == s.log.origins + Repeat(Generated, |ms|)
    requires log.requestAt == s.log.requestAt && Settled(s.run)
    requires run.pending == s.run.pending && run.pendingIsSteering == s.run.pendingIsSteering && run.skipPoll == s.run.skipPoll
    requires !Opening(run.pc)
    requires HeldAt(run) && !run.pc.Idle?
    ensures MailInv(s.(log := log, run := run))
  {
    AppendDelivered(s.log, ms, Generated);
    AppendSince(s.log, ms, Generated, Steered);
    AppendSince(s.log, ms, Generated, FollowedUp);
    var t := s.(log := log, run := run);
    assert Front(t) == Front(s) && FollowFront(t) == FollowFront(s);
  }

  /** Nothing is held; the steering queue may hand over some of its front. */
  lemma TakeMove(s: Session, log: Log, run: Locals, mail: Mail)
    requires MailInv(s) && !s.run.pc.Idle? && !s.run.pc.Injecting? && s.run.pending == []
    requires log.newMessages == s.log.newMessages && log.origins == s.log.origins && log.requestAt == s.log.requestAt
    requires (run.pc.LoopCheck? || run.pc.TurnOpening?) && HeldAt(run) && (Settled(run) ==> Settled(s.run))
    requires run.pendingIsSteering == s.run.pendingIsSteering
    requires mail == s.mail.(steer := mail.steer, orderly := mail.orderly) && mail.steer.mode == s.mail.steer.mode
    requires run.pending + mail.steer.messages == s.mail.steer.messages
    requires mail.orderly == (s.mail.orderly && (s.mail.prelude.None? || run.pending == []))
    requires mail.steer.mode.OneAtATime? ==> |run.pending| <= 1
    requires run.pending != [] ==> Settled(s.run) || (Opening(s.run.pc) && !s.run.skipPoll)
    ensures MailInv(s.(log := log, run := run, mail := mail))
  {
    var t := s.(log := log, run := run, mail := mail);
    LedgerTake(s.mail.steered, Front(s), PreludeOf(s.mail), run.pending, mail.steer.messages, s.mail.orderly);
    assert Front(t) == Front(s) + run.pending && FollowFront(t) == FollowFront(s);
  }

  lemma PollMove(s: Session, log: Log, pc: Control, turnDone: bool)
    requires MailInv(s) && (s.run.pc.PrepareInitial? || s.run.pc.PrepareNext? || s.run.pc.StopCheck?) && s.run.pending == []
    requires log.newMessages == s.log.newMessages && log.origins == s.log.origins && log.requestAt == s.log.requestAt
    requires turnDone == (s.run.turnDone || s.run.pc.StopCheck?)
    requires pc == if s.run.pc.PrepareNext? then TurnOpening else LoopCheck
    ensures var t := Poll(s); MailInv(t.(log := log, run := t.run.(pc := pc, turnDone := turnDone)))
  {
    TakeRest(s.mail.steer);
    var t := Poll(s);
    assert t.run.pending + t.mail.steer.messages == s.mail.steer.messages;
    TakeMove(s, log, t.run.(pc := pc, turnDone := turnDone), t.mail);
  }

  lemma FollowUpMove(s: Session)
    requires MailInv(s) && s.run.pc.FollowUpPoll?
    ensures MailInv(PollFollowUps(s))
  {
    TakeRest(s.mail.follow);
    GoMove(s, Ending);
    if Take(s.mail.follow) != [] {
      TakeFollowMove(s, Take(s.mail.follow), Rest(s.mail.follow));
    }
  }

  lemma TakeFollowMove(s: Session, taken: seq<Message>, follow: Queue)
    requires MailInv(s) && s.run.pc.FollowUpPoll? && taken != []
    requires taken + follow.messages == s.mail.follow.messages && follow.mode == s.mail.follow.mode
    requires follow.mode.OneAtATime? ==> |taken| <= 1
    ensures MailInv(s.(run := s.run.(pending := taken, pendingIsSteering := false, hasMore := true, pc := LoopCheck),
                       mail := s.mail.(follow := follow)))
  {
    var t := s.(run := s.run.(pending := taken, pendingIsSteering := false, hasMore := true, pc := LoopCheck),
                mail := s.mail.(follow := follow));
    assert Front(t) == Front(s) && FollowFront(t) == FollowFront(s) + taken;
  }

  lemma InjectMove(s: Session, extras: seq<Message>)
    requires MailInv(s) && s.run.pc.SteeringHook?
    ensures MailInv(BeginInjecting(s, extras))
  {
    var t := BeginInjecting(s, extras);
    assert Front(t) == Front(s) && FollowFront(t) == FollowFront(s);
  }

  lemma DeliverMove(s: Session, log: Log, o: Origin, extras: seq<Message>)
    requires MailInv(s) && s.run.pc.Injecting? && s.run.pc.queued != []
    requires o == if s.run.pendingIsSteering then Steered else FollowedUp
    requires log.newMessages == s.log.newMessages + [s.run.pc.queued[0]] && log.origins == s.log.origins + Repeat(o, 1)
    requires log.requestAt == s.log.requestAt
    ensures MailInv(Go(s, log, Injecting(s.run.pc.queued[1..], extras, false)))
  {
    var q := s.run.pc.queued;
    assert q == [q[0]] + q[1..];
    AppendDelivered(s.log, [q[0]], o);
    AppendSince(s.log, [q[0]], o, Steered);
    AppendSince(s.log, [q[0]], o, FollowedUp);
    DeliverLedger(s, log, o, q[0], Injecting(q[1..], extras, false));
  }

  lemma DeliverLedger(s: Session, log: Log, o: Origin, m: Message, pc: Control)
    requires MailInv(s) && s.run.pc.Injecting? && pc.Injecting? && s.run.pc.queued == [m] + pc.queued
    requires o == if s.run.pendingIsSteering then Steered else FollowedUp
    requires Balanced(log) && log.requestAt <= |log.newMessages|
    requires Delivered(log, Steered) == Delivered(s.log, Steered) + (if o == Steered then [m] else [])
    requires Delivered(log, FollowedUp) == Delivered(s.log, FollowedUp) + (if o == FollowedUp then [m] else [])
    requires Since(log, Steered) == Since(s.log, Steered) + (if o == Steered then [m] else [])
    requires Since(log, FollowedUp) == Since(s.log, FollowedUp) + (if o == FollowedUp then [m] else [])
    ensures MailInv(Go(s, log, pc))
  {
    var t := Go(s, log, pc);
    assert Front(t) == Front(s) && FollowFront(t) == FollowFront(s);
  }

  lemma ExtraMove(s: Session, log: Log, m: Message, extras: seq<Message>)
    requires MailInv(s) && s.run.pc.Injecting? && s.run.pc.queued == []
    requires log.newMessages == s.log.newMessages + [m] && log.origins == s.log.origins + Repeat(Extra, 1)
    requires log.requestAt == s.log.requestAt
    ensures MailInv(Go(s, log, Injecting([], extras, false)))
  {
    AppendDelivered(s.log, [m], Extra);
    AppendSince(s.log, [m], Extra, Steered);
    AppendSince(s.log, [m], Extra, FollowedUp);
    var t := Go(s, log, Injecting([], extras, false));
    assert Front(t) == Front(s) && FollowFront(t) == FollowFront(s);
  }

  lemma EndInjectMove(s: Session)
    requires MailInv(s) && s.run.pc.Injecting? && s.run.pc.queued == []
    ensures MailInv(EndInjecting(s))
  {
    var t := EndInjecting(s);
    assert Front(t) == Front(s) && FollowFront(t) == FollowFront(s);
  }

  lemma FinishMove(s: Session)
    requires MailInv(s) && s.run.pc.Over?
    ensures MailInv(FinishRun(s))
  {
    var t := FinishRun(s);
    assert Front(t) == Front(s) && FollowFront(t) == FollowFront(s);
  }

  lemma StartSince(s: Session, prompts: seq<Message>, origins: seq<Origin>)
    requires |prompts| == |origins|
    ensures var l := StartLog(s.log, prompts, origins);
            Balanced(l) && Since(l, Steered) == Delivered(l, Steered) && Since(l, FollowedUp) == Delivered(l, FollowedUp)
  {
    assert prompts[0..] == prompts && origins[0..] == origins;
  }

  /** A new run moves the previous run's deliveries to the books and delivers its prompts. */
  lemma StartMove(s: Session, prompts: seq<Message>, origins: seq<Origin>, skip: bool, resume: Option<Pending>)
    requires Balanced(s.log) && s.run.pc.Idle? && s.run.pending == [] && PreludeAt(s.mail) && |prompts| == |origins|
    requires var steered, followed := Select(prompts, origins, Steered), Select(prompts, origins, FollowedUp);
             && (s.mail.steer.mode.OneAtATime? ==> |steered| <= (if skip then 1 else 0))
             && (s.mail.follow.mode.OneAtATime? ==> |followed| <= 1)
             && Ledger(s.mail.steered, Front(s) + steered, PreludeOf(s.mail), s.mail.steer.messages, s.mail.orderly)
             && s.mail.followed == FollowFront(s) + followed + s.mail.follow.messages
    ensures MailInv(StartRun(s, prompts, origins, skip, resume))
  {
    var t := StartRun(s, prompts, origins, skip, resume);
    StartSince(s, prompts, origins);
    assert HeldAt(t.run) && Held(t.run, true) == [] && Held(t.run, false) == [];
    assert Held(s.run, true) == [] && Held(s.run, false) == [];
    assert Front(t) == Front(s) + Select(prompts, origins, Steered);
    assert FollowFront(t) == FollowFront(s) + Select(prompts, origins, FollowedUp);
  }

  /** Prompts that come from no queue. */
  lemma StartPlain(s: Session, prompts: seq<Message>, origins: seq<Origin>, resume: Option<Pending>)
    requires MailInv(s) && s.run.pc.Idle? && |prompts| == |origins|
    requires Select(prompts, origins, Steered) == [] && Select(prompts, origins, FollowedUp) == []
    ensures MailInv(StartRun(s, prompts, origins, false, resume))
  {
    assert Front(s) + [] == Front(s) && FollowFront(s) + [] == FollowFront(s);
    StartMove(s, prompts, origins, false, resume);
  }

  lemma SelectOne(ms: seq<Message>, src: Origin, o: Origin)
    ensures Select(ms, Repeat(src, |ms|), o) == if src == o then ms else []
  {
    SelectRepeat([], [], ms, src, o);
    assert [] + ms == ms && [] + Repeat(src, |ms|) == Repeat(src, |ms|);
  }

  lemma StartFollowUps(s: Session)
    requires MailInv(s) && s.run.pc.Idle?
    ensures var taken := Take(s.mail.follow);
            MailInv(StartRun(s.(mail := s.mail.(follow := Rest(s.mail.follow))), taken, Repeat(FollowedUp, |taken|), false, None))
  {
    var taken, rest := Take(s.mail.follow), Rest(s.mail.follow);
    TakeRest(s.mail.follow);
    SelectOne(taken, FollowedUp, Steered);
    SelectOne(taken, FollowedUp, FollowedUp);
    var t := s.(mail := s.mail.(follow := rest));
    assert Front(t) == Front(s) && FollowFront(t) == FollowFront(s);
    Regroup(Front(s), FollowFront(s), taken, rest.messages);
    StartMove(t, taken, Repeat(FollowedUp, |taken|), false, None);
  }

  lemma Regroup(front: seq<Message>, followed: seq<Message>, taken: seq<Message>, rest: seq<Message>)
    ensures front + [] == front && followed + (taken + rest) == followed + taken + rest
  {
  }

  lemma OpenPrelude(s: Session)
    requires MailInv(s) && s.run.pc.Idle? && s.mail.prelude.None? && Take(s.mail.steer) != []
    ensures MailInv(s.(mail := s.mail.(prelude := Some(Take(s.mail.steer)), steer := Rest(s.mail.steer))))
  {
    TakeRest(s.mail.steer);
    var t := s.(mail := s.mail.(prelude := Some(Take(s.mail.steer)), steer := Rest(s.mail.steer)));
    LedgerOpen(s.mail.steered, Front(s), Take(s.mail.steer), Rest(s.mail.steer).messages, s.mail.orderly);
    assert Front(t) == Front(s) && FollowFront(t) == FollowFront(s);
  }

  lemma ContinueMove(s: Session)
    requires MailInv(s) && s.run.pc.Idle? && s.mail.prelude.None?
    ensures MailInv(StartContinue(s))
  {
    StartPlain(s, [], [], None);
    if Take(s.mail.steer) != [] {
      OpenPrelude(s);
    }
    StartFollowUps(s);
  }

  /** The hook returns: an idle agent delivers the prelude, a busy one drops it. */
  lemma PreludeMove(s: Session, extras: seq<Message>)
    requires MailInv(s) && s.mail.prelude.Some?
    ensures MailInv(FinishPrelude(s, extras))
  {
    var batch, t := s.mail.prelude.value, s.(mail := s.mail.(prelude := None));
    assert Front(t) == Front(s) && FollowFront(t) == FollowFront(s);
    if s.run.pc.Idle? {
      PreludeOrigins(batch, extras);
      LedgerPass(s.mail.steered, Front(s), batch, s.mail.steer.messages, s.mail.orderly);
      assert FollowFront(s) + [] == FollowFront(s);
      StartMove(t, batch + extras, Repeat(Steered, |batch|) + Repeat(Extra, |extras|), true, None);
    } else {
      LedgerDrop(s.mail.steered, Front(s), batch, s.mail.steer.messages, s.mail.orderly);
      var u := t.(mail := t.mail.(orderly := false));
      assert Front(u) == Front(s) && FollowFront(u) == FollowFront(s);
    }
  }

  /** On an idle agent the hook's return moves the prelude to the front of the ledger. */
  lemma PreludePasses(s: Session, extras: seq<Message>)
    requires s.mail.prelude.Some? && s.run.pc.Idle? && s.run.pending == []
    ensures var t := FinishPrelude(s, extras);
            && Front(t) == Front(s) + s.mail.prelude.value && FollowFront(t) == FollowFront(s)
            && t.mail == s.mail.(prelude := None, priorSteered := t.mail.priorSteered, priorFollowed := t.mail.priorFollowed)
  {
    var batch, t := s.mail.prelude.value, FinishPrelude(s, extras);
    PreludeOrigins(batch, extras);
    assert Held(s.run, true) == [] && Held(s.run, false) == [] && Held(t.run, true) == [] && Held(t.run, false) == [];
    assert Delivered(t.log, Steered) == batch && Delivered(t.log, FollowedUp) == [];
    StartFront(s.mail.priorSteered, Delivered(s.log, Steered), batch);
    StartFront(s.mail.priorFollowed, Delivered(s.log, FollowedUp), []);
  }

  lemma StartFront(prior: seq<Message>, delivered: seq<Message>, batch: seq<Message>)
    ensures (prior + delivered) + batch + [] == (prior + delivered + []) + batch
  {
  }

  /** The steering part of a prelude's prompt is its batch, and it has no follow-ups. */
  lemma PreludeOrigins(batch: seq<Message>, extras: seq<Message>)
    ensures var origins := Repeat(Steered, |batch|) + Repeat(Extra, |extras|);
            Select(batch + extras, origins, Steered) == batch && Select(batch + extras, origins, FollowedUp) == []
  {
    SelectOne(batch, Steered, Steered);
    SelectOne(batch, Steered, FollowedUp);
    SelectRepeat(batch, Repeat(Steered, |batch|), extras, Extra, Steered);
    SelectRepeat(batch, Repeat(Steered, |batch|), extras, Extra, FollowedUp);
  }

  // ----- Dispatch -----

  lemma PartialMoves(s: Session, m: Message, quiet: bool)
    requires MailInv(s) && s.run.pc.Streaming?
    ensures MailInv(StartPartial(s, m)) && MailInv(UpdatePartial(s, m, quiet))
  {
    var t, u := StartPartial(s, m), UpdatePartial(s, m, quiet);
    QuietMove(s, t.log, t.run);
    QuietMove(s, u.log, u.run);
  }

  lemma WholeMoves(s: Session, f: Message)
    requires MailInv(s) && s.run.pc.Streaming?
    ensures MailInv(FinishPartial(s, f)) && MailInv(StartWhole(s, f))
  {
    var t, u := FinishPartial(s, f), StartWhole(s, f);
    QuietMove(s, t.log, t.run);
    QuietMove(s, u.log, u.run);
  }

  lemma StreamMoves(s: Session, r: RunAction)
    requires MailInv(s) && s.run.pc.Streaming?
    ensures MailInv(OnStream(s, s.run.pc.partial, r))
  {
    match r
    case StreamStart(p) => PartialMoves(s, p, false);
    case StreamDelta(p, prose) => PartialMoves(s, p, s.suppress && prose);
    case StreamEnd(m) => if Streamable(m) { WholeMoves(s, Final(s.suppress, m)); }
    case _ =>
  }

  lemma AdoptMove(s: Session, m: Message, isNew: bool, log: Log, run: Locals)
    requires MailInv(s) && s.run.pc.Answered? && (run.pc.Ending? || run.pc.StopCheck? || run.pc.InBatch?)
    requires log.newMessages == Adopt(s.log, m, isNew).newMessages && log.origins == Adopt(s.log, m, isNew).origins
    requires log.requestAt == s.log.requestAt && run.skipPoll == s.run.skipPoll
    requires run.pending == s.run.pending && run.pendingIsSteering == s.run.pendingIsSteering
    ensures MailInv(s.(log := log, run := run))
  {
    if isNew {
      GeneratedMove(s, [m], log, run);
    } else {
      QuietMove(s, log, run);
    }
  }

  /** What an answer does to the session: it joins the new messages, or nothing happens yet. */
  predicate Adopts(s: Session, t: Session, m: Message, isNew: bool) {
    && t == s.(log := t.log, run := t.run) && (t.run.pc.Ending? || t.run.pc.StopCheck? || t.run.pc.InBatch?)
    && t.log.newMessages == Adopt(s.log, m, isNew).newMessages && t.log.origins == Adopt(s.log, m, isNew).origins
    && t.log.requestAt == s.log.requestAt && t.run.skipPoll == s.run.skipPoll
    && t.run.pending == s.run.pending && t.run.pendingIsSteering == s.run.pendingIsSteering
  }

  lemma AnswerAdopts(s: Session, m: Message, isNew: bool, r: RunAction)
    ensures OnAnswer(s, m, isNew, r) == s || Adopts(s, OnAnswer(s, m, isNew, r), m, isNew)
  {
    TurnAdopts(s, m, isNew);
    if m.Assistant? && r.BeginTools? {
      var plan := BatchPlan(s.run.resume, m, isNew, r.safe);
      BatchAdopts(s, m, isNew, ToolBatch.Begin(plan.calls, r.scripts, plan.forced, r.parallel));
    }
  }

  lemma TurnAdopts(s: Session, m: Message, isNew: bool)
    ensures Adopts(s, FailTurn(s, m, isNew), m, isNew) && Adopts(s, EndTurn(s, m, isNew), m, isNew)
  {
  }

  lemma BatchAdopts(s: Session, m: Message, isNew: bool, b: ToolBatch.Batch)
    ensures Adopts(s, BeginBatch(s, m, isNew, b), m, isNew)
  {
  }

  lemma AdoptsMoves(s: Session, t: Session, m: Message, isNew: bool)
    requires MailInv(s) && s.run.pc.Answered? && (t == s || Adopts(s, t, m, isNew))
    ensures MailInv(t)
  {
    if t != s {
      AdoptMove(s, m, isNew, t.log, t.run);
    }
  }

  lemma {:induction false} EmitAllQuiet(l: Log, es: seq<Event>)
    ensures EmitAll(l, es) == l.(agent := EmitAll(l, es).agent, trace := EmitAll(l, es).trace)
  {
    if es != [] {
      EmitAllQuiet(l, es[..|es| - 1]);
    }
  }

  /** What a batch step does: its results join the new messages at the end, or it goes on. */
  predicate Settles(s: Session, t: Session, results: seq<Message>) {
    && t == s.(log := t.log, run := t.run) && (t.run.pc.StopCheck? || (results == [] && t.run.pc.InBatch?))
    && t.log.newMessages == s.log.newMessages + results && t.log.origins == s.log.origins + Repeat(Generated, |results|)
    && t.log.requestAt == s.log.requestAt && t.run.skipPoll == s.run.skipPoll
    && t.run.pending == s.run.pending && t.run.pendingIsSteering == s.run.pendingIsSteering
  }

  lemma BatchSettles(s: Session, m: Message, b: ToolBatch.Batch, r: RunAction)
    requires s.run.pc == InBatch(m, b)
    ensures Settles(s, OnBatch(s, m, b, r), []) || Settles(s, OnBatch(s, m, b, r), b.messages)
  {
    StaysSettles(s, s.log, m, b);
    if ToolBatch.Inv(b) {
      if b.phase.Finished? {
        FinishSettles(s, m, b);
      } else if r.Tool? {
        StepSettles(s, m, b, r.action);
      }
    }
  }

  lemma StepSettles(s: Session, m: Message, b: ToolBatch.Batch, a: ToolBatch.Action)
    requires ToolBatch.Inv(b)
    ensures Settles(s, StepBatch(s, m, b, a), [])
  {
    var c, es := ToolBatch.Step(b, a, s.run.aborted).0, ToolBatch.Step(b, a, s.run.aborted).1;
    EmitAllQuiet(s.log, es);
    StaysSettles(s, EmitAll(s.log, es), m, c);
  }

  lemma StaysSettles(s: Session, log: Log, m: Message, c: ToolBatch.Batch)
    requires log.newMessages == s.log.newMessages && log.origins == s.log.origins && log.requestAt == s.log.requestAt
    ensures Settles(s, Go(s, log, InBatch(m, c)), [])
  {
    assert s.log.newMessages + [] == s.log.newMessages && s.log.origins + Repeat(Generated, 0) == s.log.origins;
  }

  lemma FinishSettles(s: Session, m: Message, b: ToolBatch.Batch)
    requires ToolBatch.Inv(b) && b.phase.Finished?
    ensures Settles(s, FinishBatch(s, m, b), b.messages)
  {
  }

  lemma SettlesMoves(s: Session, t: Session, results: seq<Message>)
    requires MailInv(s) && s.run.pc.InBatch? && Settles(s, t, results)
    ensures MailInv(t)
  {
    GeneratedMove(s, results, t.log, t.run);
  }

  lemma InjectQueuedMoves(s: Session)
    requires MailInv(s) && s.run.pc.Injecting? && s.run.pc.queued != []
    ensures MailInv(InjectQueued(s, s.run.pc.queued, s.run.pc.extras, s.run.pc.begun))
  {
    var queued, extras := s.run.pc.queued, s.run.pc.extras;
    QuietMove(s, Emit(s.log, MessageStart(queued[0])), s.run.(pc := Injecting(queued, extras, true)));
    var o := if s.run.pendingIsSteering then Steered else FollowedUp;
    DeliverMove(s, Said(s.log, queued[0], o), o, extras);
  }

  lemma InjectExtraMoves(s: Session)
    requires MailInv(s) && s.run.pc.Injecting? && s.run.pc.queued == [] && s.run.pc.extras != []
    ensures MailInv(InjectExtra(s, s.run.pc.extras, s.run.pc.begun))
  {
    var extras := s.run.pc.extras;
    QuietMove(s, Emit(s.log, MessageStart(extras[0])), s.run.(pc := Injecting([], extras, true)));
    ExtraMove(s, Said(s.log, extras[0], Extra), extras[0], extras[1..]);
  }

  lemma PrepareRunMoves(s: Session, replacement: Option<seq<Message>>)
    requires MailInv(s) && s.run.pc.PrepareInitial?
    ensures MailInv(PrepareRun(s, replacement))
  {
    var log := Replace(s.log, replacement);
    if s.run.resume.Some? {
      QuietMove(s, log, s.run.(pc := LoopCheck));
    } else {
      PollMove(s, log, LoopCheck, s.run.turnDone);
    }
  }

  lemma PrepareTurnMoves(s: Session, replacement: Option<seq<Message>>)
    requires MailInv(s) && s.run.pc.PrepareNext?
    ensures MailInv(PrepareTurn(s, replacement))
  {
    var log := Replace(s.log, replacement);
    if s.run.pending != [] {
      QuietMove(s, log, s.run.(pc := TurnOpening));
    } else {
      PollMove(s, log, TurnOpening, s.run.turnDone);
    }
  }

  /** An emission that only moves the program counter. */
  lemma EmitMove(s: Session, e: Event, pc: Control)
    requires MailInv(s) && !s.run.pc.Idle? && !s.run.pc.Injecting? && !pc.Injecting? && !pc.Idle?
    requires HeldAt(s.run.(pc := pc)) && (Settled(s.run.(pc := pc)) ==> Settled(s.run)) && (Opening(pc) ==> Opening(s.run.pc))
    ensures MailInv(Go(s, Emit(s.log, e), pc))
  {
    QuietMove(s, Emit(s.log, e), s.run.(pc := pc));
  }

  /** A move of the program counter alone. */
  lemma GoMove(s: Session, pc: Control)
    requires MailInv(s) && !s.run.pc.Idle? && !s.run.pc.Injecting? && !pc.Injecting? && !pc.Idle?
    requires HeldAt(s.run.(pc := pc)) && (Settled(s.run.(pc := pc)) ==> Settled(s.run)) && (Opening(pc) ==> Opening(s.run.pc))
    ensures MailInv(Go(s, s.log, pc))
  {
    QuietMove(s, s.log, s.run.(pc := pc));
  }

  lemma PromptMoves(s: Session)
    requires MailInv(s) && s.run.pc.Prompting? && s.run.pc.i < |s.log.newMessages|
    ensures MailInv(AnnouncePrompt(s, s.run.pc.i)) && MailInv(ConfirmPrompt(s, s.run.pc.i))
  {
    var i := s.run.pc.i;
    EmitMove(s, MessageEnd(s.log.newMessages[i]), PromptAt(s.log, i + 1));
    EmitMove(s, MessageStart(s.log.newMessages[i]), Prompting(i, true));
  }

  lemma LoopCheckMoves(s: Session)
    requires MailInv(s) && s.run.pc.LoopCheck?
    ensures MailInv(CheckLoop(s))
  {
    QuietMove(s, s.log, CheckLoop(s).run);
  }

  lemma RequestMoves(s: Session)
    requires MailInv(s) && s.run.pc.Request?
    ensures MailInv(MakeRequest(s))
  {
    var t := MakeRequest(s);
    assert Front(t) == Front(s) && FollowFront(t) == FollowFront(s);
    var n := |s.log.newMessages|;
    assert s.log.newMessages[n..] == [] && s.log.origins[n..] == [];
  }

  lemma StopMoves(s: Session)
    requires MailInv(s) && s.run.pc.StopCheck?
    ensures MailInv(StopRun(s)) && MailInv(PollAfterTurn(s))
  {
    var t := StopRun(s);
    QuietMove(s, t.log, t.run);
    PollMove(s, s.log, LoopCheck, true);
  }

  lemma OpeningMoves(s: Session)
    requires MailInv(s)
    ensures s.run.pc.Begin? ==> MailInv(Go(s, Emit(s.log, AgentStart), BeginTurn))
    ensures s.run.pc.BeginTurn? ==> MailInv(Go(s, Emit(s.log, TurnStart), PromptAt(s.log, 0)))
    ensures s.run.pc.TurnOpening? ==> MailInv(Go(s, Emit(s.log, TurnStart), SteeringHook))
  {
    match s.run.pc
    case Begin => EmitMove(s, AgentStart, BeginTurn);
    case BeginTurn => EmitMove(s, TurnStart, PromptAt(s.log, 0));
    case TurnOpening => EmitMove(s, TurnStart, SteeringHook);
    case _ =>
  }

  lemma ClosingMoves(s: Session)
    requires MailInv(s)
    ensures s.run.pc.Closing? ==> MailInv(Go(s, Emit(s.log, MessageEnd(s.run.pc.final)), Answered(s.run.pc.final, true)))
    ensures s.run.pc.Ending? ==> MailInv(Go(s, Emit(s.log, AgentEnd(s.log.newMessages)), Over))
  {
    match s.run.pc
    case Closing(f) => EmitMove(s, MessageEnd(f), Answered(f, true));
    case Ending => EmitMove(s, AgentEnd(s.log.newMessages), Over);
    case _ =>
  }

  lemma EntryAdvance(s: Session, r: RunAction)
    requires MailInv(s) && (s.run.pc.Begin? || s.run.pc.BeginTurn? || s.run.pc.Prompting?)
    ensures MailInv(Advance(s, r))
  {
    OpeningMoves(s);
    if s.run.pc.Prompting? && s.run.pc.i < |s.log.newMessages| { PromptMoves(s); }
  }

  lemma PollAdvance(s: Session, r: RunAction)
    requires MailInv(s) && (s.run.pc.PrepareInitial? || s.run.pc.LoopCheck? || s.run.pc.FollowUpPoll? || s.run.pc.PrepareNext?)
    ensures MailInv(Advance(s, r))
  {
    match s.run.pc
    case PrepareInitial => if r.Prepared? { PrepareRunMoves(s, r.replacement); }
    case LoopCheck => LoopCheckMoves(s);
    case FollowUpPoll => FollowUpMove(s);
    case PrepareNext => if r.Prepared? { PrepareTurnMoves(s, r.replacement); }
  }

  lemma HookAdvance(s: Session, r: RunAction)
    requires MailInv(s) && (s.run.pc.TurnOpening? || s.run.pc.SteeringHook?)
    ensures MailInv(Advance(s, r))
  {
    if s.run.pc.TurnOpening? {
      OpeningMoves(s);
    } else if s.run.pending == [] {
      GoMove(s, Request);
    } else if r.Extras? {
      InjectMove(s, r.extras);
    }
  }

  lemma InjectAdvance(s: Session, r: RunAction)
    requires MailInv(s) && (s.run.pc.Injecting? || s.run.pc.Request?)
    ensures MailInv(Advance(s, r))
  {
    if s.run.pc.Request? {
      RequestMoves(s);
    } else if s.run.pc.queued != [] {
      InjectQueuedMoves(s);
    } else if s.run.pc.extras != [] {
      InjectExtraMoves(s);
    } else {
      EndInjectMove(s);
    }
  }

  lemma StreamAdvance(s: Session, r: RunAction)
    requires MailInv(s) && (s.run.pc.Streaming? || s.run.pc.Closing?)
    ensures MailInv(Advance(s, r))
  {
    if s.run.pc.Streaming? { StreamMoves(s, r); } else { ClosingMoves(s); }
  }

  lemma AnswerAdvance(s: Session, r: RunAction)
    requires MailInv(s) && s.run.pc.Answered?
    ensures MailInv(Advance(s, r))
  {
    var m, isNew := s.run.pc.message, s.run.pc.isNew;
    AnswerAdopts(s, m, isNew, r);
    AdoptsMoves(s, OnAnswer(s, m, isNew, r), m, isNew);
  }

  lemma BatchAdvance(s: Session, r: RunAction)
    requires MailInv(s) && s.run.pc.InBatch?
    ensures MailInv(Advance(s, r))
  {
    var m, b := s.run.pc.message, s.run.pc.batch;
    BatchSettles(s, m, b, r);
    SettlesMoves(s, OnBatch(s, m, b, r), if Settles(s, OnBatch(s, m, b, r), []) then [] else b.messages);
  }

  lemma EndAdvance(s: Session, r: RunAction)
    requires MailInv(s) && (s.run.pc.Ending? || s.run.pc.Over?)
    ensures MailInv(Advance(s, r))
  {
    if s.run.pc.Ending? { ClosingMoves(s); } else { FinishMove(s); }
  }

  lemma StopAdvance(s: Session, r: RunAction)
    requires MailInv(s) && s.run.pc.StopCheck?
    ensures MailInv(Advance(s, r))
  {
    StopMoves(s);
  }

  lemma AdvanceMoves(s: Session, r: RunAction)
    requires MailInv(s)
    ensures MailInv(Advance(s, r))
  {
    match s.run.pc
    case Idle =>
    case Begin => EntryAdvance(s, r);
    case BeginTurn => EntryAdvance(s, r);
    case Prompting(_, _) => EntryAdvance(s, r);
    case PrepareInitial => PollAdvance(s, r);
    case LoopCheck => PollAdvance(s, r);
    case FollowUpPoll => PollAdvance(s, r);
    case PrepareNext => PollAdvance(s, r);
    case TurnOpening => HookAdvance(s, r);
    case SteeringHook => HookAdvance(s, r);
    case Injecting(_, _, _) => InjectAdvance(s, r);
    case Request => InjectAdvance(s, r);
    case Streaming(_) => StreamAdvance(s, r);
    case Closing(_) => StreamAdvance(s, r);
    case Answered(_, _) => AnswerAdvance(s, r);
    case InBatch(_, _) => BatchAdvance(s, r);
    case StopCheck => StopAdvance(s, r);
    case Ending => EndAdvance(s, r);
    case Over => EndAdvance(s, r);
  }

  lemma CrashMove(s: Session)
    requires MailInv(s)
    ensures MailInv(Crashed(s))
  {
    var t := Crashed(s);
    assert Front(t) == [] && FollowFront(t) == [];
  }

  lemma EnqueueMove(s: Session, m: Message)
    requires MailInv(s)
    ensures MailInv(s.(mail := s.mail.(steer := Enqueue(s.mail.steer, m), steered := s.mail.steered + [m])))
    ensures MailInv(s.(mail := s.mail.(follow := Enqueue(s.mail.follow, m), followed := s.mail.followed + [m])))
  {
    var t := s.(mail := s.mail.(steer := Enqueue(s.mail.steer, m), steered := s.mail.steered + [m]));
    var u := s.(mail := s.mail.(follow := Enqueue(s.mail.follow, m), followed := s.mail.followed + [m]));
    LedgerEnqueue(s.mail.steered, Front(s), PreludeOf(s.mail), s.mail.steer.messages, s.mail.orderly, m);
    assert Front(t) == Front(s) == Front(u) && FollowFront(t) == FollowFront(s) == FollowFront(u);
  }

  lemma StepMoves(s: Session, a: Action)
    requires MailInv(s)
    ensures MailInv(Step(s, a))
  {
    match a
    case Steer(m) => EnqueueMove(s, m);
    case FollowUp(m) => EnqueueMove(s, m);
    case Abort =>
      if !s.run.pc.Idle? { QuietMove(s, s.log, s.run.(aborted := true)); }
    case Prompt(ms) =>
      SelectOne(ms, Prompted, Steered);
      SelectOne(ms, Prompted, FollowedUp);
      if s.run.pc.Idle? { StartPlain(s, ms, Repeat(Prompted, |ms|), None); }
    case Continue => if s.run.pc.Idle? && s.mail.prelude.None? { ContinueMove(s); }
    case HookReturned(xs) => if s.mail.prelude.Some? { PreludeMove(s, xs); }
    case Resume => if s.run.pc.Idle? { StartPlain(s, [], [], PendingCalls(s.log.agent.messages)); }
    case Crash => CrashMove(s);
    case Proceed(r) => AdvanceMoves(s, r);
  }
}
