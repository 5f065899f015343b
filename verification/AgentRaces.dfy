/** The two ways in which a run started during the steering hook of `continue` breaks conservation:
    the hook returns while that run is busy and the drained messages vanish, or the run is over by
    then but drained later messages first. */
module AgentRaces {
  import opened Options
  import opened Transcript
  import opened AgentSession
  import opened AgentMail
  import opened AgentTheorems

  const Reply := Assistant([], Stop)

  /** An idle agent whose transcript ends with an answer. */
  function Quiet(): Session {
    InitialSession([Reply], OneAtATime, OneAtATime, false)
  }

  lemma QuietReachable()
    ensures Reachable(Quiet())
  {
    assert Calls([]) == [];
    ReachableStarts([Reply], OneAtATime, OneAtATime, false);
  }

  lemma ContinueOpensPrelude(m: Message)
    requires Injectable(m)
    ensures var t := Step(Step(Quiet(), Steer(m)), Continue);
            && t.mail == Quiet().mail.(prelude := Some([m]), steered := [m])
            && t.run == Quiet().run && t.log == Quiet().log
  {
    var s := Step(Quiet(), Steer(m));
    assert s.mail.steer.messages == [m] && Take(s.mail.steer) == [m] && Rest(s.mail.steer).messages == [];
  }

  lemma PromptDuringPrelude(s: Session, lost: Message, prompt: Message)
    requires s.run.pc.Idle? && s.mail.prelude == Some([lost]) && Injectable(prompt)
    ensures var t := Step(Step(s, Prompt([prompt])), HookReturned([]));
            && t.mail.prelude.None? && t.mail.steer == s.mail.steer && t.mail.steered == s.mail.steered && !t.mail.orderly
            && t.run.pending == [] && t.log.newMessages == [prompt] && t.log.agent.messages == s.log.agent.messages
  {
  }

  /** A prompt during the hook, still running when the hook returns: the drained steering message is
      in no queue and in no transcript. */
  lemma PreludeRaceLosesSteering()
    ensures var lost, prompt := User("steer"), User("prompt");
            var s := Step(Step(Quiet(), Steer(lost)), Continue);
            var t := Step(Step(s, Prompt([prompt])), HookReturned([]));
            && Reachable(Quiet()) && s.mail.prelude == Some([lost])
            && t.mail.steered == [lost] && t.mail.steer.messages == [] && t.mail.prelude.None? && t.run.pending == []
            && t.log.newMessages == [prompt] && t.log.agent.messages == [Reply]
  {
    QuietReachable();
    ContinueOpensPrelude(User("steer"));
    PromptDuringPrelude(Step(Step(Quiet(), Steer(User("steer"))), Continue), User("steer"), User("prompt"));
  }

  // ----- The inversion -----

  /** Everything the ledger depends on, besides the queues. */
  predicate At(s: Session, run: Locals, mail: Mail, messages: seq<Message>, origins: seq<Origin>) {
    s.run == run && s.mail == mail && s.log.newMessages == messages && s.log.origins == origins && !s.suppress
  }

  const Fresh := Locals(Begin, false, [], true, true, false, false, None)

  /** From the start of a run with one prompt past its first steering poll. */
  function Polls(s: Session): Session {
    Step(Step(Step(Step(Step(s, Proceed(Tick)), Proceed(Tick)), Proceed(Tick)), Proceed(Tick)), Proceed(Prepared(None)))
  }

  /** From the polled message to the request that follows its injection. */
  function Injects(s: Session): Session {
    Step(Step(Step(Step(Step(s, Proceed(Tick)), Proceed(Extras([]))), Proceed(Tick)), Proceed(Tick)), Proceed(Tick))
  }

  lemma PromptPolls(s: Session, mail: Mail, x: Message, b: Message)
    requires At(s, Fresh, mail, [x], [Prompted]) && mail.steer == Queue([b], OneAtATime) && mail.prelude.Some?
    ensures var t := Polls(s);
            At(t, Fresh.(pc := LoopCheck, pending := [b]), mail.(steer := Queue([], OneAtATime), orderly := false), [x], [Prompted])
  {
    assert [b][1..] == [];
  }

  lemma PollInjects(s: Session, mail: Mail, x: Message, b: Message)
    requires At(s, Fresh.(pc := LoopCheck, pending := [b]), mail, [x], [Prompted])
    ensures var t := Injects(s);
            At(t, Fresh.(pc := Request), mail, [x, b], [Prompted, Steered])
  {
    assert [b][1..] == [];
    assert [x] + [b] == [x, b] && [Prompted] + Repeat(Steered, 1) == [Prompted, Steered];
  }

  lemma RequestAnswered(s: Session, mail: Mail, x: Message, b: Message)
    requires At(s, Fresh.(pc := Request), mail, [x, b], [Prompted, Steered])
    ensures var t := Step(Step(Step(s, Proceed(Tick)), Proceed(StreamEnd(Reply))), Proceed(Tick));
            At(t, Fresh.(pc := Answered(Reply, true)), mail, [x, b], [Prompted, Steered])
  {
    assert Calls([]) == [];
  }

  lemma AnswerEnds(s: Session, mail: Mail, x: Message, b: Message)
    requires At(s, Fresh.(pc := Answered(Reply, true)), mail, [x, b], [Prompted, Steered])
    ensures At(Step(s, Proceed(Tick)), Fresh.(pc := StopCheck, hasMore := false), mail,
               [x, b, Reply], [Prompted, Steered, Generated])
  {
    assert Calls([]) == [];
    assert [x, b] + [Reply] == [x, b, Reply] && [Prompted, Steered] + Repeat(Generated, 1) == [Prompted, Steered, Generated];
  }

  lemma RequestEnds(s: Session, mail: Mail, x: Message, b: Message)
    requires At(s, Fresh.(pc := Request), mail, [x, b], [Prompted, Steered])
    ensures var t := Step(Step(Step(Step(s, Proceed(Tick)), Proceed(StreamEnd(Reply))), Proceed(Tick)), Proceed(Tick));
            At(t, Fresh.(pc := StopCheck, hasMore := false), mail, [x, b, Reply], [Prompted, Steered, Generated])
  {
    RequestAnswered(s, mail, x, b);
    AnswerEnds(Step(Step(Step(s, Proceed(Tick)), Proceed(StreamEnd(Reply))), Proceed(Tick)), mail, x, b);
  }

  lemma RunStops(s: Session, mail: Mail, x: Message, b: Message)
    requires At(s, Fresh.(pc := StopCheck, hasMore := false), mail, [x, b, Reply], [Prompted, Steered, Generated])
    ensures var t := Step(Step(s, Proceed(Decide(true))), Proceed(Tick));
            t.run.pc.Idle? && t.run.pending == [] && t.mail == mail && Delivered(t.log, Steered) == [b]
  {
    var ms, os := [x, b, Reply], [Prompted, Steered, Generated];
    assert ms[..2] == [x, b] && os[..2] == [Prompted, Steered];
    assert [x, b][..1] == [x] && [Prompted, Steered][..1] == [Prompted];
    assert Select([x], [Prompted], Steered) == [];
    assert Select([x, b], [Prompted, Steered], Steered) == [b];
  }

  lemma HookDelivers(s: Session, a: Message, b: Message)
    requires s.run.pc.Idle? && s.run.pending == [] && Delivered(s.log, Steered) == [b] && Injectable(a)
    requires s.mail.prelude == Some([a]) && s.mail.priorSteered == [] && s.mail.steer.messages == []
    ensures var t := Step(s, HookReturned([]));
            Front(t) == [b, a] && t.mail.prelude.None? && t.mail.steer.messages == [] && t.mail.steered == s.mail.steered
  {
    PreludePasses(s, []);
    assert Held(s.run, true) == [] && Front(s) == [b];
    assert [b] + [a] == [b, a];
  }

  lemma ReachTwo(s: Session, a: Action, b: Action)
    requires Reachable(s)
    ensures Reachable(Step(Step(s, a), b))
  {
    ReachableCloses(s, a);
    ReachableCloses(Step(s, a), b);
  }

  lemma ReachFour(s: Session, a: Action, b: Action, c: Action, d: Action)
    requires Reachable(s)
    ensures Reachable(Step(Step(Step(Step(s, a), b), c), d))
  {
    ReachTwo(s, a, b);
    ReachTwo(Step(Step(s, a), b), c, d);
  }

  /** A later message can overtake: there is a reachable session that was passed `a`, then `b`, has
      lost nothing, and delivered `b` before `a`. */
  lemma PreludeRaceInverts(a: Message, b: Message, x: Message) returns (t: Session)
    requires Injectable(a) && Injectable(b) && Injectable(x)
    ensures Reachable(t) && t.mail.steered == [a, b] && Front(t) == [b, a]
    ensures t.mail.prelude.None? && t.mail.steer.messages == []
  {
    QuietReachable();
    ContinueOpensPrelude(a);
    var s1 := Step(Step(Quiet(), Steer(a)), Continue);
    ReachTwo(Quiet(), Steer(a), Continue);
    var s2 := Step(s1, Steer(b));
    ReachableCloses(s1, Steer(b));
    t := InvertedRun(s2, a, b, x);
  }

  lemma InvertedRun(s: Session, a: Message, b: Message, x: Message) returns (t: Session)
    requires Reachable(s) && Injectable(a) && Injectable(x)
    requires s.run.pc.Idle? && s.run.pending == [] && s.log.newMessages == [] && s.log.origins == [] && !s.suppress
    requires s.mail == EmptyMail(OneAtATime, OneAtATime).(prelude := Some([a]), steered := [a, b], steer := Queue([b], OneAtATime))
    ensures Reachable(t) && t.mail.steered == [a, b] && Front(t) == [b, a]
    ensures t.mail.prelude.None? && t.mail.steer.messages == []
  {
    var s0 := Step(s, Prompt([x]));
    var mail := s0.mail;
    assert At(s0, Fresh, mail, [x], [Prompted]) by { assert Repeat(Prompted, 1) == [Prompted]; }
    PromptPolls(s0, mail, x, b);
    var later := mail.(steer := Queue([], OneAtATime), orderly := false);
    var s1 := Polls(s0);
    PollInjects(s1, later, x, b);
    var s2 := Injects(s1);
    RequestEnds(s2, later, x, b);
    var s3 := Step(Step(Step(Step(s2, Proceed(Tick)), Proceed(StreamEnd(Reply))), Proceed(Tick)), Proceed(Tick));
    RunStops(s3, later, x, b);
    var s4 := Step(Step(s3, Proceed(Decide(true))), Proceed(Tick));
    HookDelivers(s4, a, b);
    t := Step(s4, HookReturned([]));
    InvertedReach(s, x);
  }

  lemma InvertedReach(s: Session, x: Message)
    requires Reachable(s)
    ensures var s0 := Step(s, Prompt([x]));
            var s2 := Injects(Polls(s0));
            var s3 := Step(Step(Step(Step(s2, Proceed(Tick)), Proceed(StreamEnd(Reply))), Proceed(Tick)), Proceed(Tick));
            Reachable(Step(Step(Step(s3, Proceed(Decide(true))), Proceed(Tick)), HookReturned([])))
  {
    ReachTwo(s, Prompt([x]), Proceed(Tick));
    var u0 := Step(Step(s, Prompt([x])), Proceed(Tick));
    ReachFour(u0, Proceed(Tick), Proceed(Tick), Proceed(Tick), Proceed(Prepared(None)));
    var u1 := Step(Step(Step(Step(u0, Proceed(Tick)), Proceed(Tick)), Proceed(Tick)), Proceed(Prepared(None)));
    ReachFour(u1, Proceed(Tick), Proceed(Extras([])), Proceed(Tick), Proceed(Tick));
    var u2 := Step(Step(Step(Step(u1, Proceed(Tick)), Proceed(Extras([]))), Proceed(Tick)), Proceed(Tick));
    ReachFour(u2, Proceed(Tick), Proceed(Tick), Proceed(StreamEnd(Reply)), Proceed(Tick));
    var u3 := Step(Step(Step(Step(u2, Proceed(Tick)), Proceed(Tick)), Proceed(StreamEnd(Reply))), Proceed(Tick));
    ReachFour(u3, Proceed(Tick), Proceed(Decide(true)), Proceed(Tick), HookReturned([]));
  }
}
