/** Single steps and short stretches of the pipeline machine, as building blocks of runs. */
module PipelineSteps {
  import opened Basics
  import Outbox
  import opened Text
  import opened Pipeline
  import opened PipelineCalm

  // ------------------------------------------------------------------- calm runs compose

  lemma {:induction false} CalmCat(s: State, a: seq<Event>, b: seq<Event>)
    requires Legal(s, a) && CalmRun(s, a) && Legal(Run(s, a), b) && CalmRun(Run(s, a), b)
    ensures Legal(s, a + b) && Run(s, a + b) == Run(Run(s, a), b) && CalmRun(s, a + b)
    decreases |a|
  {
    RunCat(s, a, b);
    if a == [] {
      assert a + b == b;
    } else {
      CalmCat(Apply(s, a[0]), a[1..], b);
      assert (a + b)[1..] == a[1..] + b;
    }
  }

  lemma CalmExtend(s: State, es: seq<Event>, n: State, e: Event)
    requires Legal(s, es) && Run(s, es) == n && CalmRun(s, es) && Enabled(n, e) && CalmEvent(n, e)
    ensures Legal(s, es + [e]) && Run(s, es + [e]) == Apply(n, e) && CalmRun(s, es + [e])
  {
    assert [e][1..] == [];
    assert Legal(Apply(n, e), []) && Run(Apply(n, e), []) == Apply(n, e) && CalmRun(Apply(n, e), []);
    assert Legal(n, [e]) && Run(n, [e]) == Apply(n, e) && CalmRun(n, [e]);
    CalmCat(s, es, [e]);
  }

  // ------------------------------------------------------------------------ single steps

  lemma IngestEffect(s: State, x: MsgId, conversation: nat, user: nat)
    requires x !in s.msgs && x !in s.tasks
    ensures var e := Ingest(x, conversation, user, true);
            Enabled(s, e) && CalmEvent(s, e) && Apply(s, e) == Ingested(s, x, conversation, user, true)
  {
  }

  lemma TickEffect(s: State, to: int)
    requires s.now <= to
    ensures Enabled(s, Tick(to)) && CalmEvent(s, Tick(to)) && Apply(s, Tick(to)) == s.(now := to)
  {
  }

  lemma CrashEffect(s: State, t: Token)
    requires t in s.workers
    ensures Enabled(s, Crash(t)) && CalmEvent(s, Crash(t)) && Apply(s, Crash(t)) == s.(workers := s.workers - {t})
  {
  }

  lemma ReplayEffect(s: State, x: MsgId)
    requires x in s.tasks
    ensures Enabled(s, Replay(x)) && Apply(s, Replay(x)) == Replaying(s, x)
  {
  }

  lemma ClaimEffect(s: State, x: MsgId, t: Token)
    requires x in s.tasks && x in s.msgs && t !in s.issued
    requires Outbox.Claimable(s.tasks[x], s.now, s.now - s.timeout)
    ensures var e := Claim(t, x, s.now);
            Enabled(s, e) && CalmEvent(s, e) && Apply(s, e) == ClaimBy(s, t, x, s.now)
  {
  }

  lemma BeginEffect(s: State, x: MsgId, t: Token)
    requires t in s.workers && s.workers[t] == Claimed(x) && x in s.msgs && Idle(s)
    requires s.msgs[x].status in {Queued, Failed, Processing} && s.msgs[x].mergedInto == None
    ensures Enabled(s, Begin(t)) && (CalmEvent(s, Begin(t)) <==> Leased(s.tasks, t, x))
    ensures Apply(s, Begin(t))
         == Advance(s, t, s.msgs[x := s.msgs[x].(status := Processing, begun := true)], Busy(x, Working))
  {
  }

  /** A message that is sent, ignored or dead is left alone. */
  lemma BeginOverEffect(s: State, x: MsgId, t: Token)
    requires t in s.workers && s.workers[t] == Claimed(x) && x in s.msgs && Idle(s)
    requires s.msgs[x].status !in {Queued, Failed, Processing}
    ensures Enabled(s, Begin(t)) && (CalmEvent(s, Begin(t)) <==> Leased(s.tasks, t, x))
    ensures Apply(s, Begin(t)) == Advance(s, t, s.msgs, Over(x, true))
  {
    assert s.msgs[x := s.msgs[x]] == s.msgs;
  }

  /** A message with a merge mark is marked sent at once. */
  lemma BeginMergedEffect(s: State, x: MsgId, t: Token)
    requires t in s.workers && s.workers[t] == Claimed(x) && x in s.msgs && Idle(s)
    requires s.msgs[x].status in {Queued, Failed, Processing} && s.msgs[x].mergedInto.Some?
    ensures Enabled(s, Begin(t)) && (CalmEvent(s, Begin(t)) <==> Leased(s.tasks, t, x))
    ensures Apply(s, Begin(t)) == Advance(s, t, s.msgs[x := s.msgs[x].(status := Sent)], Over(x, true))
  {
  }

  lemma FailEffect(s: State, x: MsgId, t: Token)
    requires t in s.workers && s.workers[t] == Over(x, false) && x in s.tasks && x in s.msgs
    requires Outbox.HeldBy(s.tasks[x], Some(t)) && s.tasks[x].attempts + 1 >= s.cfg.maxAttempts
    ensures Enabled(s, FailTask(t, "e")) && CalmEvent(s, FailTask(t, "e"))
    ensures var n := Apply(s, FailTask(t, "e"));
            && n.msgs == s.msgs[x := Killed(s.msgs[x])]
            && n.workers == s.workers - {t} && n.issued == s.issued && n.now == s.now
            && n.tasks == s.tasks[x := Outbox.Failed(s.tasks[x], Some(t), "e", s.now, s.cfg)]
            && n.tasks[x].status == Outbox.Dead
  {
  }

  lemma CompleteEffect(s: State, x: MsgId, t: Token)
    requires t in s.workers && s.workers[t] == Over(x, true) && x in s.tasks
    requires Outbox.HeldBy(s.tasks[x], Some(t)) && s.tasks[x].kind == Outbox.MessageTask
    ensures Enabled(s, CompleteTask(t)) && CalmEvent(s, CompleteTask(t))
    ensures var n := Apply(s, CompleteTask(t));
            && n.msgs == s.msgs && n.workers == s.workers - {t}
            && n.tasks == s.tasks[x := Outbox.Completed(s.tasks[x], Some(t), s.now)]
            && n.tasks[x].status == Outbox.Done
  {
  }

  lemma RaiseEffect(s: State, x: MsgId, t: Token)
    requires t in s.workers && s.workers[t].Busy? && s.workers[t].msg == x && x in s.msgs
    requires !s.workers[t].phase.Raised? && !s.workers[t].phase.Restoring?
    ensures Enabled(s, Raise(t)) && Apply(s, Raise(t)) == Advance(s, t, s.msgs, Busy(x, Raised))
    ensures CalmEvent(s, Raise(t)) <==> !s.workers[t].phase.Releasing?
  {
    assert s.msgs[x := s.msgs[x]] == s.msgs;
  }

  lemma HandleEffect(s: State, x: MsgId, t: Token)
    requires t in s.workers && s.workers[t] == Busy(x, Raised) && x in s.msgs
    ensures Enabled(s, Handle(t)) && CalmEvent(s, Handle(t))
    ensures var m := s.msgs[x];
            var after := if m.status == Sent then s.msgs else s.msgs[x := m.(status := Failed)];
            Apply(s, Handle(t)) == Advance(s, t, after, Busy(x, Restoring))
  {
    assert s.msgs[x := s.msgs[x]] == s.msgs;
  }

  lemma RestoreEffect(s: State, x: MsgId, t: Token, ok: bool)
    requires t in s.workers && s.workers[t] == Busy(x, Restoring) && x in s.msgs
    ensures Enabled(s, Restore(t, ok)) && CalmEvent(s, Restore(t, ok))
    ensures Apply(s, Restore(t, ok)) == Advance(s, t, if ok then Restored(s.msgs, x) else s.msgs, Over(x, false))
  {
  }

  // ------------------------------------------------------------------- a one-letter reply

  /** The letter goes out in one piece on every path. */
  lemma OneChunk(path: Path)
    ensures Strip("r", WHITESPACE) == "r" && ChunksFor(path, "r", 1) == ["r"]
  {
    StripTrimmed("r", WHITESPACE);
  }

  /** m with one more dispatch, of which the given texts went out. */
  function Dispatched(m: Msg, path: Path, sent: seq<string>): Msg {
    m.(fence := Started, log := m.log + [Dispatch(path, "r", 1, ["r"], sent)])
  }

  lemma DispatchEffect(s: State, x: MsgId, t: Token, path: Path)
    requires t in s.workers && x in s.msgs && s.msgs[x].fence != Started
    requires s.workers[t] == Busy(x, Working) || (s.workers[t] == Busy(x, Asking) && path == Reply)
    ensures var e := StartDispatch(t, path, "r", 1);
            && Enabled(s, e) && CalmEvent(s, e)
            && Apply(s, e)
            == Advance(s, t, s.msgs[x := Dispatched(s.msgs[x], path, [])], Busy(x, Sending(path, ["r"], 0)))
  {
    OneChunk(path);
  }

  lemma SendEffect(s: State, x: MsgId, t: Token, m: Msg, path: Path)
    requires t in s.workers && s.workers[t] == Busy(x, Sending(path, ["r"], 0)) && x in s.msgs
    requires s.msgs[x] == Dispatched(m, path, [])
    ensures Enabled(s, Send(t, true, false)) && CalmEvent(s, Send(t, true, false))
    ensures Apply(s, Send(t, true, false))
         == Advance(s, t, s.msgs[x := Dispatched(m, path, ["r"])], Busy(x, Sending(path, ["r"], 1)))
  {
    assert s.msgs[x].log[..|m.log|] == m.log;
    var next := SendNext(s.msgs[x], x, s.workers[t].phase, true, false);
    assert [] + ["r"] == ["r"];
    assert next.0.log == m.log + [Dispatch(path, "r", 1, ["r"], ["r"])];
    assert next.0 == Dispatched(m, path, ["r"]);
  }

  function Finished(x: MsgId, path: Path): Worker {
    if path == Reply then Busy(x, Releasing) else Over(x, true)
  }

  lemma FinishEffect(s: State, x: MsgId, t: Token, path: Path)
    requires t in s.workers && s.workers[t] == Busy(x, Sending(path, ["r"], 1)) && x in s.msgs && path != QrCode
    ensures Enabled(s, Finish(t)) && CalmEvent(s, Finish(t))
    ensures Apply(s, Finish(t))
         == Advance(s, t, s.msgs[x := s.msgs[x].(status := Sent, fence := FenceSent)], Finished(x, path))
  {
  }

  // --------------------------------------------------------------------------- stretches

  /** A message with a pending row is claimed and taken up. */
  lemma ClaimAndBegin(s: State, x: MsgId, t: Token) returns (es: seq<Event>)
    requires Idle(s) && x in s.tasks && x in s.msgs && t !in s.issued && t !in s.workers
    requires Outbox.Claimable(s.tasks[x], s.now, s.now - s.timeout)
    requires s.msgs[x].status in {Queued, Failed, Processing} && s.msgs[x].mergedInto == None
    ensures Legal(s, es) && CalmRun(s, es)
    ensures Run(s, es) == Advance(ClaimBy(s, t, x, s.now), t,
                                  s.msgs[x := s.msgs[x].(status := Processing, begun := true)], Busy(x, Working))
  {
    ClaimEffect(s, x, t);
    var s1 := ClaimBy(s, t, x, s.now);
    BeginEffect(s1, x, t);
    CalmExtend(s, [], s, Claim(t, x, s.now));
    CalmExtend(s, [] + [Claim(t, x, s.now)], s1, Begin(t));
    es := [] + [Claim(t, x, s.now)] + [Begin(t)];
  }

  /** Two steps of one worker on one message, as one. */
  lemma AdvanceAgain(s: State, t: Token, msgs: map<MsgId, Msg>, x: MsgId, m: Msg, n: Msg, w: Worker, v: Worker)
    ensures Advance(Advance(s, t, msgs[x := m], w), t, msgs[x := m][x := n], v) == Advance(s, t, msgs[x := n], v)
  {
    assert msgs[x := m][x := n] == msgs[x := n];
  }

  lemma AfterClaim(s: State, x: MsgId, t: Token, msgs: map<MsgId, Msg>, w: Worker)
    requires x in s.tasks && t !in s.workers
    ensures var n := Advance(ClaimBy(s, t, x, s.now), t, msgs, w);
            && n.workers == s.workers[t := w] && n.msgs == msgs
            && n.tasks == s.tasks[x := Outbox.Claimed(s.tasks[x], s.now, t)]
            && n.issued == s.issued + {t} && n.now == s.now && n.timeout == s.timeout && n.cfg == s.cfg
  {
  }

  /** And reaches its dispatch. */
  lemma ClaimAndDispatch(s: State, x: MsgId, t: Token, path: Path) returns (es: seq<Event>)
    requires Idle(s) && x in s.tasks && x in s.msgs && t !in s.issued && t !in s.workers
    requires Outbox.Claimable(s.tasks[x], s.now, s.now - s.timeout)
    requires s.msgs[x].status in {Queued, Failed, Processing}
    requires s.msgs[x].mergedInto == None && s.msgs[x].fence != Started
    ensures Legal(s, es) && CalmRun(s, es)
    ensures var n := Run(s, es); var m := s.msgs[x];
            && n.workers == s.workers[t := Busy(x, Sending(path, ["r"], 0))]
            && n.msgs == s.msgs[x := Dispatched(m.(status := Processing, begun := true), path, [])]
            && n.tasks == s.tasks[x := Outbox.Claimed(s.tasks[x], s.now, t)]
            && n.issued == s.issued + {t} && n.now == s.now && n.timeout == s.timeout && n.cfg == s.cfg
  {
    es := ClaimAndBegin(s, x, t);
    var s0, m := ClaimBy(s, t, x, s.now), s.msgs[x].(status := Processing, begun := true);
    var s1, w := Advance(s0, t, s.msgs[x := m], Busy(x, Working)), Busy(x, Sending(path, ["r"], 0));
    DispatchEffect(s1, x, t, path);
    AdvanceAgain(s0, t, s.msgs, x, m, Dispatched(m, path, []), Busy(x, Working), w);
    AfterClaim(s, x, t, s.msgs[x := Dispatched(m, path, [])], w);
    CalmExtend(s, es, s1, StartDispatch(t, path, "r", 1));
    es := es + [StartDispatch(t, path, "r", 1)];
  }

  /** Once dispatched, the one chunk goes out and the message is marked sent. */
  lemma SendAndFinish(s: State, x: MsgId, t: Token, m: Msg, path: Path) returns (es: seq<Event>)
    requires t in s.workers && s.workers[t] == Busy(x, Sending(path, ["r"], 0)) && x in s.msgs && path != QrCode
    requires s.msgs[x] == Dispatched(m, path, [])
    ensures Legal(s, es) && CalmRun(s, es)
    ensures var done := Dispatched(m, path, ["r"]).(status := Sent, fence := FenceSent);
            Run(s, es) == Advance(s, t, s.msgs[x := done], Finished(x, path))
  {
    SendEffect(s, x, t, m, path);
    var s1 := Advance(s, t, s.msgs[x := Dispatched(m, path, ["r"])], Busy(x, Sending(path, ["r"], 1)));
    CalmExtend(s, [], s, Send(t, true, false));
    es := [] + [Send(t, true, false)];
    FinishEffect(s1, x, t, path);
    CalmExtend(s, es, s1, Finish(t));
    es := es + [Finish(t)];
    var done := Dispatched(m, path, ["r"]).(status := Sent, fence := FenceSent);
    assert s1.msgs[x := done] == s.msgs[x := done];
    assert s1.workers[t := Finished(x, path)] == s.workers[t := Finished(x, path)];
  }

  /** From its claim to its commit as sent. */
  lemma WholeReply(s: State, x: MsgId, t: Token, path: Path) returns (es: seq<Event>)
    requires Idle(s) && x in s.tasks && x in s.msgs && t !in s.issued && t !in s.workers && path != QrCode
    requires Outbox.Claimable(s.tasks[x], s.now, s.now - s.timeout)
    requires s.msgs[x].status in {Queued, Failed, Processing}
    requires s.msgs[x].mergedInto == None && s.msgs[x].fence != Started
    ensures Legal(s, es) && CalmRun(s, es)
    ensures var n, m := Run(s, es), s.msgs[x].(status := Processing, begun := true);
            && n.workers == s.workers[t := Finished(x, path)]
            && n.msgs == s.msgs[x := Dispatched(m, path, ["r"]).(status := Sent, fence := FenceSent)]
            && n.tasks == s.tasks[x := Outbox.Claimed(s.tasks[x], s.now, t)]
            && n.issued == s.issued + {t} && n.now == s.now && n.timeout == s.timeout && n.cfg == s.cfg
  {
    es := ClaimAndDispatch(s, x, t, path);
    var s1 := Run(s, es);
    var rest := SendAndFinish(s1, x, t, s.msgs[x].(status := Processing, begun := true), path);
    CalmCat(s, es, rest);
    es := es + rest;
  }

  /** A run that raises before it dispatches, and is handled. */
  lemma RaiseAndHandle(s: State, x: MsgId, t: Token, ok: bool) returns (es: seq<Event>)
    requires t in s.workers && x in s.msgs && s.workers[t] in {Busy(x, Working), Busy(x, Asking)}
    requires s.msgs[x].status != Sent
    ensures Legal(s, es) && CalmRun(s, es)
    ensures var failed := s.msgs[x := s.msgs[x].(status := Failed)];
            Run(s, es) == Advance(s, t, if ok then Restored(failed, x) else failed, Over(x, false))
  {
    RaiseEffect(s, x, t);
    var s1 := Advance(s, t, s.msgs, Busy(x, Raised));
    CalmExtend(s, [], s, Raise(t));
    HandleEffect(s1, x, t);
    var failed := s.msgs[x := s.msgs[x].(status := Failed)];
    var s2 := Advance(s1, t, failed, Busy(x, Restoring));
    CalmExtend(s, [] + [Raise(t)], s1, Handle(t));
    RestoreEffect(s2, x, t, ok);
    CalmExtend(s, [] + [Raise(t)] + [Handle(t)], s2, Restore(t, ok));
    es := [] + [Raise(t)] + [Handle(t)] + [Restore(t, ok)];
  }
}
