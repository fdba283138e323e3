/** Exactly when a finished reply can go out again.

    A message whose reply has been dispatched is sealed while its fence says "started" or
    its status is "sent": process_message then refuses to dispatch. The only step that
    breaks the seal is fail_task turning a finished message dead, and each of the three
    non-calm events can lead there. */
module PipelineReopen {
  import opened Basics
  import Outbox
  import opened Pipeline
  import opened PipelineSafety
  import opened PipelineSteps

  predicate Sealed(m: Msg) {
    m.log != [] ==> m.fence == Started || m.status == Sent
  }

  /** fail_task accepts a last failure for a message that is sent and fully delivered. */
  predicate KillsFinished(s: State, e: Event, x: MsgId) {
    && e.FailTask? && e.token in s.workers && s.workers[e.token].msg == x && x in s.tasks && x in s.msgs
    && Outbox.HeldBy(s.tasks[x], Some(e.token)) && s.tasks[x].attempts + 1 >= s.cfg.maxAttempts
    && s.msgs[x].status == Sent && s.msgs[x].fence == FenceSent
  }

  lemma LocalSealed(m: Msg, w: Worker, e: Event)
    requires MsgInv(m) && (w.Busy? ==> PhaseInv(m, w.phase)) && Sealed(m)
    requires Local(e) && LocalEnabled(m, w, e)
    ensures Sealed(LocalStep(m, w, e).0)
  {
  }

  lemma FailSealed(s: State, t: Token, error: string, x: MsgId)
    requires Inv(s) && Enabled(s, FailTask(t, error)) && x in s.msgs && Sealed(s.msgs[x])
    ensures x in Failing(s, t, error).msgs
    ensures Sealed(Failing(s, t, error).msgs[x]) <==> !KillsFinished(s, FailTask(t, error), x)
  {
    assert MsgInv(s.msgs[x]);
  }

  lemma BulkSealed(s: State, e: Event, x: MsgId)
    requires Inv(s) && Enabled(s, e) && (e.Merge? || e.Release? || e.Restore?)
    requires x in s.msgs && Sealed(s.msgs[x])
    ensures x in Apply(s, e).msgs && Sealed(Apply(s, e).msgs[x])
  {
    assert MsgInv(s.msgs[x]);
    if e.Merge? && x in e.picked {
      assert Candidate(s.msgs, s.workers[e.token].msg, x);
    }
  }

  lemma OtherSealed(s: State, e: Event, x: MsgId)
    requires Inv(s) && Enabled(s, e) && !Local(e)
    requires !e.Merge? && !e.Release? && !e.Restore? && !e.FailTask?
    requires x in s.msgs && Sealed(s.msgs[x])
    ensures x in Apply(s, e).msgs && Sealed(Apply(s, e).msgs[x])
  {
  }

  /** Every event leaves a sealed message sealed, except exactly the kill of a finished one. */
  lemma SealBreaksOnlyByKill(s: State, e: Event, x: MsgId)
    requires Inv(s) && Enabled(s, e) && x in s.msgs && Sealed(s.msgs[x])
    ensures x in Apply(s, e).msgs
    ensures Sealed(Apply(s, e).msgs[x]) <==> !KillsFinished(s, e, x)
  {
    if Local(e) {
      assert MsgInv(s.msgs[x]);
      if s.workers[e.token].msg == x {
        LocalSealed(s.msgs[x], s.workers[e.token], e);
      }
    } else if e.Merge? || e.Release? || e.Restore? {
      BulkSealed(s, e, x);
    } else if e.FailTask? {
      FailSealed(s, e.token, e.error, x);
    } else {
      OtherSealed(s, e, x);
    }
  }

  /** While a message is sealed, no attempt to dispatch it sends anything. */
  lemma SealedRefusesDispatch(s: State, e: Event)
    requires Inv(s) && Enabled(s, e) && e.StartDispatch?
    requires s.msgs[s.workers[e.token].msg].log != [] && Sealed(s.msgs[s.workers[e.token].msg])
    ensures Apply(s, e).msgs == s.msgs && Apply(s, e).workers[e.token].phase == Raised
  {
    var x := s.workers[e.token].msg;
    assert PhaseInv(s.msgs[x], s.workers[e.token].phase);
    assert s.msgs[x := s.msgs[x]] == s.msgs;
  }

  /** A killed finished message, once replayed, is dispatched again: the seal is the only guard. */
  lemma KilledRepliesAgain(s: State, x: MsgId, t: Token) returns (es: seq<Event>)
    requires Idle(s) && x in s.tasks && x in s.msgs && t !in s.issued && t !in s.workers
    requires s.tasks[x].status == Outbox.Dead && s.msgs[x].mergedInto == None
    requires s.msgs[x].status == Dead && s.msgs[x].fence == FenceSent
    ensures Legal(s, es) && x in Run(s, es).msgs && |Run(s, es).msgs[x].log| == |s.msgs[x].log| + 1
  {
    ReplayEffect(s, x);
    var s1 := Replaying(s, x);
    var more := ClaimAndDispatch(s1, x, t, Command);
    Extend(s, [], s, Replay(x));
    RunCat(s, [] + [Replay(x)], more);
    es := [] + [Replay(x)] + more;
  }

  /** The message is dead after one more kill, and no worker is left. */
  predicate KilledOnce(n: State, m: Msg, x: MsgId) {
    && n.msgs.Keys == {x} && n.msgs[x] == Killed(m) && n.workers == map[]
    && x in n.tasks && n.tasks[x].status == Outbox.Dead
  }

  /** First cause: a takeover finds the Redis lock of the crashed worker still set. */
  lemma LockMissKills(s: State, x: MsgId, t: Token) returns (es: seq<Event>)
    requires x in s.tasks && x in s.msgs && t !in s.issued && t !in s.workers
    requires Outbox.Claimable(s.tasks[x], s.now, s.now - s.timeout)
    requires s.tasks[x].attempts + 1 >= s.cfg.maxAttempts
    ensures Legal(s, es)
    ensures var n := Run(s, es);
            && n.msgs == s.msgs[x := Killed(s.msgs[x])] && n.workers == s.workers && n.issued == s.issued + {t}
            && x in n.tasks && n.tasks[x].status == Outbox.Dead && n.now == s.now
  {
    ClaimEffect(s, x, t);
    var s1 := ClaimBy(s, t, x, s.now);
    Extend(s, [], s, Claim(t, x, s.now));
    es := [] + [Claim(t, x, s.now)];
    assert s1.msgs[x := s1.msgs[x]] == s1.msgs;
    var s2 := Advance(s1, t, s1.msgs, Over(x, false));
    Extend(s, es, s1, LockMiss(t));
    es := es + [LockMiss(t)];
    FailEffect(s2, x, t);
    Extend(s, es, s2, FailTask(t, "e"));
    es := es + [FailTask(t, "e")];
    assert s2.workers - {t} == s.workers;
  }

  /** Second cause: an exception after the reply was committed as sent, out of the release
      of merged messages, still fails the outbox row. */
  lemma ReleaseFailureKills(s: State, x: MsgId, t: Token) returns (es: seq<Event>)
    requires t in s.workers && s.workers[t] == Busy(x, Releasing) && x in s.tasks && x in s.msgs
    requires s.msgs[x].status == Sent && s.msgs[x].fence == FenceSent
    requires Outbox.HeldBy(s.tasks[x], Some(t)) && s.tasks[x].attempts + 1 >= s.cfg.maxAttempts
    ensures Legal(s, es)
    ensures var n := Run(s, es);
            && n.msgs == s.msgs[x := Killed(s.msgs[x])] && n.workers == s.workers - {t} && n.issued == s.issued
            && x in n.tasks && n.tasks[x].status == Outbox.Dead
  {
    var s1 := Advance(s, t, s.msgs, Busy(x, Raised));
    var s2 := Advance(s1, t, s.msgs, Busy(x, Restoring));
    var s3 := Advance(s2, t, s.msgs, Over(x, false));
    RaiseEffect(s, x, t);
    Extend(s, [], s, Raise(t));
    HandleEffect(s1, x, t);
    Extend(s, [] + [Raise(t)], s1, Handle(t));
    RestoreEffect(s2, x, t, false);
    Extend(s, [] + [Raise(t)] + [Handle(t)], s2, Restore(t, false));
    FailEffect(s3, x, t);
    Extend(s, [] + [Raise(t)] + [Handle(t)] + [Restore(t, false)], s3, FailTask(t, "e"));
    es := [] + [Raise(t)] + [Handle(t)] + [Restore(t, false)] + [FailTask(t, "e")];
    assert s3.workers - {t} == s.workers - {t};
  }

  /** Third cause: worker u claimed the message, lost its lease to t, and starts only after
      t's run has failed but before t reports it. u's reply goes out, and t's failure,
      still under a valid lease, kills the message. Both runs held the lock in turn. */
  lemma LateStartKills(s: State, x: MsgId, t: Token, u: Token) returns (es: seq<Event>)
    requires Idle(s) && t in s.workers && u in s.workers && t != u && x in s.tasks && x in s.msgs
    requires s.workers[t] == Over(x, false) && s.workers[u] == Claimed(x)
    requires s.msgs[x].status == Failed && s.msgs[x].fence == NoFence && s.msgs[x].mergedInto == None
    requires Outbox.HeldBy(s.tasks[x], Some(t)) && s.tasks[x].attempts + 1 >= s.cfg.maxAttempts
    ensures Legal(s, es)
    ensures var n, m := Run(s, es), s.msgs[x].(status := Processing, begun := true);
            && n.msgs == s.msgs[x := Killed(Dispatched(m, Command, ["r"]).(status := Sent, fence := FenceSent))]
            && n.workers == s.workers[u := Over(x, true)] - {t} && n.issued == s.issued
            && x in n.tasks && n.tasks[x].status == Outbox.Dead
  {
    BeginEffect(s, x, u);
    var m := s.msgs[x].(status := Processing, begun := true);
    var s1 := Advance(s, u, s.msgs[x := m], Busy(x, Working));
    Extend(s, [], s, Begin(u));
    es := [] + [Begin(u)];
    DispatchEffect(s1, x, u, Command);
    var s2 := Advance(s1, u, s1.msgs[x := Dispatched(m, Command, [])], Busy(x, Sending(Command, ["r"], 0)));
    Extend(s, es, s1, StartDispatch(u, Command, "r", 1));
    es := es + [StartDispatch(u, Command, "r", 1)];
    var rest := SendAndFinish(s2, x, u, m, Command);
    RunCat(s, es, rest);
    es := es + rest;
    var s3 := Run(s2, rest);
    FailEffect(s3, x, t);
    Extend(s, es, s3, FailTask(t, "e"));
    es := es + [FailTask(t, "e")];
  }

  // ------------------------------------------------- the three causes, from the first event

  /** One attempt is allowed. */
  const ONE_ATTEMPT := Outbox.Retry(1, 5, 300)

  /** A first message is ingested. */
  lemma FirstMessage(timeout: nat) returns (es: seq<Event>)
    ensures Legal(Start(timeout, ONE_ATTEMPT), es)
    ensures Run(Start(timeout, ONE_ATTEMPT), es) == Ingested(Start(timeout, ONE_ATTEMPT), 0, 0, 0, true)
  {
    var s0 := Start(timeout, ONE_ATTEMPT);
    IngestEffect(s0, 0, 0, 0);
    Extend(s0, [], s0, Ingest(0, 0, 0, true));
    es := [] + [Ingest(0, 0, 0, true)];
  }

  /** It is replied to by worker 0, which has not reported yet. */
  lemma FirstReply(timeout: nat, path: Path) returns (es: seq<Event>)
    requires path != QrCode
    ensures Legal(Start(timeout, ONE_ATTEMPT), es)
    ensures var n := Run(Start(timeout, ONE_ATTEMPT), es);
            && n.workers == map[0 := Finished(0, path)] && n.issued == {0}
            && n.now == 0 && n.timeout == timeout && n.cfg == ONE_ATTEMPT
            && n.tasks == map[0 := Outbox.Claimed(Outbox.FreshRow(Outbox.MessageTask, 0, 0), 0, 0)]
            && n.msgs.Keys == {0} && n.msgs[0].status == Sent && n.msgs[0].fence == FenceSent
            && n.msgs[0].mergedInto == None && |n.msgs[0].log| == 1
  {
    var s0 := Start(timeout, ONE_ATTEMPT);
    es := FirstMessage(timeout);
    var s1 := Run(s0, es);
    var a := WholeReply(s1, 0, 0, path);
    RunCat(s0, es, a);
    es := es + a;
  }

  lemma {:induction false} FreshToken(issued: set<Token>) returns (t: Token)
    ensures t !in issued && forall u :: u in issued ==> u < t
    decreases issued
  {
    if issued == {} {
      t := 0;
    } else {
      var u :| u in issued;
      var rest := FreshToken(issued - {u});
      t := if u < rest then rest else u + 1;
      forall v | v in issued ensures v < t {
        assert v == u || v in issued - {u};
      }
    }
  }

  /** A killed first message is replayed and dispatched once more. */
  lemma SecondReply(timeout: nat, es: seq<Event>, m: Msg) returns (fs: seq<Event>)
    requires Legal(Start(timeout, ONE_ATTEMPT), es) && KilledOnce(Run(Start(timeout, ONE_ATTEMPT), es), m, 0)
    requires m.fence == FenceSent && m.mergedInto == None && |m.log| == 1
    ensures Legal(Start(timeout, ONE_ATTEMPT), fs)
    ensures var n := Run(Start(timeout, ONE_ATTEMPT), fs); 0 in n.msgs && |n.msgs[0].log| == 2
  {
    var s := Run(Start(timeout, ONE_ATTEMPT), es);
    var t := FreshToken(s.issued);
    var d := KilledRepliesAgain(s, 0, t);
    RunCat(Start(timeout, ONE_ATTEMPT), es, d);
    fs := es + d;
  }

  /** The worker that replied crashes before reporting, and its lease runs out. */
  lemma StaleReply(timeout: nat) returns (es: seq<Event>, m: Msg)
    ensures Legal(Start(timeout, ONE_ATTEMPT), es)
    ensures var n := Run(Start(timeout, ONE_ATTEMPT), es);
            && n.workers == map[] && n.issued == {0} && n.cfg == ONE_ATTEMPT
            && n.tasks.Keys == {0} && n.tasks[0].attempts == 0
            && Outbox.Claimable(n.tasks[0], n.now, n.now - n.timeout)
            && n.msgs == map[0 := m] && m.fence == FenceSent && m.mergedInto == None && |m.log| == 1
  {
    var s0 := Start(timeout, ONE_ATTEMPT);
    es := FirstReply(timeout, Command);
    var s1 := Run(s0, es);
    m := s1.msgs[0];
    CrashEffect(s1, 0);
    Extend(s0, es, s1, Crash(0));
    es := es + [Crash(0)];
    var s2 := s1.(workers := s1.workers - {0});
    TickEffect(s2, timeout + 1);
    Extend(s0, es, s2, Tick(timeout + 1));
    es := es + [Tick(timeout + 1)];
  }

  /** The takeover misses the lock. */
  lemma ReplyCanRepeat(timeout: nat) returns (es: seq<Event>)
    ensures Legal(Start(timeout, ONE_ATTEMPT), es)
    ensures var n := Run(Start(timeout, ONE_ATTEMPT), es); 0 in n.msgs && |n.msgs[0].log| == 2
  {
    var s0 := Start(timeout, ONE_ATTEMPT);
    var m;
    es, m := StaleReply(timeout);
    var c := LockMissKills(Run(s0, es), 0, 1);
    RunCat(s0, es, c);
    es := SecondReply(timeout, es + c, m);
  }

  /** The worker that replied fails to release the merged messages. */
  lemma ReplyCanRepeatAfterRelease(timeout: nat) returns (es: seq<Event>)
    ensures Legal(Start(timeout, ONE_ATTEMPT), es)
    ensures var n := Run(Start(timeout, ONE_ATTEMPT), es); 0 in n.msgs && |n.msgs[0].log| == 2
  {
    var s0 := Start(timeout, ONE_ATTEMPT);
    es := FirstReply(timeout, Reply);
    var s1 := Run(s0, es);
    var c := ReleaseFailureKills(s1, 0, 0);
    RunCat(s0, es, c);
    es := SecondReply(timeout, es + c, s1.msgs[0]);
  }

  /** Worker 0 claims and stalls; worker 1 takes over and fails; worker 0 starts and replies
      before worker 1 reports. */
  lemma LateStartReached(timeout: nat) returns (es: seq<Event>)
    ensures Legal(Start(timeout, ONE_ATTEMPT), es)
    ensures var n := Run(Start(timeout, ONE_ATTEMPT), es);
            && n.msgs.Keys == {0} && n.tasks.Keys == {0} && n.cfg == ONE_ATTEMPT
            && n.workers == map[0 := Claimed(0), 1 := Over(0, false)] && n.issued == {0, 1}
            && n.msgs[0].status == Failed && n.msgs[0].fence == NoFence && n.msgs[0].mergedInto == None
            && n.msgs[0].log == [] && n.msgs[0].kills == 0
            && Outbox.HeldBy(n.tasks[0], Some(1)) && n.tasks[0].attempts == 0
  {
    var s0 := Start(timeout, ONE_ATTEMPT);
    es := FirstMessage(timeout);
    var s1 := Run(s0, es);
    ClaimEffect(s1, 0, 0);
    Extend(s0, es, s1, Claim(0, 0, 0));
    es := es + [Claim(0, 0, 0)];
    var s2 := ClaimBy(s1, 0, 0, 0);
    TickEffect(s2, timeout + 1);
    Extend(s0, es, s2, Tick(timeout + 1));
    es := es + [Tick(timeout + 1)];
    var s3 := s2.(now := timeout + 1);
    var a := ClaimAndBegin(s3, 0, 1);
    RunCat(s0, es, a);
    es := es + a;
    var s4 := Run(s3, a);
    var b := RaiseAndHandle(s4, 0, 1, false);
    RunCat(s0, es, b);
    es := es + b;
  }

  lemma ReplyCanRepeatAfterLateStart(timeout: nat) returns (es: seq<Event>)
    ensures Legal(Start(timeout, ONE_ATTEMPT), es)
    ensures var n := Run(Start(timeout, ONE_ATTEMPT), es); 0 in n.msgs && |n.msgs[0].log| == 2
  {
    var s0 := Start(timeout, ONE_ATTEMPT);
    es := LateStartReached(timeout);
    var s1 := Run(s0, es);
    var c := LateStartKills(s1, 0, 1, 0);
    RunCat(s0, es, c);
    var s2 := Run(s1, c);
    CrashEffect(s2, 0);
    Extend(s0, es + c, s2, Crash(0));
    var m := s1.msgs[0].(status := Processing, begun := true);
    var done := Dispatched(m, Command, ["r"]).(status := Sent, fence := FenceSent);
    assert KilledOnce(s2.(workers := s2.workers - {0}), done, 0);
    es := SecondReply(timeout, es + c + [Crash(0)], done);
  }
}
