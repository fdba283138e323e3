/** What "sent" tells about the user: when a message can be marked sent although no reply to
    it was ever completed. */
module PipelineAnswered {
  import opened Basics
  import Outbox
  import opened Pipeline
  import opened PipelineCalm
  import opened PipelineRuns
  import opened PipelineSafety
  import opened PipelineSteps

  // -------------------------------------------------------------- sent and never taken up

  /** Marked sent, though it has neither dispatched nor been merged into another message. */
  predicate Unanswered(m: Msg) {
    m.status == Sent && m.log == [] && m.mergedInto == None
  }

  /** The release after another message's reply takes in x, which was never dispatched. */
  predicate Sweeps(s: State, e: Event, x: MsgId)
    requires Enabled(s, e) && x in s.msgs
  {
    && e.Release? && Releasable(s.msgs, s.workers[e.token].msg, x)
    && s.msgs[x].log == [] && s.msgs[x].mergedInto == None
  }

  /** A worker never leaves its own message sent without a dispatch or a merge mark. */
  lemma LocalAnswers(m: Msg, w: Worker, e: Event)
    requires MsgInv(m) && (w.Busy? ==> PhaseInv(m, w.phase)) && !Unanswered(m)
    requires Local(e) && LocalEnabled(m, w, e)
    ensures !Unanswered(LocalStep(m, w, e).0)
  {
  }

  lemma RowUnanswered(s: State, e: Event, x: MsgId)
    requires Inv(s) && Enabled(s, e) && x in s.msgs && !Unanswered(s.msgs[x])
    ensures Unanswered(RowAfter(s, e, x)) <==> Sweeps(s, e, x)
  {
    assert MsgInv(s.msgs[x]);
    if Local(e) && s.workers[e.token].msg == x {
      LocalAnswers(s.msgs[x], s.workers[e.token], e);
    }
  }

  /** A message becomes sent, undispatched and unmerged exactly by such a release. */
  lemma UnansweredExactly(s: State, e: Event, x: MsgId)
    requires Inv(s) && Enabled(s, e) && x in s.msgs && !Unanswered(s.msgs[x])
    ensures x in Apply(s, e).msgs
    ensures Unanswered(Apply(s, e).msgs[x]) <==> Sweeps(s, e, x)
  {
    RowAfterIs(s, e, x);
    RowUnanswered(s, e, x);
  }

  /** No release of the run takes in a message that was never dispatched. */
  predicate SweepFree(s: State, es: seq<Event>)
    requires Legal(s, es)
    decreases |es|
  {
    es == [] || ((forall x :: x in s.msgs ==> !Sweeps(s, es[0], x)) && SweepFree(Apply(s, es[0]), es[1..]))
  }

  predicate NoneUnanswered(msgs: map<MsgId, Msg>) {
    forall x :: x in msgs ==> !Unanswered(msgs[x])
  }

  lemma SweepFreeStep(s: State, e: Event)
    requires Inv(s) && Enabled(s, e) && NoneUnanswered(s.msgs) && forall x :: x in s.msgs ==> !Sweeps(s, e, x)
    ensures NoneUnanswered(Apply(s, e).msgs)
  {
    forall x | x in Apply(s, e).msgs ensures !Unanswered(Apply(s, e).msgs[x]) {
      if x in s.msgs {
        UnansweredExactly(s, e, x);
      } else {
        NewRow(s, e, x);
      }
    }
  }

  lemma {:induction false} SweepFreeRun(s: State, es: seq<Event>)
    requires Inv(s) && Legal(s, es) && SweepFree(s, es) && NoneUnanswered(s.msgs)
    ensures NoneUnanswered(Run(s, es).msgs)
    decreases |es|
  {
    if es != [] {
      InvStep(s, es[0]);
      SweepFreeStep(s, es[0]);
      SweepFreeRun(Apply(s, es[0]), es[1..]);
    }
  }

  /** Without such a release, sent means dispatched or merged. */
  lemma SentMeansTakenUp(timeout: nat, cfg: Outbox.Retry, es: seq<Event>, x: MsgId)
    requires Legal(Start(timeout, cfg), es) && SweepFree(Start(timeout, cfg), es)
    requires x in Run(Start(timeout, cfg), es).msgs
    ensures var m := Run(Start(timeout, cfg), es).msgs[x];
            m.status == Sent ==> m.log != [] || m.mergedInto.Some?
  {
    SweepFreeRun(Start(timeout, cfg), es);
  }

  // ------------------------------------------------------------ sent without a whole reply

  /** A whole reply to the message went out. */
  predicate Replied(m: Msg) {
    m.log != [] && Complete(m.log[0])
  }

  /** A whole reply went out, to the message or to the one it was merged into. */
  predicate Answered(msgs: map<MsgId, Msg>, x: MsgId)
    requires x in msgs
  {
    || Replied(msgs[x])
    || (msgs[x].mergedInto.Some? && msgs[x].mergedInto.value in msgs && Replied(msgs[msgs[x].mergedInto.value]))
  }

  /** Marked sent with no whole reply. */
  predicate Silent(msgs: map<MsgId, Msg>, x: MsgId) {
    x in msgs && msgs[x].status == Sent && !Answered(msgs, x)
  }

  /** The early exit of process_message for a message with a merge mark. */
  predicate SkipsMerged(s: State, e: Event, x: MsgId)
    requires Enabled(s, e) && x in s.msgs
  {
    && e.Begin? && s.workers[e.token].msg == x && s.msgs[x].mergedInto.Some?
    && s.msgs[x].status in {Queued, Failed, Processing}
  }

  /** The two ways to silence x: a release after another reply takes it in, or its own worker
      marks it sent because of its merge mark. */
  predicate Silences(s: State, e: Event, x: MsgId)
    requires Enabled(s, e) && x in s.msgs
  {
    && !Answered(s.msgs, x)
    && ((e.Release? && Releasable(s.msgs, s.workers[e.token].msg, x)) || SkipsMerged(s, e, x))
  }

  lemma RepliedStays(m: Msg, n: Msg)
    requires MsgInv(n) && Grows(m, n) && Replied(m)
    ensures Replied(n)
  {
    assert Continues(m.log[0], n.log[0]);
    assert n.log[0].sent <= n.log[0].chunks;
  }

  lemma AnsweredStays(s: State, e: Event, x: MsgId)
    requires Inv(s) && Enabled(s, e) && x in s.msgs && Answered(s.msgs, x)
    requires s.msgs[x].mergedInto.Some? ==> Apply(s, e).msgs[x].mergedInto == s.msgs[x].mergedInto
    ensures x in Apply(s, e).msgs && Answered(Apply(s, e).msgs, x)
  {
    InvStep(s, e);
    StepGrows(s, e);
    var n := Apply(s, e).msgs;
    assert Grows(s.msgs[x], n[x]);
    if Replied(s.msgs[x]) {
      RepliedStays(s.msgs[x], n[x]);
    } else {
      var main := s.msgs[x].mergedInto.value;
      assert Grows(s.msgs[main], n[main]);
      RepliedStays(s.msgs[main], n[main]);
    }
  }

  /** Only the end of a dispatch, a release and the early exit mark a message sent. */
  lemma BecomesSent(s: State, e: Event, x: MsgId)
    requires Enabled(s, e) && x in s.msgs && s.msgs[x].status != Sent && RowAfter(s, e, x).status == Sent
    ensures (e.Finish? && s.workers[e.token].msg == x) || SkipsMerged(s, e, x)
         || (e.Release? && Releasable(s.msgs, s.workers[e.token].msg, x))
  {
  }

  lemma FinishReplies(s: State, e: Event)
    requires Inv(s) && Enabled(s, e) && e.Finish?
    ensures Replied(RowAfter(s, e, s.workers[e.token].msg))
  {
    var w := s.workers[e.token];
    var m := s.msgs[w.msg];
    assert MsgInv(m) && PhaseInv(m, w.phase);
    assert w.phase.chunks[..w.phase.next] == w.phase.chunks;
  }

  /** A message that stays or becomes sent keeps its merge mark. */
  lemma SentKeepsMark(s: State, e: Event, x: MsgId)
    requires Enabled(s, e) && x in s.msgs && RowAfter(s, e, x).status == Sent
    ensures RowAfter(s, e, x).mergedInto == s.msgs[x].mergedInto
  {
  }

  lemma SilencingSends(s: State, e: Event, x: MsgId)
    requires Enabled(s, e) && x in s.msgs && Silences(s, e, x)
    ensures RowAfter(s, e, x) == s.msgs[x].(status := Sent)
    ensures forall y :: y in s.msgs ==> RowAfter(s, e, y).log == s.msgs[y].log
  {
  }

  lemma SilenceHolds(msgs: map<MsgId, Msg>, n: map<MsgId, Msg>, x: MsgId)
    requires x in msgs && x in n && !Answered(msgs, x) && n[x] == msgs[x].(status := Sent)
    requires forall y :: y in msgs ==> y in n && n[y].log == msgs[y].log
    requires msgs[x].mergedInto.Some? ==> msgs[x].mergedInto.value in msgs
    ensures Silent(n, x)
  {
  }

  lemma SilenceIsNew(s: State, e: Event, x: MsgId)
    requires Inv(s) && Enabled(s, e) && x in s.msgs && Silences(s, e, x)
    ensures Silent(Apply(s, e).msgs, x)
  {
    SilencingSends(s, e, x);
    forall y | y in s.msgs
      ensures y in Apply(s, e).msgs && Apply(s, e).msgs[y] == RowAfter(s, e, y)
    {
      RowAfterIs(s, e, y);
    }
    SilenceHolds(s.msgs, Apply(s, e).msgs, x);
  }

  lemma SentStays(s: State, e: Event, x: MsgId)
    requires Inv(s) && Enabled(s, e) && x in s.msgs && !Silent(s.msgs, x) && !Silences(s, e, x)
    requires RowAfter(s, e, x).status == Sent
    ensures x in Apply(s, e).msgs && Answered(Apply(s, e).msgs, x)
  {
    RowAfterIs(s, e, x);
    SentKeepsMark(s, e, x);
    if s.msgs[x].status != Sent {
      BecomesSent(s, e, x);
    }
    if e.Finish? && s.workers[e.token].msg == x {
      FinishReplies(s, e);
    } else {
      AnsweredStays(s, e, x);
    }
  }

  /** A message becomes sent without a whole reply in exactly these two ways. */
  lemma SilentExactly(s: State, e: Event, x: MsgId)
    requires Inv(s) && Enabled(s, e) && x in s.msgs && !Silent(s.msgs, x)
    ensures Silent(Apply(s, e).msgs, x) <==> Silences(s, e, x)
  {
    var n := Apply(s, e).msgs;
    if Silences(s, e, x) {
      SilenceIsNew(s, e, x);
    } else {
      RowAfterIs(s, e, x);
      if n[x].status == Sent {
        SentStays(s, e, x);
      }
    }
  }

  predicate Unsilenced(s: State, es: seq<Event>)
    requires Legal(s, es)
    decreases |es|
  {
    es == [] || ((forall x :: x in s.msgs ==> !Silences(s, es[0], x)) && Unsilenced(Apply(s, es[0]), es[1..]))
  }

  predicate NoneSilent(msgs: map<MsgId, Msg>) {
    forall x :: x in msgs ==> !Silent(msgs, x)
  }

  lemma UnsilencedStep(s: State, e: Event)
    requires Inv(s) && Enabled(s, e) && NoneSilent(s.msgs) && forall x :: x in s.msgs ==> !Silences(s, e, x)
    ensures NoneSilent(Apply(s, e).msgs)
  {
    forall x | x in Apply(s, e).msgs ensures !Silent(Apply(s, e).msgs, x) {
      if x in s.msgs {
        SilentExactly(s, e, x);
      } else {
        NewRow(s, e, x);
      }
    }
  }

  lemma {:induction false} UnsilencedRun(s: State, es: seq<Event>)
    requires Inv(s) && Legal(s, es) && Unsilenced(s, es) && NoneSilent(s.msgs)
    ensures NoneSilent(Run(s, es).msgs)
    decreases |es|
  {
    if es != [] {
      InvStep(s, es[0]);
      UnsilencedStep(s, es[0]);
      UnsilencedRun(Apply(s, es[0]), es[1..]);
    }
  }

  /** In a run without those two, sent means that a whole reply went out, to the message or
      to the one it was merged into. */
  lemma SentMeansAnswered(timeout: nat, cfg: Outbox.Retry, es: seq<Event>, x: MsgId)
    requires Legal(Start(timeout, cfg), es) && Unsilenced(Start(timeout, cfg), es)
    requires x in Run(Start(timeout, cfg), es).msgs
    ensures var msgs := Run(Start(timeout, cfg), es).msgs;
            msgs[x].status == Sent ==> Answered(msgs, x)
  {
    UnsilencedRun(Start(timeout, cfg), es);
  }

  // ---------------------------------------------------------------- how both come about

  lemma ReleaseEffect(s: State, x: MsgId, t: Token)
    requires t in s.workers && s.workers[t] == Busy(x, Releasing) && x in s.msgs
    ensures Enabled(s, Release(t)) && CalmEvent(s, Release(t))
    ensures Apply(s, Release(t)) == Advance(s, t, Released(s.msgs, x), Over(x, true))
  {
  }

  lemma MergeEffect(s: State, x: MsgId, t: Token, picked: set<MsgId>)
    requires t in s.workers && s.workers[t] == Busy(x, Working) && x in s.msgs && Oldest(s.msgs, x, picked)
    ensures Enabled(s, Merge(t, picked)) && CalmEvent(s, Merge(t, picked))
    ensures Apply(s, Merge(t, picked)) == Advance(s, t, Merged(s.msgs, x, picked), Busy(x, Asking))
  {
  }

  /** A message as it is ingested at time 0. */
  const FRESH := Msg(0, 0, 0, Queued, NoFence, None, false, 0, [])

  const FRESH_ROW_0 := Outbox.FreshRow(Outbox.MessageTask, 0, 0)

  const FRESH_ROW_1 := Outbox.FreshRow(Outbox.MessageTask, 1, 0)

  /** Two messages of one conversation are ingested. */
  lemma TwoMessages(timeout: nat, cfg: Outbox.Retry) returns (es: seq<Event>)
    ensures Legal(Start(timeout, cfg), es) && CalmRun(Start(timeout, cfg), es)
    ensures Run(Start(timeout, cfg), es)
         == State(map[0 := FRESH, 1 := FRESH], map[0 := FRESH_ROW_0, 1 := FRESH_ROW_1], map[], {}, 0, timeout, cfg)
  {
    var s0 := Start(timeout, cfg);
    IngestEffect(s0, 0, 0, 0);
    CalmExtend(s0, [], s0, Ingest(0, 0, 0, true));
    var s1 := Ingested(s0, 0, 0, 0, true);
    IngestEffect(s1, 1, 0, 0);
    CalmExtend(s0, [] + [Ingest(0, 0, 0, true)], s1, Ingest(1, 0, 0, true));
    es := [] + [Ingest(0, 0, 0, true)] + [Ingest(1, 0, 0, true)];
  }

  /** Worker 0 takes message 0 up and dies. */
  lemma TakenUpAndLost(timeout: nat, cfg: Outbox.Retry) returns (es: seq<Event>)
    ensures Legal(Start(timeout, cfg), es) && CalmRun(Start(timeout, cfg), es)
    ensures Run(Start(timeout, cfg), es)
         == State(map[0 := FRESH.(status := Processing, begun := true), 1 := FRESH],
                  map[0 := Outbox.Claimed(FRESH_ROW_0, 0, 0), 1 := FRESH_ROW_1], map[], {0}, 0, timeout, cfg)
  {
    var s0 := Start(timeout, cfg);
    es := TwoMessages(timeout, cfg);
    var s1 := Run(s0, es);
    var a := ClaimAndBegin(s1, 0, 0);
    CalmCat(s0, es, a);
    es := es + a;
    var s2 := Run(s1, a);
    CrashEffect(s2, 0);
    CalmExtend(s0, es, s2, Crash(0));
    es := es + [Crash(0)];
  }

  /** Worker 1 replies to message 1, and the release marks message 0 sent as well. */
  lemma SweptByRelease(timeout: nat, cfg: Outbox.Retry) returns (es: seq<Event>)
    ensures Legal(Start(timeout, cfg), es) && CalmRun(Start(timeout, cfg), es)
    ensures var n := Run(Start(timeout, cfg), es);
            && n.msgs.Keys == {0, 1} && n.msgs[0] == FRESH.(status := Sent, begun := true)
            && n.tasks.Keys == {0, 1} && n.tasks[0] == Outbox.Claimed(FRESH_ROW_0, 0, 0)
            && n.workers == map[1 := Over(1, true)] && n.issued == {0, 1} && n.now == 0 && n.timeout == timeout
  {
    var s0 := Start(timeout, cfg);
    es := TakenUpAndLost(timeout, cfg);
    var s1 := Run(s0, es);
    var a := WholeReply(s1, 1, 1, Reply);
    CalmCat(s0, es, a);
    es := es + a;
    var s2 := Run(s1, a);
    ReleaseEffect(s2, 1, 1);
    CalmExtend(s0, es, s2, Release(1));
    es := es + [Release(1)];
  }

  /** Message 0's lease runs out, and its row is claimed again. */
  lemma SweptAndClaimed(timeout: nat, cfg: Outbox.Retry) returns (es: seq<Event>)
    ensures Legal(Start(timeout, cfg), es) && CalmRun(Start(timeout, cfg), es)
    ensures var n := Run(Start(timeout, cfg), es);
            && n.msgs.Keys == {0, 1} && n.msgs[0] == FRESH.(status := Sent, begun := true) && n.tasks.Keys == {0, 1}
            && Outbox.HeldBy(n.tasks[0], Some(2)) && n.tasks[0].kind == Outbox.MessageTask
            && n.workers == map[1 := Over(1, true), 2 := Claimed(0)]
  {
    var s0 := Start(timeout, cfg);
    es := SweptByRelease(timeout, cfg);
    var s1 := Run(s0, es);
    TickEffect(s1, timeout + 1);
    CalmExtend(s0, es, s1, Tick(timeout + 1));
    es := es + [Tick(timeout + 1)];
    var s2 := s1.(now := timeout + 1);
    ClaimEffect(s2, 0, 2);
    CalmExtend(s0, es, s2, Claim(2, 0, timeout + 1));
    es := es + [Claim(2, 0, timeout + 1)];
  }

  /** The run finds it sent and completes the row: the user never hears back, and nothing is
      left to retry. All leases and locks are in order throughout. */
  lemma CrashedSiblingIsSwept(timeout: nat, cfg: Outbox.Retry) returns (es: seq<Event>)
    ensures Legal(Start(timeout, cfg), es) && CalmRun(Start(timeout, cfg), es)
    ensures var n := Run(Start(timeout, cfg), es);
            && 0 in n.msgs && Unanswered(n.msgs[0]) && Silent(n.msgs, 0)
            && 0 in n.tasks && n.tasks[0].status == Outbox.Done
  {
    var s0 := Start(timeout, cfg);
    es := SweptAndClaimed(timeout, cfg);
    var s3 := Run(s0, es);
    BeginOverEffect(s3, 0, 2);
    CalmExtend(s0, es, s3, Begin(2));
    es := es + [Begin(2)];
    var s4 := Advance(s3, 2, s3.msgs, Over(0, true));
    CompleteEffect(s4, 0, 2);
    CalmExtend(s0, es, s4, CompleteTask(2));
    es := es + [CompleteTask(2)];
  }

  const MERGED := FRESH.(mergedInto := Some(1))

  /** Message 1's run merges message 0. */
  lemma SiblingMerged(timeout: nat, cfg: Outbox.Retry) returns (es: seq<Event>)
    ensures Legal(Start(timeout, cfg), es) && CalmRun(Start(timeout, cfg), es)
    ensures Run(Start(timeout, cfg), es)
         == State(map[0 := MERGED.(status := Processing), 1 := FRESH.(status := Processing, begun := true)],
                  map[0 := FRESH_ROW_0, 1 := Outbox.Claimed(FRESH_ROW_1, 0, 0)],
                  map[0 := Busy(1, Asking)], {0}, 0, timeout, cfg)
  {
    var s0 := Start(timeout, cfg);
    es := TwoMessages(timeout, cfg);
    var s1 := Run(s0, es);
    var a := ClaimAndBegin(s1, 1, 0);
    CalmCat(s0, es, a);
    es := es + a;
    var s2 := Run(s1, a);
    assert Candidate(s2.msgs, 1, 0) && Oldest(s2.msgs, 1, {0});
    MergeEffect(s2, 1, 0, {0});
    CalmExtend(s0, es, s2, Merge(0, {0}));
    es := es + [Merge(0, {0})];
  }

  lemma QueuedAgain()
    ensures var failed := FRESH.(status := Failed, begun := true);
            Restored(map[0 := MERGED.(status := Processing), 1 := failed], 1) == map[0 := MERGED, 1 := failed]
  {
  }

  /** It fails, and queues message 0 again, still marked. */
  lemma MergedAndQueuedAgain(timeout: nat, cfg: Outbox.Retry) returns (es: seq<Event>)
    ensures Legal(Start(timeout, cfg), es) && CalmRun(Start(timeout, cfg), es)
    ensures Run(Start(timeout, cfg), es)
         == State(map[0 := MERGED, 1 := FRESH.(status := Failed, begun := true)],
                  map[0 := FRESH_ROW_0, 1 := Outbox.Claimed(FRESH_ROW_1, 0, 0)],
                  map[0 := Over(1, false)], {0}, 0, timeout, cfg)
  {
    var s0 := Start(timeout, cfg);
    es := SiblingMerged(timeout, cfg);
    var s1 := Run(s0, es);
    var b := RaiseAndHandle(s1, 1, 0, true);
    QueuedAgain();
    assert s1.msgs[1 := s1.msgs[1].(status := Failed)]
        == map[0 := MERGED.(status := Processing), 1 := FRESH.(status := Failed, begun := true)];
    CalmCat(s0, es, b);
    es := es + b;
  }

  /** Message 0's own worker then marks it sent for its merge mark, and completes its row. */
  lemma SkippedAndDone(timeout: nat, cfg: Outbox.Retry) returns (es: seq<Event>)
    ensures Legal(Start(timeout, cfg), es) && CalmRun(Start(timeout, cfg), es)
    ensures var n := Run(Start(timeout, cfg), es);
            && n.msgs == map[0 := MERGED.(status := Sent), 1 := FRESH.(status := Failed, begun := true)]
            && n.tasks.Keys == {0, 1} && n.tasks[0].status == Outbox.Done
            && n.tasks[1] == Outbox.Claimed(FRESH_ROW_1, 0, 0)
            && 0 in n.workers && n.workers[0] == Over(1, false) && n.cfg == cfg
  {
    var s0 := Start(timeout, cfg);
    es := MergedAndQueuedAgain(timeout, cfg);
    var s1 := Run(s0, es);
    ClaimEffect(s1, 0, 1);
    CalmExtend(s0, es, s1, Claim(1, 0, 0));
    es := es + [Claim(1, 0, 0)];
    var s2 := ClaimBy(s1, 1, 0, 0);
    BeginMergedEffect(s2, 0, 1);
    CalmExtend(s0, es, s2, Begin(1));
    es := es + [Begin(1)];
    var s3 := Advance(s2, 1, s2.msgs[0 := MERGED.(status := Sent)], Over(0, true));
    CompleteEffect(s3, 0, 1);
    CalmExtend(s0, es, s3, CompleteTask(1));
    es := es + [CompleteTask(1)];
  }

  /** Message 1 dies without a reply: neither is ever answered. */
  lemma MergedSiblingIsSkipped(timeout: nat) returns (es: seq<Event>)
    ensures var s0 := Start(timeout, Outbox.Retry(1, 5, 300));
            && Legal(s0, es) && CalmRun(s0, es)
            && var n := Run(s0, es);
               && 0 in n.msgs && Silent(n.msgs, 0) && 0 in n.tasks && n.tasks[0].status == Outbox.Done
               && 1 in n.msgs && n.msgs[1].status == Dead && n.msgs[1].log == []
  {
    var s0 := Start(timeout, Outbox.Retry(1, 5, 300));
    es := SkippedAndDone(timeout, s0.cfg);
    var s4 := Run(s0, es);
    FailEffect(s4, 1, 0);
    CalmExtend(s0, es, s4, FailTask(0, "e"));
    es := es + [FailTask(0, "e")];
  }
}
