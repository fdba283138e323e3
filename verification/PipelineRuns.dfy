/** Whole-run consequences of the pipeline invariant. */
module PipelineRuns {
  import opened Basics
  import Outbox
  import opened Text
  import opened SplitReply
  import opened Pipeline
  import opened PipelineSafety

  // ------------------------------------------------------------- one event, one message

  /** fail_task takes the last failure of x's row from the worker of e. */
  predicate KilledBy(s: State, e: Event, x: MsgId)
    requires Enabled(s, e) && x in s.msgs
  {
    && e.FailTask? && s.workers[e.token].msg == x && Outbox.HeldBy(s.tasks[x], Some(e.token))
    && Outbox.Failed(s.tasks[x], Some(e.token), e.error, s.now, s.cfg).status == Outbox.Dead
  }

  lemma NewRow(s: State, e: Event, x: MsgId)
    requires Enabled(s, e) && x !in s.msgs && x in Apply(s, e).msgs
    ensures Apply(s, e).msgs[x].status != Sent && Apply(s, e).msgs[x].log == []
  {
  }

  /** What an event makes of one message. */
  function RowAfter(s: State, e: Event, x: MsgId): Msg
    requires Enabled(s, e) && x in s.msgs
  {
    var m := s.msgs[x];
    if Local(e) then (if s.workers[e.token].msg == x then LocalStep(m, s.workers[e.token], e).0 else m)
    else if e.Merge? then
      (if x in e.picked then m.(status := Processing, mergedInto := Some(s.workers[e.token].msg)) else m)
    else if e.Release? then (if Releasable(s.msgs, s.workers[e.token].msg, x) then m.(status := Sent) else m)
    else if e.Restore? then
      (if e.ok && m.mergedInto == Some(s.workers[e.token].msg) then m.(status := Queued) else m)
    else if e.FailTask? then (if KilledBy(s, e, x) then Killed(m) else m)
    else if e.Replay? then
      (if e.id == x && s.tasks[x].status == Outbox.Dead && m.status == Dead then m.(status := Failed) else m)
    else m
  }

  lemma LocalRow(s: State, e: Event, x: MsgId)
    requires Enabled(s, e) && x in s.msgs && Local(e)
    ensures x in Apply(s, e).msgs && Apply(s, e).msgs[x] == RowAfter(s, e, x)
  {
  }

  lemma BulkRow(s: State, e: Event, x: MsgId)
    requires Enabled(s, e) && x in s.msgs && (e.Merge? || e.Release? || e.Restore?)
    ensures x in Apply(s, e).msgs && Apply(s, e).msgs[x] == RowAfter(s, e, x)
  {
  }

  lemma OutcomeRow(s: State, e: Event, x: MsgId)
    requires Enabled(s, e) && x in s.msgs && (e.FailTask? || e.Replay?)
    ensures x in Apply(s, e).msgs && Apply(s, e).msgs[x] == RowAfter(s, e, x)
  {
  }

  lemma OtherRow(s: State, e: Event, x: MsgId)
    requires Enabled(s, e) && x in s.msgs && !Local(e)
    requires !e.Merge? && !e.Release? && !e.Restore? && !e.FailTask? && !e.Replay?
    ensures x in Apply(s, e).msgs && Apply(s, e).msgs[x] == s.msgs[x]
  {
  }

  lemma RowAfterIs(s: State, e: Event, x: MsgId)
    requires Enabled(s, e) && x in s.msgs
    ensures x in Apply(s, e).msgs && Apply(s, e).msgs[x] == RowAfter(s, e, x)
  {
    if Local(e) {
      LocalRow(s, e, x);
    } else if e.Merge? || e.Release? || e.Restore? {
      BulkRow(s, e, x);
    } else if e.FailTask? || e.Replay? {
      OutcomeRow(s, e, x);
    } else {
      OtherRow(s, e, x);
    }
  }

  // ------------------------------------------------------------------- history grows

  /** d is the same dispatch as c, with at least as much sent. */
  predicate Continues(c: Dispatch, d: Dispatch) {
    d.path == c.path && d.text == c.text && d.limit == c.limit && d.chunks == c.chunks && c.sent <= d.sent
  }

  predicate LogGrows(a: seq<Dispatch>, b: seq<Dispatch>) {
    |a| <= |b| && forall i :: 0 <= i < |a| ==> Continues(a[i], b[i])
  }

  /** History only grows: a message is never forgotten, un-begun, un-merged or un-sent, and
      its dispatches stay on record as they were made. */
  predicate Grows(m: Msg, n: Msg) {
    && (m.begun ==> n.begun)
    && (m.mergedInto.Some? ==> n.mergedInto.Some?)
    && m.kills <= n.kills
    && LogGrows(m.log, n.log)
    && n.conversation == m.conversation && n.user == m.user && n.createdAt == m.createdAt
  }

  predicate AllGrow(a: map<MsgId, Msg>, b: map<MsgId, Msg>) {
    forall x :: x in a ==> x in b && Grows(a[x], b[x])
  }

  lemma LocalGrows(m: Msg, w: Worker, e: Event)
    requires Local(e) && LocalEnabled(m, w, e)
    ensures Grows(m, LocalStep(m, w, e).0)
  {
  }

  lemma LogGrowsOn(a: seq<Dispatch>, b: seq<Dispatch>, c: seq<Dispatch>)
    requires LogGrows(a, b) && LogGrows(b, c)
    ensures LogGrows(a, c)
  {
    forall i | 0 <= i < |a| ensures Continues(a[i], c[i]) {
      assert Continues(a[i], b[i]) && Continues(b[i], c[i]);
    }
  }

  lemma RowGrows(s: State, e: Event, x: MsgId)
    requires Enabled(s, e) && x in s.msgs
    ensures Grows(s.msgs[x], RowAfter(s, e, x))
  {
    if Local(e) && s.workers[e.token].msg == x {
      LocalGrows(s.msgs[x], s.workers[e.token], e);
    }
  }

  lemma StepGrows(s: State, e: Event)
    requires Enabled(s, e)
    ensures AllGrow(s.msgs, Apply(s, e).msgs)
  {
    forall x | x in s.msgs ensures x in Apply(s, e).msgs && Grows(s.msgs[x], Apply(s, e).msgs[x]) {
      RowAfterIs(s, e, x);
      RowGrows(s, e, x);
    }
  }

  lemma {:induction false} RunGrows(s: State, es: seq<Event>)
    requires Legal(s, es)
    ensures AllGrow(s.msgs, Run(s, es).msgs)
    decreases |es|
  {
    if es != [] {
      StepGrows(s, es[0]);
      RunGrows(Apply(s, es[0]), es[1..]);
      var a, b, c := s.msgs, Apply(s, es[0]).msgs, Run(s, es).msgs;
      forall x | x in a ensures x in c && Grows(a[x], c[x]) {
        assert Grows(a[x], b[x]) && Grows(b[x], c[x]);
        LogGrowsOn(a[x].log, b[x].log, c[x].log);
      }
    }
  }

  // --------------------------------------------------------------- what is in the log

  /** A dispatch of the main path carries a stripped, non-empty answer cut into its pieces. */
  predicate WellMade(d: Dispatch) {
    && d.limit >= 1 && d.chunks == ChunksFor(d.path, d.text, d.limit)
    && (d.path == Reply ==> d.text != [] && Trimmed(d.text, WHITESPACE))
  }

  predicate LogOk(log: seq<Dispatch>) {
    forall i :: 0 <= i < |log| ==> WellMade(log[i])
  }

  lemma FenceLog(m: Msg, x: MsgId, path: Path, text: string, limit: nat)
    requires LogOk(m.log) && limit >= 1
    ensures LogOk(FenceAndGo(m, x, path, text, limit).0.log)
  {
    var body := Strip(text, WHITESPACE);
    var a, b := StripWindow(text, WHITESPACE);
    assert Trimmed(body, WHITESPACE);
  }

  lemma SendLog(m: Msg, x: MsgId, p: Phase, delivered: bool, raised: bool)
    requires LogOk(m.log) && p.Sending? && p.next < |p.chunks| && m.log != []
    ensures LogOk(SendNext(m, x, p, delivered, raised).0.log)
  {
    var log, k := SendNext(m, x, p, delivered, raised).0.log, |m.log| - 1;
    assert forall i :: 0 <= i < |log| ==>
        log[i].path == m.log[i].path && log[i].text == m.log[i].text
        && log[i].limit == m.log[i].limit && log[i].chunks == m.log[i].chunks;
    forall i | 0 <= i < |log|
      ensures WellMade(log[i])
    {
      assert WellMade(m.log[i]);
    }
  }

  lemma LocalLog(m: Msg, w: Worker, e: Event)
    requires Local(e) && LocalEnabled(m, w, e) && LogOk(m.log)
    ensures LogOk(LocalStep(m, w, e).0.log)
  {
    match e
    case StartDispatch(_, path, text, limit) => FenceLog(m, w.msg, path, text, limit);
    case Send(_, delivered, raised) => SendLog(m, w.msg, w.phase, delivered, raised);
    case _ =>
  }

  predicate LogsOk(msgs: map<MsgId, Msg>) {
    forall x :: x in msgs ==> LogOk(msgs[x].log)
  }

  lemma RowLog(s: State, e: Event, x: MsgId)
    requires Enabled(s, e) && x in s.msgs && LogOk(s.msgs[x].log)
    ensures LogOk(RowAfter(s, e, x).log)
  {
    if Local(e) && s.workers[e.token].msg == x {
      LocalLog(s.msgs[x], s.workers[e.token], e);
    }
  }

  lemma StepLogs(s: State, e: Event)
    requires Enabled(s, e) && LogsOk(s.msgs)
    ensures LogsOk(Apply(s, e).msgs)
  {
    forall x | x in Apply(s, e).msgs ensures LogOk(Apply(s, e).msgs[x].log) {
      if x in s.msgs {
        RowAfterIs(s, e, x);
        RowLog(s, e, x);
      } else {
        NewRow(s, e, x);
      }
    }
  }

  lemma {:induction false} RunLogs(s: State, es: seq<Event>)
    requires Legal(s, es) && LogsOk(s.msgs)
    ensures LogsOk(Run(s, es).msgs)
    decreases |es|
  {
    if es != [] {
      StepLogs(s, es[0]);
      RunLogs(Apply(s, es[0]), es[1..]);
    }
  }

  // ------------------------------------------------------------------ main results

  /** In every run of ingestion, claims, renewals, crashes, lock misses, stale takeovers,
      failures and replays, and for every message:
      the reply is dispatched at most once more than fail_task killed it after it was sent;
      what went out for each dispatch is a prefix of that one answer's chunk list, so no
      chunk is sent twice; only the latest dispatch can be unfinished; and a fence of
      "sent" means every chunk went out. */
  lemma RepliesAtMostOnce(timeout: nat, cfg: Outbox.Retry, es: seq<Event>, x: MsgId)
    requires Legal(Start(timeout, cfg), es) && x in Run(Start(timeout, cfg), es).msgs
    ensures var m := Run(Start(timeout, cfg), es).msgs[x];
            && |m.log| <= 1 + m.kills
            && LogOk(m.log)
            && (forall i :: 0 <= i < |m.log| ==> m.log[i].sent <= m.log[i].chunks)
            && (forall i :: 0 <= i < |m.log| - 1 ==> m.log[i].sent == m.log[i].chunks)
            && (m.fence == FenceSent ==> m.log != [] && m.log[|m.log| - 1].sent == m.log[|m.log| - 1].chunks)
  {
    var s0 := Start(timeout, cfg);
    InvRun(s0, es);
    RunLogs(s0, es);
    assert LogsOk(Run(s0, es).msgs);
    assert MsgInv(Run(s0, es).msgs[x]);
  }

  /** When a main-path dispatch is complete, the texts that went out are the whole answer,
      cut only at whitespace and within the channel's limit. */
  lemma CompleteReplyIsWholeAnswer(d: Dispatch)
    requires WellMade(d) && d.path == Reply && d.sent == d.chunks
    ensures Rejoins(d.text, d.sent, WHITESPACE)
    ensures forall c :: c in d.sent ==> 1 <= |c| <= d.limit
  {
    SplitIsFaithful(d.text, d.limit, WHITESPACE);
  }

  /** Merging is one level deep, and a merged message has not replied and never will, not
      even after _restore_merged_messages has queued it again. */
  lemma MergingIsDepthOne(timeout: nat, cfg: Outbox.Retry, before: seq<Event>, after: seq<Event>, x: MsgId)
    requires Legal(Start(timeout, cfg), before)
    requires Legal(Run(Start(timeout, cfg), before), after)
    requires x in Run(Start(timeout, cfg), before).msgs
    ensures var s, n := Run(Start(timeout, cfg), before), Run(Run(Start(timeout, cfg), before), after);
            && x in n.msgs
            && (s.msgs[x].mergedInto.Some? ==>
                  && n.msgs[x].mergedInto.Some? && n.msgs[x].log == []
                  && n.msgs[x].mergedInto.value in n.msgs
                  && n.msgs[n.msgs[x].mergedInto.value].mergedInto == None)
            && (s.msgs[x].log != [] ==> n.msgs[x].mergedInto == None)
  {
    var s0 := Start(timeout, cfg);
    InvRun(s0, before);
    var s := Run(s0, before);
    InvRun(s, after);
    RunGrows(s, after);
    var n := Run(s, after);
    assert Grows(s.msgs[x], n.msgs[x]);
    assert MsgInv(s.msgs[x]) && MsgInv(n.msgs[x]);
    if n.msgs[x].mergedInto.Some? {
      assert MsgInv(n.msgs[n.msgs[x].mergedInto.value]);
    }
  }
}
