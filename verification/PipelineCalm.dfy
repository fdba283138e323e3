/** When fail_task can turn a sent message dead, and what follows from it.

    Three kinds of event open that door: a run that finds its Redis lock taken, an
    exception out of the release of merged messages after the reply was committed, and a
    worker that starts on a message after its lease was already taken over. A run without
    them is calm. */
module PipelineCalm {
  import opened Basics
  import Outbox
  import opened Pipeline
  import opened PipelineSafety

  predicate Leased(tasks: map<MsgId, Outbox.Row>, t: Token, x: MsgId) {
    x in tasks && tasks[x].lease == Some(t)
  }

  predicate CalmEvent(s: State, e: Event)
    requires Enabled(s, e)
  {
    && !e.LockMiss?
    && (e.Raise? ==> !s.workers[e.token].phase.Releasing?)
    && (e.Begin? ==> Leased(s.tasks, e.token, s.workers[e.token].msg))
  }

  predicate CalmRun(s: State, es: seq<Event>)
    requires Legal(s, es)
    decreases |es|
  {
    es == [] || (CalmEvent(s, es[0]) && CalmRun(Apply(s, es[0]), es[1..]))
  }

  /** A worker that could still have its failure accepted failed on an unsent message. */
  predicate CalmWorker(m: Msg, leased: bool, w: Worker) {
    && (w.Busy? && !w.phase.Releasing? ==> m.status != Sent)
    && (w.Busy? && w.phase.Restoring? && leased ==> m.status == Failed)
    && (w.Over? && !w.ok && leased ==> m.status == Failed && m.begun)
  }

  predicate CalmWorkers(workers: map<Token, Worker>, msgs: map<MsgId, Msg>, tasks: map<MsgId, Outbox.Row>) {
    forall t :: t in workers && workers[t].msg in msgs ==>
      CalmWorker(msgs[workers[t].msg], Leased(tasks, t, workers[t].msg), workers[t])
  }

  /** While a finished run still holds the lease, nobody else is working on its message. */
  predicate Exclusive(workers: map<Token, Worker>, tasks: map<MsgId, Outbox.Row>) {
    forall t, u ::
      (t in workers && u in workers && workers[t].Over? && workers[u].Busy? && Leased(tasks, t, workers[t].msg))
      ==> workers[u].msg != workers[t].msg
  }

  predicate Unkilled(msgs: map<MsgId, Msg>) {
    forall x :: x in msgs ==> msgs[x].kills == 0
  }

  predicate Calm(s: State) {
    CalmWorkers(s.workers, s.msgs, s.tasks) && Exclusive(s.workers, s.tasks) && Unkilled(s.msgs)
  }

  lemma LocalCalm(m: Msg, leased: bool, w: Worker, e: Event)
    requires MsgInv(m) && (w.Busy? ==> PhaseInv(m, w.phase)) && CalmWorker(m, leased, w)
    requires Local(e) && LocalEnabled(m, w, e) && !e.LockMiss?
    requires e.Raise? ==> !w.phase.Releasing?
    ensures var r := LocalStep(m, w, e);
            CalmWorker(r.0, leased, r.1) && r.0.kills == m.kills
  {
  }

  lemma OwnCalm(s: State, t: Token, m: Msg, w: Worker)
    requires Inv(s) && Calm(s) && t in s.workers && s.workers[t].msg == w.msg && w.msg in s.msgs
    requires s.workers[t].Busy? || (Leased(s.tasks, t, w.msg) && forall u :: u in s.workers ==> !s.workers[u].Busy?)
    requires CalmWorker(m, Leased(s.tasks, t, w.msg), w) && m.kills == 0
    ensures Calm(Advance(s, t, s.msgs[w.msg := m], w))
  {
    var workers, msgs := s.workers[t := w], s.msgs[w.msg := m];
    forall u | u in workers && workers[u].msg in msgs
      ensures CalmWorker(msgs[workers[u].msg], Leased(s.tasks, u, workers[u].msg), workers[u])
    {
      if u != t && s.workers[u].msg == w.msg {
        // Another worker on the same message is idle; if it reported a failure, its lease is gone.
        assert !s.workers[u].Busy?;
        assert s.workers[u].Over? ==> !Leased(s.tasks, u, w.msg);
      }
    }
  }

  lemma LocalCalmStep(s: State, e: Event)
    requires Inv(s) && Calm(s) && Enabled(s, e) && Local(e) && CalmEvent(s, e)
    ensures Calm(Apply(s, e))
  {
    var t := e.token;
    var w := s.workers[t];
    LocalCalm(s.msgs[w.msg], Leased(s.tasks, t, w.msg), w, e);
    var r := LocalStep(s.msgs[w.msg], w, e);
    OwnCalm(s, t, r.0, r.1);
  }

  /** Merging and restoring touch only messages that were never begun; releasing touches
      only processing ones. A failed run's message is neither. */
  lemma BulkCalm(s: State, t: Token, rows: map<MsgId, Msg>, w: Worker)
    requires Calm(s) && Alone(s.workers, t) && s.workers[t].Busy? && s.workers[t].msg == w.msg && w.msg in s.msgs
    requires rows.Keys == s.msgs.Keys && Unkilled(rows)
    requires forall x :: x in rows && s.msgs[x].begun && s.msgs[x].status == Failed ==> rows[x] == s.msgs[x]
    requires CalmWorker(rows[w.msg], Leased(s.tasks, t, w.msg), w)
    ensures Calm(Advance(s, t, rows, w))
  {
    var workers := s.workers[t := w];
    forall u | u in workers && workers[u].msg in rows
      ensures CalmWorker(rows[workers[u].msg], Leased(s.tasks, u, workers[u].msg), workers[u])
    {
      if u != t {
        assert CalmWorker(s.msgs[s.workers[u].msg], Leased(s.tasks, u, s.workers[u].msg), s.workers[u]);
      }
    }
  }

  lemma MergeCalm(s: State, t: Token, picked: set<MsgId>)
    requires Inv(s) && Calm(s) && BusyIn(s, t) && s.workers[t].phase.Working?
    requires Oldest(s.msgs, s.workers[t].msg, picked)
    ensures Calm(Advance(s, t, Merged(s.msgs, s.workers[t].msg, picked), Busy(s.workers[t].msg, Asking)))
  {
    var x := s.workers[t].msg;
    var rows := Merged(s.msgs, x, picked);
    assert !Candidate(s.msgs, x, x);
    forall y | y in rows && s.msgs[y].status == Failed
      ensures rows[y] == s.msgs[y]
    {
      assert !Candidate(s.msgs, x, y);
    }
    assert CalmWorker(s.msgs[x], Leased(s.tasks, t, x), s.workers[t]);
    BulkCalm(s, t, rows, Busy(x, Asking));
  }

  lemma ReleaseCalm(s: State, t: Token)
    requires Inv(s) && Calm(s) && BusyIn(s, t)
    ensures Calm(Advance(s, t, Released(s.msgs, s.workers[t].msg), Over(s.workers[t].msg, true)))
  {
    BulkCalm(s, t, Released(s.msgs, s.workers[t].msg), Over(s.workers[t].msg, true));
  }

  lemma RestoreCalm(s: State, t: Token, ok: bool)
    requires Inv(s) && Calm(s) && BusyIn(s, t) && s.workers[t].phase.Restoring?
    ensures var rows := if ok then Restored(s.msgs, s.workers[t].msg) else s.msgs;
            Calm(Advance(s, t, rows, Over(s.workers[t].msg, false)))
  {
    var x := s.workers[t].msg;
    var rows := if ok then Restored(s.msgs, x) else s.msgs;
    forall y | y in rows && s.msgs[y].begun
      ensures rows[y] == s.msgs[y]
    {
      assert MsgInv(s.msgs[y]);
    }
    assert CalmWorker(s.msgs[x], Leased(s.tasks, t, x), s.workers[t]);
    assert PhaseInv(s.msgs[x], s.workers[t].phase);
    BulkCalm(s, t, rows, Over(x, false));
  }

  /** Losing workers or leases, or learning that an unsent message died, keeps calm. */
  lemma FewerLeases(s: State, x: MsgId, row: Outbox.Row, gone: set<Token>)
    requires Calm(s) && x in s.tasks && (row.lease == s.tasks[x].lease || row.lease == None)
    ensures Calm(s.(tasks := s.tasks[x := row], workers := s.workers - gone))
  {
    var tasks, workers := s.tasks[x := row], s.workers - gone;
    assert forall t, y :: Leased(tasks, t, y) ==> Leased(s.tasks, t, y);
    forall u | u in workers && workers[u].msg in s.msgs
      ensures CalmWorker(s.msgs[workers[u].msg], Leased(tasks, u, workers[u].msg), workers[u])
    {
      assert CalmWorker(s.msgs[workers[u].msg], Leased(s.tasks, u, workers[u].msg), workers[u]);
    }
  }

  lemma RestatusCalm(s: State, x: MsgId, status: MsgStatus)
    requires Calm(s) && x in s.msgs && status != Sent
    requires x in s.tasks ==> s.tasks[x].lease == None
    ensures Calm(s.(msgs := s.msgs[x := s.msgs[x].(status := status)]))
  {
    var msgs := s.msgs[x := s.msgs[x].(status := status)];
    forall u | u in s.workers && s.workers[u].msg in msgs
      ensures CalmWorker(msgs[s.workers[u].msg], Leased(s.tasks, u, s.workers[u].msg), s.workers[u])
    {
      assert CalmWorker(s.msgs[s.workers[u].msg], Leased(s.tasks, u, s.workers[u].msg), s.workers[u]);
    }
  }

  lemma FailCalm(s: State, t: Token, error: string)
    requires Inv(s) && Calm(s) && t in s.workers
    requires s.workers[t].Over? && !s.workers[t].ok && s.workers[t].msg in s.tasks
    ensures Calm(Failing(s, t, error))
  {
    var x := s.workers[t].msg;
    var row := Outbox.Failed(s.tasks[x], Some(t), error, s.now, s.cfg);
    FewerLeases(s, x, row, {t});
    assert CalmWorker(s.msgs[x], Leased(s.tasks, t, x), s.workers[t]);
    if Outbox.HeldBy(s.tasks[x], Some(t)) && row.status == Outbox.Dead {
      assert Killed(s.msgs[x]) == s.msgs[x].(status := Dead);
      RestatusCalm(Settled(s, t, row), x, Dead);
    }
  }

  lemma ReplayCalm(s: State, x: MsgId)
    requires Inv(s) && Calm(s) && x in s.tasks
    ensures Calm(Replaying(s, x))
  {
    var row := Outbox.Replayed(s.tasks[x], s.now);
    FewerLeases(s, x, row, {});
    assert s.workers - {} == s.workers;
    if s.tasks[x].status == Outbox.Dead && s.msgs[x].status == Dead {
      RestatusCalm(s.(tasks := s.tasks[x := row]), x, Failed);
    }
  }

  lemma ClaimCalm(s: State, t: Token, x: MsgId, at: int)
    requires Inv(s) && Calm(s) && t !in s.issued && x in s.tasks
    ensures Calm(ClaimBy(s, t, x, at))
  {
    var n := ClaimBy(s, t, x, at);
    assert forall u, y :: u in s.workers && Leased(n.tasks, u, y) ==> Leased(s.tasks, u, y);
    forall u | u in n.workers && n.workers[u].msg in n.msgs
      ensures CalmWorker(n.msgs[n.workers[u].msg], Leased(n.tasks, u, n.workers[u].msg), n.workers[u])
    {
      if u in s.workers {
        assert CalmWorker(s.msgs[s.workers[u].msg], Leased(s.tasks, u, s.workers[u].msg), s.workers[u]);
      }
    }
  }

  lemma IngestCalm(s: State, x: MsgId, conversation: nat, user: nat, reply: bool)
    requires Inv(s) && Calm(s) && x !in s.msgs && x !in s.tasks
    ensures Calm(Ingested(s, x, conversation, user, reply))
  {
    var n := Ingested(s, x, conversation, user, reply);
    forall u | u in n.workers && n.workers[u].msg in n.msgs
      ensures CalmWorker(n.msgs[n.workers[u].msg], Leased(n.tasks, u, n.workers[u].msg), n.workers[u])
    {
      assert CalmWorker(s.msgs[s.workers[u].msg], Leased(s.tasks, u, s.workers[u].msg), s.workers[u]);
    }
  }

  lemma CrashCalm(s: State, t: Token)
    requires Calm(s)
    ensures Calm(s.(workers := s.workers - {t}))
  {
  }

  lemma LeaseEventCalm(s: State, e: Event)
    requires Inv(s) && Calm(s) && Enabled(s, e) && (e.Claim? || e.Renew?)
    ensures Calm(Apply(s, e))
  {
    match e
    case Claim(t, x, at) => ClaimCalm(s, t, x, at);
    case Renew(t) =>
      FewerLeases(s, s.workers[t].msg, Outbox.Renewed(s.tasks[s.workers[t].msg], t, s.now), {});
      assert s.workers - {} == s.workers;
  }

  lemma OutcomeEventCalm(s: State, e: Event)
    requires Inv(s) && Calm(s) && Enabled(s, e) && (e.CompleteTask? || e.FailTask? || e.Replay?)
    ensures Calm(Apply(s, e))
  {
    match e
    case CompleteTask(t) =>
      FewerLeases(s, s.workers[t].msg, Outbox.Completed(s.tasks[s.workers[t].msg], Some(t), s.now), {t});
    case FailTask(t, error) => FailCalm(s, t, error);
    case Replay(x) => ReplayCalm(s, x);
  }

  lemma BulkEventCalm(s: State, e: Event)
    requires Inv(s) && Calm(s) && Enabled(s, e) && (e.Merge? || e.Release? || e.Restore?)
    ensures Calm(Apply(s, e))
  {
    match e
    case Merge(t, picked) => MergeCalm(s, t, picked);
    case Release(t) => ReleaseCalm(s, t);
    case Restore(t, ok) => RestoreCalm(s, t, ok);
  }

  lemma WorldEventCalm(s: State, e: Event)
    requires Inv(s) && Calm(s) && Enabled(s, e) && (e.Ingest? || e.Crash? || e.Tick?)
    ensures Calm(Apply(s, e))
  {
    match e
    case Ingest(x, c, u, reply) => IngestCalm(s, x, c, u, reply);
    case Crash(t) => CrashCalm(s, t);
    case Tick(_) =>
  }

  lemma CalmStep(s: State, e: Event)
    requires Inv(s) && Calm(s) && Enabled(s, e) && CalmEvent(s, e)
    ensures Calm(Apply(s, e))
  {
    if Local(e) {
      LocalCalmStep(s, e);
    } else if e.Merge? || e.Release? || e.Restore? {
      BulkEventCalm(s, e);
    } else if e.Ingest? || e.Crash? || e.Tick? {
      WorldEventCalm(s, e);
    } else if e.Claim? || e.Renew? {
      LeaseEventCalm(s, e);
    } else {
      OutcomeEventCalm(s, e);
    }
  }

  lemma {:induction false} CalmInvRun(s: State, es: seq<Event>)
    requires Inv(s) && Calm(s) && Legal(s, es) && CalmRun(s, es)
    ensures Inv(Run(s, es)) && Calm(Run(s, es))
    decreases |es|
  {
    if es != [] {
      InvStep(s, es[0]);
      CalmStep(s, es[0]);
      CalmInvRun(Apply(s, es[0]), es[1..]);
    }
  }

  /** In a calm run every message is dispatched at most once, on whichever of the three
      reply paths, through any crashes, stale takeovers, retries, deaths and replays. */
  lemma CalmRunsReplyOnce(timeout: nat, cfg: Outbox.Retry, es: seq<Event>, x: MsgId)
    requires Legal(Start(timeout, cfg), es) && CalmRun(Start(timeout, cfg), es)
    requires x in Run(Start(timeout, cfg), es).msgs
    ensures |Run(Start(timeout, cfg), es).msgs[x].log| <= 1
  {
    var s0 := Start(timeout, cfg);
    CalmInvRun(s0, es);
    assert MsgInv(Run(s0, es).msgs[x]);
  }
}
