/** What every run of the pipeline keeps: merging stays one level deep, a merged message
    never replies on its own, and replies go out at most once per message except after
    fail_task has turned an already sent message dead. */
module PipelineSafety {
  import opened Basics
  import Outbox
  import opened Pipeline

  // ------------------------------------------------------------------ one message

  predicate Complete(d: Dispatch) {
    d.sent == d.chunks
  }

  predicate MsgInv(m: Msg) {
    && (m.begun ==> m.mergedInto == None && m.status != Queued)
    && (!m.begun ==> m.log == [] && m.fence == NoFence)
    && (m.log == [] <==> m.fence == NoFence)
    && (forall i :: 0 <= i < |m.log| ==> m.log[i].sent <= m.log[i].chunks)
    && (forall i :: 0 <= i < |m.log| - 1 ==> Complete(m.log[i]))
    && (m.fence == FenceSent ==> Complete(m.log[|m.log| - 1]))
    && |m.log| <= 1 + m.kills
    && (m.fence == FenceSent && m.status != Sent ==> |m.log| <= m.kills)
  }

  // ------------------------------------------------------------------- the state

  predicate MsgsOk(msgs: map<MsgId, Msg>) {
    forall x :: x in msgs ==> MsgInv(msgs[x])
  }

  /** A merge target was taken up for its own reply, and so was never merged itself. */
  predicate MergesOk(msgs: map<MsgId, Msg>) {
    forall x :: x in msgs && msgs[x].mergedInto.Some? ==>
      msgs[x].mergedInto.value in msgs && msgs[msgs[x].mergedInto.value].begun
  }

  predicate TasksOk(tasks: map<MsgId, Outbox.Row>, issued: set<Token>) {
    forall x :: x in tasks ==>
      && (tasks[x].lease.Some? ==> tasks[x].lease.value in issued)
      && (tasks[x].status == Outbox.Processing <==> tasks[x].lease.Some?)
  }

  predicate PhaseInv(m: Msg, p: Phase) {
    && m.begun
    && (p.Working? || p.Asking? ==> m.status != Sent)
    && (p.Sending? ==>
          && m.log != [] && m.fence == Started
          && p.next <= |p.chunks|
          && m.log[|m.log| - 1].chunks == p.chunks && m.log[|m.log| - 1].sent == p.chunks[..p.next])
  }

  predicate WorkersOk(workers: map<Token, Worker>, tasks: set<MsgId>, issued: set<Token>) {
    forall t :: t in workers ==> t in issued && workers[t].msg in tasks
  }

  predicate PhasesOk(workers: map<Token, Worker>, msgs: map<MsgId, Msg>) {
    forall t :: t in workers && workers[t].Busy? && workers[t].msg in msgs ==>
      PhaseInv(msgs[workers[t].msg], workers[t].phase)
  }

  predicate Serial(workers: map<Token, Worker>) {
    forall t, u :: t in workers && u in workers && workers[t].Busy? && workers[u].Busy? ==> t == u
  }

  predicate Inv(s: State) {
    && MsgsOk(s.msgs) && MergesOk(s.msgs)
    && s.tasks.Keys <= s.msgs.Keys && TasksOk(s.tasks, s.issued)
    && WorkersOk(s.workers, s.tasks.Keys, s.issued) && PhasesOk(s.workers, s.msgs) && Serial(s.workers)
  }

  // ------------------------------------------------------------------- each step

  /** No other worker is inside process_message. */
  predicate Alone(workers: map<Token, Worker>, t: Token) {
    t in workers && forall u :: u in workers && workers[u].Busy? ==> u == t
  }

  lemma SendKeeps(m: Msg, x: MsgId, p: Phase, delivered: bool, raised: bool)
    requires MsgInv(m) && p.Sending? && PhaseInv(m, p) && p.next < |p.chunks| && (delivered || raised)
    ensures var r := SendNext(m, x, p, delivered, raised);
            && MsgInv(r.0) && r.0.mergedInto == m.mergedInto && r.0.begun
            && (r.1.Busy? ==> PhaseInv(r.0, r.1.phase))
  {
    assert p.chunks[..p.next] + [p.chunks[p.next]] == p.chunks[..p.next + 1];
  }

  /** The fence lets a dispatch start only when none has started, or when the previous one
      was finished and fail_task has since killed the message. */
  lemma FenceKeeps(m: Msg, x: MsgId, path: Path, text: string, limit: nat)
    requires MsgInv(m) && m.begun && m.status != Sent && limit >= 1
    ensures var r := FenceAndGo(m, x, path, text, limit);
            && MsgInv(r.0) && r.0.mergedInto == m.mergedInto && r.0.begun
            && r.1.Busy? && PhaseInv(r.0, r.1.phase)
  {
  }

  lemma LocalKeeps(m: Msg, w: Worker, e: Event)
    requires MsgInv(m) && (w.Busy? ==> PhaseInv(m, w.phase))
    requires Local(e) && LocalEnabled(m, w, e)
    ensures var r := LocalStep(m, w, e);
            && MsgInv(r.0) && r.0.mergedInto == m.mergedInto && (m.begun ==> r.0.begun)
            && (r.1.Busy? ==> PhaseInv(r.0, r.1.phase))
  {
    match e
    case Send(_, delivered, raised) => SendKeeps(m, w.msg, w.phase, delivered, raised);
    case StartDispatch(_, path, text, limit) => FenceKeeps(m, w.msg, path, text, limit);
    case _ =>
  }

  lemma PutOk(msgs: map<MsgId, Msg>, x: MsgId, m: Msg)
    requires MsgsOk(msgs) && MergesOk(msgs) && x in msgs
    requires MsgInv(m) && m.mergedInto == msgs[x].mergedInto && (msgs[x].begun ==> m.begun)
    ensures MsgsOk(msgs[x := m]) && MergesOk(msgs[x := m]) && msgs[x := m].Keys == msgs.Keys
  {
    var after := msgs[x := m];
    forall y | y in after && after[y].mergedInto.Some?
      ensures after[y].mergedInto.value in after && after[after[y].mergedInto.value].begun
    {
      assert msgs[y].mergedInto == after[y].mergedInto;
    }
  }

  lemma AlonePhases(workers: map<Token, Worker>, msgs: map<MsgId, Msg>, t: Token, w: Worker)
    requires Alone(workers, t)
    requires w.Busy? && w.msg in msgs ==> PhaseInv(msgs[w.msg], w.phase)
    ensures PhasesOk(workers[t := w], msgs) && Serial(workers[t := w])
  {
  }

  lemma LeavePhases(workers: map<Token, Worker>, msgs: map<MsgId, Msg>, t: Token, w: Worker)
    requires PhasesOk(workers, msgs) && Serial(workers) && !w.Busy?
    ensures PhasesOk(workers[t := w], msgs) && Serial(workers[t := w])
  {
  }

  lemma AdvanceInv(s: State, t: Token, rows: map<MsgId, Msg>, w: Worker)
    requires Inv(s) && Alone(s.workers, t) && w.msg == s.workers[t].msg
    requires rows.Keys == s.msgs.Keys && MsgsOk(rows) && MergesOk(rows)
    requires w.Busy? ==> PhaseInv(rows[w.msg], w.phase)
    ensures Inv(Advance(s, t, rows, w))
  {
    AlonePhases(s.workers, rows, t, w);
  }

  lemma LeaveInv(s: State, t: Token, w: Worker)
    requires Inv(s) && t in s.workers && w.msg == s.workers[t].msg && !w.Busy?
    ensures Inv(Advance(s, t, s.msgs, w))
  {
    LeavePhases(s.workers, s.msgs, t, w);
  }

  /** A merged message was never taken up for its own reply, so it has sent nothing. */
  lemma MergedIsUntouched(m: Msg)
    requires MsgInv(m) && (m.mergedInto.Some? || m.status == Queued)
    ensures !m.begun && m.log == [] && m.fence == NoFence
  {
  }

  lemma MergedOk(msgs: map<MsgId, Msg>, x: MsgId, picked: set<MsgId>)
    requires MsgsOk(msgs) && MergesOk(msgs) && x in msgs && msgs[x].begun && Oldest(msgs, x, picked)
    ensures MsgsOk(Merged(msgs, x, picked)) && MergesOk(Merged(msgs, x, picked))
    ensures Merged(msgs, x, picked).Keys == msgs.Keys && Merged(msgs, x, picked)[x] == msgs[x]
  {
    var rows := Merged(msgs, x, picked);
    forall y | y in rows
      ensures MsgInv(rows[y]) && rows[y].begun == msgs[y].begun
    {
      if y in picked {
        assert Candidate(msgs, x, y);
        MergedIsUntouched(msgs[y]);
      }
    }
    assert !Candidate(msgs, x, x);
  }

  lemma ReleasedOk(msgs: map<MsgId, Msg>, x: MsgId)
    requires MsgsOk(msgs) && MergesOk(msgs) && x in msgs
    ensures MsgsOk(Released(msgs, x)) && MergesOk(Released(msgs, x))
    ensures Released(msgs, x).Keys == msgs.Keys
  {
    var rows := Released(msgs, x);
    forall y | y in rows
      ensures MsgInv(rows[y]) && rows[y].begun == msgs[y].begun && rows[y].mergedInto == msgs[y].mergedInto
    {
      assert MsgInv(msgs[y]);
    }
  }

  lemma RestoredOk(msgs: map<MsgId, Msg>, x: MsgId)
    requires MsgsOk(msgs) && MergesOk(msgs)
    ensures MsgsOk(Restored(msgs, x)) && MergesOk(Restored(msgs, x))
    ensures Restored(msgs, x).Keys == msgs.Keys
  {
    var rows := Restored(msgs, x);
    forall y | y in rows
      ensures MsgInv(rows[y]) && rows[y].begun == msgs[y].begun && rows[y].mergedInto == msgs[y].mergedInto
    {
      assert MsgInv(msgs[y]);
      if msgs[y].mergedInto.Some? { MergedIsUntouched(msgs[y]); }
    }
  }

  lemma MergeStep(s: State, t: Token, picked: set<MsgId>)
    requires Inv(s) && BusyIn(s, t) && s.workers[t].phase.Working?
    requires Oldest(s.msgs, s.workers[t].msg, picked)
    ensures Inv(Advance(s, t, Merged(s.msgs, s.workers[t].msg, picked), Busy(s.workers[t].msg, Asking)))
  {
    var x := s.workers[t].msg;
    MergedOk(s.msgs, x, picked);
    AdvanceInv(s, t, Merged(s.msgs, x, picked), Busy(x, Asking));
  }

  lemma ReleaseStep(s: State, t: Token)
    requires Inv(s) && BusyIn(s, t)
    ensures Inv(Advance(s, t, Released(s.msgs, s.workers[t].msg), Over(s.workers[t].msg, true)))
  {
    ReleasedOk(s.msgs, s.workers[t].msg);
    AdvanceInv(s, t, Released(s.msgs, s.workers[t].msg), Over(s.workers[t].msg, true));
  }

  /** The restore itself may fail; its exception is swallowed. */
  lemma RestoreStep(s: State, t: Token, ok: bool)
    requires Inv(s) && BusyIn(s, t)
    ensures var rows := if ok then Restored(s.msgs, s.workers[t].msg) else s.msgs;
            Inv(Advance(s, t, rows, Over(s.workers[t].msg, false)))
  {
    RestoredOk(s.msgs, s.workers[t].msg);
    AdvanceInv(s, t, if ok then Restored(s.msgs, s.workers[t].msg) else s.msgs, Over(s.workers[t].msg, false));
  }

  // ----------------------------------------------------------- tasks and operators

  lemma RestatusPhases(workers: map<Token, Worker>, msgs: map<MsgId, Msg>, x: MsgId, status: MsgStatus, kills: nat)
    requires PhasesOk(workers, msgs) && x in msgs && status != Sent
    ensures PhasesOk(workers, msgs[x := msgs[x].(status := status, kills := kills)])
  {
  }

  /** fail_task and replay_task change a message's status behind a run's back. */
  lemma RestatusInv(s: State, x: MsgId, status: MsgStatus, kills: nat)
    requires Inv(s) && x in s.msgs
    requires status == Dead || (status == Failed && s.msgs[x].status == Dead)
    requires kills >= s.msgs[x].kills + if s.msgs[x].status == Sent then 1 else 0
    ensures Inv(s.(msgs := s.msgs[x := s.msgs[x].(status := status, kills := kills)]))
  {
    var m := s.msgs[x].(status := status, kills := kills);
    assert MsgInv(s.msgs[x]) && MsgInv(m);
    PutOk(s.msgs, x, m);
    RestatusPhases(s.workers, s.msgs, x, status, kills);
  }

  lemma RetaskInv(s: State, x: MsgId, row: Outbox.Row, gone: set<Token>)
    requires Inv(s) && x in s.tasks
    requires row.lease.Some? ==> row.lease.value in s.issued
    requires row.status == Outbox.Processing <==> row.lease.Some?
    ensures Inv(s.(tasks := s.tasks[x := row], workers := s.workers - gone))
  {
    assert s.tasks[x := row].Keys == s.tasks.Keys;
  }

  lemma ClaimStep(s: State, t: Token, x: MsgId, at: int)
    requires Inv(s) && t !in s.issued && x in s.tasks
    ensures Inv(ClaimBy(s, t, x, at))
  {
    assert s.tasks[x := Outbox.Claimed(s.tasks[x], at, t)].Keys == s.tasks.Keys;
    LeavePhases(s.workers, s.msgs, t, Claimed(x));
  }

  lemma AddOk(msgs: map<MsgId, Msg>, x: MsgId, m: Msg)
    requires MsgsOk(msgs) && MergesOk(msgs) && x !in msgs
    requires MsgInv(m) && m.mergedInto == None
    ensures MsgsOk(msgs[x := m]) && MergesOk(msgs[x := m])
  {
    var after := msgs[x := m];
    forall y | y in after && after[y].mergedInto.Some?
      ensures after[y].mergedInto.value in after && after[after[y].mergedInto.value].begun
    {
      assert msgs[y].mergedInto == after[y].mergedInto;
    }
  }

  lemma IngestStep(s: State, x: MsgId, conversation: nat, user: nat, reply: bool)
    requires Inv(s) && x !in s.msgs && x !in s.tasks
    ensures Inv(Ingested(s, x, conversation, user, reply))
  {
    var m := Ingested(s, x, conversation, user, reply).msgs[x];
    AddOk(s.msgs, x, m);
  }

  lemma FailStep(s: State, t: Token, error: string)
    requires Inv(s) && t in s.workers && s.workers[t].msg in s.tasks
    ensures Inv(Failing(s, t, error))
  {
    var x := s.workers[t].msg;
    var row := Outbox.Failed(s.tasks[x], Some(t), error, s.now, s.cfg);
    RetaskInv(s, x, row, {t});
    RestatusInv(Settled(s, t, row), x, Dead, Killed(s.msgs[x]).kills);
  }

  lemma ReplayStep(s: State, x: MsgId)
    requires Inv(s) && x in s.tasks
    ensures Inv(Replaying(s, x))
  {
    var row := Outbox.Replayed(s.tasks[x], s.now);
    RetaskInv(s, x, row, {});
    assert s.workers - {} == s.workers;
    if s.msgs[x].status == Dead {
      RestatusInv(s.(tasks := s.tasks[x := row]), x, Failed, s.msgs[x].kills);
    }
  }

  lemma FewerWorkers(s: State, gone: set<Token>, now: int)
    requires Inv(s)
    ensures Inv(s.(workers := s.workers - gone, now := now))
  {
  }

  lemma LocalInvStep(s: State, e: Event)
    requires Inv(s) && Enabled(s, e) && Local(e)
    ensures Inv(Apply(s, e))
  {
    var w := s.workers[e.token];
    var m := s.msgs[w.msg];
    LocalKeeps(m, w, e);
    var r := LocalStep(m, w, e);
    PutOk(s.msgs, w.msg, r.0);
    if e.LockMiss? {
      assert s.msgs[w.msg := m] == s.msgs;
      LeaveInv(s, e.token, r.1);
    } else {
      AdvanceInv(s, e.token, s.msgs[w.msg := r.0], r.1);
    }
  }

  lemma BulkEventStep(s: State, e: Event)
    requires Inv(s) && Enabled(s, e) && (e.Merge? || e.Release? || e.Restore?)
    ensures Inv(Apply(s, e))
  {
    match e
    case Merge(t, picked) => MergeStep(s, t, picked);
    case Release(t) => ReleaseStep(s, t);
    case Restore(t, ok) => RestoreStep(s, t, ok);
  }

  lemma WorldEventStep(s: State, e: Event)
    requires Inv(s) && Enabled(s, e) && (e.Ingest? || e.Tick? || e.Crash?)
    ensures Inv(Apply(s, e))
  {
    match e
    case Ingest(x, c, u, reply) => IngestStep(s, x, c, u, reply);
    case Tick(to) =>
      FewerWorkers(s, {}, to);
      assert s.workers - {} == s.workers;
    case Crash(t) => FewerWorkers(s, {t}, s.now);
  }

  lemma LeaseEventStep(s: State, e: Event)
    requires Inv(s) && Enabled(s, e) && (e.Claim? || e.Renew?)
    ensures Inv(Apply(s, e))
  {
    match e
    case Claim(t, x, at) => ClaimStep(s, t, x, at);
    case Renew(t) =>
      RetaskInv(s, s.workers[t].msg, Outbox.Renewed(s.tasks[s.workers[t].msg], t, s.now), {});
      assert s.workers - {} == s.workers;
  }

  lemma OutcomeEventStep(s: State, e: Event)
    requires Inv(s) && Enabled(s, e) && (e.CompleteTask? || e.FailTask? || e.Replay?)
    ensures Inv(Apply(s, e))
  {
    match e
    case CompleteTask(t) =>
      RetaskInv(s, s.workers[t].msg, Outbox.Completed(s.tasks[s.workers[t].msg], Some(t), s.now), {t});
    case FailTask(t, error) => FailStep(s, t, error);
    case Replay(x) => ReplayStep(s, x);
  }

  lemma InvStep(s: State, e: Event)
    requires Inv(s) && Enabled(s, e)
    ensures Inv(Apply(s, e))
  {
    if Local(e) {
      LocalInvStep(s, e);
    } else if e.Claim? || e.Renew? {
      LeaseEventStep(s, e);
    } else if e.CompleteTask? || e.FailTask? || e.Replay? {
      OutcomeEventStep(s, e);
    } else if e.Merge? || e.Release? || e.Restore? {
      BulkEventStep(s, e);
    } else {
      WorldEventStep(s, e);
    }
  }

  lemma {:induction false} InvRun(s: State, es: seq<Event>)
    requires Inv(s) && Legal(s, es)
    ensures Inv(Run(s, es))
    decreases |es|
  {
    if es != [] {
      InvStep(s, es[0]);
      InvRun(Apply(s, es[0]), es[1..]);
    }
  }
}
