/** Message processing as a state machine
    (src/wecom_ai_gateway/services.py process_message and its merge helpers,
    src/wecom_ai_gateway/worker.py drain_available_tasks).

    Every event is one committed transaction or one external send, and a worker may
    crash between any two events. Messages are processed serially: at most one worker is
    inside process_message at a time. Workers that have claimed a task but not started,
    or that have finished and not yet reported, are unrestricted in number and delay.

    The fields begun, kills and log of a message are not columns: they record what has
    happened so far (the message was once taken up for its own reply; fail_task turned it
    from sent to dead that many times; these dispatches were started for it). */
module Pipeline {
  import opened Basics
  import Outbox
  import opened Text
  import opened SplitReply

  type MsgId = nat
  type Token = Outbox.Token

  datatype MsgStatus = Queued | Processing | Sent | Failed | Ignored | Dead

  /** metadata_json["reply_dispatch"] */
  datatype Fence = NoFence | Started | FenceSent

  /** The three places that dispatch a reply: _deliver_reply, the QR command, the main path. */
  datatype Path = Command | QrCode | Reply

  datatype Dispatch = Dispatch(path: Path, text: string, limit: nat, chunks: seq<string>, sent: seq<string>)

  datatype Msg = Msg(
    conversation: nat,
    user: nat,
    createdAt: int,
    status: MsgStatus,
    fence: Fence,
    mergedInto: Option<MsgId>,
    begun: bool,
    kills: nat,
    log: seq<Dispatch>)

  /** Where process_message stands after its latest commit or send. */
  datatype Phase =
    | Working
    | Asking
    | Sending(path: Path, chunks: seq<string>, next: nat)
    | Releasing
    | Raised
    | Restoring

  datatype Worker =
    | Claimed(msg: MsgId)
    | Busy(msg: MsgId, phase: Phase)
    | Over(msg: MsgId, ok: bool)

  /** tasks is keyed by the message id of the unique dedupe key "message:<id>". */
  datatype State = State(
    msgs: map<MsgId, Msg>,
    tasks: map<MsgId, Outbox.Row>,
    workers: map<Token, Worker>,
    issued: set<Token>,
    now: int,
    timeout: nat,
    cfg: Outbox.Retry)

  datatype Event =
    | Ingest(id: MsgId, conversation: nat, user: nat, reply: bool)
    | Tick(to: int)
    | Claim(token: Token, id: MsgId, at: int)
    | Renew(token: Token)
    | Crash(token: Token)
    | LockMiss(token: Token)
    | Begin(token: Token)
    | Ignore(token: Token)
    | Merge(token: Token, picked: set<MsgId>)
    | StartDispatch(token: Token, path: Path, text: string, limit: nat)
    | Send(token: Token, delivered: bool, raised: bool)
    | Finish(token: Token)
    | Release(token: Token)
    | Raise(token: Token)
    | Handle(token: Token)
    | Restore(token: Token, ok: bool)
    | CompleteTask(token: Token)
    | FailTask(token: Token, error: string)
    | Replay(id: MsgId)

  const MERGE_LIMIT: nat := 10

  // ------------------------------------------------------------- row transformations

  /** Siblings that _merge_pending_messages may take. */
  predicate Candidate(rows: map<MsgId, Msg>, main: MsgId, x: MsgId)
    requires main in rows
  {
    && x in rows && x != main
    && rows[x].conversation == rows[main].conversation && rows[x].user == rows[main].user
    && rows[x].status == Queued
  }

  /** The picked siblings are the MERGE_LIMIT oldest candidates, or all of them. */
  predicate Oldest(rows: map<MsgId, Msg>, main: MsgId, picked: set<MsgId>)
    requires main in rows
  {
    && (forall x :: x in picked ==> Candidate(rows, main, x))
    && |picked| <= MERGE_LIMIT
    && (forall y :: y in rows && Candidate(rows, main, y) && y !in picked ==>
          |picked| == MERGE_LIMIT && forall x :: x in picked ==> rows[x].createdAt <= rows[y].createdAt)
  }

  function Merged(rows: map<MsgId, Msg>, main: MsgId, picked: set<MsgId>): map<MsgId, Msg> {
    map x | x in rows ::
      if x in picked then rows[x].(status := Processing, mergedInto := Some(main)) else rows[x]
  }

  /** _release_merged_messages takes every other processing row of the conversation. */
  predicate Releasable(rows: map<MsgId, Msg>, main: MsgId, x: MsgId)
    requires main in rows
  {
    && x in rows && x != main
    && rows[x].conversation == rows[main].conversation && rows[x].user == rows[main].user
    && rows[x].status == Processing
  }

  function Released(rows: map<MsgId, Msg>, main: MsgId): map<MsgId, Msg>
    requires main in rows
  {
    map x | x in rows :: if Releasable(rows, main, x) then rows[x].(status := Sent) else rows[x]
  }

  /** _restore_merged_messages re-queues without clearing merged_into. */
  function Restored(rows: map<MsgId, Msg>, main: MsgId): map<MsgId, Msg> {
    map x | x in rows :: if rows[x].mergedInto == Some(main) then rows[x].(status := Queued) else rows[x]
  }

  function ChunksFor(path: Path, text: string, limit: nat): seq<string>
    requires limit >= 1
  {
    if path == Reply then ReplyChunks(text, limit, WHITESPACE) else [text]
  }

  // ------------------------------------------------- one worker on its own message

  /** Events that read and write only the worker's own message row. */
  predicate Local(e: Event) {
    e.LockMiss? || e.Begin? || e.Ignore? || e.StartDispatch? || e.Send? || e.Finish? || e.Raise? || e.Handle?
  }

  predicate LocalEnabled(m: Msg, w: Worker, e: Event)
    requires Local(e)
  {
    match e
    case LockMiss(_) => w.Claimed?
    case Begin(_) => w.Claimed?
    case Ignore(_) => w.Busy? && w.phase.Working?
    case StartDispatch(_, path, _, limit) =>
      w.Busy? && limit >= 1 && (w.phase.Working? || (w.phase.Asking? && path == Reply))
    case Send(_, delivered, raised) =>
      w.Busy? && w.phase.Sending? && w.phase.next < |w.phase.chunks| && m.log != [] && (delivered || raised)
    case Finish(_) => w.Busy? && w.phase.Sending? && w.phase.next == |w.phase.chunks|
    case Raise(_) => w.Busy? && !w.phase.Raised? && !w.phase.Restoring?
    case Handle(_) => w.Busy? && w.phase.Raised?
    case _ => false
  }

  function BeginRun(m: Msg, x: MsgId): (Msg, Worker) {
    if m.status != Queued && m.status != Failed && m.status != Processing then (m, Over(x, true))
    else if m.mergedInto.Some? then (m.(status := Sent), Over(x, true))
    else (m.(status := Processing, begun := true), Busy(x, Working))
  }

  /** The fence is checked and persisted before anything is sent. An empty reply raises. */
  function FenceAndGo(m: Msg, x: MsgId, path: Path, text: string, limit: nat): (Msg, Worker)
    requires limit >= 1
  {
    var body := if path == Reply then Strip(text, WHITESPACE) else text;
    if (path == Reply && body == []) || m.fence == Started then (m, Busy(x, Raised))
    else
      var chunks := ChunksFor(path, body, limit);
      (m.(fence := Started, log := m.log + [Dispatch(path, body, limit, chunks, [])]),
       Busy(x, Sending(path, chunks, 0)))
  }

  /** A send can deliver, raise, or deliver and then raise. */
  function SendNext(m: Msg, x: MsgId, p: Phase, delivered: bool, raised: bool): (Msg, Worker)
    requires p.Sending? && p.next < |p.chunks| && m.log != []
  {
    var last := m.log[|m.log| - 1];
    var after := last.(sent := last.sent + [p.chunks[p.next]]);
    (if delivered then m.(log := m.log[..|m.log| - 1] + [after]) else m,
     Busy(x, if raised then Raised else p.(next := p.next + 1)))
  }

  /** The QR path writes its own marker and leaves the dispatch fence at "started". */
  function FinishRun(m: Msg, x: MsgId, path: Path): (Msg, Worker) {
    (m.(status := Sent, fence := if path == QrCode then m.fence else FenceSent),
     if path == Reply then Busy(x, Releasing) else Over(x, true))
  }

  function LocalStep(m: Msg, w: Worker, e: Event): (r: (Msg, Worker))
    requires Local(e) && LocalEnabled(m, w, e)
    ensures r.1.msg == w.msg
  {
    match e
    case LockMiss(_) => (m, Over(w.msg, false))
    case Begin(_) => BeginRun(m, w.msg)
    case Ignore(_) => (m.(status := Ignored), Over(w.msg, true))
    case StartDispatch(_, path, text, limit) => FenceAndGo(m, w.msg, path, text, limit)
    case Send(_, delivered, raised) => SendNext(m, w.msg, w.phase, delivered, raised)
    case Finish(_) => FinishRun(m, w.msg, w.phase.path)
    case Raise(_) => (m, Busy(w.msg, Raised))
    case Handle(_) => (if m.status != Sent then m.(status := Failed) else m, Busy(w.msg, Restoring))
  }

  // ------------------------------------------------------------------- the machine

  predicate Idle(s: State) {
    forall t :: t in s.workers ==> !s.workers[t].Busy?
  }

  /** Worker t is inside process_message, in a phase that allows e's shared effect. */
  predicate BusyIn(s: State, t: Token) {
    t in s.workers && s.workers[t].Busy? && s.workers[t].msg in s.msgs
  }

  predicate Enabled(s: State, e: Event) {
    if Local(e) then
      && e.token in s.workers && s.workers[e.token].msg in s.msgs
      && LocalEnabled(s.msgs[s.workers[e.token].msg], s.workers[e.token], e)
      && (e.Begin? ==> Idle(s))
    else match e
      case Ingest(x, _, _, _) => x !in s.msgs && x !in s.tasks
      case Tick(to) => s.now <= to
      case Claim(t, x, at) =>
        t !in s.issued && x in s.tasks && x in s.msgs && at <= s.now && Outbox.Claimable(s.tasks[x], at, at - s.timeout)
      case Renew(t) => t in s.workers && s.workers[t].msg in s.tasks
      case Crash(t) => t in s.workers
      case Merge(t, picked) => BusyIn(s, t) && s.workers[t].phase.Working? && Oldest(s.msgs, s.workers[t].msg, picked)
      case Release(t) => BusyIn(s, t) && s.workers[t].phase.Releasing?
      case Restore(t, _) => BusyIn(s, t) && s.workers[t].phase.Restoring?
      case CompleteTask(t) => t in s.workers && s.workers[t].Over? && s.workers[t].ok && s.workers[t].msg in s.tasks
      case FailTask(t, _) => t in s.workers && s.workers[t].Over? && !s.workers[t].ok && s.workers[t].msg in s.tasks
      case Replay(x) => x in s.tasks
      case _ => false
  }

  /** Worker t has moved on to w, and the message table has become rows. */
  function Advance(s: State, t: Token, rows: map<MsgId, Msg>, w: Worker): State {
    s.(msgs := rows, workers := s.workers[t := w])
  }

  /** What fail_task does to the message when the outbox row dies, whatever its status. */
  function Killed(m: Msg): Msg {
    m.(status := Dead, kills := m.kills + if m.status == Sent then 1 else 0)
  }

  function Settled(s: State, t: Token, row: Outbox.Row): State
    requires t in s.workers
  {
    s.(workers := s.workers - {t}, tasks := s.tasks[s.workers[t].msg := row])
  }

  function Failing(s: State, t: Token, error: string): State
    requires t in s.workers && s.workers[t].msg in s.tasks
  {
    var x := s.workers[t].msg;
    var row := Outbox.Failed(s.tasks[x], Some(t), error, s.now, s.cfg);
    var gone := Settled(s, t, row);
    if Outbox.HeldBy(s.tasks[x], Some(t)) && row.status == Outbox.Dead && x in s.msgs
    then gone.(msgs := s.msgs[x := Killed(s.msgs[x])])
    else gone
  }

  function Replaying(s: State, x: MsgId): State
    requires x in s.tasks
  {
    var again := s.(tasks := s.tasks[x := Outbox.Replayed(s.tasks[x], s.now)]);
    if s.tasks[x].status == Outbox.Dead && x in s.msgs && s.msgs[x].status == Dead
    then again.(msgs := s.msgs[x := s.msgs[x].(status := Failed)])
    else again
  }

  function Ingested(s: State, x: MsgId, conversation: nat, user: nat, reply: bool): State {
    var m := Msg(conversation, user, s.now, if reply then Queued else Ignored, NoFence, None, false, 0, []);
    s.(msgs := s.msgs[x := m],
       tasks := if reply then s.tasks[x := Outbox.FreshRow(Outbox.MessageTask, x, s.now)] else s.tasks)
  }

  function ClaimBy(s: State, t: Token, x: MsgId, at: int): State
    requires x in s.tasks
  {
    s.(tasks := s.tasks[x := Outbox.Claimed(s.tasks[x], at, t)],
       issued := s.issued + {t},
       workers := s.workers[t := Claimed(x)])
  }

  function Apply(s: State, e: Event): State
    requires Enabled(s, e)
  {
    if Local(e) then
      var r := LocalStep(s.msgs[s.workers[e.token].msg], s.workers[e.token], e);
      Advance(s, e.token, s.msgs[r.1.msg := r.0], r.1)
    else match e
      case Ingest(x, c, u, reply) => Ingested(s, x, c, u, reply)
      case Tick(to) => s.(now := to)
      case Claim(t, x, at) => ClaimBy(s, t, x, at)
      case Renew(t) =>
        var x := s.workers[t].msg;
        s.(tasks := s.tasks[x := Outbox.Renewed(s.tasks[x], t, s.now)])
      case Crash(t) => s.(workers := s.workers - {t})
      case Merge(t, picked) =>
        var x := s.workers[t].msg;
        Advance(s, t, Merged(s.msgs, x, picked), Busy(x, Asking))
      case Release(t) =>
        var x := s.workers[t].msg;
        Advance(s, t, Released(s.msgs, x), Over(x, true))
      case Restore(t, ok) =>
        var x := s.workers[t].msg;
        Advance(s, t, if ok then Restored(s.msgs, x) else s.msgs, Over(x, false))
      case CompleteTask(t) => Settled(s, t, Outbox.Completed(s.tasks[s.workers[t].msg], Some(t), s.now))
      case FailTask(t, error) => Failing(s, t, error)
      case Replay(x) => Replaying(s, x)
  }

  function Start(timeout: nat, cfg: Outbox.Retry): State {
    State(map[], map[], map[], {}, 0, timeout, cfg)
  }

  predicate Legal(s: State, es: seq<Event>)
    decreases |es|
  {
    es == [] || (Enabled(s, es[0]) && Legal(Apply(s, es[0]), es[1..]))
  }

  function Run(s: State, es: seq<Event>): State
    requires Legal(s, es)
    decreases |es|
  {
    if es == [] then s else Run(Apply(s, es[0]), es[1..])
  }

  // Runs compose.

  lemma {:induction false} RunCat(s: State, a: seq<Event>, b: seq<Event>)
    requires Legal(s, a) && Legal(Run(s, a), b)
    ensures Legal(s, a + b) && Run(s, a + b) == Run(Run(s, a), b)
    decreases |a|
  {
    if a == [] {
      assert a + b == b;
    } else {
      RunCat(Apply(s, a[0]), a[1..], b);
      assert (a + b)[1..] == a[1..] + b;
    }
  }

  lemma Extend(s: State, es: seq<Event>, n: State, e: Event)
    requires Legal(s, es) && Run(s, es) == n && Enabled(n, e)
    ensures Legal(s, es + [e]) && Run(s, es + [e]) == Apply(n, e)
  {
    assert [e][1..] == [];
    assert Legal(Apply(n, e), []) && Run(Apply(n, e), []) == Apply(n, e);
    assert Legal(n, [e]) && Run(n, [e]) == Apply(n, e);
    RunCat(s, es, [e]);
  }
}
