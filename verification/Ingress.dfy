/** From the upstream log to a message row and its task
    (bridge/src/clawbot_bridge/ilink_service.py monitor,
    src/wecom_ai_gateway/services.py ingest_channel_message,
    src/wecom_ai_gateway/tasks.py add_task and reconcile_message_tasks).

    One bridge instance reads an append-only upstream log through a persisted cursor and
    posts each message to the gateway. Posts may be lost, duplicated or answered late; the
    gateway handles any number of requests at once, each first checking for the message
    and then inserting under the table's unique constraint. */
module Ingress {
  import opened Basics

  /** (channel, channel_instance_id, external_message_id) */
  datatype Key = Key(channel: string, instance: string, external: string)

  /** A message as posted; replyable says whether it will be queued for a reply. */
  datatype Inbound = Inbound(key: Key, replyable: bool)

  /** The statuses reconciliation looks for, and all the rest. */
  datatype Status = Queued | Failed | Elsewhere

  datatype Row = Row(id: nat, key: Key, replyable: bool, status: Status)

  /** The database: message rows, and the message ids named by task dedupe keys. */
  datatype Db = Db(rows: seq<Row>, tasks: seq<nat>)

  datatype Request =
    | Received(msg: Inbound)
    | Passed(msg: Inbound)
    | Answered(msg: Inbound, accepted: bool)

  /** The running monitor: the batch log[..upto] is known, log[..next] is forwarded. */
  datatype Monitor = Monitor(upto: nat, next: nat, waiting: Option<nat>)

  datatype State = State(
    log: seq<Inbound>,
    cursor: nat,
    monitor: Option<Monitor>,
    requests: map<nat, Request>,
    db: Db)

  datatype Event =
    | Upstream(msg: Inbound)
    | StartMonitor
    | Fetch(to: nat)
    | Post(r: nat)
    | PostElsewhere(r: nat, msg: Inbound)
    | Check(r: nat)
    | Insert(r: nat, id: nat)
    | Refuse(r: nat)
    | Response(r: nat)
    | SaveCursor
    | Die
    | Progress(i: nat, status: Status)
    | Reconcile(picked: seq<nat>)

  const REPAIR_LIMIT: nat := 500

  predicate HasKey(rows: seq<Row>, k: Key) {
    exists i :: 0 <= i < |rows| && rows[i].key == k
  }

  predicate HasId(rows: seq<Row>, id: nat) {
    exists i :: 0 <= i < |rows| && rows[i].id == id
  }

  /** add_task: reuse the row of the same dedupe key, else insert one. */
  function AddTask(tasks: seq<nat>, id: nat): seq<nat> {
    if id in tasks then tasks else tasks + [id]
  }

  function NewRow(msg: Inbound, id: nat): Row {
    Row(id, msg.key, msg.replyable, if msg.replyable then Queued else Elsewhere)
  }

  function InsertRow(db: Db, msg: Inbound, id: nat): Db {
    Db(db.rows + [NewRow(msg, id)], if msg.replyable then AddTask(db.tasks, id) else db.tasks)
  }

  predicate Waiting(row: Row) {
    row.status == Queued || row.status == Failed
  }

  /** The messages that wait for a task nobody has added. */
  function Missing(db: Db): set<nat> {
    set i | 0 <= i < |db.rows| && Waiting(db.rows[i]) && db.rows[i].id !in db.tasks :: db.rows[i].id
  }

  predicate Distinct(s: seq<nat>) {
    forall i, j :: 0 <= i < j < |s| ==> s[i] != s[j]
  }

  function Set(s: seq<nat>): set<nat> {
    set x | x in s
  }

  /** What the query of reconcile_message_tasks may select: it has a limit and no order. */
  predicate Picks(db: Db, picked: seq<nat>) {
    && Distinct(picked) && Set(picked) <= Missing(db) && |picked| <= REPAIR_LIMIT
    && (|picked| < REPAIR_LIMIT ==> Set(picked) == Missing(db))
  }

  predicate Enabled(s: State, e: Event) {
    match e
    case Upstream(_) => true
    case StartMonitor => s.monitor == None
    case Fetch(to) =>
      s.monitor.Some? && s.monitor.value.waiting == None && s.monitor.value.next == s.monitor.value.upto == s.cursor
      && s.cursor <= to <= |s.log|
    case Post(r) =>
      r !in s.requests && s.monitor.Some? && s.monitor.value.waiting == None
      && s.monitor.value.next < s.monitor.value.upto <= |s.log|
    case PostElsewhere(r, _) => r !in s.requests
    case Check(r) => r in s.requests && s.requests[r].Received? && s.requests[r].msg.key.external != ""
    case Insert(r, id) => r in s.requests && s.requests[r].Passed? && !HasId(s.db.rows, id)
    case Refuse(r) => r in s.requests && s.requests[r].Received?
    case Response(r) =>
      s.monitor.Some? && s.monitor.value.waiting == Some(r) && r in s.requests && s.requests[r].Answered?
    case SaveCursor =>
      s.monitor.Some? && s.monitor.value.waiting == None && s.monitor.value.next == s.monitor.value.upto
    case Die => true
    case Progress(i, _) => i < |s.db.rows| && s.db.rows[i].replyable
    case Reconcile(picked) => Picks(s.db, picked)
  }

  function Apply(s: State, e: Event): State
    requires Enabled(s, e)
  {
    match e
    case Upstream(msg) => s.(log := s.log + [msg])
    case StartMonitor => s.(monitor := Some(Monitor(s.cursor, s.cursor, None)))
    case Fetch(to) => s.(monitor := Some(Monitor(to, s.cursor, None)))
    case Post(r) =>
      var m := s.monitor.value;
      s.(requests := s.requests[r := Received(s.log[m.next])], monitor := Some(m.(waiting := Some(r))))
    case PostElsewhere(r, msg) => s.(requests := s.requests[r := Received(msg)])
    case Check(r) =>
      var msg := s.requests[r].msg;
      s.(requests := s.requests[r := if HasKey(s.db.rows, msg.key) then Answered(msg, true) else Passed(msg)])
    case Insert(r, id) =>
      // The unique constraint turns a lost race into an error response.
      var msg := s.requests[r].msg;
      if HasKey(s.db.rows, msg.key) then s.(requests := s.requests[r := Answered(msg, false)])
      else s.(db := InsertRow(s.db, msg, id), requests := s.requests[r := Answered(msg, true)])
    case Refuse(r) => s.(requests := s.requests[r := Answered(s.requests[r].msg, false)])
    case Response(r) =>
      var m := s.monitor.value;
      if s.requests[r].accepted then s.(monitor := Some(Monitor(m.upto, m.next + 1, None)))
      else s.(monitor := None)
    case SaveCursor => s.(cursor := s.monitor.value.upto)
    case Die => s.(monitor := None)
    case Progress(i, status) => s.(db := s.db.(rows := s.db.rows[i := s.db.rows[i].(status := status)]))
    case Reconcile(picked) => s.(db := s.db.(tasks := s.db.tasks + picked))
  }

  function Start(): State {
    State([], 0, None, map[], Db([], []))
  }

  predicate Legal(s: State, es: seq<Event>)
    decreases |es|
  {
    es == [] || (Enabled(s, es[0]) && Legal(Apply(s, es[0]), es[1..]))
  }

  function Run(s: State, es: seq<Event>): State
    requires Legal(s, es)
    decreases |es|
  {
    if es == [] then s else Run(Apply(s, es[0]), es[1..])
  }

  // ------------------------------------------------------------------- invariants

  /** Every upstream message before position n has a row in the gateway. */
  predicate AcceptedTo(log: seq<Inbound>, n: nat, rows: seq<Row>) {
    n <= |log| && forall i :: 0 <= i < n ==> HasKey(rows, log[i].key)
  }

  predicate DbInv(db: Db) {
    && (forall i, j :: 0 <= i < j < |db.rows| ==> db.rows[i].key != db.rows[j].key && db.rows[i].id != db.rows[j].id)
    && Distinct(db.tasks)
    && (forall i :: 0 <= i < |db.rows| ==> (db.rows[i].replyable <==> db.rows[i].id in db.tasks))
    && (forall i :: 0 <= i < |db.rows| && Waiting(db.rows[i]) ==> db.rows[i].replyable)
    && (forall t :: t in db.tasks ==> HasId(db.rows, t))
  }

  predicate RequestsInv(s: State) {
    forall r :: r in s.requests && s.requests[r].Answered? && s.requests[r].accepted ==>
      HasKey(s.db.rows, s.requests[r].msg.key)
  }

  predicate MonitorInv(s: State) {
    s.monitor.Some? ==>
      var m := s.monitor.value;
      && m.next <= m.upto <= |s.log| && AcceptedTo(s.log, m.next, s.db.rows) && s.cursor <= m.upto
      && (m.waiting.Some? ==>
            && m.next < m.upto && m.waiting.value in s.requests
            && s.requests[m.waiting.value].msg == s.log[m.next])
  }

  predicate Inv(s: State) {
    DbInv(s.db) && RequestsInv(s) && MonitorInv(s) && AcceptedTo(s.log, s.cursor, s.db.rows)
  }

  lemma InsertKeeps(db: Db, msg: Inbound, id: nat)
    requires DbInv(db) && !HasKey(db.rows, msg.key) && !HasId(db.rows, id)
    ensures DbInv(InsertRow(db, msg, id))
    ensures forall k :: HasKey(db.rows, k) ==> HasKey(InsertRow(db, msg, id).rows, k)
    ensures HasKey(InsertRow(db, msg, id).rows, msg.key)
  {
    var n := InsertRow(db, msg, id);
    assert n.rows[|db.rows|] == NewRow(msg, id);
    assert forall i :: 0 <= i < |db.rows| ==> n.rows[i] == db.rows[i];
    assert id !in db.tasks;
  }

  lemma {:induction false} SetSize(s: seq<nat>)
    requires Distinct(s)
    ensures |Set(s)| == |s|
  {
    if s != [] {
      var k := |s| - 1;
      SetSize(s[..k]);
      assert Set(s) == Set(s[..k]) + {s[k]};
    }
  }

  lemma {:induction false} SubsetSize(a: set<nat>, b: set<nat>)
    requires a <= b
    ensures |a| <= |b|
  {
    assert b == a + (b - a);
  }

  lemma MissingAfter(db: Db, picked: seq<nat>)
    ensures Missing(db.(tasks := db.tasks + picked)) == Missing(db) - Set(picked)
  {
    var n := db.(tasks := db.tasks + picked);
    forall i | 0 <= i < |db.rows|
      ensures db.rows[i].id !in n.tasks <==> db.rows[i].id !in db.tasks && db.rows[i].id !in Set(picked)
    {
    }
  }

  /** Each reconciliation serves up to 500 of the messages that lack a task and nothing else,
      so enough of them serve all. With the tables in agreement there is nothing to serve. */
  lemma RepairShrinks(db: Db, picked: seq<nat>)
    requires Picks(db, picked)
    ensures Missing(db.(tasks := db.tasks + picked)) == Missing(db) - Set(picked)
    ensures |picked| == Min(REPAIR_LIMIT, |Missing(db)|)
    ensures DbInv(db) ==> picked == []
  {
    SetSize(picked);
    SubsetSize(Set(picked), Missing(db));
    MissingAfter(db, picked);
    if DbInv(db) {
      assert Missing(db) == {} && (forall x :: x in picked ==> x in Set(picked));
    }
  }

  /** A row that moves to another status keeps its key, and so the invariant. */
  lemma ProgressKeeps(db: Db, i: nat, status: Status)
    requires DbInv(db) && i < |db.rows| && db.rows[i].replyable
    ensures var n := db.(rows := db.rows[i := db.rows[i].(status := status)]);
            DbInv(n) && forall k :: HasKey(db.rows, k) ==> HasKey(n.rows, k)
  {
    var n := db.(rows := db.rows[i := db.rows[i].(status := status)]);
    assert forall j :: 0 <= j < |db.rows| ==> n.rows[j].key == db.rows[j].key && n.rows[j].id == db.rows[j].id;
    forall k | HasKey(db.rows, k) ensures HasKey(n.rows, k) {
      var j :| 0 <= j < |db.rows| && db.rows[j].key == k;
      assert n.rows[j].key == k;
    }
    forall t | t in n.tasks ensures HasId(n.rows, t) {
      var j :| 0 <= j < |db.rows| && db.rows[j].id == t;
      assert n.rows[j].id == t;
    }
  }

  lemma Step(s: State, e: Event)
    requires Inv(s) && Enabled(s, e)
    ensures Inv(Apply(s, e))
  {
    match e
    case Insert(r, id) =>
      if !HasKey(s.db.rows, s.requests[r].msg.key) { InsertKeeps(s.db, s.requests[r].msg, id); }
    case Progress(i, status) => ProgressKeeps(s.db, i, status);
    case Reconcile(picked) => RepairShrinks(s.db, picked); assert s.db.tasks + [] == s.db.tasks;
    case _ =>
  }

  lemma {:induction false} InvRun(s: State, es: seq<Event>)
    requires Inv(s) && Legal(s, es)
    ensures Inv(Run(s, es))
    decreases |es|
  {
    if es != [] {
      Step(s, es[0]);
      InvRun(Apply(s, es[0]), es[1..]);
    }
  }

  lemma {:induction false} CountOnce(s: seq<nat>, x: nat)
    requires Distinct(s)
    ensures multiset(s)[x] == if x in s then 1 else 0
  {
    if s != [] {
      var k := |s| - 1;
      CountOnce(s[..k], x);
      assert s == s[..k] + [s[k]];
    }
  }

  /** Under crashes, refused and lost posts, redelivery and racing requests: everything
      upstream of the persisted cursor is in the gateway, no key has two rows, a message has
      its one task exactly when it was to be replied to, and so has every message that is
      queued or failed. */
  lemma NothingLostNothingDoubled(es: seq<Event>)
    requires Legal(Start(), es)
    ensures var s := Run(Start(), es);
            && AcceptedTo(s.log, s.cursor, s.db.rows)
            && (forall i, j :: 0 <= i < j < |s.db.rows| ==> s.db.rows[i].key != s.db.rows[j].key)
            && (forall i :: 0 <= i < |s.db.rows| ==>
                  multiset(s.db.tasks)[s.db.rows[i].id] == if s.db.rows[i].replyable then 1 else 0)
            && (forall i :: 0 <= i < |s.db.rows| && Waiting(s.db.rows[i]) ==> s.db.rows[i].replyable)
  {
    InvRun(Start(), es);
    var s := Run(Start(), es);
    forall i | 0 <= i < |s.db.rows|
      ensures multiset(s.db.tasks)[s.db.rows[i].id] == if s.db.rows[i].replyable then 1 else 0
    {
      CountOnce(s.db.tasks, s.db.rows[i].id);
    }
  }

  function TopId(rows: seq<Row>): (top: nat)
    ensures forall i :: 0 <= i < |rows| ==> rows[i].id <= top
  {
    if rows == [] then 0
    else
      var rest := TopId(rows[..|rows| - 1]);
      Max(rest, rows[|rows| - 1].id)
  }

  /** Row ids are random UUIDs; any unused number will do. */
  function FreshId(rows: seq<Row>): (id: nat)
    ensures !HasId(rows, id)
  {
    TopId(rows) + 1
  }

  // --------------------------------------------------------------------- catching up

  lemma {:induction false} RunTogether(s: State, a: seq<Event>, b: seq<Event>)
    requires Legal(s, a) && Legal(Run(s, a), b)
    ensures Legal(s, a + b) && Run(s, a + b) == Run(Run(s, a), b)
    decreases |a|
  {
    if a == [] {
      assert a + b == b;
    } else {
      RunTogether(Apply(s, a[0]), a[1..], b);
      assert (a + b)[1..] == a[1..] + b;
    }
  }

  lemma OneEvent(s: State, e: Event)
    requires Enabled(s, e)
    ensures Legal(s, [e]) && Run(s, [e]) == Apply(s, e)
  {
    assert [e][1..] == [];
  }

  lemma UnusedRequest(used: set<nat>) returns (r: nat)
    ensures r !in used && forall u :: u in used ==> u < r
    decreases used
  {
    r := 0;
    if used != {} {
      var u :| u in used;
      var rest := UnusedRequest(used - {u});
      r := if u < rest then rest else u + 1;
      forall v | v in used ensures v < r {
        assert v == u || v in used - {u};
      }
    }
  }

  /** The monitor is between two messages of a batch that reaches the end of the log. */
  predicate Forwarding(s: State, next: nat) {
    s.monitor == Some(Monitor(|s.log|, next, None)) && next <= |s.log|
  }

  /** The next message can be posted, stored and answered. */
  lemma ForwardNext(s: State, next: nat) returns (es: seq<Event>)
    requires Forwarding(s, next) && next < |s.log| && s.log[next].key.external != ""
    ensures Legal(s, es)
    ensures var n := Run(s, es); n.log == s.log && n.cursor == s.cursor && Forwarding(n, next + 1)
  {
    var r := UnusedRequest(s.requests.Keys);
    var id := FreshId(s.db.rows);
    OneEvent(s, Post(r));
    var s1 := Apply(s, Post(r));
    OneEvent(s1, Check(r));
    RunTogether(s, [Post(r)], [Check(r)]);
    es := [Post(r)] + [Check(r)];
    var s2 := Apply(s1, Check(r));
    if s2.requests[r].Passed? {
      OneEvent(s2, Insert(r, id));
      RunTogether(s, es, [Insert(r, id)]);
      es := es + [Insert(r, id)];
      s2 := Apply(s2, Insert(r, id));
    }
    OneEvent(s2, Response(r));
    RunTogether(s, es, [Response(r)]);
    es := es + [Response(r)];
  }

  lemma {:induction false} ForwardRest(s: State, next: nat) returns (es: seq<Event>)
    requires Forwarding(s, next) && forall i :: next <= i < |s.log| ==> s.log[i].key.external != ""
    ensures Legal(s, es)
    ensures var n := Run(s, es); n.log == s.log && n.cursor == s.cursor && Forwarding(n, |n.log|)
    decreases |s.log| - next
  {
    es := [];
    if next < |s.log| {
      var one := ForwardNext(s, next);
      var rest := ForwardRest(Run(s, one), next + 1);
      RunTogether(s, one, rest);
      es := one + rest;
    }
  }

  /** Whatever has happened, an instance whose waiting messages have external ids can still
      catch up: some continuation ends with the cursor past the whole log. */
  lemma CanCatchUp(s: State) returns (es: seq<Event>)
    requires Inv(s) && forall i :: s.cursor <= i < |s.log| ==> s.log[i].key.external != ""
    ensures Legal(s, es) && Run(s, es).log == s.log && Run(s, es).cursor == |s.log|
  {
    OneEvent(s, Die);
    var s1 := Apply(s, Die);
    OneEvent(s1, StartMonitor);
    RunTogether(s, [Die], [StartMonitor]);
    var s2 := Apply(s1, StartMonitor);
    OneEvent(s2, Fetch(|s.log|));
    RunTogether(s, [Die] + [StartMonitor], [Fetch(|s.log|)]);
    es := [Die] + [StartMonitor] + [Fetch(|s.log|)];
    var s3 := Apply(s2, Fetch(|s.log|));
    var rest := ForwardRest(s3, s.cursor);
    RunTogether(s, es, rest);
    es := es + rest;
    var s4 := Run(s3, rest);
    OneEvent(s4, SaveCursor);
    RunTogether(s, es, [SaveCursor]);
    es := es + [SaveCursor];
  }

  // ------------------------------------------------------------------- the code

  predicate UniqueIds(rows: seq<Row>) {
    forall i, j :: 0 <= i < j < |rows| ==> rows[i].id != rows[j].id
  }

  datatype Ingested = Created(id: nat) | Known | Rejected

  lemma MissingSnoc(db: Db, i: nat)
    requires i < |db.rows|
    ensures var missing := Missing(Db(db.rows[..i + 1], db.tasks));
            && missing == Missing(Db(db.rows[..i], db.tasks))
                 + (if Waiting(db.rows[i]) && db.rows[i].id !in db.tasks then {db.rows[i].id} else {})
            && missing <= Missing(db)
  {
    var before, after := Db(db.rows[..i], db.tasks), Db(db.rows[..i + 1], db.tasks);
    assert forall j :: 0 <= j < i ==> after.rows[j] == before.rows[j];
    forall x | x in Missing(after)
      ensures x in Missing(before) || (Waiting(db.rows[i]) && db.rows[i].id !in db.tasks && x == db.rows[i].id)
    {
      var j :|
        0 <= j < |after.rows| && Waiting(after.rows[j]) && after.rows[j].id !in db.tasks && after.rows[j].id == x;
      if j < i { assert before.rows[j].id == x; }
    }
    forall x | x in Missing(before) ensures x in Missing(after) {
      var j :| 0 <= j < i && Waiting(before.rows[j]) && before.rows[j].id !in db.tasks && before.rows[j].id == x;
      assert after.rows[j].id == x;
    }
    if Waiting(db.rows[i]) && db.rows[i].id !in db.tasks {
      assert after.rows[i].id in Missing(after);
    }
  }

  class Store {
    var rows: seq<Row>
    var tasks: seq<nat>

    function View(): Db
      reads this
    {
      Db(rows, tasks)
    }

    method AddMessageTask(id: nat)
      modifies this`tasks
      ensures tasks == AddTask(old(tasks), id)
      ensures id in tasks && old(tasks) <= tasks && (id in old(tasks) ==> tasks == old(tasks))
    {
      if id !in tasks {
        tasks := tasks + [id];
      }
    }

    /** ingest_channel_message: a message without an external id raises, one that is already
        there changes nothing. */
    method IngestChannelMessage(msg: Inbound, id: nat) returns (done: Ingested)
      modifies this
      ensures done == if msg.key.external == "" then Rejected
                      else if HasKey(old(rows), msg.key) then Known else Created(id)
      ensures View() == if done.Created? then InsertRow(old(View()), msg, id) else old(View())
      ensures done.Created? ==>
        && rows == old(rows) + [Row(id, msg.key, msg.replyable, if msg.replyable then Queued else Elsewhere)]
        && (if msg.replyable then id in tasks && old(tasks) <= tasks else tasks == old(tasks))
    {
      if msg.key.external == "" {
        return Rejected;
      }
      if HasKey(rows, msg.key) {
        return Known;
      }
      rows := rows + [Row(id, msg.key, msg.replyable, if msg.replyable then Queued else Elsewhere)];
      if msg.replyable {
        AddMessageTask(id);
      }
      return Created(id);
    }

    /** SELECT ... LIMIT 500, here in the order of the table. */
    method SelectMissing() returns (picked: seq<nat>)
      requires UniqueIds(rows)
      ensures Picks(View(), picked)
    {
      picked := [];
      var i := 0;
      while i < |rows| && |picked| < REPAIR_LIMIT
        invariant 0 <= i <= |rows| && |picked| <= REPAIR_LIMIT && Distinct(picked)
        invariant forall x :: x in picked <==> x in Missing(Db(rows[..i], tasks))
        invariant Missing(Db(rows[..i], tasks)) <= Missing(View())
        invariant forall x :: x in picked ==> exists j :: 0 <= j < i && rows[j].id == x
      {
        if (rows[i].status == Queued || rows[i].status == Failed) && rows[i].id !in tasks {
          picked := picked + [rows[i].id];
        }
        MissingSnoc(View(), i);
        i := i + 1;
      }
      assert rows[..|rows|] == rows;
    }

    /** reconcile_message_tasks: the selected messages get their tasks. */
    method ReconcileMessageTasks() returns (created: nat, ghost picked: seq<nat>)
      requires UniqueIds(rows)
      modifies this`tasks
      ensures Picks(old(View()), picked) && tasks == old(tasks) + picked && created == |picked|
      ensures forall i :: 0 <= i < |rows| && rows[i].id in picked ==>
        rows[i].status in {Queued, Failed} && rows[i].id !in old(tasks)
      ensures created < 500 ==>
        forall i :: 0 <= i < |rows| && rows[i].status in {Queued, Failed} ==> rows[i].id in tasks
    {
      var ids := SelectMissing();
      picked, created := ids, 0;
      while created < |ids|
        invariant 0 <= created <= |ids| && tasks == old(tasks) + ids[..created]
      {
        assert ids[created] in Set(ids) && ids[created] !in ids[..created];
        AddMessageTask(ids[created]);
        created := created + 1;
      }
      forall i | 0 <= i < |rows| && rows[i].id in ids
        ensures rows[i].status in {Queued, Failed} && rows[i].id !in old(tasks)
      {
        assert rows[i].id in Set(ids) && rows[i].id in Missing(old(View()));
      }
      if created < REPAIR_LIMIT {
        forall i | 0 <= i < |rows| && rows[i].status in {Queued, Failed} ensures rows[i].id in tasks {
          assert rows[i].id in old(tasks) || rows[i].id in Set(ids);
        }
      }
    }
  }

  /** One answer of the upstream long poll, and how the forwards of its batch fare: the post of
      the message at raisesAt raises, and stored says whether the gateway had stored it. A stop
      is seen during a wait, or before the next poll. */
  datatype Poll =
    | ConnectionLost(stopped: bool)
    | Batch(to: nat, raisesAt: Option<nat>, stored: bool, stopped: bool)

  /** The waits of a monitor: each failure in a row takes the next delay, the last one repeats. */
  function Waits(polls: seq<Poll>, delays: seq<nat>, failures: nat): seq<nat>
    requires delays != []
    decreases |polls|
  {
    if polls == [] then []
    else if polls[0].ConnectionLost?
    then [delays[Min(failures, |delays| - 1)]] + Waits(polls[1..], delays, failures + 1)
    else Waits(polls[1..], delays, 0)
  }

  /** The number of failures a monitor has counted since its last successful poll. */
  function Trailing(polls: seq<Poll>, failures: nat): nat
    decreases |polls|
  {
    if polls == [] then failures
    else Trailing(polls[1..], if polls[0].ConnectionLost? then failures + 1 else 0)
  }

  lemma {:induction false} WaitsSnoc(polls: seq<Poll>, p: Poll, delays: seq<nat>, failures: nat)
    requires delays != []
    ensures var k := Trailing(polls, failures);
            && Waits(polls + [p], delays, failures) == Waits(polls, delays, failures)
                 + (if p.ConnectionLost? then [delays[Min(k, |delays| - 1)]] else [])
            && Trailing(polls + [p], failures) == if p.ConnectionLost? then k + 1 else 0
    decreases |polls|
  {
    if polls == [] {
      assert (polls + [p])[1..] == [];
    } else {
      assert (polls + [p])[1..] == polls[1..] + [p];
      WaitsSnoc(polls[1..], p, delays, if polls[0].ConnectionLost? then failures + 1 else 0);
    }
  }

  /** The end of a polled batch, on a log of n messages. */
  function BatchEnd(cursor: nat, n: nat, p: Poll): nat
    requires p.Batch? && cursor <= n
  {
    Min(Max(cursor, p.to), n)
  }

  /** The gateway refuses a message without an external id; other posts raise at raisesAt. */
  predicate Refused(log: seq<Inbound>, i: nat, raisesAt: Option<nat>)
    requires i < |log|
  {
    log[i].key.external == "" || raisesAt == Some(i)
  }

  /** The first position from `from` on whose forward raises, or the end of the batch. */
  function FirstFailure(log: seq<Inbound>, from: nat, end: nat, raisesAt: Option<nat>): (f: nat)
    requires from <= end <= |log|
    ensures from <= f <= end && forall i :: from <= i < f ==> !Refused(log, i, raisesAt)
    ensures f < end ==> Refused(log, f, raisesAt)
    decreases end - from
  {
    if from == end || Refused(log, from, raisesAt) then from else FirstFailure(log, from + 1, end, raisesAt)
  }

  /** The batch of p has a message whose forward raises. */
  predicate Breaks(log: seq<Inbound>, cursor: nat, p: Poll)
    requires cursor <= |log|
  {
    p.Batch? && FirstFailure(log, cursor, BatchEnd(cursor, |log|, p), p.raisesAt) < BatchEnd(cursor, |log|, p)
  }

  /** Where the persisted cursor stands after some polls: past every batch that was wholly
      forwarded, and not past one with a message whose forward raised. */
  function CursorAfter(cursor: nat, log: seq<Inbound>, polls: seq<Poll>): (c: nat)
    requires cursor <= |log|
    ensures cursor <= c <= |log|
    decreases |polls|
  {
    if polls == [] then cursor
    else if polls[0].ConnectionLost? || Breaks(log, cursor, polls[0]) then CursorAfter(cursor, log, polls[1..])
    else CursorAfter(BatchEnd(cursor, |log|, polls[0]), log, polls[1..])
  }

  /** Every message of the batch from c on can be forwarded, and none of the posts raises. */
  predicate Whole(log: seq<Inbound>, c: nat, p: Poll) {
    p.Batch? && forall i :: c <= i < p.to && i < |log| ==> log[i].key.external != "" && p.raisesAt != Some(i)
  }

  /** How far a wholly forwarded batch takes the cursor: to its end, and never back. */
  function Top(log: seq<Inbound>, c: nat, p: Poll): nat
    requires p.Batch?
  {
    if p.to <= c then c else if p.to <= |log| then p.to else Max(c, |log|)
  }

  lemma WholeIs(log: seq<Inbound>, c: nat, p: Poll)
    requires c <= |log| && p.Batch?
    ensures Breaks(log, c, p) <==> !Whole(log, c, p)
    ensures BatchEnd(c, |log|, p) == Top(log, c, p)
  {
    var end := BatchEnd(c, |log|, p);
    var f := FirstFailure(log, c, end, p.raisesAt);
    if f < end {
      assert c <= f < p.to && f < |log| && Refused(log, f, p.raisesAt);
    } else {
      forall i | c <= i < p.to && i < |log| ensures log[i].key.external != "" && p.raisesAt != Some(i) {
        assert !Refused(log, i, p.raisesAt);
      }
    }
  }

  /** One poll writes the end of its batch to the cursor exactly when all of it is forwarded;
      otherwise the cursor stays. */
  lemma CursorFollows(cursor: nat, log: seq<Inbound>, p: Poll)
    requires cursor <= |log|
    ensures CursorAfter(cursor, log, [p]) == if Whole(log, cursor, p) then Top(log, cursor, p) else cursor
  {
    assert [p][1..] == [];
    if p.Batch? {
      WholeIs(log, cursor, p);
    }
  }

  /** The cursors before each poll and after the last: each follows from the one before. */
  ghost predicate Track(log: seq<Inbound>, cursors: seq<nat>, polls: seq<Poll>) {
    && |cursors| == |polls| + 1
    && forall k :: 0 <= k < |polls| ==>
         cursors[k + 1] == if Whole(log, cursors[k], polls[k]) then Top(log, cursors[k], polls[k]) else cursors[k]
  }

  lemma TrackSnoc(log: seq<Inbound>, cursors: seq<nat>, polls: seq<Poll>, n: nat, next: nat)
    requires n < |polls| && Track(log, cursors, polls[..n])
    requires next == if Whole(log, cursors[n], polls[n]) then Top(log, cursors[n], polls[n]) else cursors[n]
    ensures Track(log, cursors + [next], polls[..n + 1])
  {
    assert forall k :: 0 <= k < n ==> polls[..n + 1][k] == polls[..n][k];
  }

  /** The poll after which a monitor at this cursor ends. */
  predicate EndsMonitor(log: seq<Inbound>, cursor: nat, p: Poll)
    requires cursor <= |log|
  {
    p.stopped || Breaks(log, cursor, p)
  }

  /** The monitor goes on after a lost connection and after a batch that was wholly forwarded,
      unless it was stopped. */
  predicate GoesOnAfter(log: seq<Inbound>, c: nat, p: Poll) {
    !p.stopped && (p.ConnectionLost? || Whole(log, c, p))
  }

  lemma GoesOnIs(log: seq<Inbound>, c: nat, p: Poll)
    requires c <= |log|
    ensures EndsMonitor(log, c, p) <==> !GoesOnAfter(log, c, p)
  {
    if p.Batch? {
      WholeIs(log, c, p);
    }
  }

  /** The cursors lead from start to end, and no poll has ended the monitor. */
  ghost predicate Steady(log: seq<Inbound>, start: nat, cursors: seq<nat>, polls: seq<Poll>, end: nat) {
    && Track(log, cursors, polls) && cursors[0] == start && cursors[|polls|] == end
    && forall k :: 0 <= k < |polls| ==> GoesOnAfter(log, cursors[k], polls[k])
  }

  lemma SteadySnoc(log: seq<Inbound>, start: nat, cursors: seq<nat>, polls: seq<Poll>, n: nat, end: nat, next: nat)
    requires n < |polls| && Steady(log, start, cursors, polls[..n], end)
    requires next == if Whole(log, end, polls[n]) then Top(log, end, polls[n]) else end
    ensures var more := cursors + [next];
            && Track(log, more, polls[..n + 1]) && more[0] == start && more[n + 1] == next && more[n] == end
            && (forall k :: 0 <= k < n ==> GoesOnAfter(log, more[k], polls[k]))
            && (GoesOnAfter(log, end, polls[n]) ==> Steady(log, start, more, polls[..n + 1], next))
  {
    TrackSnoc(log, cursors, polls, n, next);
    forall k | 0 <= k < n ensures GoesOnAfter(log, cursors[k], polls[k]) {
      assert polls[..n][k] == polls[k];
    }
  }

  lemma {:induction false} CursorSnoc(cursor: nat, log: seq<Inbound>, polls: seq<Poll>, p: Poll)
    requires cursor <= |log|
    ensures CursorAfter(cursor, log, polls + [p]) == CursorAfter(CursorAfter(cursor, log, polls), log, [p])
    decreases |polls|
  {
    if polls == [] {
      assert polls + [p] == [p];
    } else {
      assert (polls + [p])[1..] == polls[1..] + [p];
      if polls[0].ConnectionLost? || Breaks(log, cursor, polls[0]) {
        CursorSnoc(cursor, log, polls[1..], p);
      } else {
        CursorSnoc(BatchEnd(cursor, |log|, polls[0]), log, polls[1..], p);
      }
    }
  }

  /** None of the polls ended the monitor. */
  predicate GoesOn(log: seq<Inbound>, cursor: nat, polls: seq<Poll>)
    requires cursor <= |log|
  {
    polls == [] || (
      var before := polls[..|polls| - 1];
      GoesOn(log, cursor, before) && !EndsMonitor(log, CursorAfter(cursor, log, before), polls[|polls| - 1]))
  }

  /** What poll n adds to the polls before it. */
  lemma OneMore(log: seq<Inbound>, cursor: nat, polls: seq<Poll>, n: nat, delays: seq<nat>)
    requires cursor <= |log| && n < |polls| && delays != []
    ensures var k, c, p := Trailing(polls[..n], 0), CursorAfter(cursor, log, polls[..n]), polls[n];
            && CursorAfter(cursor, log, polls[..n + 1]) == CursorAfter(c, log, [p])
            && Waits(polls[..n + 1], delays, 0) == Waits(polls[..n], delays, 0)
                 + (if p.ConnectionLost? then [delays[Min(k, |delays| - 1)]] else [])
            && Trailing(polls[..n + 1], 0) == (if p.ConnectionLost? then k + 1 else 0)
            && (GoesOn(log, cursor, polls[..n + 1]) <==> GoesOn(log, cursor, polls[..n]) && !EndsMonitor(log, c, p))
  {
    assert polls[..n + 1] == polls[..n] + [polls[n]];
    WaitsSnoc(polls[..n], polls[n], delays, 0);
    CursorSnoc(cursor, log, polls[..n], polls[n]);
    assert polls[..n + 1][..n] == polls[..n];
  }

  /** k is the key of one of the log's messages from position a to b - 1. */
  predicate KeyIn(log: seq<Inbound>, a: nat, b: nat, k: Key) {
    exists i :: a <= i < b && i < |log| && log[i].key == k
  }

  /** A monitor that has gone through these polls and goes on. */
  ghost predicate Polled(log: seq<Inbound>, start: nat, polls: seq<Poll>, delays: seq<nat>,
                         cursors: seq<nat>, cursor: nat, waits: seq<nat>, failures: nat)
    requires start <= |log| && delays != []
  {
    && cursor == CursorAfter(start, log, polls) && GoesOn(log, start, polls)
    && waits == Waits(polls, delays, 0) && failures == Trailing(polls, 0)
    && Steady(log, start, cursors, polls, cursor)
  }

  /** What a monitor leaves behind after these polls, of which only the last may have ended it. */
  ghost predicate Left(log: seq<Inbound>, start: nat, polls: seq<Poll>, delays: seq<nat>,
                       cursors: seq<nat>, cursor: nat, waits: seq<nat>)
    requires start <= |log| && delays != []
  {
    && cursor == CursorAfter(start, log, polls) && waits == Waits(polls, delays, 0)
    && Track(log, cursors, polls) && cursors[0] == start && cursors[|polls|] == cursor
    && (polls != [] ==> GoesOn(log, start, polls[..|polls| - 1]))
    && forall k :: 0 <= k < |polls| - 1 ==> GoesOnAfter(log, cursors[k], polls[k])
  }

  lemma PolledSnoc(log: seq<Inbound>, start: nat, polls: seq<Poll>, n: nat, delays: seq<nat>, cursors: seq<nat>,
                   cursor: nat, waits: seq<nat>, failures: nat, next: nat, counted: nat, wait: seq<nat>)
    requires start <= |log| && n < |polls| && delays != [] && cursor <= |log|
    requires Polled(log, start, polls[..n], delays, cursors, cursor, waits, failures)
    requires next == CursorAfter(cursor, log, [polls[n]])
    requires next == if Whole(log, cursor, polls[n]) then Top(log, cursor, polls[n]) else cursor
    requires wait == if polls[n].ConnectionLost? then [delays[Min(failures, |delays| - 1)]] else []
    requires counted == if polls[n].ConnectionLost? then failures + 1 else 0
    ensures Left(log, start, polls[..n + 1], delays, cursors + [next], next, waits + wait)
    ensures GoesOnAfter(log, cursor, polls[n]) ==>
      Polled(log, start, polls[..n + 1], delays, cursors + [next], next, waits + wait, counted)
  {
    OneMore(log, start, polls, n, delays);
    SteadySnoc(log, start, cursors, polls, n, cursor, next);
    GoesOnIs(log, cursor, polls[n]);
    assert polls[..n + 1][..n] == polls[..n];
    forall k | 0 <= k < n ensures GoesOnAfter(log, (cursors + [next])[k], polls[..n + 1][k]) {
      assert polls[..n + 1][k] == polls[k];
    }
  }

  lemma PolledLeaves(log: seq<Inbound>, start: nat, polls: seq<Poll>, delays: seq<nat>,
                     cursors: seq<nat>, cursor: nat, waits: seq<nat>, failures: nat)
    requires start <= |log| && delays != []
    requires Polled(log, start, polls, delays, cursors, cursor, waits, failures)
    ensures Left(log, start, polls, delays, cursors, cursor, waits)
  {
  }

  lemma LeftMeans(log: seq<Inbound>, start: nat, polls: seq<Poll>, n: nat, delays: seq<nat>,
                  cursors: seq<nat>, cursor: nat, waits: seq<nat>)
    requires start <= |log| && n <= |polls| && delays != []
    requires Left(log, start, polls[..n], delays, cursors, cursor, waits)
    ensures n > 0 ==> GoesOn(log, start, polls[..n - 1])
    ensures forall k :: 0 <= k < n - 1 ==> GoesOnAfter(log, cursors[k], polls[k])
  {
    if n > 0 {
      assert polls[..n][..n - 1] == polls[..n - 1];
    }
    forall k | 0 <= k < n - 1 ensures GoesOnAfter(log, cursors[k], polls[k]) {
      assert polls[..n][k] == polls[k];
    }
  }

  /** So the last cursor is past the end of every batch that was wholly forwarded. */
  lemma {:induction false} TrackPasses(log: seq<Inbound>, cursors: seq<nat>, polls: seq<Poll>, k: nat)
    requires Track(log, cursors, polls) && k < |polls| && Whole(log, cursors[k], polls[k])
    ensures cursors[|polls|] >= Min(polls[k].to, |log|)
    decreases |polls|
  {
    var n := |polls| - 1;
    assert cursors[n + 1] >= cursors[n];
    if k < n {
      assert forall j :: 0 <= j < n ==> polls[..n][j] == polls[j];
      TrackPasses(log, cursors[..n + 1], polls[..n], k);
    }
  }

  /** No cursor ever passes a message that the gateway refuses: once such a message is next,
      every later poll that reaches it breaks there. */
  lemma {:induction false} RefusedBlocks(cursor: nat, log: seq<Inbound>, polls: seq<Poll>, bad: nat)
    requires cursor <= bad < |log| && log[bad].key.external == ""
    ensures CursorAfter(cursor, log, polls) <= bad
    decreases |polls|
  {
    if polls != [] {
      if polls[0].ConnectionLost? || Breaks(log, cursor, polls[0]) {
        RefusedBlocks(cursor, log, polls[1..], bad);
      } else {
        assert BatchEnd(cursor, |log|, polls[0]) > bad ==> Refused(log, bad, polls[0].raisesAt);
        RefusedBlocks(BatchEnd(cursor, |log|, polls[0]), log, polls[1..], bad);
      }
    }
  }

  /** The row is as one of the log's messages from position a to b - 1 brings it. */
  predicate FromLog(log: seq<Inbound>, a: nat, b: nat, row: Row) {
    exists i :: a <= i < b && i < |log| && row == NewRow(log[i], row.id)
  }

  /** The rows there were are kept, and each new one stands for a message of the stretch. */
  predicate Brought(log: seq<Inbound>, a: nat, b: nat, before: seq<Row>, after: seq<Row>) {
    before <= after && forall i :: |before| <= i < |after| ==> FromLog(log, a, b, after[i])
  }

  lemma BroughtSnoc(log: seq<Inbound>, a: nat, b: nat, before: seq<Row>, middle: seq<Row>, after: seq<Row>, id: nat)
    requires a <= b < |log| && Brought(log, a, b, before, middle)
    requires after == middle || after == middle + [NewRow(log[b], id)]
    ensures Brought(log, a, b + 1, before, after)
  {
    forall i | |before| <= i < |after| ensures FromLog(log, a, b + 1, after[i]) {
      if i < |middle| {
        var j :| a <= j < b && j < |log| && middle[i] == NewRow(log[j], middle[i].id);
        assert a <= j < b + 1 && after[i] == middle[i];
      } else {
        assert after[i] == NewRow(log[b], id);
      }
    }
  }

  lemma BroughtMore(log: seq<Inbound>, a: nat, b: nat, c: nat, before: seq<Row>, after: seq<Row>)
    requires b <= c && Brought(log, a, b, before, after)
    ensures Brought(log, a, c, before, after)
  {
    forall i | |before| <= i < |after| ensures FromLog(log, a, c, after[i]) {
      assert FromLog(log, a, b, after[i]);
      var j :| a <= j < b && j < |log| && after[i] == NewRow(log[j], after[i].id);
      assert a <= j < c;
    }
  }

  lemma InsertKeys(db: Db, msg: Inbound, id: nat, k: Key)
    ensures HasKey(InsertRow(db, msg, id).rows, k) <==> HasKey(db.rows, k) || k == msg.key
  {
    var n := InsertRow(db, msg, id);
    assert n.rows[|db.rows|].key == msg.key;
    assert forall i :: 0 <= i < |db.rows| ==> n.rows[i] == db.rows[i];
  }

  lemma KeyInSnoc(log: seq<Inbound>, a: nat, b: nat, k: Key)
    requires a <= b < |log|
    ensures KeyIn(log, a, b + 1, k) <==> KeyIn(log, a, b, k) || k == log[b].key
  {
    if KeyIn(log, a, b, k) {
      var i :| a <= i < b && i < |log| && log[i].key == k;
      assert a <= i < b + 1;
    }
  }

  /** What became of a post: its answer was heard, it was lost on the way there, or its answer was. */
  datatype PostEnd = Heard | LostThere | LostBack

  function EndOf(i: nat, raisesAt: Option<nat>, stored: bool): PostEnd {
    if raisesAt != Some(i) then Heard else if stored then LostBack else LostThere
  }

  class ILinkService {
    /** The cursor file of the instance; it survives the process. */
    var cursorFile: nat

    constructor ()
      ensures cursorFile == 0
    {
      cursorFile := 0;
    }

    /** Forward one message; false when the post raised, which does not tell whether the
        gateway has stored the message. */
    method OnMessage(msg: Inbound, id: nat, end: PostEnd, store: Store) returns (ok: bool)
      requires DbInv(store.View()) && !HasId(store.rows, id)
      modifies store
      ensures DbInv(store.View())
      ensures ok <==> end == Heard && msg.key.external != ""
      ensures store.View() ==
        if end == LostThere || msg.key.external == "" || HasKey(old(store.rows), msg.key) then old(store.View())
        else InsertRow(old(store.View()), msg, id)
      ensures forall k :: HasKey(store.rows, k) <==>
        HasKey(old(store.rows), k) || (end != LostThere && msg.key.external != "" && k == msg.key)
    {
      if end == LostThere {
        return false;
      }
      if msg.key.external != "" && !HasKey(store.rows, msg.key) {
        InsertKeeps(store.View(), msg, id);
        forall k ensures HasKey(InsertRow(store.View(), msg, id).rows, k) <==> HasKey(store.rows, k) || k == msg.key {
          InsertKeys(store.View(), msg, id, k);
        }
      }
      var done := store.IngestChannelMessage(msg, id);
      return done != Rejected && end == Heard;
    }

    /** The messages of a batch in order, up to the first whose forward raises. Those before
        it are then in the gateway, it is exactly if its post was lost on the way back, and
        none after it. */
    method ForwardBatch(log: seq<Inbound>, from: nat, to: nat, raisesAt: Option<nat>, stored: bool, store: Store)
      returns (ok: bool)
      requires from <= to <= |log| && DbInv(store.View()) && AcceptedTo(log, from, store.rows)
      modifies store
      ensures DbInv(store.View()) && AcceptedTo(log, FirstFailure(log, from, to, raisesAt), store.rows)
      ensures ok <==> FirstFailure(log, from, to, raisesAt) == to
      ensures var f := FirstFailure(log, from, to, raisesAt);
              forall k :: HasKey(store.rows, k) <==>
                || HasKey(old(store.rows), k) || KeyIn(log, from, f, k)
                || (f < to && stored && log[f].key.external != "" && k == log[f].key)
      ensures Brought(log, from, to, old(store.rows), store.rows)
    {
      var next := from;
      while next < to
        invariant from <= next <= to && DbInv(store.View()) && AcceptedTo(log, next, store.rows)
        invariant FirstFailure(log, next, to, raisesAt) == FirstFailure(log, from, to, raisesAt)
        invariant forall k :: HasKey(store.rows, k) <==> HasKey(old(store.rows), k) || KeyIn(log, from, next, k)
        invariant Brought(log, from, next, old(store.rows), store.rows)
      {
        var id := FreshId(store.rows);
        ghost var middle := store.rows;
        ok := OnMessage(log[next], id, EndOf(next, raisesAt, stored), store);
        BroughtSnoc(log, from, next, old(store.rows), middle, store.rows, id);
        if !ok {
          BroughtMore(log, from, next + 1, to, old(store.rows), store.rows);
          return;
        }
        forall k ensures KeyIn(log, from, next + 1, k) <==> KeyIn(log, from, next, k) || k == log[next].key {
          KeyInSnoc(log, from, next, k);
        }
        next := next + 1;
      }
      return true;
    }

    /** One turn of the monitor: a lost connection is waited out, a batch is forwarded and then
        the cursor written. */
    method HandlePoll(log: seq<Inbound>, store: Store, poll: Poll, cursor: nat, failures: nat, delays: seq<nat>)
      returns (wait: seq<nat>, next: nat, counted: nat, ended: bool)
      requires delays != [] && DbInv(store.View()) && cursor == cursorFile && AcceptedTo(log, cursor, store.rows)
      modifies this, store
      ensures DbInv(store.View()) && next == cursorFile && AcceptedTo(log, next, store.rows)
      ensures next == CursorAfter(cursor, log, [poll])
      ensures next == if Whole(log, cursor, poll) then Top(log, cursor, poll) else cursor
      ensures wait == if poll.ConnectionLost? then [delays[Min(failures, |delays| - 1)]] else []
      ensures counted == if poll.ConnectionLost? then failures + 1 else 0
      ensures ended <==> EndsMonitor(log, cursor, poll)
      ensures ended <==> !GoesOnAfter(log, cursor, poll)
    {
      CursorFollows(cursor, log, poll);
      GoesOnIs(log, cursor, poll);
      wait, next, counted, ended := [], cursor, 0, poll.stopped;
      if poll.ConnectionLost? {
        wait, counted := [delays[Min(failures, |delays| - 1)]], failures + 1;
        return;
      }
      var to := Min(Max(cursor, poll.to), |log|);
      var ok := ForwardBatch(log, cursor, to, poll.raisesAt, poll.stored, store);
      if !ok {
        ended := true;
        return;
      }
      cursorFile, next := to, to;
    }

    /** monitor: poll, forward the whole batch, then commit the cursor. It ends when it is
        stopped or when a forward raises, and at nothing else; a forward that raises leaves
        the cursor where the last whole batch put it. The log is what upstream has in the
        end; how much of it was there at a poll is part of the poll. */
    method Monitor(log: seq<Inbound>, store: Store, polls: seq<Poll>, delays: seq<nat>)
      returns (waits: seq<nat>, used: nat, ghost cursors: seq<nat>)
      requires delays != [] && DbInv(store.View()) && AcceptedTo(log, cursorFile, store.rows)
      modifies this, store
      ensures DbInv(store.View()) && AcceptedTo(log, cursorFile, store.rows)
      ensures used <= |polls| && waits == Waits(polls[..used], delays, 0)
      ensures cursorFile == CursorAfter(old(cursorFile), log, polls[..used])
      ensures used > 0 ==> GoesOn(log, old(cursorFile), polls[..used - 1])
      ensures Track(log, cursors, polls[..used]) && cursors[0] == old(cursorFile) && cursors[used] == cursorFile
      ensures forall k :: 0 <= k < used - 1 ==> GoesOnAfter(log, cursors[k], polls[k])
      ensures used < |polls| ==> used > 0 && !GoesOnAfter(log, cursors[used - 1], polls[used - 1])
    {
      var cursor := cursorFile;
      var failures := 0;
      ghost var start := cursorFile;
      waits, used, cursors := [], 0, [cursorFile];
      while used < |polls|
        invariant 0 <= used <= |polls| && DbInv(store.View())
        invariant cursor == cursorFile && AcceptedTo(log, cursor, store.rows)
        invariant Polled(log, start, polls[..used], delays, cursors, cursor, waits, failures)
      {
        ghost var c, f := cursor, failures;
        var wait, ended;
        wait, cursor, failures, ended := HandlePoll(log, store, polls[used], cursor, failures, delays);
        PolledSnoc(log, start, polls, used, delays, cursors, c, waits, f, cursor, failures, wait);
        waits, used, cursors := waits + wait, used + 1, cursors + [cursor];
        if ended {
          LeftMeans(log, start, polls, used, delays, cursors, cursor, waits);
          return;
        }
      }
      PolledLeaves(log, start, polls[..used], delays, cursors, cursor, waits, failures);
      LeftMeans(log, start, polls, used, delays, cursors, cursor, waits);
    }
  }
}
