/** The worker's loop over available tasks (src/wecom_ai_gateway/worker.py
    drain_available_tasks, src/wecom_ai_gateway/tasks.py claim_task). Another worker may take
    the row between this one's select and its update; Leases covers the other
    interleavings. */
module Worker {
  import opened Basics
  import opened Outbox

  /** Another worker's claim: its clock and its token. */
  datatype Rival = Rival(now: int, token: Token)

  /** k counts the rounds: when each one reads the clock, when its task ends, the error
      execute_task raises, if any, and who else is after the row it has selected. */
  datatype World = World(
    clock: nat -> int,
    after: nat -> int,
    raises: nat -> Option<string>,
    rival: nat -> Option<Rival>,
    created: nat -> int)

  /** The row when the update comes to it: a rival's own conditional update may have passed. */
  function Seized(r: Row, rival: Option<Rival>, timeout: nat): Row {
    if rival.Some? && Claimable(r, rival.value.now, rival.value.now - timeout)
    then Claimed(r, rival.value.now, rival.value.token)
    else r
  }

  datatype Report = Report(id: nat, token: Token, succeeded: bool)

  type Table = map<nat, Row>

  predicate Free(t: Table, id: nat, now: int, timeout: nat) {
    id in t && Claimable(t[id], now, now - timeout)
  }

  /** ORDER BY available_at, created_at */
  predicate NotAfter(t: Table, created: nat -> int, a: nat, b: nat)
    requires a in t && b in t
  {
    t[a].availableAt < t[b].availableAt || (t[a].availableAt == t[b].availableAt && created(a) <= created(b))
  }

  /** The free row that became available first. */
  predicate Due(t: Table, created: nat -> int, a: nat, now: int, timeout: nat) {
    && Free(t, a, now, timeout)
    && forall b :: b in t && Free(t, b, now, timeout) ==> NotAfter(t, created, a, b)
  }

  /** Due and pending, or processing under a lock older than the timeout. */
  predicate Ripe(r: Row, now: int, timeout: nat) {
    || (r.status == Pending && r.availableAt <= now)
    || (r.status == Processing && r.lockedAt.Some? && now - r.lockedAt.value > timeout)
  }

  lemma FreeIsRipe(t: Table, now: int, timeout: nat)
    ensures forall id :: id in t ==> (Free(t, id, now, timeout) <==> Ripe(t[id], now, timeout))
  {
  }

  predicate First(t: Table, created: nat -> int, pool: set<nat>, a: nat)
    requires pool <= t.Keys
  {
    a in pool && forall b :: b in pool ==> NotAfter(t, created, a, b)
  }

  lemma {:induction false} FirstExists(t: Table, created: nat -> int, pool: set<nat>)
    requires pool != {} && pool <= t.Keys
    ensures exists a :: First(t, created, pool, a)
    decreases pool
  {
    var x :| x in pool;
    if pool == {x} {
      assert First(t, created, pool, x);
    } else {
      FirstExists(t, created, pool - {x});
      var a :| First(t, created, pool - {x}, a);
      var best := if NotAfter(t, created, a, x) then a else x;
      forall b | b in pool ensures NotAfter(t, created, best, b) {
        assert b == x || b in pool - {x};
      }
      assert First(t, created, pool, best);
    }
  }

  /** The rival has the row, and a lease on it that has not run out. */
  predicate RivalHolds(t: Table, id: nat, rival: Option<Rival>) {
    rival.Some? && id in t && HeldBy(t[id], Some(rival.value.token))
  }

  /** A row once its run under token is reported. */
  function Reported(r: Row, token: Token, error: Option<string>, now: int, cfg: Retry): Row {
    if error == None then Completed(r, Some(token), now) else Failed(r, Some(token), error.value, now, cfg)
  }

  function Ids(reports: seq<Report>): set<nat> {
    set k | 0 <= k < |reports| :: reports[k].id
  }

  lemma IdsSnoc(reports: seq<Report>, r: Report)
    ensures Ids(reports + [r]) == Ids(reports) + {r.id}
  {
    var more := reports + [r];
    assert more[|reports|] == r && forall k :: 0 <= k < |reports| ==> more[k] == reports[k];
  }

  /** The rounds were reported in order, each under its own token and with its own end. */
  predicate InOrder(reports: seq<Report>, world: World, firstToken: Token) {
    forall k :: 0 <= k < |reports| ==>
      reports[k].token == firstToken + k && reports[k].succeeded == (world.raises(k) == None)
  }

  /** But for a rival's row, only reported rows have changed, and none of them is still held. */
  predicate OnlyReported(before: Table, after: Table, ids: set<nat>, whose: Option<nat>) {
    && after.Keys == before.Keys
    && forall id :: id in after && whose != Some(id) ==>
         after[id] == before[id] || (after[id].status != Processing && id in ids)
  }

  lemma OneReported(before: Table, after: Table, ids: set<nat>, id: nat, row: Row)
    requires OnlyReported(before, after, ids, None) && id in after && row.status != Processing
    ensures OnlyReported(before, after[id := row], ids + {id}, None)
  {
  }

  class Drain {
    var table: Table
    var reports: seq<Report>

    constructor (table: Table)
      ensures this.table == table && reports == []
    {
      this.table, reports := table, [];
    }

    /** SELECT ... ORDER BY available_at, created_at LIMIT 1 */
    method SelectTask(now: int, timeout: nat, created: nat -> int) returns (due: Option<nat>)
      ensures due == None <==> forall id :: !Free(table, id, now, timeout)
      ensures due.Some? ==> Due(table, created, due.value, now, timeout)
      ensures due.Some? ==>
        && due.value in table && Ripe(table[due.value], now, timeout)
        && forall id :: id in table && Ripe(table[id], now, timeout) ==>
             || table[due.value].availableAt < table[id].availableAt
             || (table[due.value].availableAt == table[id].availableAt && created(due.value) <= created(id))
      ensures due == None ==> forall id :: id in table ==> !Ripe(table[id], now, timeout)
    {
      FreeIsRipe(table, now, timeout);
      var pool := set id | id in table && Claimable(table[id], now, now - timeout);
      if pool == {} {
        assert forall id :: Free(table, id, now, timeout) ==> id in pool;
        return None;
      }
      FirstExists(table, created, pool);
      var id :| First(table, created, pool, id);
      forall x | x in table && Free(table, x, now, timeout) ensures NotAfter(table, created, id, x) {
        assert x in pool;
      }
      assert Free(table, id, now, timeout);
      return Some(id);
    }

    /** claim_task: select the row that is due, then update it if it still can be claimed. A
        rival that was quicker leaves this worker without a task; whose is its id. */
    method ClaimTask(now: int, timeout: nat, token: Token, created: nat -> int, rival: Option<Rival>)
      returns (claimed: Option<nat>, ghost whose: Option<nat>)
      modifies this`table
      ensures claimed == None && whose == None <==> forall id :: !Free(old(table), id, now, timeout)
      ensures claimed == None && whose == None ==> table == old(table)
      ensures whose.Some? ==>
        && claimed == None && Due(old(table), created, whose.value, now, timeout)
        && var seized := Seized(old(table)[whose.value], rival, timeout);
           !Claimable(seized, now, now - timeout) && table == old(table)[whose.value := seized]
      ensures claimed.Some? ==>
        && Due(old(table), created, claimed.value, now, timeout)
        && var seized := Seized(old(table)[claimed.value], rival, timeout);
           Claimable(seized, now, now - timeout) && table == old(table)[claimed.value := Claimed(seized, now, token)]
    {
      whose := None;
      claimed := SelectTask(now, timeout, created);
      if claimed == None {
        return;
      }
      var id := claimed.value;
      table := table[id := Seized(table[id], rival, timeout)];
      if !Claimable(table[id], now, now - timeout) {
        claimed, whose := None, Some(id);
        return;
      }
      table := table[id := Claimed(table[id], now, token)];
    }

    /** The task is completed or failed under the token of its claim. */
    method ReportTask(id: nat, token: Token, error: Option<string>, now: int, cfg: Retry)
      requires id in table && HeldBy(table[id], Some(token))
      modifies this
      ensures table == old(table)[id := Reported(old(table)[id], token, error, now, cfg)]
      ensures table[id].status != Processing
      ensures error == None ==>
        && table[id].lastError == None && table[id].attempts == old(table)[id].attempts
        && (table[id].status == Done
            || (old(table)[id].kind == SyncTask && old(table)[id].rerun && table[id].status == Pending))
      ensures error.Some? ==>
        && table[id].lastError == error && table[id].attempts == old(table)[id].attempts + 1
        && table[id].status == if table[id].attempts >= cfg.maxAttempts then Dead else Pending
      ensures reports == old(reports) + [Report(id, token, error == None)]
      ensures Ids(reports) == Ids(old(reports)) + {id}
    {
      IdsSnoc(reports, Report(id, token, error == None));
      table := table[id := Reported(table[id], token, error, now, cfg)];
      reports := reports + [Report(id, token, error == None)];
    }

    /** One round: claim, run, report. False when nothing was free, or a rival was quicker. */
    method Round(world: World, k: nat, timeout: nat, cfg: Retry, token: Token)
      returns (worked: bool, ghost whose: Option<nat>)
      modifies this
      ensures !worked && whose == None <==> forall id :: !Free(old(table), id, world.clock(k), timeout)
      ensures !worked && whose == None ==> table == old(table)
      ensures !worked ==> reports == old(reports)
      ensures whose.Some? ==>
        && !worked && Due(old(table), world.created, whose.value, world.clock(k), timeout)
        && RivalHolds(table, whose.value, world.rival(k))
        && table == old(table)[whose.value := table[whose.value]]
      ensures worked ==>
        && |reports| == |old(reports)| + 1 && old(reports) == reports[..|old(reports)|]
        && var last := reports[|old(reports)|];
           && last.token == token && last.succeeded == (world.raises(k) == None)
           && Ids(reports) == Ids(old(reports)) + {last.id}
           && Due(old(table), world.created, last.id, world.clock(k), timeout)
           && last.id in table && table[last.id].status != Processing
           && var claimed := Claimed(Seized(old(table)[last.id], world.rival(k), timeout), world.clock(k), token);
              table == old(table)[last.id := Reported(claimed, token, world.raises(k), world.after(k), cfg)]
    {
      var claimed;
      claimed, whose := ClaimTask(world.clock(k), timeout, token, world.created, world.rival(k));
      if claimed == None {
        return false, whose;
      }
      ReportTask(claimed.value, token, world.raises(k), world.after(k), cfg);
      return true, None;
    }

    /** Rounds until nothing is free, until a rival is quicker, or until stopped. Every claim
        is reported exactly once, in order, and no lease of this worker is left behind; what
        a rival took is the rival's. If the loop ended by itself and no rival ended it,
        nothing is free at its last look. */
    method DrainAvailableTasks(world: World, timeout: nat, cfg: Retry, firstToken: Token, rounds: nat)
      returns (processed: nat, ghost whose: Option<nat>)
      requires reports == []
      modifies this
      ensures processed == |reports| <= rounds
      ensures InOrder(reports, world, firstToken)
      ensures OnlyReported(old(table), table, Ids(reports), whose)
      ensures whose.Some? ==> processed < rounds && RivalHolds(table, whose.value, world.rival(processed))
      ensures processed < rounds && whose == None ==> forall id :: !Free(table, id, world.clock(processed), timeout)
    {
      processed, whose := 0, None;
      while processed < rounds
        invariant processed == |reports| <= rounds && whose == None
        invariant InOrder(reports, world, firstToken) && OnlyReported(old(table), table, Ids(reports), None)
      {
        ghost var before, reported := table, Ids(reports);
        var worked;
        worked, whose := Round(world, processed, timeout, cfg, firstToken + processed);
        if !worked {
          return;
        }
        ghost var id := reports[processed].id;
        OneReported(old(table), before, reported, id, table[id]);
        assert table == before[id := table[id]];
        processed := processed + 1;
      }
    }
  }
}
