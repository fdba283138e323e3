/** The durable task row of the outbox (src/wecom_ai_gateway/tasks.py).

    A row is claimed by a conditional update that installs a fresh lease token,
    renewed, completed or failed under that token, retried with exponential
    backoff, killed after too many failures, and replayed by an operator.
    Class OutboxTask is the mutable row; the functions on Row say what each
    operation makes of it, and the rest of the project reasons about those. */
module Outbox {
  import opened Basics

  /** Lease tokens are random UUIDs; only their freshness matters. */
  type Token = nat

  /** A sync task carries a callback token, a message task a message id. */
  type Payload = nat

  datatype Kind = SyncTask | MessageTask

  datatype Status = Pending | Processing | Done | Dead

  datatype Row = Row(
    kind: Kind,
    payload: Payload,
    status: Status,
    attempts: nat,
    rerun: bool,
    availableAt: int,
    lockedAt: Option<int>,
    lease: Option<Token>,
    lastError: Option<string>)

  datatype Retry = Retry(maxAttempts: int, base: int, cap: int)

  function Pow2(n: nat): nat {
    if n == 0 then 1 else 2 * Pow2(n - 1)
  }

  /** Seconds to wait after the n-th failure. */
  function Delay(cfg: Retry, n: nat): int
    requires n >= 1
  {
    Min(cfg.base * Pow2(n - 1), cfg.cap)
  }

  function FreshRow(kind: Kind, payload: Payload, now: int): Row {
    Row(kind, payload, Pending, 0, false, now, None, None, None)
  }

  /** The WHERE clause shared by the select and the update of a claim. */
  predicate Claimable(r: Row, now: int, stale: int) {
    || (r.status == Pending && r.availableAt <= now)
    || (r.status == Processing && r.lockedAt.Some? && r.lockedAt.value < stale)
  }

  /** The WHERE clause of complete and fail; without a token any processing row matches. */
  predicate HeldBy(r: Row, lease: Option<Token>) {
    r.status == Processing && (lease == None || r.lease == lease)
  }

  function Claimed(r: Row, now: int, token: Token): Row {
    r.(status := Processing, lockedAt := Some(now), lease := Some(token))
  }

  function Renewed(r: Row, token: Token, now: int): Row {
    if HeldBy(r, Some(token)) then r.(lockedAt := Some(now)) else r
  }

  function Completed(r: Row, lease: Option<Token>, now: int): Row {
    if !HeldBy(r, lease) then r
    else
      var unlocked := r.(lockedAt := None, lease := None, lastError := None);
      if r.kind == SyncTask && r.rerun
      then unlocked.(status := Pending, availableAt := now, rerun := false)
      else unlocked.(status := Done)
  }

  function Failed(r: Row, lease: Option<Token>, error: string, now: int, cfg: Retry): Row {
    if !HeldBy(r, lease) then r
    else
      var counted := r.(attempts := r.attempts + 1, lockedAt := None, lease := None, lastError := Some(error));
      if counted.attempts >= cfg.maxAttempts
      then counted.(status := Dead)
      else counted.(status := Pending, availableAt := now + Delay(cfg, counted.attempts))
  }

  function Replayed(r: Row, now: int): Row {
    if r.status != Dead then r
    else r.(status := Pending, attempts := 0, availableAt := now,
            lockedAt := None, lease := None, lastError := None)
  }

  /** A new sync callback: it refreshes the payload and re-activates a finished row. */
  function CalledBack(r: Row, payload: Payload, now: int): Row {
    var refreshed := r.(payload := payload);
    match r.status
    case Processing => refreshed.(rerun := true)
    case Pending => refreshed
    case _ => FreshRow(r.kind, payload, now)
  }

  /** One row of the outbox table, updated field by field. */
  class OutboxTask {
    const kind: Kind
    var payload: Payload
    var status: Status
    var attempts: nat
    var rerun: bool
    var availableAt: int
    var lockedAt: Option<int>
    var lease: Option<Token>
    var lastError: Option<string>

    function View(): Row
      reads this
    {
      Row(kind, payload, status, attempts, rerun, availableAt, lockedAt, lease, lastError)
    }

    constructor (kind: Kind, payload: Payload, now: int)
      ensures View() == FreshRow(kind, payload, now)
      ensures this.kind == kind && this.payload == payload && status == Pending && attempts == 0 && !rerun
      ensures availableAt == now && lockedAt == None && lease == None && lastError == None
    {
      this.kind := kind;
      this.payload := payload;
      status, attempts, rerun := Pending, 0, false;
      availableAt := now;
      lockedAt, lease, lastError := None, None, None;
    }

    method ReceiveCallback(token: Payload, now: int)
      requires kind == SyncTask
      modifies this
      ensures View() == CalledBack(old(View()), token, now)
      ensures payload == token
      ensures old(status) == Processing ==> View() == old(View()).(payload := token, rerun := true)
      ensures old(status) == Pending ==> View() == old(View()).(payload := token)
      ensures old(status) in {Done, Dead} ==>
        && status == Pending && attempts == 0 && availableAt == now && !rerun
        && lockedAt == None && lease == None && lastError == None
    {
      payload := token;
      if status == Processing {
        rerun := true;
      } else if status == Done || status == Dead {
        status := Pending;
        attempts := 0;
        availableAt := now;
        lockedAt := None;
        lease := None;
        lastError := None;
        rerun := false;
      }
    }

    method TryClaim(now: int, stale: int, token: Token) returns (claimed: bool)
      modifies this
      ensures claimed <==> Claimable(old(View()), now, stale)
      ensures View() == if claimed then Claimed(old(View()), now, token) else old(View())
      ensures old(status) == Pending ==> (claimed <==> old(availableAt) <= now)
      ensures old(status) == Processing && old(lockedAt).Some? ==> (claimed <==> old(lockedAt).value < stale)
      ensures old(status) in {Done, Dead} ==> !claimed
      ensures claimed ==>
        View() == old(View()).(status := Processing, lockedAt := Some(now), lease := Some(token))
    {
      claimed := || (status == Pending && availableAt <= now)
                 || (status == Processing && lockedAt.Some? && lockedAt.value < stale);
      if claimed {
        status := Processing;
        lockedAt := Some(now);
        lease := Some(token);
      }
    }

    method RenewLease(token: Token, now: int) returns (held: bool)
      modifies this
      ensures held <==> HeldBy(old(View()), Some(token))
      ensures View() == Renewed(old(View()), token, now)
      ensures held <==> old(status) == Processing && old(lease) == Some(token)
      ensures View() == if held then old(View()).(lockedAt := Some(now)) else old(View())
    {
      held := status == Processing && lease == Some(token);
      if held {
        lockedAt := Some(now);
      }
    }

    method Complete(holder: Option<Token>, now: int) returns (accepted: bool)
      modifies this
      ensures accepted <==> HeldBy(old(View()), holder)
      ensures View() == Completed(old(View()), holder, now)
      ensures accepted <==> old(status) == Processing && (holder == None || old(lease) == holder)
      ensures !accepted ==> View() == old(View())
      ensures accepted ==> lockedAt == None && lease == None && lastError == None
      ensures accepted ==> payload == old(payload) && attempts == old(attempts)
      ensures accepted && kind == SyncTask && old(rerun) ==> status == Pending && availableAt == now && !rerun
      ensures accepted && !(kind == SyncTask && old(rerun)) ==>
        status == Done && availableAt == old(availableAt) && rerun == old(rerun)
    {
      if status != Processing || (holder.Some? && lease != holder) {
        return false;
      }
      if kind == SyncTask && rerun {
        status := Pending;
        availableAt := now;
        rerun := false;
      } else {
        status := Done;
      }
      lockedAt := None;
      lease := None;
      lastError := None;
      return true;
    }

    method Fail(holder: Option<Token>, error: string, now: int, cfg: Retry) returns (outcome: Option<Status>)
      modifies this
      ensures outcome.Some? <==> HeldBy(old(View()), holder)
      ensures outcome.Some? ==> outcome.value == status
      ensures View() == Failed(old(View()), holder, error, now, cfg)
      ensures outcome.Some? <==> old(status) == Processing && (holder == None || old(lease) == holder)
      ensures outcome == None ==> View() == old(View())
      ensures outcome.Some? ==>
        && attempts == old(attempts) + 1 && lastError == Some(error) && lockedAt == None && lease == None
        && payload == old(payload) && rerun == old(rerun)
        && status == (if attempts >= cfg.maxAttempts then Dead else Pending)
        && availableAt ==
           if status == Dead then old(availableAt) else now + Min(cfg.base * Pow2(attempts - 1), cfg.cap)
    {
      if status != Processing || (holder.Some? && lease != holder) {
        return None;
      }
      attempts := attempts + 1;
      lastError := Some(error);
      lockedAt := None;
      lease := None;
      if attempts >= cfg.maxAttempts {
        status := Dead;
      } else {
        var delay := Min(cfg.base * Pow2(attempts - 1), cfg.cap);
        status := Pending;
        availableAt := now + delay;
      }
      return Some(status);
    }

    method Replay(now: int) returns (replayed: bool)
      modifies this
      ensures replayed <==> old(status) == Dead
      ensures View() == Replayed(old(View()), now)
      ensures !replayed ==> View() == old(View())
      ensures replayed ==>
        && status == Pending && attempts == 0 && availableAt == now
        && lockedAt == None && lease == None && lastError == None
        && payload == old(payload) && rerun == old(rerun)
    {
      if status != Dead {
        return false;
      }
      status := Pending;
      attempts := 0;
      availableAt := now;
      lockedAt := None;
      lease := None;
      lastError := None;
      return true;
    }
  }
}
