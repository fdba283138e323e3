/** One outbox row under any interleaving of workers, callbacks and operators.

    Every event below is one database transaction of src/wecom_ai_gateway/tasks.py, taken as
    one step; OutboxRaces takes the reads and the commits apart.
    A claim is two events: a select that fixes the worker's notion of "now", and a
    conditional update that installs a fresh token and hands the worker the row it
    wrote. Any holder of an issued token may renew, complete or fail at any later
    time and any number of times. */
module Leases {
  import opened Basics
  import opened Outbox

  /** What a claim saw: how many callbacks had arrived, and the payload it carried off. */
  datatype Claim = Claim(seen: nat, carried: Payload)

  datatype Outcome = Outcome(token: Token, succeeded: bool)

  datatype Machine = Machine(
    row: Row,
    now: int,
    timeout: nat,
    cfg: Retry,
    selects: map<nat, int>,
    claims: map<Token, Claim>,
    outcomes: seq<Outcome>,
    waits: seq<int>,
    callbacks: seq<Payload>)

  datatype Event =
    | Tick(to: int)
    | Select(worker: nat)
    | Update(worker: nat, token: Token)
    | Renew(token: Token)
    | Complete(token: Token)
    | Fail(token: Token, error: string)
    | Replay
    | Callback(payload: Payload)

  /** The row exists from its first callback (or from ingestion) on. */
  function Initial(kind: Kind, payload: Payload, now: int, timeout: nat, cfg: Retry): Machine {
    Machine(FreshRow(kind, payload, now), now, timeout, cfg, map[], map[], [], [], [payload])
  }

  predicate Enabled(m: Machine, e: Event) {
    match e
    case Tick(to) => m.now <= to
    case Select(w) => Claimable(m.row, m.now, m.now - m.timeout)
    case Update(w, t) => w in m.selects && t !in m.claims
    case Renew(t) => t in m.claims
    case Complete(t) => t in m.claims
    case Fail(t, _) => t in m.claims
    case Replay => true
    case Callback(_) => m.row.kind == SyncTask
  }

  function Apply(m: Machine, e: Event): Machine
    requires Enabled(m, e)
  {
    match e
    case Tick(to) => m.(now := to)
    case Select(w) => m.(selects := m.selects[w := m.now])
    case Update(w, t) =>
      var at := m.selects[w];
      var done := m.(selects := m.selects - {w});
      if Claimable(m.row, at, at - m.timeout)
      then done.(row := Claimed(m.row, at, t), claims := m.claims[t := Claim(|m.callbacks|, m.row.payload)])
      else done
    case Renew(t) => m.(row := Renewed(m.row, t, m.now))
    case Complete(t) =>
      m.(row := Completed(m.row, Some(t), m.now),
         outcomes := if HeldBy(m.row, Some(t)) then m.outcomes + [Outcome(t, true)] else m.outcomes)
    case Fail(t, error) =>
      var failed := Failed(m.row, Some(t), error, m.now, m.cfg);
      var accepted := HeldBy(m.row, Some(t));
      m.(row := failed,
         outcomes := if accepted then m.outcomes + [Outcome(t, false)] else m.outcomes,
         waits := if accepted && failed.status == Pending then m.waits + [failed.availableAt - m.now] else m.waits)
    case Replay => m.(row := Replayed(m.row, m.now))
    case Callback(p) => m.(row := CalledBack(m.row, p, m.now), callbacks := m.callbacks + [p])
  }

  predicate Legal(m: Machine, es: seq<Event>)
    decreases |es|
  {
    es == [] || (Enabled(m, es[0]) && Legal(Apply(m, es[0]), es[1..]))
  }

  function Run(m: Machine, es: seq<Event>): Machine
    requires Legal(m, es)
    decreases |es|
  {
    if es == [] then m else Run(Apply(m, es[0]), es[1..])
  }

  // ---------------------------------------------------------------- lease exclusivity

  predicate Spent(m: Machine, t: Token) {
    exists i :: 0 <= i < |m.outcomes| && m.outcomes[i].token == t
  }

  predicate LeaseInv(m: Machine) {
    && (m.row.status == Processing <==> m.row.lease.Some?)
    && (m.row.status == Processing <==> m.row.lockedAt.Some?)
    && (m.row.lease.Some? ==> m.row.lease.value in m.claims && !Spent(m, m.row.lease.value))
    && (forall i :: 0 <= i < |m.outcomes| ==> m.outcomes[i].token in m.claims)
    && (forall i, j :: 0 <= i < j < |m.outcomes| ==> m.outcomes[i].token != m.outcomes[j].token)
    && (forall w :: w in m.selects ==> m.selects[w] <= m.now)
  }

  lemma LeaseStep(m: Machine, e: Event)
    requires LeaseInv(m) && Enabled(m, e)
    ensures LeaseInv(Apply(m, e))
  {
    var n := Apply(m, e);
    if (e.Complete? || e.Fail?) && HeldBy(m.row, Some(e.token)) {
      assert n.row.status != Processing;
      assert forall i :: 0 <= i < |m.outcomes| ==> m.outcomes[i].token != e.token;
    }
  }

  /** A row is processing exactly while a lease and a lock time are set, and no token
      ever has two accepted outcomes, whatever the interleaving. */
  lemma {:induction false} OneOutcomePerLease(m: Machine, es: seq<Event>)
    requires LeaseInv(m) && Legal(m, es)
    ensures LeaseInv(Run(m, es))
    decreases |es|
  {
    if es != [] {
      LeaseStep(m, es[0]);
      OneOutcomePerLease(Apply(m, es[0]), es[1..]);
    }
  }

  lemma InitialLeases(kind: Kind, payload: Payload, now: int, timeout: nat, cfg: Retry)
    ensures LeaseInv(Initial(kind, payload, now, timeout, cfg))
  {
  }

  predicate ActsFor(e: Event, t: Token) {
    (e.Renew? || e.Complete? || e.Fail?) && e.token == t
  }

  /** The events of es that are not taken under token t. */
  function Without(es: seq<Event>, t: Token): seq<Event> {
    if es == [] then []
    else if ActsFor(es[0], t) then Without(es[1..], t)
    else [es[0]] + Without(es[1..], t)
  }

  /** Once a token has been superseded, everything its holder still does can be erased
      from the run without changing where the run ends. */
  lemma {:induction false} SupersededTokenIsInert(m: Machine, es: seq<Event>, t: Token)
    requires LeaseInv(m) && Legal(m, es)
    requires t in m.claims && m.row.lease != Some(t)
    ensures Legal(m, Without(es, t))
    ensures Run(m, Without(es, t)) == Run(m, es)
    ensures Run(m, es).row.lease != Some(t)
    decreases |es|
  {
    if es != [] {
      var n := Apply(m, es[0]);
      LeaseStep(m, es[0]);
      SupersededTokenIsInert(n, es[1..], t);
      if !ActsFor(es[0], t) {
        assert ([es[0]] + Without(es[1..], t))[1..] == Without(es[1..], t);
      } else {
        assert n == m;
      }
    }
  }

  /** A row locked within the timeout cannot be taken over, even by a worker whose
      select ran earlier and whose clock reading is therefore old. */
  lemma LiveLockIsNotTakenOver(m: Machine, e: Event)
    requires LeaseInv(m) && Enabled(m, e) && e.Update?
    requires m.row.lockedAt.Some? && m.now - m.row.lockedAt.value <= m.timeout
    ensures Apply(m, e).row == m.row && Apply(m, e).claims == m.claims
  {
    assert m.selects[e.worker] <= m.now;
  }

  /** Time passing up to end, and what other workers may try without a result to report. */
  predicate Rivalry(e: Event, end: int) {
    (e.Tick? && e.to <= end) || e.Select? || e.Update? || e.Renew?
  }

  predicate RivalsOnly(es: seq<Event>, end: int) {
    forall i :: 0 <= i < |es| ==> Rivalry(es[i], end)
  }

  /** Token t holds the row, and its lock has not run out by time end. */
  predicate HeldUntil(m: Machine, t: Token, end: int) {
    && m.row.status == Processing && m.row.lease == Some(t)
    && m.row.lockedAt.Some? && end - m.timeout <= m.row.lockedAt.value <= m.now <= end
  }

  lemma RivalStep(m: Machine, e: Event, t: Token, end: int)
    requires LeaseInv(m) && Enabled(m, e) && Rivalry(e, end) && HeldUntil(m, t, end)
    ensures LeaseInv(Apply(m, e)) && HeldUntil(Apply(m, e), t, end)
  {
    LeaseStep(m, e);
    if e.Update? {
      LiveLockIsNotTakenOver(m, e);
    }
  }

  lemma {:induction false} RivalsFail(m: Machine, es: seq<Event>, t: Token, end: int)
    requires LeaseInv(m) && Legal(m, es) && RivalsOnly(es, end) && HeldUntil(m, t, end)
    ensures Run(m, es).row.status == Processing && Run(m, es).row.lease == Some(t)
    decreases |es|
  {
    if es != [] {
      RivalStep(m, es[0], t, end);
      RivalsFail(Apply(m, es[0]), es[1..], t, end);
    }
  }

  /** What a renewal is for: until the timeout after it has passed, no other worker takes the
      row over, whenever its select ran and however often it tries. */
  lemma RenewalKeepsLease(m: Machine, t: Token, es: seq<Event>)
    requires LeaseInv(m) && Enabled(m, Renew(t)) && m.row.lease == Some(t)
    requires Legal(Apply(m, Renew(t)), es) && RivalsOnly(es, m.now + m.timeout)
    ensures var n := Run(Apply(m, Renew(t)), es);
            n.row.status == Processing && n.row.lease == Some(t)
  {
    LeaseStep(m, Renew(t));
    RivalsFail(Apply(m, Renew(t)), es, t, m.now + m.timeout);
  }

  // ---------------------------------------------------------------- sync coalescing

  function Latest(m: Machine): Payload
    requires m.callbacks != []
  {
    m.callbacks[|m.callbacks| - 1]
  }

  /** Some claim happened after the latest callback, and it carried that callback's token. */
  predicate Covered(m: Machine)
    requires m.callbacks != []
  {
    exists t :: t in m.claims && m.claims[t] == Claim(|m.callbacks|, Latest(m))
  }

  predicate SyncInv(m: Machine) {
    && LeaseInv(m)
    && m.callbacks != []
    && m.row.payload == Latest(m)
    && (forall t :: t in m.claims ==> m.claims[t].seen <= |m.callbacks|)
    && (forall t :: t in m.claims && m.claims[t].seen == |m.callbacks| ==> m.claims[t].carried == Latest(m))
    && (m.row.status == Processing && !m.row.rerun ==> m.claims[m.row.lease.value].seen == |m.callbacks|)
    && (m.row.status == Done ==> Covered(m))
  }

  lemma SyncStep(m: Machine, e: Event)
    requires SyncInv(m) && Enabled(m, e) && m.row.kind == SyncTask
    ensures SyncInv(Apply(m, e)) && Apply(m, e).row.kind == SyncTask
  {
    LeaseStep(m, e);
    var n := Apply(m, e);
    if n.row.status == Done {
      if m.row.status == Done {
        var t :| t in m.claims && m.claims[t] == Claim(|m.callbacks|, Latest(m));
        assert t in n.claims && n.claims[t] == Claim(|n.callbacks|, Latest(n));
      } else {
        assert e.Complete? && HeldBy(m.row, Some(e.token));
        assert n.claims[e.token] == Claim(|n.callbacks|, Latest(n));
      }
    }
  }

  lemma {:induction false} SyncInvariant(m: Machine, es: seq<Event>)
    requires SyncInv(m) && Legal(m, es) && m.row.kind == SyncTask
    ensures SyncInv(Run(m, es))
    decreases |es|
  {
    if es != [] {
      SyncStep(m, es[0]);
      SyncInvariant(Apply(m, es[0]), es[1..]);
    }
  }

  /** No callback is lost by coalescing. A sync row is done only when a claim made after
      the latest callback carried its token; until such a claim exists the row is still
      waiting to be claimed, is dead and visible to the operator, or is being processed
      with a rerun already requested. */
  lemma NoCallbackLost(payload: Payload, now: int, timeout: nat, cfg: Retry, es: seq<Event>)
    requires Legal(Initial(SyncTask, payload, now, timeout, cfg), es)
    ensures var m := Run(Initial(SyncTask, payload, now, timeout, cfg), es);
            && m.callbacks != []
            && (m.row.status == Done ==> Covered(m))
            && (!Covered(m) ==>
                  || m.row.status == Pending
                  || m.row.status == Dead
                  || (m.row.status == Processing && m.row.rerun))
  {
    var m0 := Initial(SyncTask, payload, now, timeout, cfg);
    SyncInvariant(m0, es);
    var m := Run(m0, es);
    if m.row.status == Processing && !m.row.rerun {
      var t := m.row.lease.value;
      assert m.claims[t] == Claim(|m.callbacks|, Latest(m));
    }
  }
}
