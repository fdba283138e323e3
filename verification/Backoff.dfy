/** Exponential backoff of a task that never succeeds
    (src/wecom_ai_gateway/tasks.py, fail_task). */
module Backoff {
  import opened Basics
  import opened Outbox
  import opened Leases

  predicate Positive(cfg: Retry) {
    cfg.maxAttempts >= 1 && cfg.base >= 1 && cfg.cap >= 1
  }

  /** No success, operator replay or new callback interrupts the failures. */
  predicate OnlyFails(es: seq<Event>) {
    forall i :: 0 <= i < |es| ==> !es[i].Complete? && !es[i].Replay? && !es[i].Callback?
  }

  function Sum(s: seq<int>): int {
    if s == [] then 0 else Sum(s[..|s| - 1]) + s[|s| - 1]
  }

  /** The waits imposed after failures 1 to n. */
  function Schedule(cfg: Retry, n: nat): seq<int> {
    seq(n, i requires 0 <= i => Delay(cfg, i + 1))
  }

  /** The doubling delay after the n-th failure is not cut off by the cap. */
  predicate Uncapped(cfg: Retry, n: nat)
    requires n >= 1
  {
    cfg.base * Pow2(n - 1) <= cfg.cap
  }

  /** How many of the failures 1 to n wait for the uncapped, doubling delay. */
  function Doublings(cfg: Retry, n: nat): nat {
    if n == 0 then 0
    else Doublings(cfg, n - 1) + if Uncapped(cfg, n) then 1 else 0
  }

  predicate FailingInv(m: Machine) {
    && m.row.attempts == |m.outcomes|
    && |m.outcomes| <= m.cfg.maxAttempts
    && (m.row.status == Dead <==> |m.outcomes| == m.cfg.maxAttempts)
    && m.row.status != Done
    && m.waits == Schedule(m.cfg, if m.row.status == Dead && m.outcomes != [] then |m.outcomes| - 1 else |m.outcomes|)
  }

  lemma {:induction false} FailingRun(m: Machine, es: seq<Event>)
    requires Positive(m.cfg) && LeaseInv(m) && FailingInv(m)
    requires Legal(m, es) && OnlyFails(es)
    ensures FailingInv(Run(m, es)) && Run(m, es).cfg == m.cfg
    decreases |es|
  {
    if es != [] {
      LeaseStep(m, es[0]);
      var n := Apply(m, es[0]);
      assert FailingInv(n) by {
        if es[0].Fail? && n.row.status == Pending && HeldBy(m.row, Some(es[0].token)) {
          assert n.waits == m.waits + [Delay(m.cfg, n.row.attempts)];
        }
      }
      FailingRun(n, es[1..]);
    }
  }

  lemma {:induction false} PowGrows(a: nat, b: nat)
    requires a <= b
    ensures 1 <= Pow2(a) <= Pow2(b)
  {
    if b > 0 {
      if a < b { PowGrows(a, b - 1); } else { PowGrows(a - 1, b - 1); }
    }
  }

  lemma DelaysGrow(cfg: Retry, a: nat, b: nat)
    requires Positive(cfg) && 1 <= a <= b
    ensures 1 <= Delay(cfg, a) <= Delay(cfg, b) <= cfg.cap
  {
    PowGrows(a - 1, b - 1);
    assert 1 <= cfg.base * Pow2(a - 1) <= cfg.base * Pow2(b - 1);
  }

  lemma UncappedBefore(cfg: Retry, k: nat, n: nat)
    requires Positive(cfg) && 1 <= k <= n && Uncapped(cfg, n)
    ensures Uncapped(cfg, k)
  {
    PowGrows(k - 1, n - 1);
    assert cfg.base * Pow2(k - 1) <= cfg.base * Pow2(n - 1);
  }

  /** The delays double until they meet the cap, so the uncapped ones come first. */
  lemma {:induction false} DoublingsComeFirst(cfg: Retry, n: nat)
    requires Positive(cfg)
    ensures Doublings(cfg, n) <= n
    ensures forall k: nat :: 1 <= k <= n ==> (Uncapped(cfg, k) <==> k <= Doublings(cfg, n))
  {
    if n > 0 {
      DoublingsComeFirst(cfg, n - 1);
      if n >= 2 && Uncapped(cfg, n) {
        UncappedBefore(cfg, n - 1, n);
      }
    }
  }

  /** The geometric sum of s doubling waits, and the cap for the other n - s. */
  function Total(cfg: Retry, n: nat, s: nat): int {
    cfg.base * (Pow2(s) - 1) + (n - s) * cfg.cap
  }

  lemma TotalStep(cfg: Retry, n: nat, s: nat)
    ensures Total(cfg, n + 1, s) == Total(cfg, n, s) + cfg.cap
    ensures Total(cfg, n + 1, n + 1) == Total(cfg, n, n) + cfg.base * Pow2(n)
  {
    var b, c, p := cfg.base, cfg.cap, Pow2(n);
    assert (n + 1 - s) * c == (n - s) * c + c;
    assert b * (2 * p - 1) == b * (p - 1) + b * p;
  }

  lemma {:induction false} ScheduleTotal(cfg: Retry, n: nat)
    requires Positive(cfg)
    ensures Sum(Schedule(cfg, n)) == Total(cfg, n, Doublings(cfg, n))
  {
    if n > 0 {
      ScheduleTotal(cfg, n - 1);
      DoublingsComeFirst(cfg, n);
      assert Schedule(cfg, n)[..n - 1] == Schedule(cfg, n - 1);
      assert Sum(Schedule(cfg, n)) == Sum(Schedule(cfg, n - 1)) + Delay(cfg, n);
      TotalStep(cfg, n - 1, Doublings(cfg, n - 1));
      assert Uncapped(cfg, n) ==> Doublings(cfg, n - 1) == n - 1;
    }
  }

  /** A task that always fails, under any interleaving of claims, renewals and stale
      takeovers, is dead exactly when maxAttempts failures have been accepted. The waits
      between them never shrink and never exceed the cap, and their total is the
      geometric sum of the uncapped ones plus the cap for each of the others. */
  lemma DiesAtLastAttempt(kind: Kind, payload: Payload, now: int, timeout: nat, cfg: Retry, es: seq<Event>)
    requires Positive(cfg)
    requires Legal(Initial(kind, payload, now, timeout, cfg), es) && OnlyFails(es)
    ensures var m := Run(Initial(kind, payload, now, timeout, cfg), es);
            var s := Doublings(cfg, cfg.maxAttempts - 1);
            && |m.outcomes| <= cfg.maxAttempts
            && (m.row.status == Dead <==> |m.outcomes| == cfg.maxAttempts)
            && (forall i, j :: 0 <= i <= j < |m.waits| ==> 1 <= m.waits[i] <= m.waits[j] <= cfg.cap)
            && (m.row.status == Dead ==>
                  Sum(m.waits) == cfg.base * (Pow2(s) - 1) + (cfg.maxAttempts - 1 - s) * cfg.cap)
  {
    var m0 := Initial(kind, payload, now, timeout, cfg);
    FailingRun(m0, es);
    var m := Run(m0, es);
    forall i, j | 0 <= i <= j < |m.waits|
      ensures 1 <= m.waits[i] <= m.waits[j] <= cfg.cap
    {
      DelaysGrow(cfg, i + 1, j + 1);
    }
    ScheduleTotal(cfg, cfg.maxAttempts - 1);
  }
}
