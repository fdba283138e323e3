/** The outbox operations that read a row and write it back
    (src/wecom_ai_gateway/tasks.py create_sync_task, complete_task, fail_task, replay_task).

    Leases takes each of them as one event. Here the read and the commit are two events and
    anything may come between: the commit writes, by id, the columns the operation changed in
    the row it had read. A commit that finds its row as it was read, but for a renewed lock,
    is the one event of Leases; the lemmas after that say exactly what the others do to
    the two promises of the table, that no callback is lost and that a late result does not
    touch a newer lease. */
module OutboxRaces {
  import opened Basics
  import opened Outbox
  import opened Leases

  type Session = nat

  /** What a session is about to commit, and the row it read. */
  datatype Open = Open(op: Leases.Event, before: Row)

  datatype Split = Split(m: Machine, open: map<Session, Open>)

  datatype Move =
    | Whole(e: Leases.Event)
    | Read(s: Session, op: Leases.Event)
    | Write(s: Session)

  /** The operations that are a select and an update by id. */
  predicate TwoSteps(e: Leases.Event) {
    e.Complete? || e.Fail? || e.Replay? || e.Callback?
  }

  /** The columns an operation changed from before to after, written over row. */
  function Overwrite(row: Row, before: Row, after: Row): Row {
    Row(row.kind,
        if after.payload != before.payload then after.payload else row.payload,
        if after.status != before.status then after.status else row.status,
        if after.attempts != before.attempts then after.attempts else row.attempts,
        if after.rerun != before.rerun then after.rerun else row.rerun,
        if after.availableAt != before.availableAt then after.availableAt else row.availableAt,
        if after.lockedAt != before.lockedAt then after.lockedAt else row.lockedAt,
        if after.lease != before.lease then after.lease else row.lease,
        if after.lastError != before.lastError then after.lastError else row.lastError)
  }

  /** The table as session i believes it to be. */
  function AsRead(s: Split, i: Session): Machine
    requires i in s.open
  {
    s.m.(row := s.open[i].before)
  }

  predicate CanMove(s: Split, v: Move) {
    match v
    case Whole(e) => !TwoSteps(e) && Leases.Enabled(s.m, e)
    case Read(i, op) => i !in s.open && TwoSteps(op) && Leases.Enabled(s.m, op)
    case Write(i) => i in s.open && TwoSteps(s.open[i].op) && Leases.Enabled(AsRead(s, i), s.open[i].op)
  }

  function Moved(s: Split, v: Move): Split
    requires CanMove(s, v)
  {
    match v
    case Whole(e) => s.(m := Leases.Apply(s.m, e))
    case Read(i, op) => s.(open := s.open[i := Open(op, s.m.row)])
    case Write(i) =>
      var done := Leases.Apply(AsRead(s, i), s.open[i].op);
      Split(done.(row := Overwrite(s.m.row, s.open[i].before, done.row)), s.open - {i})
  }

  predicate Possible(s: Split, vs: seq<Move>)
    decreases |vs|
  {
    vs == [] || (CanMove(s, vs[0]) && Possible(Moved(s, vs[0]), vs[1..]))
  }

  function After(s: Split, vs: seq<Move>): Split
    requires Possible(s, vs)
    decreases |vs|
  {
    if vs == [] then s else After(Moved(s, vs[0]), vs[1..])
  }

  // ------------------------------------------------------------- when nothing intervenes

  /** The row is as it was read, except that the lease may have been renewed. */
  predicate Undisturbed(s: Split, v: Move) {
    v.Write? && v.s in s.open ==> s.m.row.(lockedAt := s.open[v.s].before.lockedAt) == s.open[v.s].before
  }

  predicate UndisturbedRun(s: Split, vs: seq<Move>)
    requires Possible(s, vs)
    decreases |vs|
  {
    vs == [] || (Undisturbed(s, vs[0]) && UndisturbedRun(Moved(s, vs[0]), vs[1..]))
  }

  /** The run of Leases a run comes to: the reads go, and each commit is its operation. */
  function Fused(s: Split, vs: seq<Move>): seq<Leases.Event>
    requires Possible(s, vs)
    decreases |vs|
  {
    if vs == [] then []
    else
      var rest := Fused(Moved(s, vs[0]), vs[1..]);
      match vs[0]
      case Whole(e) => [e] + rest
      case Read(_, _) => rest
      case Write(i) => [s.open[i].op] + rest
  }

  /** Only a processing row has a lock; the row of a session was such a row. */
  predicate LocksAgree(s: Split) {
    forall i :: i in s.open ==> (s.open[i].before.lockedAt.Some? <==> s.open[i].before.status == Processing)
  }

  lemma UndisturbedWrite(s: Split, i: Session)
    requires CanMove(s, Write(i)) && Undisturbed(s, Write(i)) && LeaseInv(s.m) && LocksAgree(s)
    ensures Leases.Enabled(s.m, s.open[i].op)
    ensures Moved(s, Write(i)).m == Leases.Apply(s.m, s.open[i].op)
  {
    var before := s.open[i].before;
    assert s.m.row.lockedAt.Some? <==> before.lockedAt.Some?;
    match s.open[i].op
    case Callback(_) =>
    case Complete(t) => assert HeldBy(s.m.row, Some(t)) <==> HeldBy(before, Some(t));
    case Fail(t, _) => assert HeldBy(s.m.row, Some(t)) <==> HeldBy(before, Some(t));
    case Replay =>
  }

  /** When no commit finds its row disturbed, reading and writing apart changes nothing: the
      run ends as one of Leases does, and what is proved there holds. */
  lemma {:induction false} UndisturbedRefines(s: Split, vs: seq<Move>)
    requires Possible(s, vs) && UndisturbedRun(s, vs) && LeaseInv(s.m) && LocksAgree(s)
    ensures Leases.Legal(s.m, Fused(s, vs)) && Leases.Run(s.m, Fused(s, vs)) == After(s, vs).m
    decreases |vs|
  {
    if vs != [] {
      var n := Moved(s, vs[0]);
      var rest := Fused(n, vs[1..]);
      match vs[0]
      case Whole(e) =>
        LeaseStep(s.m, e);
        UndisturbedRefines(n, vs[1..]);
        assert ([e] + rest)[1..] == rest;
      case Read(_, _) => UndisturbedRefines(n, vs[1..]);
      case Write(i) =>
        UndisturbedWrite(s, i);
        LeaseStep(s.m, s.open[i].op);
        UndisturbedRefines(n, vs[1..]);
        assert ([s.open[i].op] + rest)[1..] == rest;
    }
  }

  // ---------------------------------------------------------------------- lost callbacks

  /** The row is done, and no claim has carried the latest callback's token. */
  predicate Lost(m: Machine) {
    m.callbacks != [] && m.row.status == Done && !Covered(m)
  }

  predicate SeenInv(m: Machine) {
    m.callbacks != [] && forall t :: t in m.claims ==> m.claims[t].seen <= |m.callbacks|
  }

  /** A completion commits "done" though it read no request to run again, after a callback no
      claim has carried; or a callback that read an unfinished row commits to a done one. */
  predicate Loses(s: Split, v: Move)
    requires s.m.callbacks != []
  {
    && v.Write? && v.s in s.open
    && var before := s.open[v.s].before;
       match s.open[v.s].op
       case Complete(t) =>
         HeldBy(before, Some(t)) && !(before.kind == SyncTask && before.rerun) && !Covered(s.m)
       case Callback(_) => before.status in {Pending, Processing} && s.m.row.status == Done
       case _ => false
  }

  lemma SameClaims(m: Machine, n: Machine)
    requires m.callbacks != [] && n.callbacks == m.callbacks && n.claims == m.claims
    ensures Covered(n) <==> Covered(m)
  {
    if Covered(m) {
      var t :| t in m.claims && m.claims[t] == Claim(|m.callbacks|, Latest(m));
      assert t in n.claims && n.claims[t] == Claim(|n.callbacks|, Latest(n));
    }
    if Covered(n) {
      var t :| t in n.claims && n.claims[t] == Claim(|n.callbacks|, Latest(n));
      assert t in m.claims && m.claims[t] == Claim(|m.callbacks|, Latest(m));
    }
  }

  lemma SeenStep(s: Split, v: Move)
    requires SeenInv(s.m) && CanMove(s, v)
    ensures SeenInv(Moved(s, v).m)
  {
  }

  /** A callback gets lost at exactly these two kinds of commit. */
  lemma LosesExactly(s: Split, v: Move)
    requires SeenInv(s.m) && CanMove(s, v) && !Lost(s.m)
    ensures Lost(Moved(s, v).m) <==> Loses(s, v)
  {
    var n := Moved(s, v).m;
    SeenStep(s, v);
    if n.callbacks == s.m.callbacks && n.claims == s.m.claims {
      SameClaims(s.m, n);
    }
    if v.Write? && s.open[v.s].op.Callback? {
      assert !Covered(n);
    }
  }

  predicate NeverLoses(s: Split, vs: seq<Move>)
    requires Possible(s, vs) && SeenInv(s.m)
    decreases |vs|
  {
    vs == [] || (
      SeenStep(s, vs[0]);
      !Loses(s, vs[0]) && NeverLoses(Moved(s, vs[0]), vs[1..]))
  }

  lemma {:induction false} NothingLost(s: Split, vs: seq<Move>)
    requires Possible(s, vs) && SeenInv(s.m) && !Lost(s.m) && NeverLoses(s, vs)
    ensures !Lost(After(s, vs).m)
    decreases |vs|
  {
    if vs != [] {
      SeenStep(s, vs[0]);
      LosesExactly(s, vs[0]);
      NothingLost(Moved(s, vs[0]), vs[1..]);
    }
  }

  // ---------------------------------------------------------------------- late results

  /** A result committed under token t while another holds the lease changes the row exactly
      if t was still the lease when the row was read. */
  lemma LateResultOverwrites(s: Split, i: Session, t: Token)
    requires CanMove(s, Write(i)) && (s.open[i].op.Complete? || s.open[i].op.Fail?) && s.open[i].op.token == t
    requires s.m.row.status == Processing && s.m.row.lease.Some? && s.m.row.lease != Some(t)
    ensures Moved(s, Write(i)).m.row == s.m.row <==> !HeldBy(s.open[i].before, Some(t))
    ensures HeldBy(s.open[i].before, Some(t)) ==> Moved(s, Write(i)).m.row.status != Processing
  {
  }

  // ------------------------------------------------------------------------- the cases

  function Fresh(payload: Payload, now: int, timeout: nat, cfg: Retry): Split {
    Split(Initial(SyncTask, payload, now, timeout, cfg), map[])
  }

  /** Undisturbed runs lose no callback. */
  lemma UndisturbedLosesNothing(payload: Payload, now: int, timeout: nat, cfg: Retry, vs: seq<Move>)
    requires Possible(Fresh(payload, now, timeout, cfg), vs)
    requires UndisturbedRun(Fresh(payload, now, timeout, cfg), vs)
    ensures !Lost(After(Fresh(payload, now, timeout, cfg), vs).m)
  {
    var s := Fresh(payload, now, timeout, cfg);
    UndisturbedRefines(s, vs);
    NoCallbackLost(payload, now, timeout, cfg, Fused(s, vs));
  }

  lemma OneMove(s: Split, v: Move, vs: seq<Move>)
    requires CanMove(s, v) && Possible(Moved(s, v), vs)
    ensures Possible(s, [v] + vs) && After(s, [v] + vs) == After(Moved(s, v), vs)
  {
    assert ([v] + vs)[1..] == vs;
  }

  function Claiming(token: Token): seq<Move> {
    [Whole(Leases.Select(0)), Whole(Leases.Update(0, token))]
  }

  /** The first claim of a fresh row. */
  lemma ClaimFresh(payload: Payload, now: int, timeout: nat, cfg: Retry, token: Token)
    ensures var s := Fresh(payload, now, timeout, cfg);
            && Possible(s, Claiming(token))
            && After(s, Claiming(token)).open == map[]
            && var m := After(s, Claiming(token)).m;
               && m == s.m.(row := Claimed(s.m.row, now, token), claims := map[token := Claim(1, payload)])
  {
    var s := Fresh(payload, now, timeout, cfg);
    var first, second := Whole(Leases.Select(0)), Whole(Leases.Update(0, token));
    var selected := Moved(s, first);
    OneMove(selected, second, []);
    OneMove(s, first, [second]);
    assert [first] + ([second] + []) == Claiming(token);
    assert selected.m.selects - {0} == map[];
  }

  lemma Continue(s: Split, vs: seq<Move>, more: seq<Move>)
    requires Possible(s, vs) && Possible(After(s, vs), more)
    ensures Possible(s, vs + more) && After(s, vs + more) == After(After(s, vs), more)
    decreases |vs|
  {
    if vs == [] {
      assert vs + more == more;
    } else {
      Continue(Moved(s, vs[0]), vs[1..], more);
      assert (vs + more)[1..] == vs[1..] + more;
    }
  }

  lemma FourMoves(s: Split, vs: seq<Move>)
    requires |vs| == 4 && CanMove(s, vs[0])
    requires CanMove(Moved(s, vs[0]), vs[1]) && CanMove(Moved(Moved(s, vs[0]), vs[1]), vs[2])
    requires CanMove(Moved(Moved(Moved(s, vs[0]), vs[1]), vs[2]), vs[3])
    ensures Possible(s, vs)
    ensures After(s, vs) == Moved(Moved(Moved(Moved(s, vs[0]), vs[1]), vs[2]), vs[3])
  {
    var s1 := Moved(s, vs[0]);
    var s2 := Moved(s1, vs[1]);
    var s3 := Moved(s2, vs[2]);
    OneMove(s3, vs[3], []);
    OneMove(s2, vs[2], [vs[3]]);
    OneMove(s1, vs[1], [vs[2], vs[3]]);
    OneMove(s, vs[0], [vs[1], vs[2], vs[3]]);
    assert [vs[3]] + [] == [vs[3]];
    assert [vs[2]] + [vs[3]] == [vs[2], vs[3]];
    assert [vs[1]] + [vs[2], vs[3]] == [vs[1], vs[2], vs[3]];
    assert [vs[0]] + [vs[1], vs[2], vs[3]] == vs;
  }

  /** A callback that comes whole between a completion's read and its commit is lost: the row
      ends done, with a rerun requested that nobody will look at. */
  lemma CallbackInsideCompletion(payload: Payload, called: Payload, now: int, timeout: nat, cfg: Retry)
    returns (vs: seq<Move>)
    ensures Possible(Fresh(payload, now, timeout, cfg), vs)
    ensures var m := After(Fresh(payload, now, timeout, cfg), vs).m;
            m.callbacks == [payload, called] && m.row.rerun && Lost(m)
  {
    var more := [Read(0, Leases.Complete(7)), Read(1, Leases.Callback(called)), Write(1), Write(0)];
    vs := Claiming(7) + more;
    ClaimFresh(payload, now, timeout, cfg, 7);
    var s := After(Fresh(payload, now, timeout, cfg), Claiming(7));
    FourMoves(s, more);
    Continue(Fresh(payload, now, timeout, cfg), Claiming(7), more);
  }

  /** So is one whose read and commit have a whole completion between them. */
  lemma CompletionInsideCallback(payload: Payload, called: Payload, now: int, timeout: nat, cfg: Retry)
    returns (vs: seq<Move>)
    ensures Possible(Fresh(payload, now, timeout, cfg), vs)
    ensures var m := After(Fresh(payload, now, timeout, cfg), vs).m;
            m.callbacks == [payload, called] && m.row.rerun && Lost(m)
  {
    var more := [Read(1, Leases.Callback(called)), Read(0, Leases.Complete(7)), Write(0), Write(1)];
    vs := Claiming(7) + more;
    ClaimFresh(payload, now, timeout, cfg, 7);
    var s := After(Fresh(payload, now, timeout, cfg), Claiming(7));
    FourMoves(s, more);
    Continue(Fresh(payload, now, timeout, cfg), Claiming(7), more);
  }

  /** A worker reads its task to complete it, loses the lease, and then ends the task of the
      worker that took over. */
  lemma LateResultEndsNewerLease(payload: Payload, now: int, timeout: nat, cfg: Retry) returns (vs: seq<Move>)
    ensures Possible(Fresh(payload, now, timeout, cfg), vs)
    ensures Possible(Fresh(payload, now, timeout, cfg), vs + [Write(0)])
    ensures After(Fresh(payload, now, timeout, cfg), vs).m.row.lease == Some(8)
    ensures var row := After(Fresh(payload, now, timeout, cfg), vs + [Write(0)]).m.row;
            row.status == Done && row.lease == None
  {
    var more := [Read(0, Leases.Complete(7)), Whole(Leases.Tick(now + timeout + 1))] + Claiming(8);
    vs := Claiming(7) + more;
    ClaimFresh(payload, now, timeout, cfg, 7);
    var s := After(Fresh(payload, now, timeout, cfg), Claiming(7));
    FourMoves(s, more);
    var taken := After(s, more);
    OneMove(taken, Write(0), []);
    assert [Write(0)] + [] == [Write(0)];
    Continue(Fresh(payload, now, timeout, cfg), Claiming(7), more);
    Continue(Fresh(payload, now, timeout, cfg), vs, [Write(0)]);
  }
}
