/** Write-ahead of reply context: which token a reply to an accepted message goes out with. */
module BridgeContext {
  import opened Basics
  import opened BridgeRuntime

  /** The token a delivery sequence last brought for m since the session was cleared. */
  function LastDelivered(es: seq<Event>, m: string): Option<string> {
    if es == [] then None
    else match es[|es| - 1]
      case Assign(n, token) => if n == m then Some(token) else LastDelivered(es[..|es| - 1], m)
      case Expire(_) => None
      case _ => LastDelivered(es[..|es| - 1], m)
  }

  /** Every login names its account, as the iLink client insists (bridge/src/clawbot_bridge/ilink.py:327). */
  predicate Named(es: seq<Event>) {
    forall i :: 0 <= i < |es| && es[i].Login? ==> es[i].account != ""
  }

  /** The session on disk belongs to the one in memory, and nothing accepted is missing. */
  predicate SessionInv(s: Instance) {
    && (s.disk.Some? ==> s.disk.value.account != "")
    && (s.mem.Some? && s.mem.value.cred.Some? ==> s.mem.value.account != "")
    && (s.mem.Some? && s.mem.value.status == PendingLogin ==> s.disk == None && s.mem.value.cred == None)
    && (Monitoring(s) ==> s.disk.Some? && s.disk.value.cred == s.mem.value.cred.value)
    && (s.disk == None ==> s.last == map[] && Current(s) == map[])
    && (s.disk.Some? && s.mem.Some? ==> s.mem.value.cred == Some(s.disk.value.cred))
  }

  predicate TokenInv(s: Instance) {
    && s.accepted <= DiskTokens(s).Keys <= Current(s).Keys <= s.last.Keys && "" !in s.accepted
    && s.lost <= s.last.Keys
    && (forall m :: m in Current(s) ==> Current(s)[m] != "")
    && (forall m :: m in DiskTokens(s) ==> DiskTokens(s)[m] != "")
    && (forall m :: m in s.last ==> (m in s.lost <==> !Has(Current(s), m, s.last[m])))
    && (forall m :: m in s.lost ==> !Has(DiskTokens(s), m, s.last[m]))
  }

  predicate FlightInv(s: Instance) {
    s.flight.Some? ==>
      && Monitoring(s) && s.flight.value.msg in Current(s)
      && (s.flight.value.saved ==> s.flight.value.msg !in Behind(s))
  }

  predicate Inv(s: Instance) {
    SessionInv(s) && TokenInv(s) && FlightInv(s)
  }

  lemma StartStep(s: Instance, loginUp: bool, wrote: bool)
    requires Inv(s)
    ensures Inv(Started(s, loginUp, wrote))
  {
  }

  lemma StopStep(s: Instance, wrote: bool)
    requires Inv(s)
    ensures Inv(Stopped(s, wrote))
  {
  }

  lemma AssignStep(s: Instance, m: string, token: string)
    requires Inv(s) && Enabled(s, Assign(m, token))
    ensures Inv(Assigned(s, m, token))
  {
  }

  lemma SaveStep(s: Instance, wrote: bool)
    requires Inv(s) && Enabled(s, Save(wrote))
    ensures Inv(Saved(s, wrote))
  {
  }

  lemma CrashStep(s: Instance)
    requires Inv(s)
    ensures Inv(Apply(s, Crash))
  {
  }

  lemma LoginStep(s: Instance, cred: string, account: string, wrote: bool)
    requires Inv(s) && Enabled(s, Login(cred, account, wrote)) && account != ""
    ensures Inv(LoggedIn(s, cred, account, wrote))
  {
  }

  lemma StepKeeps(s: Instance, e: Event)
    requires Inv(s) && Enabled(s, e) && (e.Login? ==> e.account != "")
    ensures Inv(Apply(s, e))
  {
    match e
    case Start(loginUp, wrote) => StartStep(s, loginUp, wrote);
    case Login(cred, account, wrote) => LoginStep(s, cred, account, wrote);
    case Assign(m, token) => AssignStep(s, m, token);
    case Save(wrote) => SaveStep(s, wrote);
    case Stop(wrote) => StopStep(s, wrote);
    case Crash => CrashStep(s);
    case _ =>
  }

  lemma {:induction false} InvRun(es: seq<Event>)
    requires Legal(es) && Named(es)
    ensures Inv(Run(es))
    decreases |es|
  {
    if es != [] {
      InvRun(Front(es));
      StepKeeps(Run(Front(es)), es[|es| - 1]);
    }
  }

  lemma LastStep(s: Instance, e: Event, m: string)
    requires Enabled(s, e)
    ensures Lookup(Apply(s, e).last, m) ==
            match e
            case Assign(n, token) => if n == m then Some(token) else Lookup(s.last, m)
            case Expire(_) => None
            case _ => Lookup(s.last, m)
  {
  }

  lemma {:induction false} LastMatches(es: seq<Event>, m: string)
    requires Legal(es)
    ensures Lookup(Run(es).last, m) == LastDelivered(es, m)
    decreases |es|
  {
    if es != [] {
      LastMatches(Front(es), m);
      LastStep(Run(Front(es)), es[|es| - 1], m);
    }
  }

  /** A write of the session file raised, or the process died between a token reaching
      memory and the file being rewritten. */
  predicate Torn(s: Instance, e: Event) {
    e == Save(false) || (e.Crash? && s.flight.Some? && !s.flight.value.saved)
  }

  predicate Untorn(es: seq<Event>)
    requires Legal(es)
    decreases |es|
  {
    es == [] || (Untorn(Front(es)) && !Torn(Run(Front(es)), es[|es| - 1]))
  }

  predicate Calm(s: Instance) {
    && s.lost == {}
    && Behind(s) <= if s.flight.Some? && !s.flight.value.saved then {s.flight.value.msg} else {}
  }

  lemma CalmStep(s: Instance, e: Event)
    requires Inv(s) && Calm(s) && Enabled(s, e) && !Torn(s, e) && (e.Login? ==> e.account != "")
    ensures Calm(Apply(s, e))
  {
  }

  lemma {:induction false} CalmRun(es: seq<Event>)
    requires Legal(es) && Named(es) && Untorn(es)
    ensures Calm(Run(es))
    decreases |es|
  {
    if es != [] {
      InvRun(Front(es));
      CalmRun(Front(es));
      CalmStep(Run(Front(es)), es[|es| - 1]);
    }
  }

  /** After any history of deliveries, failures, crashes, stops and restores, a reply on the
      online instance to a message the gateway accepted always finds a context token. It is
      the one last delivered with the message exactly when that one was not lost with a
      dropped memory. */
  lemma ReplyFindsContext(es: seq<Event>, m: string)
    requires Legal(es) && Named(es)
    requires Monitoring(Run(es)) && m in Run(es).accepted
    ensures var r := Send(Run(es).mem, Some(m));
            && r.Sent? && Run(es).disk.Some? && r.cred == Run(es).disk.value.cred
            && (LastDelivered(es, m) == Some(r.token) <==> m !in Run(es).lost)
  {
    InvRun(es);
    LastMatches(es, m);
  }

  /** When no write raises and no crash falls between memory and disk, it is always the
      last delivered token. */
  lemma WriteAhead(es: seq<Event>, m: string)
    requires Legal(es) && Named(es) && Untorn(es)
    requires Monitoring(Run(es)) && m in Run(es).accepted
    ensures var r := Send(Run(es).mem, Some(m));
            r.Sent? && LastDelivered(es, m) == Some(r.token)
  {
    CalmRun(es);
    ReplyFindsContext(es, m);
  }

  /** A token is lost exactly when memory is dropped while the disk lacks it. */
  lemma LostOnlyBehind(s: Instance, e: Event, m: string)
    requires Inv(s) && Enabled(s, e) && m in s.last && m !in s.lost
    ensures m in Apply(s, e).lost <==>
            && m in Behind(s)
            && (e.Crash? || (e.Start? && s.mem.Some? && s.mem.value.status in {Offline, Failed} && s.disk.Some?))
  {
  }

  /** An accepted message delivered again with another token, torn by a crash, is answered
      after the restore with the token of the earlier delivery. */
  lemma TornRedelivery(es: seq<Event>, m: string, token: string)
    requires Legal(es) && Named(es) && Monitoring(Run(es)) && Run(es).flight == None
    requires m in Run(es).accepted && token != "" && !Has(DiskTokens(Run(es)), m, token)
    ensures var fs := es + [Assign(m, token)] + [Crash] + [Start(true, true)];
            && Legal(fs) && Monitoring(Run(fs)) && m in Run(fs).accepted
            && LastDelivered(fs, m) == Some(token)
            && Run(es).disk.Some? && m in DiskTokens(Run(es))
            && Send(Run(fs).mem, Some(m)) == Sent(Run(es).disk.value.cred, DiskTokens(Run(es))[m])
  {
    InvRun(es);
    RunSnoc(es, Assign(m, token));
    RunSnoc(es + [Assign(m, token)], Crash);
    RunSnoc(es + [Assign(m, token)] + [Crash], Start(true, true));
    var fs := es + [Assign(m, token)] + [Crash] + [Start(true, true)];
    LastMatches(fs, m);
  }

  /** What is on disk follows the account name, whatever the logins were. */
  predicate NameInv(s: Instance) {
    && (s.disk.Some? ==> s.disk.value.account != "")
    && (s.mem.Some? && s.mem.value.cred.Some? && s.mem.value.account == "" ==> s.disk == None)
    && (s.mem.Some? && s.mem.value.status == PendingLogin ==> s.disk == None && s.mem.value.cred == None)
    && (Monitoring(s) && s.mem.value.account != "" ==> s.disk.Some?)
  }

  lemma NameStep(s: Instance, e: Event)
    requires NameInv(s) && Enabled(s, e)
    ensures NameInv(Apply(s, e))
  {
  }

  lemma {:induction false} NameRun(es: seq<Event>)
    requires Legal(es)
    ensures NameInv(Run(es))
    decreases |es|
  {
    if es != [] {
      NameRun(Front(es));
      NameStep(Run(Front(es)), es[|es| - 1]);
    }
  }

  /** A running session has a file exactly when its login named an account. */
  lemma WrittenExactlyIfNamed(es: seq<Event>)
    requires Legal(es) && Monitoring(Run(es))
    ensures Run(es).disk.Some? <==> Run(es).mem.value.account != ""
  {
    NameRun(es);
  }

  /** So a restart of a session without an account name forgets every context. */
  lemma UnnamedForgets(es: seq<Event>, cred: string, account: string, m: string)
    requires Legal(es) && Monitoring(Run(es)) && Run(es).mem.value.account == ""
    ensures var fs := es + [Crash] + [Start(true, true)] + [Login(cred, account, true)];
            && Legal(fs) && Monitoring(Run(fs)) && Run(fs).accepted == Run(es).accepted
            && Send(Run(fs).mem, Some(m)) == NoContext
  {
    WrittenExactlyIfNamed(es);
    RunSnoc(es, Crash);
    RunSnoc(es + [Crash], Start(true, true));
    RunSnoc(es + [Crash] + [Start(true, true)], Login(cred, account, true));
  }

  lemma UnnamedAccepts()
    ensures exists es :: Legal(es) && Monitoring(Run(es)) && Run(es).mem.value.account == "" && "m" in Run(es).accepted
  {
    var e1 := [Start(true, true)];
    RunSnoc([], Start(true, true));
    RunSnoc(e1, Login("c", "", true));
    RunSnoc(e1 + [Login("c", "", true)], Assign("m", "t"));
    RunSnoc(e1 + [Login("c", "", true)] + [Assign("m", "t")], Save(true));
    var e4 := e1 + [Login("c", "", true)] + [Assign("m", "t")] + [Save(true)];
    RunSnoc(e4, Accept);
    assert Legal(e4 + [Accept]);
  }
}
