/** One ClawBot instance across crashes, stops and restores
    (bridge/src/clawbot_bridge/runtime.py, state.py).

    The encrypted session file survives a crash, the InstanceState in memory does not. A
    delivered message's context token is put in memory, the session file is rewritten, and
    only then is the message forwarded to the gateway. */
module BridgeRuntime {
  import opened Basics

  type Tokens = map<string, string>

  datatype Stored = Stored(cred: string, account: string, tokens: Tokens, desired: bool)

  datatype Status = PendingLogin | Online | Offline | Failed

  datatype Memory = Memory(status: Status, cred: Option<string>, account: string, tokens: Tokens, desired: bool)

  /** A delivery inside on_message: its token is in memory, and maybe already saved. */
  datatype Flight = Flight(msg: string, saved: bool)

  /** History of the session: last gives the token each message was last delivered with,
      accepted the messages the gateway took, and lost the messages whose last token was
      gone when memory was dropped. */
  datatype Instance = Instance(
    disk: Option<Stored>,
    mem: Option<Memory>,
    flight: Option<Flight>,
    last: Tokens,
    lost: set<string>,
    accepted: set<string>)

  /** wrote says whether writing the session file succeeds or raises. */
  datatype Event =
    | Start(loginUp: bool, wrote: bool)
    | Login(cred: string, account: string, wrote: bool)
    | LoginEnds(next: Status)
    | Assign(msg: string, token: string)
    | Save(wrote: bool)
    | Accept
    | Forwarded(ok: bool)
    | MonitorFails
    | Expire(next: Status)
    | Stop(wrote: bool)
    | Crash

  const FRESH := Instance(None, None, None, map[], {}, {})

  predicate Has(ts: Tokens, m: string, token: string) {
    m in ts && ts[m] == token
  }

  function DiskTokens(s: Instance): Tokens {
    if s.disk.Some? then s.disk.value.tokens else map[]
  }

  /** The tokens in force: those in memory, or those a restore would load. */
  function Current(s: Instance): Tokens {
    if s.mem.Some? then s.mem.value.tokens else DiskTokens(s)
  }

  /** The messages whose token in memory is not on disk. */
  function Behind(s: Instance): set<string> {
    set m | m in Current(s) && !Has(DiskTokens(s), m, Current(s)[m])
  }

  /** _save_state: nothing is written without credentials or an account name. */
  function Written(disk: Option<Stored>, mem: Memory, wrote: bool): Option<Stored> {
    if wrote && mem.cred.Some? && mem.account != "" then
      Some(Stored(mem.cred.value, mem.account, mem.tokens, mem.desired))
    else
      disk
  }

  function Started(s: Instance, loginUp: bool, wrote: bool): Instance {
    if s.mem.Some? && s.mem.value.status in {PendingLogin, Online} then s
    else if s.disk.Some? then
      var mem := Memory(Online, Some(s.disk.value.cred), s.disk.value.account, s.disk.value.tokens, true);
      s.(mem := Some(mem), disk := Written(s.disk, mem, wrote), flight := None, lost := s.lost + Behind(s))
    else if loginUp then
      s.(mem := Some(Memory(PendingLogin, None, "", map[], true)), flight := None, lost := s.lost + Behind(s))
    else s
  }

  function Stopped(s: Instance, wrote: bool): Instance {
    if s.mem == None then
      if s.disk.Some? && wrote then s.(disk := Some(s.disk.value.(desired := false))) else s
    else
      var mem := s.mem.value.(desired := false);
      if wrote then
        s.(mem := Some(mem.(status := Offline)), disk := Written(s.disk, mem, true), flight := None)
      else if mem.cred.Some? && mem.account != "" then
        s.(mem := Some(mem))
      else
        s.(mem := Some(mem.(status := Offline)), flight := None)
  }

  predicate Monitoring(s: Instance) {
    s.mem.Some? && s.mem.value.status == Online && s.mem.value.cred.Some?
  }

  predicate Enabled(s: Instance, e: Event) {
    match e
    case Start(_, _) => true
    case Login(_, _, _) => s.mem.Some? && s.mem.value.status == PendingLogin
    case LoginEnds(next) => s.mem.Some? && s.mem.value.status == PendingLogin && next in {PendingLogin, Failed}
    case Assign(_, token) => Monitoring(s) && s.flight == None && token != ""
    case Save(_) => Monitoring(s) && s.flight.Some? && !s.flight.value.saved
    // The gateway refuses a message without an external id (src/wecom_ai_gateway/services.py:192).
    case Accept => Monitoring(s) && s.flight.Some? && s.flight.value.saved && s.flight.value.msg != ""
    case Forwarded(_) => Monitoring(s) && s.flight.Some? && s.flight.value.saved
    case MonitorFails => Monitoring(s) && s.flight == None
    case Expire(next) => Monitoring(s) && s.flight == None && next in {PendingLogin, Online, Offline}
    case Stop(_) => s.flight.Some? ==> s.flight.value.saved
    case Crash => true
  }

  function LoggedIn(s: Instance, cred: string, account: string, wrote: bool): Instance
    requires s.mem.Some?
  {
    var mem := s.mem.value.(status := Online, cred := Some(cred), account := account);
    if wrote || account == "" then
      s.(mem := Some(mem), disk := Written(s.disk, mem, true))
    else
      s.(mem := Some(mem.(status := Failed)))
  }

  function Assigned(s: Instance, m: string, token: string): Instance
    requires s.mem.Some?
  {
    s.(mem := Some(s.mem.value.(tokens := s.mem.value.tokens[m := token])),
       flight := Some(Flight(m, false)), last := s.last[m := token], lost := s.lost - {m})
  }

  function Saved(s: Instance, wrote: bool): Instance
    requires s.mem.Some? && s.flight.Some?
  {
    if wrote || s.mem.value.cred == None || s.mem.value.account == "" then
      s.(disk := Written(s.disk, s.mem.value, true), flight := Some(s.flight.value.(saved := true)))
    else
      s.(mem := Some(s.mem.value.(status := Failed)), flight := None)
  }

  function Apply(s: Instance, e: Event): Instance
    requires Enabled(s, e)
  {
    match e
    case Start(loginUp, wrote) => Started(s, loginUp, wrote)
    case Login(cred, account, wrote) => LoggedIn(s, cred, account, wrote)
    case LoginEnds(next) => s.(mem := Some(s.mem.value.(status := next)))
    case Assign(m, token) => Assigned(s, m, token)
    case Save(wrote) => Saved(s, wrote)
    case Accept => s.(accepted := s.accepted + {s.flight.value.msg})
    case Forwarded(ok) =>
      s.(flight := None, mem := Some(s.mem.value.(status := if ok then Online else Failed)))
    case MonitorFails => s.(mem := Some(s.mem.value.(status := Failed)))
    case Expire(next) => FRESH.(mem := Some(Memory(next, None, "", map[], s.mem.value.desired)))
    case Stop(wrote) => Stopped(s, wrote)
    case Crash => s.(mem := None, flight := None, lost := s.lost + Behind(s))
  }

  function Front(es: seq<Event>): seq<Event>
    requires es != []
  {
    es[..|es| - 1]
  }

  predicate Legal(es: seq<Event>)
    decreases |es|, 0
  {
    es == [] || (Legal(Front(es)) && Enabled(Run(Front(es)), es[|es| - 1]))
  }

  /** The state after a whole history of the instance. */
  function Run(es: seq<Event>): Instance
    requires Legal(es)
    decreases |es|, 1
  {
    if es == [] then FRESH else Apply(Run(Front(es)), es[|es| - 1])
  }

  lemma RunSnoc(es: seq<Event>, e: Event)
    requires Legal(es) && Enabled(Run(es), e)
    ensures Legal(es + [e]) && Run(es + [e]) == Apply(Run(es), e)
  {
    assert Front(es + [e]) == es;
  }

  datatype Reply = Sent(cred: string, token: string) | NotOnline | NoContext

  /** send: the credentials and context token an outgoing reply goes out with. */
  function Send(mem: Option<Memory>, replyTo: Option<string>): Reply {
    if mem == None || mem.value.status != Online || mem.value.cred == None then NotOnline
    else if replyTo.Some? && replyTo.value != "" && replyTo.value in mem.value.tokens
            && mem.value.tokens[replyTo.value] != "" then
      Sent(mem.value.cred.value, mem.value.tokens[replyTo.value])
    else NoContext
  }
}
