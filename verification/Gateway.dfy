/** process_message and its merge helpers as code over the message table
    (src/wecom_ai_gateway/services.py:406-733, 1268-1424).

    Every committed transaction and every external send is matched, as it happens, with
    one event of the pipeline machine, so whatever holds in every run of that machine
    holds of this code, also when it is cut off after any commit. The scripts say which
    events those are, and so what the code does to the message table. */
module Gateway {
  import opened Basics
  import opened Text
  import opened SplitReply
  import opened Pipeline
  import opened PipelineSafety

  /** What the user's message turns out to ask for. */
  datatype Plan =
    | AccountOrBind(text: string)
    | Qr(text: string)
    | SilentlyIgnored
    | DirectAnswer(text: string)
    | AskModel(answer: Option<string>)

  datatype SendOutcome = Delivered | DeliveredThenRaised | Lost

  /** A row while the siblings are being marked: untouched, seized, or seized and marked. */
  function Marking(m: Msg, main: MsgId, sibling: bool, waiting: bool): Msg {
    if !sibling then m
    else if waiting then m.(status := Processing)
    else m.(status := Processing, mergedInto := Some(main))
  }

  /** All rows while the siblings in todo wait to be marked. */
  function Marks(rows: map<MsgId, Msg>, main: MsgId, siblings: set<MsgId>, todo: set<MsgId>): map<MsgId, Msg> {
    map x | x in rows :: Marking(rows[x], main, x in siblings, x in todo)
  }

  lemma MarkOne(rows: map<MsgId, Msg>, main: MsgId, siblings: set<MsgId>, todo: set<MsgId>, x: MsgId)
    requires x in todo && x in siblings && x in rows
    ensures var marks := Marks(rows, main, siblings, todo);
            marks[x := marks[x].(mergedInto := Some(main))] == Marks(rows, main, siblings, todo - {x})
  {
  }

  /** The outside world: what each send does, and what else raises. The account and identity
      lookups stand behind the fence of a command or QR reply and before that of the main
      path; the main path looks up its chunk limit and adapter behind its fence. */
  datatype World = World(
    send: nat -> SendOutcome,
    lookupRaises: bool,
    adapterRaises: bool,
    mediaRaises: bool,
    releaseRaises: bool,
    restoreRaises: bool)

  // ------------------------------------------------------------------- the scripts

  /** The events es lead the machine from m0 to m1. */
  ghost predicate Ran(m0: State, es: seq<Event>, m1: State) {
    Legal(m0, es) && Run(m0, es) == m1
  }

  lemma RanOne(m: State, e: Event)
    requires Enabled(m, e)
    ensures Ran(m, [e], Apply(m, e))
  {
    Extend(m, [], m, e);
    assert [] + [e] == [e];
  }

  lemma RanCat(m0: State, es: seq<Event>, m1: State, fs: seq<Event>, m2: State)
    requires Ran(m0, es, m1) && Ran(m1, fs, m2)
    ensures Ran(m0, es + fs, m2)
  {
    RunCat(m0, es, fs);
  }

  /** What holds in every run of the machine holds of what the code does. */
  lemma RanKeeps(m0: State, es: seq<Event>, m1: State)
    requires Inv(m0) && Ran(m0, es, m1)
    ensures Inv(m1)
  {
    InvRun(m0, es);
  }

  /** Sending chunks i to n - 1: it stops at the first send that raises. */
  function Sends(t: Token, n: nat, i: nat, world: World): seq<Event>
    decreases n - i
  {
    if i >= n then []
    else
      [Send(t, world.send(i) != Lost, world.send(i) != Delivered)]
      + if world.send(i) == Delivered then Sends(t, n, i + 1, world) else []
  }

  predicate AllDelivered(n: nat, i: nat, world: World)
    decreases n - i
  {
    i >= n || (world.send(i) == Delivered && AllDelivered(n, i + 1, world))
  }

  /** Chunk j is attempted exactly when every chunk before it was delivered cleanly, in its
      turn and with the outcome the world has for it; nothing is attempted twice. */
  lemma {:induction false} SendsMean(t: Token, n: nat, i: nat, j: nat, world: World)
    requires i <= j < n
    ensures |Sends(t, n, i, world)| <= n - i
    ensures j - i < |Sends(t, n, i, world)| <==> forall k :: i <= k < j ==> world.send(k) == Delivered
    ensures j - i < |Sends(t, n, i, world)| ==>
      Sends(t, n, i, world)[j - i] == Send(t, world.send(j) != Lost, world.send(j) != Delivered)
    decreases n - i
  {
    if i < j && world.send(i) == Delivered {
      SendsMean(t, n, i + 1, j, world);
    } else if i + 1 < n && world.send(i) == Delivered {
      SendsMean(t, n, i + 1, i + 1, world);
    }
  }

  /** No send raises exactly when each is clean. */
  lemma {:induction false} AllDeliveredMeans(n: nat, i: nat, world: World)
    ensures AllDelivered(n, i, world) <==> forall k :: i <= k < n ==> world.send(k) == Delivered
    decreases n - i
  {
    if i < n {
      AllDeliveredMeans(n, i + 1, world);
    }
  }

  /** How many of chunks i to n - 1 reach the user, counted from 0: all before the first that
      is not delivered cleanly, and that one if it raised only after its delivery. */
  function Heard(n: nat, i: nat, world: World): (h: nat)
    requires i <= n
    ensures i <= h <= n
    ensures forall k :: i <= k < h - 1 ==> world.send(k) == Delivered
    ensures h > i ==> world.send(h - 1) != Lost
    ensures h < n ==> world.send(h) == Lost || (h > i && world.send(h - 1) == DeliveredThenRaised)
    decreases n - i
  {
    if i == n || world.send(i) == Lost then i
    else if world.send(i) == DeliveredThenRaised then i + 1
    else Heard(n, i + 1, world)
  }

  /** With every chunk before i delivered cleanly, chunk i is the next event, and the last one
      if it raises. */
  lemma {:induction false} SendsUpTo(t: Token, n: nat, i: nat, j: nat, world: World)
    requires j <= i < n && forall k :: j <= k < i ==> world.send(k) == Delivered
    ensures Sends(t, i + 1, j, world)
         == Sends(t, i, j, world) + [Send(t, world.send(i) != Lost, world.send(i) != Delivered)]
    ensures world.send(i) != Delivered ==>
      && Sends(t, n, j, world) == Sends(t, i + 1, j, world) && !AllDelivered(n, j, world)
      && Heard(n, j, world) == if world.send(i) == Lost then i else i + 1
    decreases i - j
  {
    if j < i {
      SendsUpTo(t, n, i, j + 1, world);
    }
  }

  lemma {:induction false} AllHeard(n: nat, j: nat, world: World)
    requires j <= n && forall k :: j <= k < n ==> world.send(k) == Delivered
    ensures Heard(n, j, world) == n && AllDelivered(n, j, world)
    decreases n - j
  {
    if j < n {
      AllHeard(n, j + 1, world);
    }
  }

  /** A script and whether it ends without an exception. */
  datatype Script = Script(events: seq<Event>, ok: bool)

  /** What is looked up only behind the fence. */
  predicate BehindFence(path: Path, world: World) {
    if path == Reply then world.adapterRaises else world.lookupRaises
  }

  /** From the fence on. */
  function Delivery(t: Token, path: Path, n: nat, world: World): Script {
    if BehindFence(path, world) then Script([Raise(t)], false)
    else if !AllDelivered(n, 0, world) then Script(Sends(t, n, 0, world), false)
    else if path == Reply && world.mediaRaises then Script(Sends(t, n, 0, world) + [Raise(t)], false)
    else Script(Sends(t, n, 0, world) + [Finish(t)], true)
  }

  /** A blank answer and a fence that says "started" stop a dispatch before it sends. */
  predicate Stopped(fence: Fence, path: Path, text: string) {
    (path == Reply && Strip(text, WHITESPACE) == []) || fence == Started
  }

  function Body(path: Path, text: string): string {
    if path == Reply then Strip(text, WHITESPACE) else text
  }

  function Dispatching(fence: Fence, t: Token, path: Path, text: string, limit: nat, world: World): Script
    requires limit >= 1
  {
    var fenced := [StartDispatch(t, path, text, limit)];
    if Stopped(fence, path, text) then Script(fenced, false)
    else
      var rest := Delivery(t, path, |ChunksFor(path, Body(path, text), limit)|, world);
      Script(fenced + rest.events, rest.ok)
  }

  /** The channel lookups come before the fence; no answer means the model raised. */
  function Replying(fence: Fence, t: Token, answer: Option<string>, limit: nat, world: World): Script
    requires limit >= 1
  {
    if answer == None || world.lookupRaises then Script([Raise(t)], false)
    else Dispatching(fence, t, Reply, answer.value, limit, world)
  }

  /** The try block. Only a question for the model merges waiting siblings first. */
  function Answering(fence: Fence, t: Token, plan: Plan, picked: set<MsgId>, limit: nat, world: World): Script
    requires limit >= 1
  {
    match plan
    case AccountOrBind(text) => Dispatching(fence, t, Command, text, limit, world)
    case Qr(text) => Dispatching(fence, t, QrCode, text, limit, world)
    case SilentlyIgnored => Script([Ignore(t)], true)
    case DirectAnswer(text) => Replying(fence, t, Some(text), limit, world)
    case AskModel(answer) =>
      var rest := Replying(fence, t, answer, limit, world);
      Script([Merge(t, picked)] + rest.events, rest.ok)
  }

  function Recovery(t: Token, world: World): seq<Event> {
    [Handle(t)] + [Restore(t, !world.restoreRaises)]
  }

  function ReleaseScript(t: Token, world: World): Script {
    if world.releaseRaises then Script([Raise(t)] + Recovery(t, world), false) else Script([Release(t)], true)
  }

  /** Status and merge mark let the message be taken up for its own reply. */
  predicate Takeable(m: Msg) {
    m.status in {Queued, Failed, Processing} && m.mergedInto == None
  }

  function PathOf(plan: Plan): Path {
    if plan.AccountOrBind? then Command else if plan.Qr? then QrCode else Reply
  }

  predicate Replies(plan: Plan) {
    plan.DirectAnswer? || plan.AskModel?
  }

  /** What follows the try block: the recovery, or the release after a reply. */
  function Ending(t: Token, plan: Plan, tried: bool, world: World): Script {
    if !tried then Script(Recovery(t, world), false)
    else if Replies(plan) then ReleaseScript(t, world)
    else Script([], true)
  }

  /** The run of a message that was taken up. */
  function Taken(fence: Fence, t: Token, plan: Plan, picked: set<MsgId>, limit: nat, world: World): Script
    requires limit >= 1
  {
    var tried := Answering(fence, t, plan, picked, limit, world);
    var ending := Ending(t, plan, tried.ok, world);
    Script(tried.events + ending.events, ending.ok)
  }

  /** One run of process_message on row m. */
  function WholeRun(m: Msg, t: Token, plan: Plan, picked: set<MsgId>, limit: nat, world: World): Script
    requires limit >= 1
  {
    if !Takeable(m) then Script([Begin(t)], true)
    else
      var rest := Taken(m.fence, t, plan, picked, limit, world);
      Script([Begin(t)] + rest.events, rest.ok)
  }

  lemma EarliestExists(rows: map<MsgId, Msg>, pool: set<MsgId>)
    requires pool != {} && forall x :: x in pool ==> x in rows
    ensures exists x :: x in pool && forall y :: y in pool ==> rows[x].createdAt <= rows[y].createdAt
    decreases pool
  {
    var x :| x in pool;
    if pool != {x} {
      EarliestExists(rows, pool - {x});
      var z :| z in pool - {x} && forall y :: y in pool - {x} ==> rows[z].createdAt <= rows[y].createdAt;
      var best := if rows[x].createdAt <= rows[z].createdAt then x else z;
      assert forall y :: y in pool ==> rows[best].createdAt <= rows[y].createdAt;
    }
  }

  // ------------------------------------------------------- what becomes of the rows

  /** The messages other than x keep what they have dispatched. */
  predicate Elsewhere(a: map<MsgId, Msg>, b: map<MsgId, Msg>, x: MsgId) {
    a.Keys == b.Keys && forall y :: y in a && y != x ==> b[y].log == a[y].log
  }

  /** No row but that of x differs, except that the picked siblings are seized and marked. */
  predicate Marked(a: map<MsgId, Msg>, b: map<MsgId, Msg>, x: MsgId, picked: set<MsgId>) {
    && a.Keys == b.Keys
    && forall y :: y in a && y != x ==>
         b[y] == if y in picked then a[y].(status := Processing, mergedInto := Some(x)) else a[y]
  }

  predicate OnlyRow(a: map<MsgId, Msg>, b: map<MsgId, Msg>, x: MsgId) {
    a.Keys == b.Keys && forall y :: y in a && y != x ==> b[y] == a[y]
  }

  /** The row with another record of what its last dispatch has sent. */
  function WithSent(m: Msg, sent: seq<string>): Msg
    requires m.log != []
  {
    m.(log := m.log[..|m.log| - 1] + [m.log[|m.log| - 1].(sent := sent)])
  }

  lemma SentAgain(m: Msg, s: seq<string>, t: seq<string>)
    requires m.log != []
    ensures WithSent(m, s).log != [] && WithSent(WithSent(m, s), t) == WithSent(m, t)
    ensures WithSent(m, m.log[|m.log| - 1].sent) == m
  {
    assert WithSent(m, m.log[|m.log| - 1].sent).log == m.log;
  }

  /** The last dispatch has these chunks, of which the first i went out. */
  predicate Underway(m: Msg, chunks: seq<string>, i: nat)
    requires i <= |chunks|
  {
    m.log != [] && m.log[|m.log| - 1].chunks == chunks && m.log[|m.log| - 1].sent == chunks[..i]
  }

  /** A reply went out whole and is committed as sent. The QR path leaves its fence up. */
  predicate Closed(m: Msg, path: Path) {
    && m.status == Sent && m.log != [] && Complete(m.log[|m.log| - 1])
    && m.fence == if path == QrCode then Started else FenceSent
  }

  /** Behind the fence nothing raises: no lookup, no send, no media. */
  ghost predicate Smooth(path: Path, n: nat, world: World) {
    && (if path == Reply then !world.adapterRaises && !world.mediaRaises else !world.lookupRaises)
    && forall k :: 0 <= k < n ==> world.send(k) == Delivered
  }

  /** A dispatch of text takes row m to row n. A raised fence and an empty reply leave the row
      alone; otherwise the fence goes up, the chunks of the text are put on record with those
      that reached the user, and if nothing raised the row is sent. */
  ghost predicate Spoken(m: Msg, n: Msg, path: Path, text: string, limit: nat, world: World, ok: bool)
    requires limit >= 1
  {
    var chunks := if path == Reply then ReplyChunks(text, limit, WHITESPACE) else [text];
    if m.fence == Started || (path == Reply && text == "") then !ok && n == m
    else if Smooth(path, |chunks|, world) then
      && ok
      && n == m.(status := Sent, fence := if path == QrCode then Started else FenceSent,
                 log := m.log + [Dispatch(path, text, limit, chunks, chunks)])
    else
      var heard := if BehindFence(path, world) then 0 else Heard(|chunks|, 0, world);
      && !ok
      && n == m.(fence := Started, log := m.log + [Dispatch(path, text, limit, chunks, chunks[..heard])])
  }

  /** The main path: the model may have raised, and so may the lookups before the fence. */
  ghost predicate Replied(m: Msg, n: Msg, answer: Option<string>, limit: nat, world: World, ok: bool)
    requires limit >= 1
  {
    if answer == None || world.lookupRaises then !ok && n == m
    else Spoken(m, n, Reply, Strip(answer.value, WHITESPACE), limit, world, ok)
  }

  /** What the try block makes of the message's own row. */
  ghost predicate Tried(m: Msg, n: Msg, plan: Plan, limit: nat, world: World, ok: bool)
    requires limit >= 1
  {
    match plan
    case AccountOrBind(text) => Spoken(m, n, Command, text, limit, world, ok)
    case Qr(text) => Spoken(m, n, QrCode, text, limit, world, ok)
    case SilentlyIgnored => ok && n == m.(status := Ignored)
    case DirectAnswer(text) => Replied(m, n, Some(text), limit, world, ok)
    case AskModel(answer) => Replied(m, n, answer, limit, world, ok)
  }

  /** What a run makes of the own row of a message taken up: the work of the try block, and
      "failed" when that raised. */
  ghost predicate Concluded(m: Msg, n: Msg, plan: Plan, limit: nat, world: World, ok: bool)
    requires limit >= 1
  {
    if ok then Tried(m, n, plan, limit, world, true) && (Replies(plan) ==> !world.releaseRaises)
    else
      || (Replies(plan) && world.releaseRaises && Tried(m, n, plan, limit, world, true))
      || (n.status == Failed && Tried(m, n.(status := m.status), plan, limit, world, false))
  }

  lemma TriedKeeps(m: Msg, n: Msg, plan: Plan, limit: nat, world: World, ok: bool)
    requires limit >= 1 && Tried(m, n, plan, limit, world, ok)
    ensures n.conversation == m.conversation && n.user == m.user && n.mergedInto == m.mergedInto
    ensures if !ok then n.status == m.status else n.status == if plan.SilentlyIgnored? then Ignored else Sent
  {
  }

  lemma ConcludedCloses(m: Msg, n: Msg, plan: Plan, limit: nat, world: World, ok: bool)
    requires limit >= 1 && Concluded(m, n, plan, limit, world, ok)
    ensures ok ==> if plan.SilentlyIgnored? then n.status == Ignored else Closed(n, PathOf(plan))
    ensures !ok ==> n.status == Failed || Closed(n, Reply)
    ensures m.fence == Started ==> n.log == m.log
    ensures n.conversation == m.conversation && n.user == m.user && n.mergedInto == m.mergedInto
  {
  }

  /** A reply released, a recovery: what the end of a run makes of the other rows. */
  predicate Wound(a: map<MsgId, Msg>, b: map<MsgId, Msg>, x: MsgId, replied: bool, ok: bool, world: World)
    requires x in a
  {
    && a.Keys == b.Keys
    && forall y :: y in a && y != x ==>
         b[y] == a[y].(status :=
           if ok then if replied && Releasable(a, x, y) then Sent else a[y].status
           else if !world.restoreRaises && a[y].mergedInto == Some(x) then Queued else a[y].status)
  }

  /** What a whole run makes of the other rows. */
  predicate Others(a: map<MsgId, Msg>, b: map<MsgId, Msg>, x: MsgId, picked: set<MsgId>, replied: bool, ok: bool,
                   world: World)
    requires x in a
  {
    && a.Keys == b.Keys
    && forall y :: y in a && y != x ==>
         b[y] == a[y].(
           mergedInto := if y in picked then Some(x) else a[y].mergedInto,
           status :=
             if ok then if replied && (y in picked || Releasable(a, x, y)) then Sent else a[y].status
             else if !world.restoreRaises && (y in picked || a[y].mergedInto == Some(x)) then Queued
             else if y in picked then Processing else a[y].status)
  }

  lemma OthersCompose(a: map<MsgId, Msg>, b: map<MsgId, Msg>, c: map<MsgId, Msg>, x: MsgId, picked: set<MsgId>,
                      replied: bool, ok: bool, world: World)
    requires x in a && Marked(a, b, x, picked) && Wound(b, c, x, replied, ok, world)
    requires b[x].conversation == a[x].conversation && b[x].user == a[x].user
    requires picked == {} || (replied && forall y :: y in picked ==> Candidate(a, x, y))
    ensures Others(a, c, x, picked, replied, ok, world)
  {
  }

  lemma OthersFrom(a: map<MsgId, Msg>, b: map<MsgId, Msg>, c: map<MsgId, Msg>, x: MsgId, picked: set<MsgId>,
                   replied: bool, ok: bool, world: World)
    requires x in a && OnlyRow(a, b, x) && Others(b, c, x, picked, replied, ok, world)
    requires b[x].conversation == a[x].conversation && b[x].user == a[x].user
    ensures Others(a, c, x, picked, replied, ok, world)
  {
  }

  lemma SameOldest(a: map<MsgId, Msg>, b: map<MsgId, Msg>, x: MsgId, picked: set<MsgId>)
    requires x in a && OnlyRow(a, b, x) && b[x].conversation == a[x].conversation && b[x].user == a[x].user
    ensures Oldest(a, x, picked) <==> Oldest(b, x, picked)
  {
    assert forall y :: y in a ==> (Candidate(a, x, y) <==> Candidate(b, x, y));
  }

  /** What one run makes of the whole message table. */
  ghost predicate Result(a: map<MsgId, Msg>, b: map<MsgId, Msg>, x: MsgId, picked: set<MsgId>, plan: Plan,
                         limit: nat, world: World, ok: bool)
    requires limit >= 1 && x in a
  {
    x in b &&
    if Takeable(a[x]) then
      && Concluded(a[x].(status := Processing, begun := true), b[x], plan, limit, world, ok)
      && Others(a, b, x, picked, Replies(plan), ok, world)
      && if plan.AskModel? then Oldest(a, x, picked) else picked == {}
    else
      && ok && picked == {} && OnlyRow(a, b, x)
      && b[x] == if a[x].status in {Queued, Failed, Processing} then a[x].(status := Sent) else a[x]
  }

  /** A reply says what the plan says, in the pieces it is cut into. */
  ghost predicate Says(m: Msg, n: Msg, plan: Plan, limit: nat)
    requires limit >= 1
  {
    match plan
    case AccountOrBind(text) => n.log == m.log + [Dispatch(Command, text, limit, [text], [text])]
    case Qr(text) => n.log == m.log + [Dispatch(QrCode, text, limit, [text], [text])]
    case SilentlyIgnored => n.log == m.log
    case DirectAnswer(text) =>
      var body := Strip(text, WHITESPACE);
      var chunks := ReplyChunks(body, limit, WHITESPACE);
      body != "" && n.log == m.log + [Dispatch(Reply, body, limit, chunks, chunks)]
    case AskModel(answer) =>
      && answer.Some?
      && var body := Strip(answer.value, WHITESPACE);
         var chunks := ReplyChunks(body, limit, WHITESPACE);
         body != "" && n.log == m.log + [Dispatch(Reply, body, limit, chunks, chunks)]
  }

  lemma ResultSays(a: map<MsgId, Msg>, b: map<MsgId, Msg>, x: MsgId, picked: set<MsgId>, plan: Plan,
                   limit: nat, world: World, ok: bool)
    requires limit >= 1 && x in a && Result(a, b, x, picked, plan, limit, world, ok)
    ensures Takeable(a[x]) && ok ==> Says(a[x], b[x], plan, limit)
    ensures !Takeable(a[x]) || a[x].fence == Started ==> b[x].log == a[x].log
    ensures Takeable(a[x]) && ok ==>
      if plan.SilentlyIgnored? then b[x].status == Ignored else Closed(b[x], PathOf(plan))
    ensures !ok ==> b[x].status == Failed || Closed(b[x], Reply)
  {
    if Takeable(a[x]) {
      ConcludedCloses(a[x].(status := Processing, begun := true), b[x], plan, limit, world, ok);
    }
  }

  lemma ResultMerges(a: map<MsgId, Msg>, b: map<MsgId, Msg>, x: MsgId, picked: set<MsgId>, plan: Plan,
                     limit: nat, world: World, ok: bool)
    requires limit >= 1 && x in a && Result(a, b, x, picked, plan, limit, world, ok)
    ensures Elsewhere(a, b, x)
    ensures forall y :: y in a ==> b[y].mergedInto == if y in picked then Some(x) else a[y].mergedInto
  {
    if Takeable(a[x]) {
      ConcludedCloses(a[x].(status := Processing, begun := true), b[x], plan, limit, world, ok);
      assert !Candidate(a, x, x);
    }
  }

  // ---------------------------------------------------------------------- the code

  class MessageTable {
    var rows: map<MsgId, Msg>
    ghost var machine: State

    ghost predicate InStep()
      reads this
    {
      machine.msgs == rows
    }

    /** The state change just made to rows is the one event e makes. */
    ghost method Commit(e: Event)
      requires Enabled(machine, e) && Apply(machine, e).msgs == rows
      modifies this`machine
      ensures machine == Apply(old(machine), e) && InStep()
      ensures Ran(old(machine), [e], machine)
    {
      RanOne(machine, e);
      machine := Apply(machine, e);
    }

    /** SELECT ... WHERE status = queued ... ORDER BY created_at LIMIT 10 */
    method OldestCandidates(main: MsgId) returns (picked: set<MsgId>)
      requires main in rows
      ensures Oldest(rows, main, picked) && |picked| <= 10
      ensures forall x :: x in picked ==>
        && x in rows && x != main && rows[x].status == Queued
        && rows[x].conversation == rows[main].conversation && rows[x].user == rows[main].user
      ensures |picked| < 10 ==> forall y :: y in rows && y != main && rows[y].status == Queued ==>
        y in picked || rows[y].conversation != rows[main].conversation || rows[y].user != rows[main].user
      ensures forall x, y :: x in picked && y in rows && y != main && rows[y].status == Queued ==>
        || y in picked || rows[y].conversation != rows[main].conversation || rows[y].user != rows[main].user
        || rows[x].createdAt <= rows[y].createdAt
    {
      picked := {};
      var pool := set x | x in rows && Candidate(rows, main, x);
      while pool != {} && |picked| < MERGE_LIMIT
        invariant |picked| <= MERGE_LIMIT
        invariant forall x :: x in rows && Candidate(rows, main, x) <==> x in picked || x in pool
        invariant picked !! pool
        invariant forall x, y :: x in picked && y in pool ==> rows[x].createdAt <= rows[y].createdAt
        decreases pool
      {
        EarliestExists(rows, pool);
        var x :| x in pool && forall y :: y in pool ==> rows[x].createdAt <= rows[y].createdAt;
        picked, pool := picked + {x}, pool - {x};
      }
    }

    method MergePendingMessages(main: MsgId) returns (count: nat, ghost picked: set<MsgId>)
      requires main in rows
      modifies this`rows
      ensures Oldest(old(rows), main, picked) && count == |picked|
      ensures rows == Merged(old(rows), main, picked) && Elsewhere(old(rows), rows, main)
      ensures forall x :: x in rows ==>
        rows[x] == if x in picked then old(rows)[x].(status := Processing, mergedInto := Some(main)) else old(rows)[x]
    {
      var siblings := OldestCandidates(main);
      picked, count := siblings, |siblings|;
      // One UPDATE seizes the siblings, then each is marked with its merge target.
      rows := map x | x in rows :: if x in siblings then rows[x].(status := Processing) else rows[x];
      var todo := siblings;
      assert rows == Marks(old(rows), main, siblings, siblings);
      while todo != {}
        invariant todo <= siblings && rows == Marks(old(rows), main, siblings, todo)
        decreases todo
      {
        var x :| x in todo;
        assert Candidate(old(rows), main, x);
        MarkOne(old(rows), main, siblings, todo, x);
        rows := rows[x := rows[x].(mergedInto := Some(main))];
        todo := todo - {x};
      }
      assert rows == Merged(old(rows), main, siblings);
    }

    method ReleaseMergedMessages(main: MsgId)
      requires main in rows
      modifies this`rows
      ensures rows == Released(old(rows), main) && Elsewhere(old(rows), rows, main)
      ensures forall x :: x in rows ==>
        rows[x] == if x != main && old(rows)[x].status == Processing && old(rows)[x].user == old(rows)[main].user
                      && old(rows)[x].conversation == old(rows)[main].conversation
                   then old(rows)[x].(status := Sent) else old(rows)[x]
    {
      var merged := set x | x in rows && Releasable(rows, main, x);
      assert forall x :: x in rows ==> (x in merged <==> Releasable(rows, main, x));
      if merged == {} {
        assert Released(rows, main) == rows;
        return;
      }
      rows := map x | x in rows :: if x in merged then rows[x].(status := Sent) else rows[x];
    }

    method RestoreMergedMessages(main: MsgId)
      modifies this`rows
      ensures rows == Restored(old(rows), main) && Elsewhere(old(rows), rows, main)
      ensures forall x :: x in rows ==>
        rows[x] == if old(rows)[x].mergedInto == Some(main) then old(rows)[x].(status := Queued) else old(rows)[x]
    {
      var merged := set x | x in rows && rows[x].mergedInto == Some(main);
      assert forall x :: x in rows ==> (x in merged <==> rows[x].mergedInto == Some(main));
      if merged == {} {
        assert Restored(rows, main) == rows;
        return;
      }
      rows := map x | x in rows :: if x in merged then rows[x].(status := Queued) else rows[x];
    }

    method SendOne(x: MsgId, ghost t: Token, path: Path, chunks: seq<string>, i: nat, world: World,
                   ghost m0: State, ghost done: seq<Event>, ghost base: Msg) returns (outcome: SendOutcome)
      requires InStep() && x in rows && i < |chunks|
      requires Underway(base, chunks, 0) && rows[x] == WithSent(base, chunks[..i])
      requires t in machine.workers && machine.workers[t] == Busy(x, Sending(path, chunks, i))
      requires Ran(m0, done, machine)
      modifies this
      ensures InStep() && x in rows && outcome == world.send(i)
      ensures OnlyRow(old(rows), rows, x)
      ensures rows[x] == WithSent(base, chunks[..if outcome == Lost then i else i + 1])
      ensures Ran(m0, done + [Send(t, outcome != Lost, outcome != Delivered)], machine)
      ensures t in machine.workers
      ensures machine.workers[t] == Busy(x, if outcome == Delivered then Sending(path, chunks, i + 1) else Raised)
    {
      outcome := world.send(i);
      ghost var m := machine;
      SentAgain(base, chunks[..i], chunks[..i + 1]);
      assert chunks[..i + 1] == chunks[..i] + [chunks[i]];
      if outcome != Lost {
        var row := rows[x];
        var last := row.log[|row.log| - 1];
        rows := rows[x := row.(log := row.log[..|row.log| - 1] + [last.(sent := last.sent + [chunks[i]])])];
      } else {
        assert rows[x := rows[x]] == rows;
      }
      Commit(Send(t, outcome != Lost, outcome != Delivered));
      RanCat(m0, done, m, [Send(t, outcome != Lost, outcome != Delivered)], machine);
    }

    /** The send loop; false when a send raised, whether or not its text went out. */
    method SendChunks(x: MsgId, ghost t: Token, path: Path, chunks: seq<string>, world: World) returns (ok: bool)
      requires InStep() && x in rows && Underway(rows[x], chunks, 0)
      requires t in machine.workers && machine.workers[t] == Busy(x, Sending(path, chunks, 0))
      modifies this
      ensures InStep() && x in rows && Ran(old(machine), Sends(t, |chunks|, 0, world), machine)
      ensures ok == AllDelivered(|chunks|, 0, world)
      ensures OnlyRow(old(rows), rows, x)
      ensures rows[x] == WithSent(old(rows)[x], chunks[..Heard(|chunks|, 0, world)])
      ensures ok <==> forall k :: 0 <= k < |chunks| ==> world.send(k) == Delivered
      ensures t in machine.workers
      ensures machine.workers[t] == Busy(x, if ok then Sending(path, chunks, |chunks|) else Raised)
    {
      var i := 0;
      ghost var m := rows[x];
      SentAgain(m, [], []);
      while i < |chunks|
        invariant 0 <= i <= |chunks| && InStep() && x in rows
        invariant OnlyRow(old(rows), rows, x) && rows[x] == WithSent(m, chunks[..i])
        invariant forall k :: 0 <= k < i ==> world.send(k) == Delivered
        invariant t in machine.workers && machine.workers[t] == Busy(x, Sending(path, chunks, i))
        invariant Ran(old(machine), Sends(t, i, 0, world), machine)
      {
        SendsUpTo(t, |chunks|, i, 0, world);
        var outcome := SendOne(x, t, path, chunks, i, world, old(machine), Sends(t, i, 0, world), m);
        if outcome != Delivered {
          return false;
        }
        i := i + 1;
      }
      AllHeard(|chunks|, 0, world);
      return true;
    }

    ghost method CommitRaise(x: MsgId, t: Token)
      requires InStep() && x in rows && t in machine.workers && machine.workers[t].msg == x
      requires machine.workers[t].Busy? && !machine.workers[t].phase.Raised? && !machine.workers[t].phase.Restoring?
      modifies this`machine
      ensures InStep() && Ran(old(machine), [Raise(t)], machine)
      ensures t in machine.workers && machine.workers[t] == Busy(x, Raised)
    {
      assert rows[x := rows[x]] == rows;
      Commit(Raise(t));
    }

    /** Check the fence and persist "started"; None when the check raised. */
    method RaiseFence(x: MsgId, ghost t: Token, path: Path, text: string, limit: nat)
      returns (chunks: Option<seq<string>>)
      requires InStep() && limit >= 1 && x in rows && t in machine.workers
      requires machine.workers[t] == Busy(x, Working) || (machine.workers[t] == Busy(x, Asking) && path == Reply)
      modifies this
      ensures InStep() && x in rows && Ran(old(machine), [StartDispatch(t, path, text, limit)], machine)
      ensures t in machine.workers
      ensures chunks == if Stopped(old(rows)[x].fence, path, text) then None
                        else Some(ChunksFor(path, Body(path, text), limit))
      ensures chunks == None ==> machine.workers[t] == Busy(x, Raised) && rows == old(rows)
      ensures chunks.Some? ==>
        && machine.workers[t] == Busy(x, Sending(path, chunks.value, 0))
        && OnlyRow(old(rows), rows, x)
        && rows[x] == old(rows)[x].(
             fence := Started,
             log := old(rows)[x].log + [Dispatch(path, Body(path, text), limit, chunks.value, [])])
    {
      var body := if path == Reply then Strip(text, WHITESPACE) else text;
      var row := rows[x];
      if (path == Reply && body == []) || row.fence == Started {
        assert rows[x := row] == rows;
        Commit(StartDispatch(t, path, text, limit));
        return None;
      }
      var pieces := ChunksFor(path, body, limit);
      rows := rows[x := row.(fence := Started, log := row.log + [Dispatch(path, body, limit, pieces, [])])];
      Commit(StartDispatch(t, path, text, limit));
      return Some(pieces);
    }

    method MarkSent(x: MsgId, ghost t: Token, path: Path, ghost chunks: seq<string>)
      requires InStep() && x in rows
      requires t in machine.workers && machine.workers[t] == Busy(x, Sending(path, chunks, |chunks|))
      modifies this
      ensures OnlyRow(old(rows), rows, x) && x in rows
      ensures rows[x] ==
        old(rows)[x].(status := Sent, fence := if path == QrCode then old(rows)[x].fence else FenceSent)
      ensures InStep() && x in rows && Ran(old(machine), [Finish(t)], machine)
      ensures t in machine.workers
      ensures machine.workers[t] == if path == Reply then Busy(x, Releasing) else Over(x, true)
    {
      rows := rows[x := rows[x].(status := Sent, fence := if path == QrCode then rows[x].fence else FenceSent)];
      Commit(Finish(t));
    }

    /** After the text: media sends on the main path, then the commit of "sent". */
    method FinishSends(x: MsgId, ghost t: Token, path: Path, ghost chunks: seq<string>, world: World)
      returns (ok: bool)
      requires InStep() && x in rows
      requires t in machine.workers && machine.workers[t] == Busy(x, Sending(path, chunks, |chunks|))
      modifies this
      ensures OnlyRow(old(rows), rows, x) && x in rows && (ok <==> !(path == Reply && world.mediaRaises))
      ensures rows[x] ==
        if ok then old(rows)[x].(status := Sent, fence := if path == QrCode then old(rows)[x].fence else FenceSent)
        else old(rows)[x]
      ensures InStep() && Ran(old(machine), [if ok then Finish(t) else Raise(t)], machine)
      ensures t in machine.workers
      ensures !ok ==> machine.workers[t] == Busy(x, Raised)
      ensures ok ==> machine.workers[t] == if path == Reply then Busy(x, Releasing) else Over(x, true)
    {
      if path == Reply && world.mediaRaises {
        CommitRaise(x, t);
        return false;
      }
      MarkSent(x, t, path, chunks);
      return true;
    }

    /** The text and what follows it. */
    method SendText(x: MsgId, ghost t: Token, path: Path, chunks: seq<string>, world: World) returns (ok: bool)
      requires InStep() && x in rows && Underway(rows[x], chunks, 0)
      requires t in machine.workers && machine.workers[t] == Busy(x, Sending(path, chunks, 0))
      modifies this
      ensures OnlyRow(old(rows), rows, x) && x in rows
      ensures ok <==> AllDelivered(|chunks|, 0, world) && !(path == Reply && world.mediaRaises)
      ensures rows[x] ==
        if ok then WithSent(old(rows)[x], chunks).(
                     status := Sent, fence := if path == QrCode then old(rows)[x].fence else FenceSent)
        else WithSent(old(rows)[x], chunks[..Heard(|chunks|, 0, world)])
      ensures InStep() && Ran(old(machine), Sends(t, |chunks|, 0, world)
        + (if !AllDelivered(|chunks|, 0, world) then [] else if ok then [Finish(t)] else [Raise(t)]), machine)
      ensures t in machine.workers
      ensures !ok ==> machine.workers[t] == Busy(x, Raised)
      ensures ok ==> machine.workers[t] == if path == Reply then Busy(x, Releasing) else Over(x, true)
    {
      ok := SendChunks(x, t, path, chunks, world);
      if !ok {
        assert Sends(t, |chunks|, 0, world) + [] == Sends(t, |chunks|, 0, world);
        return;
      }
      ghost var m := machine;
      AllDeliveredMeans(|chunks|, 0, world);
      AllHeard(|chunks|, 0, world);
      assert chunks[..|chunks|] == chunks;
      ok := FinishSends(x, t, path, chunks, world);
      RanCat(old(machine), Sends(t, |chunks|, 0, world), m, [if ok then Finish(t) else Raise(t)], machine);
    }

    method SendAll(x: MsgId, ghost t: Token, path: Path, chunks: seq<string>, world: World) returns (ok: bool)
      requires InStep() && x in rows && Underway(rows[x], chunks, 0)
      requires t in machine.workers && machine.workers[t] == Busy(x, Sending(path, chunks, 0))
      modifies this
      ensures OnlyRow(old(rows), rows, x) && x in rows && (ok <==> Smooth(path, |chunks|, world))
      ensures rows[x] ==
        if ok then WithSent(old(rows)[x], chunks).(
                     status := Sent, fence := if path == QrCode then old(rows)[x].fence else FenceSent)
        else WithSent(old(rows)[x], chunks[..if BehindFence(path, world) then 0 else Heard(|chunks|, 0, world)])
      ensures InStep() && x in rows && ok == Delivery(t, path, |chunks|, world).ok
      ensures Ran(old(machine), Delivery(t, path, |chunks|, world).events, machine)
      ensures t in machine.workers
      ensures !ok ==> machine.workers[t] == Busy(x, Raised)
      ensures ok ==> machine.workers[t] == if path == Reply then Busy(x, Releasing) else Over(x, true)
    {
      if (path == Reply && world.adapterRaises) || (path != Reply && world.lookupRaises) {
        CommitRaise(x, t);
        SentAgain(rows[x], [], []);
        return false;
      }
      AllDeliveredMeans(|chunks|, 0, world);
      ok := SendText(x, t, path, chunks, world);
      assert Sends(t, |chunks|, 0, world) + [] == Sends(t, |chunks|, 0, world);
    }

    /** From the fence to the commit of "sent"; false when an exception was raised. */
    method DispatchReply(x: MsgId, ghost t: Token, path: Path, text: string, limit: nat, world: World)
      returns (ok: bool)
      requires InStep() && limit >= 1 && x in rows && t in machine.workers
      requires machine.workers[t] == Busy(x, Working) || (machine.workers[t] == Busy(x, Asking) && path == Reply)
      modifies this
      ensures InStep() && x in rows
      ensures ok == Dispatching(old(rows)[x].fence, t, path, text, limit, world).ok
      ensures Ran(old(machine), Dispatching(old(rows)[x].fence, t, path, text, limit, world).events, machine)
      ensures OnlyRow(old(rows), rows, x)
      ensures Spoken(old(rows)[x], rows[x], path, Body(path, text), limit, world, ok)
      ensures t in machine.workers
      ensures !ok ==> machine.workers[t] == Busy(x, Raised)
      ensures ok ==> machine.workers[t] == if path == Reply then Busy(x, Releasing) else Over(x, true)
    {
      var chunks := RaiseFence(x, t, path, text, limit);
      if chunks == None {
        return false;
      }
      ghost var m := machine;
      ok := SendAll(x, t, path, chunks.value, world);
      RanCat(old(machine), [StartDispatch(t, path, text, limit)], m,
             Delivery(t, path, |chunks.value|, world).events, machine);
    }

    /** Persist "failed" unless the message was sent before the exception. */
    method MarkFailed(x: MsgId, ghost t: Token)
      requires InStep() && x in rows && t in machine.workers && machine.workers[t] == Busy(x, Raised)
      modifies this
      ensures x in rows && OnlyRow(old(rows), rows, x)
      ensures rows[x] == if old(rows)[x].status == Sent then old(rows)[x] else old(rows)[x].(status := Failed)
      ensures InStep() && Ran(old(machine), [Handle(t)], machine)
      ensures t in machine.workers && machine.workers[t] == Busy(x, Restoring)
    {
      rows := rows[x := if rows[x].status != Sent then rows[x].(status := Failed) else rows[x]];
      Commit(Handle(t));
    }

    /** The except branch: persist "failed" unless sent, then re-queue the merged siblings. */
    method Recover(x: MsgId, ghost t: Token, world: World)
      requires InStep() && x in rows && t in machine.workers && machine.workers[t] == Busy(x, Raised)
      requires rows[x].mergedInto != Some(x)
      modifies this
      ensures x in rows && Wound(old(rows), rows, x, false, false, world)
      ensures rows[x] == if old(rows)[x].status == Sent then old(rows)[x] else old(rows)[x].(status := Failed)
      ensures InStep() && Ran(old(machine), Recovery(t, world), machine)
      ensures t in machine.workers && machine.workers[t] == Over(x, false)
    {
      MarkFailed(x, t);
      ghost var m := machine;
      if !world.restoreRaises {
        RestoreMergedMessages(x);
      }
      Commit(Restore(t, !world.restoreRaises));
      RanCat(old(machine), [Handle(t)], m, [Restore(t, !world.restoreRaises)], machine);
    }

    method MainPath(x: MsgId, ghost t: Token, answer: Option<string>, limit: nat, world: World) returns (ok: bool)
      requires InStep() && limit >= 1 && x in rows && t in machine.workers
      requires machine.workers[t] in {Busy(x, Working), Busy(x, Asking)}
      modifies this
      ensures OnlyRow(old(rows), rows, x) && x in rows
      ensures Replied(old(rows)[x], rows[x], answer, limit, world, ok)
      ensures InStep() && x in rows && ok == Replying(old(rows)[x].fence, t, answer, limit, world).ok
      ensures Ran(old(machine), Replying(old(rows)[x].fence, t, answer, limit, world).events, machine)
      ensures t in machine.workers
      ensures machine.workers[t] == Busy(x, if ok then Releasing else Raised)
    {
      if answer.None? || world.lookupRaises {
        CommitRaise(x, t);
        return false;
      }
      ok := DispatchReply(x, t, Reply, answer.value, limit, world);
    }

    /** The waiting siblings are merged; the message's own row stays as it is. */
    method MergeSiblings(x: MsgId, ghost t: Token) returns (ghost picked: set<MsgId>)
      requires InStep() && x in rows && t in machine.workers && machine.workers[t] == Busy(x, Working)
      modifies this
      ensures InStep() && x in rows && rows[x] == old(rows)[x]
      ensures Oldest(old(rows), x, picked) && Marked(old(rows), rows, x, picked)
      ensures Ran(old(machine), [Merge(t, picked)], machine)
      ensures t in machine.workers && machine.workers[t] == Busy(x, Asking)
    {
      var count;
      count, picked := MergePendingMessages(x);
      assert !Candidate(old(rows), x, x) && rows[x] == old(rows)[x];
      Commit(Merge(t, picked));
    }

    /** Waiting siblings are merged before the model is asked. */
    method MergeAndAsk(x: MsgId, ghost t: Token, answer: Option<string>, limit: nat, world: World)
      returns (ok: bool, ghost picked: set<MsgId>)
      requires InStep() && limit >= 1 && x in rows && t in machine.workers && machine.workers[t] == Busy(x, Working)
      modifies this
      ensures InStep() && x in rows
      ensures Oldest(old(rows), x, picked) && Marked(old(rows), rows, x, picked)
      ensures Replied(old(rows)[x], rows[x], answer, limit, world, ok)
      ensures ok == Replying(old(rows)[x].fence, t, answer, limit, world).ok
      ensures Ran(old(machine), [Merge(t, picked)] + Replying(old(rows)[x].fence, t, answer, limit, world).events,
                  machine)
      ensures t in machine.workers && machine.workers[t] == Busy(x, if ok then Releasing else Raised)
    {
      picked := MergeSiblings(x, t);
      ghost var m := machine;
      ok := MainPath(x, t, answer, limit, world);
      RanCat(old(machine), [Merge(t, picked)], m,
             Replying(old(rows)[x].fence, t, answer, limit, world).events, machine);
    }

    /** The branches of the try block, up to the reply's dispatch or an early return. */
    method Answer(x: MsgId, ghost t: Token, plan: Plan, limit: nat, world: World)
      returns (ok: bool, ghost picked: set<MsgId>)
      requires InStep() && limit >= 1 && x in rows && t in machine.workers && machine.workers[t] == Busy(x, Working)
      modifies this
      ensures InStep() && x in rows
      ensures Marked(old(rows), rows, x, picked)
      ensures if plan.AskModel? then Oldest(old(rows), x, picked) else picked == {}
      ensures Tried(old(rows)[x], rows[x], plan, limit, world, ok)
      ensures ok == Answering(old(rows)[x].fence, t, plan, picked, limit, world).ok
      ensures Ran(old(machine), Answering(old(rows)[x].fence, t, plan, picked, limit, world).events, machine)
      ensures t in machine.workers
      ensures !ok ==> machine.workers[t] == Busy(x, Raised)
      ensures ok ==> machine.workers[t] == if Replies(plan) then Busy(x, Releasing) else Over(x, true)
    {
      picked := {};
      match plan
      case AccountOrBind(text) => ok := DispatchReply(x, t, Command, text, limit, world);
      case Qr(text) => ok := DispatchReply(x, t, QrCode, text, limit, world);
      case SilentlyIgnored =>
        rows := rows[x := rows[x].(status := Ignored)];
        Commit(Ignore(t));
        ok := true;
      case DirectAnswer(text) => ok := MainPath(x, t, Some(text), limit, world);
      case AskModel(answer) =>
        ok, picked := MergeAndAsk(x, t, answer, limit, world);
    }

    /** The early exits, and the commit of "processing"; true when the run goes on. */
    method TakeUp(x: MsgId, ghost t: Token) returns (taken: bool)
      requires InStep() && x in rows && t in machine.workers && machine.workers[t] == Claimed(x) && Idle(machine)
      modifies this
      ensures InStep() && x in rows && Ran(old(machine), [Begin(t)], machine)
      ensures taken == Takeable(old(rows)[x]) && OnlyRow(old(rows), rows, x)
      ensures rows[x] ==
        if taken then old(rows)[x].(status := Processing, begun := true)
        else if old(rows)[x].status in {Queued, Failed, Processing} then old(rows)[x].(status := Sent)
        else old(rows)[x]
      ensures t in machine.workers && machine.workers[t] == if taken then Busy(x, Working) else Over(x, true)
    {
      var row := rows[x];
      if row.status != Queued && row.status != Failed && row.status != Processing {
        assert rows[x := row] == rows;
        Commit(Begin(t));
        return false;
      }
      if row.mergedInto.Some? {
        rows := rows[x := row.(status := Sent)];
        Commit(Begin(t));
        return false;
      }
      rows := rows[x := row.(status := Processing, begun := true)];
      Commit(Begin(t));
      return true;
    }

    method ReleaseAfterReply(x: MsgId, ghost t: Token, world: World) returns (ok: bool)
      requires InStep() && x in rows && t in machine.workers && machine.workers[t] == Busy(x, Releasing)
      requires rows[x].status == Sent && rows[x].mergedInto == None
      modifies this
      ensures x in rows && rows[x] == old(rows)[x] && Wound(old(rows), rows, x, true, ok, world)
      ensures ok <==> !world.releaseRaises
      ensures InStep() && ok == ReleaseScript(t, world).ok && Ran(old(machine), ReleaseScript(t, world).events, machine)
      ensures t in machine.workers && machine.workers[t] == Over(x, ok)
    {
      if world.releaseRaises {
        CommitRaise(x, t);
        ghost var m := machine;
        Recover(x, t, world);
        RanCat(old(machine), [Raise(t)], m, Recovery(t, world), machine);
        return false;
      }
      ReleaseMergedMessages(x);
      Commit(Release(t));
      return true;
    }

    /** The except branch of a try block that raised, or the release after a reply. */
    method Finally(x: MsgId, ghost t: Token, plan: Plan, tried: bool, world: World) returns (ok: bool)
      requires InStep() && x in rows && t in machine.workers && rows[x].mergedInto == None
      requires machine.workers[t]
            == if !tried then Busy(x, Raised) else if Replies(plan) then Busy(x, Releasing) else Over(x, true)
      requires tried && Replies(plan) ==> rows[x].status == Sent
      modifies this
      ensures x in rows && Wound(old(rows), rows, x, Replies(plan), ok, world)
      ensures ok <==> tried && (Replies(plan) ==> !world.releaseRaises)
      ensures rows[x] == if tried || old(rows)[x].status == Sent then old(rows)[x]
                         else old(rows)[x].(status := Failed)
      ensures InStep() && ok == Ending(t, plan, tried, world).ok
      ensures Ran(old(machine), Ending(t, plan, tried, world).events, machine)
      ensures t in machine.workers && machine.workers[t] == Over(x, ok)
    {
      ok := tried;
      if !tried {
        Recover(x, t, world);
      } else if plan.DirectAnswer? || plan.AskModel? {
        ok := ReleaseAfterReply(x, t, world);
      }
    }

    /** The try block and what follows it, for a message taken up. */
    method RunTaken(x: MsgId, ghost t: Token, plan: Plan, limit: nat, world: World)
      returns (ok: bool, ghost picked: set<MsgId>)
      requires InStep() && limit >= 1 && x in rows && t in machine.workers && machine.workers[t] == Busy(x, Working)
      requires rows[x].mergedInto == None && rows[x].status == Processing
      modifies this
      ensures x in rows && Others(old(rows), rows, x, picked, Replies(plan), ok, world)
      ensures if plan.AskModel? then Oldest(old(rows), x, picked) else picked == {}
      ensures Concluded(old(rows)[x], rows[x], plan, limit, world, ok)
      ensures InStep() && ok == Taken(old(rows)[x].fence, t, plan, picked, limit, world).ok
      ensures Ran(old(machine), Taken(old(rows)[x].fence, t, plan, picked, limit, world).events, machine)
      ensures t in machine.workers && machine.workers[t] == Over(x, ok)
    {
      var tried;
      tried, picked := Answer(x, t, plan, limit, world);
      ghost var a, n, m := rows, rows[x], machine;
      ghost var answered := Answering(old(rows)[x].fence, t, plan, picked, limit, world);
      TriedKeeps(old(rows)[x], n, plan, limit, world, tried);
      ok := Finally(x, t, plan, tried, world);
      OthersCompose(old(rows), a, rows, x, picked, Replies(plan), ok, world);
      RanCat(old(machine), answered.events, m, Ending(t, plan, tried, world).events, machine);
    }

    /** The run under claim t, from the early exits on. */
    method RunClaimed(x: MsgId, ghost t: Token, plan: Plan, limit: nat, world: World)
      returns (ok: bool, ghost picked: set<MsgId>)
      requires InStep() && limit >= 1 && x in rows && t in machine.workers && machine.workers[t] == Claimed(x)
      requires Idle(machine)
      modifies this
      ensures Result(old(rows), rows, x, picked, plan, limit, world, ok)
      ensures InStep() && ok == WholeRun(old(rows)[x], t, plan, picked, limit, world).ok
      ensures Ran(old(machine), WholeRun(old(rows)[x], t, plan, picked, limit, world).events, machine)
      ensures t in machine.workers && machine.workers[t] == Over(x, ok)
    {
      picked := {};
      var taken := TakeUp(x, t);
      ghost var a, m := rows, machine;
      if !taken {
        return true, {};
      }
      ok, picked := RunTaken(x, t, plan, limit, world);
      RanCat(old(machine), [Begin(t)], m, Taken(old(rows)[x].fence, t, plan, picked, limit, world).events, machine);
      SameOldest(old(rows), a, x, picked);
      OthersFrom(old(rows), a, rows, x, picked, Replies(plan), ok, world);
    }

    /** One run under claim t, event by event. The result says whether drain_available_tasks
        will complete the outbox row or fail it. What goes out is what the plan says; exactly
        a question for the model merges, and exactly the oldest waiting siblings. */
    method ProcessMessage(x: MsgId, ghost t: Token, plan: Plan, limit: nat, world: World)
      returns (ok: bool, ghost picked: set<MsgId>)
      requires InStep() && limit >= 1 && x in rows && t in machine.workers && machine.workers[t] == Claimed(x)
      requires Idle(machine) && Inv(machine)
      modifies this
      ensures Inv(machine) && Elsewhere(old(rows), rows, x) && x in rows
      ensures Takeable(old(rows)[x]) && ok ==> Says(old(rows)[x], rows[x], plan, limit)
      ensures !Takeable(old(rows)[x]) || old(rows)[x].fence == Started ==> rows[x].log == old(rows)[x].log
      ensures Takeable(old(rows)[x]) && ok ==>
        if plan.SilentlyIgnored? then rows[x].status == Ignored else Closed(rows[x], PathOf(plan))
      ensures !ok ==> rows[x].status == Failed || Closed(rows[x], Reply)
      ensures if Takeable(old(rows)[x]) && plan.AskModel? then Oldest(old(rows), x, picked) else picked == {}
      ensures forall y :: y in rows ==>
        rows[y].mergedInto == if y in picked then Some(x) else old(rows)[y].mergedInto
      ensures Result(old(rows), rows, x, picked, plan, limit, world, ok)
      ensures InStep() && ok == WholeRun(old(rows)[x], t, plan, picked, limit, world).ok
      ensures Ran(old(machine), WholeRun(old(rows)[x], t, plan, picked, limit, world).events, machine)
      ensures t in machine.workers && machine.workers[t] == Over(x, ok)
    {
      ok, picked := RunClaimed(x, t, plan, limit, world);
      RanKeeps(old(machine), WholeRun(old(rows)[x], t, plan, picked, limit, world).events, machine);
      ResultSays(old(rows), rows, x, picked, plan, limit, world, ok);
      ResultMerges(old(rows), rows, x, picked, plan, limit, world, ok);
    }
  }
}
