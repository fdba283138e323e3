/** One AI reply: provider failover and the bounded tool loop
    (src/wecom_ai_gateway/services.py _complete_ai, lines 928-1265;
    src/wecom_ai_gateway/model_routing.py complete_with_routing).

    Providers are oracles: the n-th request ever made is answered by world.complete(n). */
module ToolLoop {
  import opened Basics
  import opened Text

  datatype Call = Call(id: string, name: string, arguments: string)

  datatype Prompt =
    | System(content: string)
    | User(content: string)
    | Assistant(content: string)
    | ToolCalls(ids: seq<string>)
    | ToolResult(id: string)

  datatype Completion = Completion(content: string, promptTokens: nat, completionTokens: nat, calls: seq<Call>)

  datatype Outcome = Returned(completion: Completion) | Raised(failover: bool)

  /** The provider and model a request goes to, as the usage record will name them. */
  datatype Line = Line(provider: string, model: string)

  /** One request made to a provider, and how it ended. */
  datatype Exchange = Exchange(line: Line, prompts: seq<Prompt>, offered: bool, outcome: Outcome)

  datatype Usage = Usage(line: Line, promptTokens: nat, completionTokens: nat)

  datatype Config = Config(
    group: seq<Line>,
    useGroup: bool,
    primary: Line,
    fallback: Line,
    fallbackConfigured: bool,
    vision: Option<Line>,
    tools: Option<set<string>>,
    maxToolCalls: nat)

  /** complete answers the n-th request; parses tells which argument texts are JSON. */
  datatype World = World(complete: nat -> Outcome, parses: string -> bool)

  datatype Result = Answer(text: string) | Failure

  /** How one turn of the loop ends. */
  datatype TurnEnd = Finished(result: Result) | Again(active: Line, usingFallback: bool)

  /** How an overrun round ends: the reply stops here, or the fallback line's calls are run. */
  datatype Verdict = Stop(result: Result) | Go(calls: seq<Call>)

  const ARGUMENT_LIMIT: nat := 4000
  const CLOSING_REQUEST: string := "no more tools; answer from what you have"
  const APOLOGY: string := "no satisfying answer yet; ask again later"

  // ------------------------------------------------------------------- transcripts

  function Results(ids: seq<string>): seq<Prompt> {
    seq(|ids|, i requires 0 <= i < |ids| => ToolResult(ids[i]))
  }

  /** Each tool_calls message is directly followed by one result per call id, in order, and
      results occur nowhere else. */
  predicate WellFormed(ps: seq<Prompt>)
    decreases |ps|
  {
    if ps == [] then true
    else match ps[0]
      case ToolCalls(ids) =>
        |ids| < |ps| && ps[1..1 + |ids|] == Results(ids) && WellFormed(ps[1 + |ids|..])
      case ToolResult(_) => false
      case _ => WellFormed(ps[1..])
  }

  lemma WellFormedRound(ids: seq<string>, rest: seq<Prompt>)
    requires WellFormed(rest)
    ensures WellFormed([ToolCalls(ids)] + Results(ids) + rest)
  {
    var ps := [ToolCalls(ids)] + Results(ids) + rest;
    assert ps[0] == ToolCalls(ids) && |ids| < |ps|;
    assert ps[1..1 + |ids|] == Results(ids);
    assert ps[1 + |ids|..] == rest;
  }

  lemma RoundSplits(a: seq<Prompt>, b: seq<Prompt>, ids: seq<string>)
    requires a != [] && a[0] == ToolCalls(ids) && |ids| < |a| && a[1..1 + |ids|] == Results(ids)
    ensures a + b == [ToolCalls(ids)] + Results(ids) + (a[1 + |ids|..] + b)
  {
    assert a == [ToolCalls(ids)] + a[1..1 + |ids|] + a[1 + |ids|..];
  }

  lemma RoundFirst(a: seq<Prompt>, b: seq<Prompt>)
    requires a != [] && a[0].ToolCalls? && |a[0].ids| < |a| && a[1..1 + |a[0].ids|] == Results(a[0].ids)
    requires WellFormed(a[1 + |a[0].ids|..] + b)
    ensures WellFormed(a + b)
  {
    var ids := a[0].ids;
    WellFormedRound(ids, a[1 + |ids|..] + b);
    RoundSplits(a, b, ids);
  }

  lemma {:induction false} WellFormedAppend(a: seq<Prompt>, b: seq<Prompt>)
    requires WellFormed(a) && WellFormed(b)
    ensures WellFormed(a + b)
    decreases |a|
  {
    if a == [] {
      assert a + b == b;
    } else if a[0].ToolCalls? {
      WellFormedAppend(a[1 + |a[0].ids|..], b);
      RoundFirst(a, b);
    } else {
      WellFormedAppend(a[1..], b);
      assert (a + b)[1..] == a[1..] + b;
    }
  }

  /** The roles a conversation starts with: system, user and assistant texts. */
  predicate Plain(ps: seq<Prompt>) {
    forall i :: 0 <= i < |ps| ==> !ps[i].ToolCalls? && !ps[i].ToolResult?
  }

  lemma {:induction false} PlainWellFormed(ps: seq<Prompt>)
    requires Plain(ps)
    ensures WellFormed(ps)
  {
    if ps != [] {
      PlainWellFormed(ps[1..]);
    }
  }

  function Ids(calls: seq<Call>): seq<string> {
    seq(|calls|, i requires 0 <= i < |calls| => calls[i].id)
  }

  lemma RoundAppend(ps: seq<Prompt>, ids: seq<string>)
    requires WellFormed(ps)
    ensures WellFormed(ps + [ToolCalls(ids)] + Results(ids))
  {
    var round := [ToolCalls(ids)] + Results(ids);
    WellFormedRound(ids, []);
    assert round + [] == round;
    WellFormedAppend(ps, round);
    assert ps + round == ps + [ToolCalls(ids)] + Results(ids);
  }

  lemma PromptAppend(ps: seq<Prompt>, p: Prompt)
    requires WellFormed(ps) && !p.ToolCalls? && !p.ToolResult?
    ensures WellFormed(ps + [p])
  {
    assert [p][1..] == [];
    WellFormedAppend(ps, [p]);
  }

  // ------------------------------------------------------------------------ usage

  function Bill(line: Line, c: Completion): Usage {
    Usage(line, c.promptTokens, c.completionTokens)
  }

  /** One usage record for each completion that returned, with its token counts. */
  function UsageOf(xs: seq<Exchange>): seq<Usage> {
    if xs == [] then []
    else
      var last := xs[|xs| - 1];
      UsageOf(xs[..|xs| - 1]) + if last.outcome.Returned? then [Bill(last.line, last.outcome.completion)] else []
  }

  function Returning(o: Outcome): Option<Completion> {
    if o.Returned? then Some(o.completion) else None
  }

  predicate RequestsWellFormed(xs: seq<Exchange>) {
    xs == [] || (WellFormed(xs[|xs| - 1].prompts) && RequestsWellFormed(xs[..|xs| - 1]))
  }

  lemma {:induction false} EveryRequestWellFormed(xs: seq<Exchange>)
    requires RequestsWellFormed(xs)
    ensures forall i :: 0 <= i < |xs| ==> WellFormed(xs[i].prompts)
  {
    if xs != [] {
      EveryRequestWellFormed(xs[..|xs| - 1]);
    }
  }

  lemma UsageSnoc(xs: seq<Exchange>, x: Exchange)
    ensures UsageOf(xs + [x]) == UsageOf(xs) + if x.outcome.Returned? then [Bill(x.line, x.outcome.completion)] else []
  {
    assert (xs + [x])[..|xs|] == xs;
  }

  /** How many completions returned. */
  function Paid(xs: seq<Exchange>): nat {
    if xs == [] then 0 else Paid(xs[..|xs| - 1]) + if xs[|xs| - 1].outcome.Returned? then 1 else 0
  }

  /** The usage records are those of the completions that returned, one each and in order,
      with the line that was asked and the tokens it reported. */
  lemma {:induction false} UsageLists(xs: seq<Exchange>)
    ensures |UsageOf(xs)| == Paid(xs)
    ensures forall i :: 0 <= i < |xs| && xs[i].outcome.Returned? ==>
      var c := xs[i].outcome.completion;
      && Paid(xs[..i]) < |UsageOf(xs)|
      && UsageOf(xs)[Paid(xs[..i])] == Usage(xs[i].line, c.promptTokens, c.completionTokens)
  {
    if xs != [] {
      var rest := xs[..|xs| - 1];
      UsageLists(rest);
      forall i | 0 <= i < |rest| ensures xs[..i] == rest[..i] {
      }
    }
  }

  lemma RequestSnoc(xs: seq<Exchange>, x: Exchange)
    ensures RequestsWellFormed(xs + [x]) <==> RequestsWellFormed(xs) && WellFormed(x.prompts)
  {
    assert (xs + [x])[..|xs|] == xs;
  }

  lemma SplitLast<T>(xs: seq<T>, more: seq<T>)
    requires more != []
    ensures xs + more == (xs + more[..|more| - 1]) + [more[|more| - 1]]
  {
    assert more == more[..|more| - 1] + [more[|more| - 1]];
  }

  lemma {:induction false} RequestsAppend(xs: seq<Exchange>, more: seq<Exchange>, prompts: seq<Prompt>)
    requires WellFormed(prompts) && RequestsWellFormed(xs)
    requires forall i :: 0 <= i < |more| ==> more[i].prompts == prompts
    ensures RequestsWellFormed(xs + more)
    decreases |more|
  {
    if more == [] {
      assert xs + more == xs;
    } else {
      var last := |more| - 1;
      RequestsAppend(xs, more[..last], prompts);
      RequestSnoc(xs + more[..last], more[last]);
      SplitLast(xs, more);
    }
  }

  /** The first |tried| routes were asked in priority order and each failed over. */
  predicate FailedOver(tried: seq<Exchange>, routes: seq<Line>) {
    && |tried| <= |routes|
    && forall i :: 0 <= i < |tried| ==> tried[i].line == routes[i] && tried[i].outcome == Raised(true)
  }

  /** The last route tried ended the walk; every earlier one failed over. */
  predicate StoppedAt(tried: seq<Exchange>, routes: seq<Line>) {
    && 0 < |tried| <= |routes|
    && FailedOver(tried[..|tried| - 1], routes)
    && tried[|tried| - 1].line == routes[|tried| - 1]
    && tried[|tried| - 1].outcome != Raised(true)
  }

  /** A whole walk over the routes: it stops at the first outcome that is no failover, or
      after the last route. */
  predicate Walked(tried: seq<Exchange>, routes: seq<Line>) {
    StoppedAt(tried, routes) || (FailedOver(tried, routes) && |tried| == |routes|)
  }

  predicate Runs(call: Call, tools: set<string>, world: World) {
    |call.arguments| <= ARGUMENT_LIMIT && world.parses(call.arguments) && call.name in tools
  }

  /** The calls of a round whose tool is actually run, by name: short enough arguments that
      parse, and a name on the allow-list. */
  function Runnable(calls: seq<Call>, tools: set<string>, world: World): (names: seq<string>)
    ensures |names| <= |calls| && forall n :: n in names ==> n in tools
  {
    if calls == [] then []
    else
      var last := calls[|calls| - 1];
      Runnable(calls[..|calls| - 1], tools, world) + if Runs(last, tools, world) then [last.name] else []
  }

  lemma RunnableSnoc(calls: seq<Call>, k: nat, tools: set<string>, world: World)
    requires k < |calls|
    ensures Runnable(calls[..k + 1], tools, world)
         == Runnable(calls[..k], tools, world) + if Runs(calls[k], tools, world) then [calls[k].name] else []
    ensures Results(Ids(calls))[..k + 1] == Results(Ids(calls))[..k] + [ToolResult(calls[k].id)]
    ensures Runnable(calls[..k + 1], tools, world) == Runnable(calls[..k], tools, world)
      + if |calls[k].arguments| <= 4000 && world.parses(calls[k].arguments) && calls[k].name in tools
        then [calls[k].name] else []
  {
    assert calls[..k + 1][..k] == calls[..k];
  }

  predicate AllowListed(names: seq<string>, tools: Option<set<string>>) {
    forall n :: n in names ==> tools.Some? && n in tools.value
  }

  // -------------------------------------------------------------- what is to happen

  /** A conversation between rounds, with the line in use. */
  datatype Chat = Chat(
    prompts: seq<Prompt>,
    exchanges: seq<Exchange>,
    executed: seq<string>,
    count: nat,
    active: Line,
    usingFallback: bool)

  datatype End = End(exchanges: seq<Exchange>, executed: seq<string>, result: Result)

  /** The routes from k on are asked in order while they fail over. */
  function RouteTries(prompts: seq<Prompt>, offered: bool, routes: seq<Line>, k: nat, n: nat, world: World)
    : seq<Exchange>
    decreases |routes| - k
  {
    if k >= |routes| then []
    else
      var x := Exchange(routes[k], prompts, offered, world.complete(n + k));
      [x] + if x.outcome == Raised(true) then RouteTries(prompts, offered, routes, k + 1, n, world) else []
  }

  lemma RouteStep(done: seq<Exchange>, prompts: seq<Prompt>, offered: bool, routes: seq<Line>, k: nat, n: nat,
                  world: World)
    requires k < |routes|
    ensures var x := Exchange(routes[k], prompts, offered, world.complete(n + k));
            done + RouteTries(prompts, offered, routes, k, n, world) == done + [x]
              + if x.outcome == Raised(true) then RouteTries(prompts, offered, routes, k + 1, n, world) else []
  {
  }

  /** What was asked of the routes from k on: in order, each but the last failing over, and
      stopping early only at an outcome that is no failover. */
  predicate WalkedFrom(tried: seq<Exchange>, prompts: seq<Prompt>, routes: seq<Line>, k: nat)
    requires k <= |routes|
  {
    && |tried| <= |routes| - k
    && (forall i :: 0 <= i < |tried| ==> tried[i].line == routes[k + i] && tried[i].prompts == prompts)
    && (forall i :: 0 <= i < |tried| - 1 ==> tried[i].outcome == Raised(true))
    && (|tried| < |routes| - k ==> tried != [] && tried[|tried| - 1].outcome != Raised(true))
  }

  lemma WalkCons(x: Exchange, rest: seq<Exchange>, prompts: seq<Prompt>, routes: seq<Line>, k: nat)
    requires k < |routes| && x.line == routes[k] && x.prompts == prompts && x.outcome == Raised(true)
    requires WalkedFrom(rest, prompts, routes, k + 1)
    ensures WalkedFrom([x] + rest, prompts, routes, k)
  {
    var tried := [x] + rest;
    assert forall i :: 1 <= i < |tried| ==> tried[i] == rest[i - 1];
  }

  lemma {:induction false} WalkFrom(prompts: seq<Prompt>, offered: bool, routes: seq<Line>, k: nat, n: nat,
                                    world: World)
    requires k <= |routes|
    ensures WalkedFrom(RouteTries(prompts, offered, routes, k, n, world), prompts, routes, k)
    decreases |routes| - k
  {
    if k < |routes| {
      var x := Exchange(routes[k], prompts, offered, world.complete(n + k));
      if x.outcome == Raised(true) {
        WalkFrom(prompts, offered, routes, k + 1, n, world);
        WalkCons(x, RouteTries(prompts, offered, routes, k + 1, n, world), prompts, routes, k);
      } else {
        assert [x] + [] == [x];
      }
    }
  }

  /** Failed requests add no usage. */
  lemma {:induction false} FailuresAreFree(xs: seq<Exchange>, failed: seq<Exchange>)
    requires forall i :: 0 <= i < |failed| ==> failed[i].outcome.Raised?
    ensures UsageOf(xs + failed) == UsageOf(xs)
    decreases |failed|
  {
    if failed == [] {
      assert xs + failed == xs;
    } else {
      var last := |failed| - 1;
      FailuresAreFree(xs, failed[..last]);
      UsageSnoc(xs + failed[..last], failed[last]);
      SplitLast(xs, failed);
    }
  }

  lemma BillLast(xs: seq<Exchange>, failed: seq<Exchange>, x: Exchange)
    requires forall i :: 0 <= i < |failed| ==> failed[i].outcome.Raised?
    ensures UsageOf(xs + (failed + [x]))
         == UsageOf(xs) + if x.outcome.Returned? then [Bill(x.line, x.outcome.completion)] else []
  {
    FailuresAreFree(xs, failed);
    UsageSnoc(xs + failed, x);
    assert xs + (failed + [x]) == xs + failed + [x];
  }

  /** No route at all counts as a failure that nothing fails over from. */
  function LastOutcome(tries: seq<Exchange>): Outcome {
    if tries == [] then Raised(false) else tries[|tries| - 1].outcome
  }

  function Billed(tries: seq<Exchange>): seq<Usage> {
    if LastOutcome(tries).Returned? then [Bill(tries[|tries| - 1].line, LastOutcome(tries).completion)] else []
  }

  /** A walk over the routes adds one usage record, naming the route that answered, if one
      did. */
  lemma TriesBilled(xs: seq<Exchange>, tried: seq<Exchange>)
    requires forall i :: 0 <= i < |tried| - 1 ==> tried[i].outcome == Raised(true)
    ensures UsageOf(xs + tried) == UsageOf(xs) + Billed(tried)
  {
    if tried == [] {
      assert xs + tried == xs;
    } else {
      var last := |tried| - 1;
      BillLast(xs, tried[..last], tried[last]);
      assert tried == tried[..last] + [tried[last]];
    }
  }

  lemma WalkSettles(xs: seq<Exchange>, prompts: seq<Prompt>, offered: bool, routes: seq<Line>, world: World)
    requires WellFormed(prompts) && RequestsWellFormed(xs)
    ensures var tried := RouteTries(prompts, offered, routes, 0, |xs|, world);
            RequestsWellFormed(xs + tried) && UsageOf(xs + tried) == UsageOf(xs) + Billed(tried)
  {
    var tried := RouteTries(prompts, offered, routes, 0, |xs|, world);
    WalkFrom(prompts, offered, routes, 0, |xs|, world);
    TriesBilled(xs, tried);
    RequestsAppend(xs, tried, prompts);
  }

  lemma WalkedMeans(tried: seq<Exchange>, prompts: seq<Prompt>, routes: seq<Line>)
    requires WalkedFrom(tried, prompts, routes, 0)
    ensures Walked(tried, routes)
  {
  }

  /** Routing names the first route in priority order that did not fail over. */
  lemma RoutesAreWalked(prompts: seq<Prompt>, offered: bool, routes: seq<Line>, n: nat, world: World)
    ensures Walked(RouteTries(prompts, offered, routes, 0, n, world), routes)
  {
    WalkFrom(prompts, offered, routes, 0, n, world);
    WalkedMeans(RouteTries(prompts, offered, routes, 0, n, world), prompts, routes);
  }

  predicate Switches(c: Chat, cfg: Config, world: World) {
    !cfg.useGroup && cfg.fallbackConfigured && world.complete(|c.exchanges|) == Raised(true)
  }

  /** The active line is asked, and after a temporary failure the fallback line. */
  function LineTries(c: Chat, cfg: Config, world: World): seq<Exchange> {
    var n := |c.exchanges|;
    var first := Exchange(c.active, c.prompts, cfg.tools.Some?, world.complete(n));
    var second := Exchange(cfg.fallback, c.prompts, cfg.tools.Some?, world.complete(n + 1));
    [first] + if Switches(c, cfg, world) then [second] else []
  }

  lemma LinePair(c: Chat, cfg: Config, world: World, first: Exchange, second: Exchange)
    requires Switches(c, cfg, world)
    requires first == Exchange(c.active, c.prompts, cfg.tools.Some?, world.complete(|c.exchanges|))
    requires second == Exchange(cfg.fallback, c.prompts, cfg.tools.Some?, world.complete(|c.exchanges| + 1))
    ensures LineTries(c, cfg, world) == [first, second]
    ensures c.exchanges + LineTries(c, cfg, world) == c.exchanges + [first] + [second]
  {
  }

  function HeadTries(c: Chat, cfg: Config, world: World): seq<Exchange> {
    if cfg.useGroup then RouteTries(c.prompts, cfg.tools.Some?, cfg.group, 0, |c.exchanges|, world)
    else LineTries(c, cfg, world)
  }

  /** The chat after the request at the head of a round. */
  function Asked(c: Chat, cfg: Config, world: World): Chat {
    var asked := c.(exchanges := c.exchanges + HeadTries(c, cfg, world));
    if Switches(c, cfg, world) then asked.(active := cfg.fallback, usingFallback := true) else asked
  }

  lemma LastSnoc(tries: seq<Exchange>, x: Exchange)
    ensures LastOutcome(tries + [x]) == x.outcome && (tries + [x])[|tries + [x]| - 1] == x
  {
  }

  function Conclusion(c: Completion): Result {
    if Blank(c.content, WHITESPACE) then Failure else Answer(c.content)
  }

  /** The forced ending on a line. */
  function Closing(c: Chat, line: Line, world: World): End {
    var x := Exchange(line, c.prompts + [User(CLOSING_REQUEST)], false, world.complete(|c.exchanges|));
    var result :=
      if x.outcome.Raised? then Failure
      else if Blank(x.outcome.completion.content, WHITESPACE) then Answer(APOLOGY)
      else Answer(x.outcome.completion.content);
    End(c.exchanges + [x], c.executed, result)
  }

  /** What becomes of a round that asks for more calls than are left. */
  datatype Ruling = Halt(end: End) | Proceed(chat: Chat, calls: seq<Call>)

  function Ruled(c: Chat, cfg: Config, world: World): (r: Ruling)
    ensures r.Proceed? ==> r.calls != [] && c.count + |r.calls| <= cfg.maxToolCalls && r.chat.count == c.count
  {
    if !cfg.fallbackConfigured || c.usingFallback then Halt(Closing(c, c.active, world))
    else
      var x := Exchange(cfg.fallback, c.prompts, true, world.complete(|c.exchanges|));
      var again := c.(exchanges := c.exchanges + [x], active := cfg.fallback, usingFallback := true);
      if x.outcome.Raised? then Halt(End(again.exchanges, c.executed, Failure))
      else if x.outcome.completion.calls == [] then
        Halt(End(again.exchanges, c.executed, Conclusion(x.outcome.completion)))
      else if c.count + |x.outcome.completion.calls| > cfg.maxToolCalls then Halt(Closing(again, cfg.fallback, world))
      else Proceed(again, x.outcome.completion.calls)
  }

  function AfterRound(c: Chat, calls: seq<Call>, tools: set<string>, world: World): Chat {
    c.(prompts := c.prompts + [ToolCalls(Ids(calls))] + Results(Ids(calls)),
       executed := c.executed + Runnable(calls, tools, world), count := c.count + |calls|)
  }

  /** The whole tool loop from a chat on. */
  function Play(c: Chat, cfg: Config, world: World): End
    requires c.count <= cfg.maxToolCalls
    decreases cfg.maxToolCalls - c.count, 1
  {
    var outcome := LastOutcome(HeadTries(c, cfg, world));
    if outcome.Raised? then End(Asked(c, cfg, world).exchanges, c.executed, Failure)
    else Decided(Asked(c, cfg, world), outcome.completion, cfg, world)
  }

  /** The loop from a completion on. */
  function Decided(a: Chat, completion: Completion, cfg: Config, world: World): End
    requires a.count <= cfg.maxToolCalls
    decreases cfg.maxToolCalls - a.count, 0
  {
    if completion.calls == [] then End(a.exchanges, a.executed, Conclusion(completion))
    else if cfg.tools == None then End(a.exchanges, a.executed, Failure)
    else if a.count + |completion.calls| <= cfg.maxToolCalls then
      Play(AfterRound(a, completion.calls, cfg.tools.value, world), cfg, world)
    else
      match Ruled(a, cfg, world)
      case Halt(end) => end
      case Proceed(chat, calls) => Play(AfterRound(chat, calls, cfg.tools.value, world), cfg, world)
  }

  /** What is returned as an answer is the last completion's own text and not blank, or the
      stock apology when a closing request made without tools came back blank. */
  predicate Concluded(result: Result, xs: seq<Exchange>) {
    result.Answer? ==>
      && xs != [] && xs[|xs| - 1].outcome.Returned?
      && var content := xs[|xs| - 1].outcome.completion.content;
         if Blank(content, WHITESPACE) then result.text == APOLOGY && !xs[|xs| - 1].offered else result.text == content
  }

  lemma {:induction false} PlayConcludes(c: Chat, cfg: Config, world: World)
    requires c.count <= cfg.maxToolCalls
    ensures Concluded(Play(c, cfg, world).result, Play(c, cfg, world).exchanges)
    decreases cfg.maxToolCalls - c.count
  {
    var a := Asked(c, cfg, world);
    var outcome := LastOutcome(HeadTries(c, cfg, world));
    if outcome.Returned? && outcome.completion.calls != [] && cfg.tools.Some? {
      if a.count + |outcome.completion.calls| <= cfg.maxToolCalls {
        PlayConcludes(AfterRound(a, outcome.completion.calls, cfg.tools.value, world), cfg, world);
      } else if Ruled(a, cfg, world).Proceed? {
        var r := Ruled(a, cfg, world);
        PlayConcludes(AfterRound(r.chat, r.calls, cfg.tools.value, world), cfg, world);
      }
    }
  }

  /** What the last exchange comes to. Only the closing request is made without tools when
      tools are enabled; its blank content is the one excused. */
  predicate Ends(result: Result, xs: seq<Exchange>, cfg: Config) {
    if xs == [] || xs[|xs| - 1].outcome.Raised? then result == Failure
    else
      var last := xs[|xs| - 1];
      var completion := last.outcome.completion;
      if cfg.tools.Some? && !last.offered then
        result == Answer(if Blank(completion.content, WHITESPACE) then APOLOGY else completion.content)
      else if completion.calls != [] || Blank(completion.content, WHITESPACE) then result == Failure
      else result == Answer(completion.content)
  }

  lemma {:induction false} RoutesOffered(prompts: seq<Prompt>, offered: bool, routes: seq<Line>, k: nat, n: nat,
                                         world: World)
    requires k <= |routes|
    ensures forall i :: 0 <= i < |RouteTries(prompts, offered, routes, k, n, world)| ==>
      && RouteTries(prompts, offered, routes, k, n, world)[i].offered == offered
      && RouteTries(prompts, offered, routes, k, n, world)[i].prompts == prompts
    decreases |routes| - k
  {
    if k < |routes| {
      RoutesOffered(prompts, offered, routes, k + 1, n, world);
    }
  }

  lemma HeadOffered(c: Chat, cfg: Config, world: World)
    ensures HeadTries(c, cfg, world) != [] ==>
      HeadTries(c, cfg, world)[|HeadTries(c, cfg, world)| - 1].offered == cfg.tools.Some?
    ensures Asked(c, cfg, world).exchanges == c.exchanges + HeadTries(c, cfg, world)
  {
    if cfg.useGroup {
      RoutesOffered(c.prompts, cfg.tools.Some?, cfg.group, 0, |c.exchanges|, world);
    }
  }

  lemma HeadEnds(c: Chat, cfg: Config, world: World)
    requires c.exchanges == [] || HeadTries(c, cfg, world) != []
    ensures var outcome := LastOutcome(HeadTries(c, cfg, world));
            var xs := Asked(c, cfg, world).exchanges;
            && (outcome.Raised? ==> Ends(Failure, xs, cfg))
            && (outcome.Returned? && outcome.completion.calls == [] ==> Ends(Conclusion(outcome.completion), xs, cfg))
            && (outcome.Returned? && outcome.completion.calls != [] && cfg.tools == None ==> Ends(Failure, xs, cfg))
  {
    HeadOffered(c, cfg, world);
    var xs, tries := Asked(c, cfg, world).exchanges, HeadTries(c, cfg, world);
    if tries != [] {
      assert xs[|xs| - 1] == tries[|tries| - 1];
    }
  }

  /** The result of the loop follows from its last exchange alone. */
  lemma {:induction false} PlayEnds(c: Chat, cfg: Config, world: World)
    requires c.count <= cfg.maxToolCalls && (c.exchanges == [] || !cfg.useGroup || cfg.group != [])
    ensures Ends(Play(c, cfg, world).result, Play(c, cfg, world).exchanges, cfg)
    decreases cfg.maxToolCalls - c.count
  {
    HeadEnds(c, cfg, world);
    HeadOffered(c, cfg, world);
    var a := Asked(c, cfg, world);
    var outcome := LastOutcome(HeadTries(c, cfg, world));
    if outcome.Returned? && outcome.completion.calls != [] && cfg.tools.Some? {
      if a.count + |outcome.completion.calls| <= cfg.maxToolCalls {
        PlayEnds(AfterRound(a, outcome.completion.calls, cfg.tools.value, world), cfg, world);
      } else if Ruled(a, cfg, world).Proceed? {
        var r := Ruled(a, cfg, world);
        PlayEnds(AfterRound(r.chat, r.calls, cfg.tools.value, world), cfg, world);
      }
    }
  }

  // ------------------------------------------------------ which line, which transcript

  function FirstLine(cfg: Config): Line {
    if cfg.vision.Some? then cfg.vision.value else cfg.primary
  }

  /** The tool calls the completions on record ask for. */
  function CallsIn(xs: seq<Exchange>): nat {
    if xs == [] then 0
    else
      var last := xs[|xs| - 1].outcome;
      CallsIn(xs[..|xs| - 1]) + if last.Returned? then |last.completion.calls| else 0
  }

  /** Exchange i asks for more tool calls than are left. */
  predicate Overran(xs: seq<Exchange>, i: nat, cfg: Config)
    requires i < |xs|
  {
    xs[i].outcome.Returned? && CallsIn(xs[..i + 1]) > cfg.maxToolCalls
  }

  /** Exchange i makes the conversation leave its first line: a temporary failure, or a round
      that overran on the primary line. */
  predicate Leaves(xs: seq<Exchange>, i: nat, cfg: Config)
    requires i < |xs|
  {
    cfg.fallbackConfigured && (xs[i].outcome == Raised(true) || (cfg.vision == None && Overran(xs, i, cfg)))
  }

  /** Without a group, the conversation starts on the vision line if there is one, else on the
      primary; it stays there for n exchanges, up to the first that makes it leave, and every
      later exchange is on the fallback line. */
  predicate OnLines(xs: seq<Exchange>, cfg: Config, n: nat) {
    && n <= |xs|
    && (forall i :: 0 <= i < n ==> xs[i].line == if cfg.vision.Some? then cfg.vision.value else cfg.primary)
    && (forall i :: n <= i < |xs| ==> xs[i].line == cfg.fallback)
    && (n < |xs| ==> n > 0 && Leaves(xs, n - 1, cfg))
    && (forall i :: 0 <= i < |xs| && Leaves(xs, i, cfg) ==> n <= i + 1)
  }

  /** The line in use after these exchanges. */
  function CurrentLine(xs: seq<Exchange>, cfg: Config, n: nat): Line {
    if n < |xs| then cfg.fallback else FirstLine(cfg)
  }

  lemma LeavesPrefix(xs: seq<Exchange>, x: Exchange, i: nat, cfg: Config)
    requires i < |xs|
    ensures Leaves(xs + [x], i, cfg) <==> Leaves(xs, i, cfg)
  {
    assert (xs + [x])[..i + 1] == xs[..i + 1];
  }

  /** One more exchange on the line in use, after one that does not make it leave. */
  lemma StaysOnLine(xs: seq<Exchange>, x: Exchange, cfg: Config, n: nat) returns (m: nat)
    requires OnLines(xs, cfg, n) && x.line == CurrentLine(xs, cfg, n)
    requires n == |xs| > 0 ==> !Leaves(xs, n - 1, cfg)
    ensures OnLines(xs + [x], cfg, m) && (m == |xs| + 1 <==> n == |xs|) && (n < |xs| ==> m == n)
  {
    m := if n < |xs| then n else |xs| + 1;
    forall i | 0 <= i < |xs| ensures Leaves(xs + [x], i, cfg) <==> Leaves(xs, i, cfg) {
      LeavesPrefix(xs, x, i, cfg);
    }
  }

  /** One more exchange on the fallback line, after one that makes the conversation leave. */
  lemma LeavesLine(xs: seq<Exchange>, x: Exchange, cfg: Config)
    requires xs != [] && OnLines(xs, cfg, |xs|) && Leaves(xs, |xs| - 1, cfg) && x.line == cfg.fallback
    ensures OnLines(xs + [x], cfg, |xs|)
  {
    forall i | 0 <= i < |xs| ensures Leaves(xs + [x], i, cfg) <==> Leaves(xs, i, cfg) {
      LeavesPrefix(xs, x, i, cfg);
    }
  }

  lemma CallsSnoc(xs: seq<Exchange>, x: Exchange)
    ensures CallsIn(xs + [x]) == CallsIn(xs) + if x.outcome.Returned? then |x.outcome.completion.calls| else 0
  {
    assert (xs + [x])[..|xs|] == xs;
  }

  lemma OverranLast(xs: seq<Exchange>, x: Exchange, cfg: Config)
    ensures Overran(xs + [x], |xs|, cfg) <==>
      x.outcome.Returned? && CallsIn(xs) + |x.outcome.completion.calls| > cfg.maxToolCalls
  {
    CallsSnoc(xs, x);
    assert (xs + [x])[..|xs| + 1] == xs + [x];
  }

  /** A chat between rounds, n exchanges of it on its first line. */
  predicate Between(c: Chat, cfg: Config, n: nat) {
    && OnLines(c.exchanges, cfg, n) && c.active == CurrentLine(c.exchanges, cfg, n)
    && c.usingFallback == (n < |c.exchanges| || cfg.vision.Some?)
    && (n == |c.exchanges| ==> c.count == CallsIn(c.exchanges))
    && (n == |c.exchanges| > 0 ==> !Leaves(c.exchanges, n - 1, cfg))
  }

  /** The chat once the head of a round has returned a completion. */
  predicate Heading(a: Chat, completion: Completion, cfg: Config, n: nat) {
    && OnLines(a.exchanges, cfg, n) && a.active == CurrentLine(a.exchanges, cfg, n)
    && a.usingFallback == (n < |a.exchanges| || cfg.vision.Some?)
    && a.exchanges != [] && a.exchanges[|a.exchanges| - 1].outcome == Returned(completion)
    && (n == |a.exchanges| ==> a.count + |completion.calls| == CallsIn(a.exchanges))
  }

  /** The head of a round stays on its line. */
  lemma HeadStays(c: Chat, cfg: Config, world: World, n: nat) returns (m: nat)
    requires !cfg.useGroup && Between(c, cfg, n) && !Switches(c, cfg, world)
    ensures OnLines(Asked(c, cfg, world).exchanges, cfg, m)
    ensures var outcome := LastOutcome(HeadTries(c, cfg, world));
            outcome.Returned? ==> Heading(Asked(c, cfg, world), outcome.completion, cfg, m)
  {
    var xs := c.exchanges;
    var first := Exchange(c.active, c.prompts, cfg.tools.Some?, world.complete(|xs|));
    m := StaysOnLine(xs, first, cfg, n);
    CallsSnoc(xs, first);
    assert HeadTries(c, cfg, world) == [first];
  }

  lemma HeadSwitches(c: Chat, cfg: Config, world: World, n: nat) returns (m: nat)
    requires !cfg.useGroup && Between(c, cfg, n) && Switches(c, cfg, world)
    ensures OnLines(Asked(c, cfg, world).exchanges, cfg, m) && m < |Asked(c, cfg, world).exchanges|
    ensures Asked(c, cfg, world).active == cfg.fallback && Asked(c, cfg, world).usingFallback
  {
    var xs := c.exchanges;
    var first := Exchange(c.active, c.prompts, cfg.tools.Some?, world.complete(|xs|));
    var second := Exchange(cfg.fallback, c.prompts, cfg.tools.Some?, world.complete(|xs| + 1));
    LinePair(c, cfg, world, first, second);
    m := StaysOnLine(xs, first, cfg, n);
    if m == |xs| + 1 {
      LeavesLine(xs + [first], second, cfg);
    } else {
      m := StaysOnLine(xs + [first], second, cfg, m);
    }
  }

  lemma HeadLines(c: Chat, cfg: Config, world: World, n: nat) returns (m: nat)
    requires !cfg.useGroup && Between(c, cfg, n)
    ensures OnLines(Asked(c, cfg, world).exchanges, cfg, m)
    ensures var outcome := LastOutcome(HeadTries(c, cfg, world));
            outcome.Returned? ==> Heading(Asked(c, cfg, world), outcome.completion, cfg, m)
  {
    if Switches(c, cfg, world) {
      m := HeadSwitches(c, cfg, world, n);
      var tries := HeadTries(c, cfg, world);
      assert Asked(c, cfg, world).exchanges[|c.exchanges| + |tries| - 1] == tries[|tries| - 1];
    } else {
      m := HeadStays(c, cfg, world, n);
    }
  }

  /** A round within the limit leaves the chat on its line. */
  lemma RoundLines(a: Chat, completion: Completion, cfg: Config, tools: set<string>, world: World, n: nat)
    requires Heading(a, completion, cfg, n) && a.count + |completion.calls| <= cfg.maxToolCalls
    ensures Between(AfterRound(a, completion.calls, tools, world), cfg, n)
  {
    if n == |a.exchanges| {
      assert a.exchanges[..n] == a.exchanges;
    }
  }

  lemma ClosingLines(c: Chat, line: Line, cfg: Config, world: World, n: nat) returns (m: nat)
    requires OnLines(c.exchanges, cfg, n) && line == CurrentLine(c.exchanges, cfg, n)
    requires n == |c.exchanges| > 0 ==> !Leaves(c.exchanges, n - 1, cfg)
    ensures OnLines(Closing(c, line, world).exchanges, cfg, m)
  {
    m := StaysOnLine(c.exchanges, Exchange(line, c.prompts + [User(CLOSING_REQUEST)], false,
                                           world.complete(|c.exchanges|)), cfg, n);
  }

  /** An overrun round: closed on its line, or tried once more on the fallback line. */
  lemma RuledLines(a: Chat, completion: Completion, cfg: Config, world: World, n: nat) returns (m: nat)
    requires Heading(a, completion, cfg, n) && a.count + |completion.calls| > cfg.maxToolCalls
    ensures match Ruled(a, cfg, world)
            case Halt(end) => OnLines(end.exchanges, cfg, m)
            case Proceed(chat, calls) =>
              && m < |chat.exchanges| && OnLines(chat.exchanges, cfg, m)
              && chat.active == cfg.fallback && chat.usingFallback
  {
    var xs := a.exchanges;
    if n == |xs| {
      assert xs[..n] == xs;
    }
    if !cfg.fallbackConfigured || a.usingFallback {
      m := ClosingLines(a, a.active, cfg, world, n);
    } else {
      var x := Exchange(cfg.fallback, a.prompts, true, world.complete(|xs|));
      var again := a.(exchanges := xs + [x], active := cfg.fallback, usingFallback := true);
      LeavesLine(xs, x, cfg);
      m := |xs|;
      if x.outcome.Returned? && a.count + |x.outcome.completion.calls| > cfg.maxToolCalls {
        m := ClosingLines(again, cfg.fallback, cfg, world, |xs|);
        if x.outcome.completion.calls == [] {
          m := |xs|;
        }
      }
    }
  }

  /** The loop keeps to its lines, from a completion on. */
  lemma {:induction false} DecidedLines(a: Chat, completion: Completion, cfg: Config, world: World, n: nat)
    returns (m: nat)
    requires !cfg.useGroup && a.count <= cfg.maxToolCalls && Heading(a, completion, cfg, n)
    ensures OnLines(Decided(a, completion, cfg, world).exchanges, cfg, m)
    decreases cfg.maxToolCalls - a.count, 0
  {
    m := n;
    if completion.calls != [] && cfg.tools.Some? {
      if a.count + |completion.calls| <= cfg.maxToolCalls {
        RoundLines(a, completion, cfg, cfg.tools.value, world, n);
        m := PlayLines(AfterRound(a, completion.calls, cfg.tools.value, world), cfg, world, n);
      } else {
        m := RuledLines(a, completion, cfg, world, n);
        var ruling := Ruled(a, cfg, world);
        if ruling.Proceed? {
          m := PlayLines(AfterRound(ruling.chat, ruling.calls, cfg.tools.value, world), cfg, world, m);
        }
      }
    }
  }

  /** The whole loop keeps to its lines. */
  lemma {:induction false} PlayLines(c: Chat, cfg: Config, world: World, n: nat) returns (m: nat)
    requires !cfg.useGroup && c.count <= cfg.maxToolCalls && Between(c, cfg, n)
    ensures OnLines(Play(c, cfg, world).exchanges, cfg, m)
    decreases cfg.maxToolCalls - c.count, 1
  {
    m := HeadLines(c, cfg, world, n);
    var outcome := LastOutcome(HeadTries(c, cfg, world));
    if outcome.Returned? {
      m := DecidedLines(Asked(c, cfg, world), outcome.completion, cfg, world, m);
    }
  }

  function ResultsIn(ps: seq<Prompt>): nat {
    if ps == [] then 0 else ResultsIn(ps[..|ps| - 1]) + if ps[|ps| - 1].ToolResult? then 1 else 0
  }

  lemma {:induction false} ResultsCat(a: seq<Prompt>, b: seq<Prompt>)
    ensures ResultsIn(a + b) == ResultsIn(a) + ResultsIn(b)
    decreases |b|
  {
    if b == [] {
      assert a + b == a;
    } else {
      ResultsCat(a, b[..|b| - 1]);
      assert (a + b)[..|a + b| - 1] == a + b[..|b| - 1];
    }
  }

  lemma {:induction false} ResultsAll(ids: seq<string>)
    ensures ResultsIn(Results(ids)) == |ids|
  {
    if ids != [] {
      var front := ids[..|ids| - 1];
      ResultsAll(front);
      assert Results(ids)[..|ids| - 1] == Results(front);
    }
  }

  lemma {:induction false} PlainHasNone(ps: seq<Prompt>)
    requires Plain(ps)
    ensures ResultsIn(ps) == 0
  {
    if ps != [] {
      PlainHasNone(ps[..|ps| - 1]);
    }
  }

  /** What a round adds to the transcript. */
  function Round(calls: seq<Call>): seq<Prompt> {
    [ToolCalls(Ids(calls))] + Results(Ids(calls))
  }

  lemma RoundCounts(ps: seq<Prompt>, calls: seq<Call>)
    ensures ResultsIn(ps + Round(calls)) == ResultsIn(ps) + |calls|
    ensures ps + [ToolCalls(Ids(calls))] + Results(Ids(calls)) == ps + Round(calls)
  {
    var head := [ToolCalls(Ids(calls))];
    ResultsAll(Ids(calls));
    ResultsCat(head, Results(Ids(calls)));
    assert head[..0] == [];
    ResultsCat(ps, Round(calls));
  }

  /** How request y can come after exchange x: the same request again after a temporary
      failure; the transcript with the round's results when the round was within the limit of
      calls; and otherwise the same request on the fallback line, or the closing request. */
  predicate Follows(x: Exchange, y: Exchange, cfg: Config) {
    match x.outcome
    case Raised(failover) => failover && y.prompts == x.prompts && y.offered == x.offered
    case Returned(completion) =>
      && completion.calls != [] && cfg.tools.Some?
      && if ResultsIn(x.prompts) + |completion.calls| <= cfg.maxToolCalls then
           y.offered && y.prompts == x.prompts + Round(completion.calls)
         else
           || (y.offered && y.prompts == x.prompts && y.line == cfg.fallback && cfg.fallbackConfigured)
           || (!y.offered && y.prompts == x.prompts + [User(CLOSING_REQUEST)])
  }

  /** The first request carries the history, and each later one follows from the one before. */
  predicate Chained(xs: seq<Exchange>, start: seq<Prompt>, cfg: Config) {
    && (xs != [] ==> xs[0].prompts == start && xs[0].offered == cfg.tools.Some?)
    && forall i :: 0 <= i < |xs| - 1 ==> Follows(xs[i], xs[i + 1], cfg)
  }

  /** Exchange y may come next. */
  predicate Next(xs: seq<Exchange>, start: seq<Prompt>, y: Exchange, cfg: Config) {
    if xs == [] then y.prompts == start && y.offered == cfg.tools.Some? else Follows(xs[|xs| - 1], y, cfg)
  }

  lemma ChainSnoc(xs: seq<Exchange>, start: seq<Prompt>, y: Exchange, cfg: Config)
    requires Chained(xs, start, cfg) && Next(xs, start, y, cfg)
    ensures Chained(xs + [y], start, cfg)
  {
  }

  /** A request to any line with the chat's transcript may come next, and the transcript
      holds a result for each call counted. */
  ghost predicate Poised(c: Chat, start: seq<Prompt>, cfg: Config) {
    && Chained(c.exchanges, start, cfg) && ResultsIn(c.prompts) == c.count
    && forall line, outcome {:trigger Exchange(line, c.prompts, cfg.tools.Some?, outcome)} ::
         Next(c.exchanges, start, Exchange(line, c.prompts, cfg.tools.Some?, outcome), cfg)
  }

  lemma Regroup(xs: seq<Exchange>, x: Exchange, rest: seq<Exchange>)
    ensures xs + ([x] + rest) == xs + [x] + rest
  {
  }

  lemma {:induction false} RoutesChain(xs: seq<Exchange>, start: seq<Prompt>, prompts: seq<Prompt>, cfg: Config,
                                       k: nat, n: nat, world: World)
    requires k <= |cfg.group| && Chained(xs, start, cfg)
    requires forall line, outcome {:trigger Exchange(line, prompts, cfg.tools.Some?, outcome)} ::
      Next(xs, start, Exchange(line, prompts, cfg.tools.Some?, outcome), cfg)
    ensures Chained(xs + RouteTries(prompts, cfg.tools.Some?, cfg.group, k, n, world), start, cfg)
    decreases |cfg.group| - k
  {
    if k == |cfg.group| {
      assert xs + [] == xs;
    } else {
      var x := Exchange(cfg.group[k], prompts, cfg.tools.Some?, world.complete(n + k));
      ChainSnoc(xs, start, x, cfg);
      if x.outcome == Raised(true) {
        RoutesChain(xs + [x], start, prompts, cfg, k + 1, n, world);
        Regroup(xs, x, RouteTries(prompts, cfg.tools.Some?, cfg.group, k + 1, n, world));
      } else {
        assert [x] + [] == [x];
      }
    }
  }

  lemma HeadChains(c: Chat, start: seq<Prompt>, cfg: Config, world: World)
    requires Poised(c, start, cfg)
    ensures Chained(Asked(c, cfg, world).exchanges, start, cfg)
  {
    if cfg.useGroup {
      RoutesChain(c.exchanges, start, c.prompts, cfg, 0, |c.exchanges|, world);
    } else {
      var first := Exchange(c.active, c.prompts, cfg.tools.Some?, world.complete(|c.exchanges|));
      ChainSnoc(c.exchanges, start, first, cfg);
      if Switches(c, cfg, world) {
        var second := Exchange(cfg.fallback, c.prompts, cfg.tools.Some?, world.complete(|c.exchanges| + 1));
        LinePair(c, cfg, world, first, second);
        ChainSnoc(c.exchanges + [first], start, second, cfg);
      } else {
        assert HeadTries(c, cfg, world) == [first];
      }
    }
  }

  /** The last exchange of xs returned this completion to a request with the transcript ps. */
  predicate Answered(xs: seq<Exchange>, ps: seq<Prompt>, completion: Completion) {
    && xs != [] && xs[|xs| - 1].prompts == ps && xs[|xs| - 1].offered
    && xs[|xs| - 1].outcome == Returned(completion)
  }

  lemma HeadReturns(c: Chat, cfg: Config, world: World)
    requires LastOutcome(HeadTries(c, cfg, world)).Returned? && cfg.tools.Some?
    ensures Answered(Asked(c, cfg, world).exchanges, c.prompts, LastOutcome(HeadTries(c, cfg, world)).completion)
  {
    HeadOffered(c, cfg, world);
    var xs, tries := Asked(c, cfg, world).exchanges, HeadTries(c, cfg, world);
    assert xs[|xs| - 1] == tries[|tries| - 1];
    if cfg.useGroup {
      RoutesOffered(c.prompts, cfg.tools.Some?, cfg.group, 0, |c.exchanges|, world);
    }
  }

  lemma RoundPoised(a: Chat, start: seq<Prompt>, completion: Completion, cfg: Config, world: World)
    requires cfg.tools.Some? && Chained(a.exchanges, start, cfg) && ResultsIn(a.prompts) == a.count
    requires Answered(a.exchanges, a.prompts, completion) && completion.calls != []
    requires a.count + |completion.calls| <= cfg.maxToolCalls
    ensures Poised(AfterRound(a, completion.calls, cfg.tools.value, world), start, cfg)
  {
    RoundCounts(a.prompts, completion.calls);
  }

  lemma RuledChains(a: Chat, start: seq<Prompt>, completion: Completion, cfg: Config, world: World)
    requires cfg.tools.Some? && Chained(a.exchanges, start, cfg) && ResultsIn(a.prompts) == a.count
    requires Answered(a.exchanges, a.prompts, completion) && completion.calls != []
    requires a.count + |completion.calls| > cfg.maxToolCalls
    ensures match Ruled(a, cfg, world)
            case Halt(end) => Chained(end.exchanges, start, cfg)
            case Proceed(chat, calls) =>
              && Chained(chat.exchanges, start, cfg) && ResultsIn(chat.prompts) == chat.count
              && chat.exchanges != [] && chat.exchanges[|chat.exchanges| - 1].outcome.Returned?
              && calls == chat.exchanges[|chat.exchanges| - 1].outcome.completion.calls
              && Answered(chat.exchanges, chat.prompts, chat.exchanges[|chat.exchanges| - 1].outcome.completion)
  {
    var n := |a.exchanges|;
    if !cfg.fallbackConfigured || a.usingFallback {
      ChainSnoc(a.exchanges, start,
                Exchange(a.active, a.prompts + [User(CLOSING_REQUEST)], false, world.complete(n)), cfg);
    } else {
      var x := Exchange(cfg.fallback, a.prompts, true, world.complete(n));
      ChainSnoc(a.exchanges, start, x, cfg);
      if x.outcome.Returned? && a.count + |x.outcome.completion.calls| > cfg.maxToolCalls
         && x.outcome.completion.calls != [] {
        ChainSnoc(a.exchanges + [x], start, Exchange(cfg.fallback, a.prompts + [User(CLOSING_REQUEST)], false,
                                                     world.complete(n + 1)), cfg);
      }
    }
  }

  /** Every request of the loop follows from the exchange before it. */
  lemma {:induction false} PlayChains(c: Chat, start: seq<Prompt>, cfg: Config, world: World)
    requires c.count <= cfg.maxToolCalls && Poised(c, start, cfg)
    ensures Chained(Play(c, cfg, world).exchanges, start, cfg)
    decreases cfg.maxToolCalls - c.count
  {
    HeadChains(c, start, cfg, world);
    var a := Asked(c, cfg, world);
    var outcome := LastOutcome(HeadTries(c, cfg, world));
    if outcome.Returned? && outcome.completion.calls != [] && cfg.tools.Some? {
      HeadReturns(c, cfg, world);
      if a.count + |outcome.completion.calls| <= cfg.maxToolCalls {
        RoundPoised(a, start, outcome.completion, cfg, world);
        PlayChains(AfterRound(a, outcome.completion.calls, cfg.tools.value, world), start, cfg, world);
      } else {
        RuledChains(a, start, outcome.completion, cfg, world);
        var r := Ruled(a, cfg, world);
        if r.Proceed? {
          RoundPoised(r.chat, start, r.chat.exchanges[|r.chat.exchanges| - 1].outcome.completion, cfg, world);
          PlayChains(AfterRound(r.chat, r.calls, cfg.tools.value, world), start, cfg, world);
        }
      }
    }
  }

  /** The route of the group that comes after exchange x on route at, -1 for none: the next
      one after a temporary failure, the first one again after a round within the limit. */
  function NextRoute(x: Exchange, at: int, cfg: Config): int {
    if x.outcome.Raised? then if at >= 0 then at + 1 else -1
    else if ResultsIn(x.prompts) + |x.outcome.completion.calls| <= cfg.maxToolCalls then 0
    else -1
  }

  /** With a group, exchange i is on route at[i]: every round walks the routes from the first
      on until one does not fail over. -1 stands for the retry and the closing request. */
  predicate OnGroup(xs: seq<Exchange>, cfg: Config, at: seq<int>) {
    && |at| == |xs| && (xs != [] ==> at[0] == 0)
    && (forall i :: 0 <= i < |xs| ==> -1 <= at[i] < |cfg.group|)
    && (forall i :: 0 <= i < |xs| ==>
          if at[i] >= 0 then xs[i].line == cfg.group[at[i]] else xs[i].line in {cfg.fallback, FirstLine(cfg)})
    && (forall i :: 0 <= i < |xs| - 1 ==> at[i + 1] == NextRoute(xs[i], at[i], cfg))
  }

  /** The walk is over: the last exchange did not fail over to another route. */
  predicate WalkOver(xs: seq<Exchange>, cfg: Config, at: seq<int>)
    requires |at| == |xs|
  {
    xs != [] && xs[|xs| - 1].outcome == Raised(true) ==> at[|xs| - 1] in {-1, |cfg.group| - 1}
  }

  lemma GroupSnoc(xs: seq<Exchange>, x: Exchange, cfg: Config, at: seq<int>, next: int)
    requires OnGroup(xs, cfg, at) && -1 <= next < |cfg.group|
    requires if xs == [] then next == 0 else next == NextRoute(xs[|xs| - 1], at[|xs| - 1], cfg)
    requires if next >= 0 then x.line == cfg.group[next] else x.line in {cfg.fallback, FirstLine(cfg)}
    ensures OnGroup(xs + [x], cfg, at + [next])
  {
  }

  lemma {:induction false} RoutesGroup(xs: seq<Exchange>, cfg: Config, at: seq<int>, prompts: seq<Prompt>,
                                       k: nat, n: nat, world: World) returns (more: seq<int>)
    requires k <= |cfg.group| && OnGroup(xs, cfg, at)
    requires if xs == [] then k == 0 else k == NextRoute(xs[|xs| - 1], at[|xs| - 1], cfg)
    requires k == |cfg.group| && xs != [] && k > 0 ==> at[|xs| - 1] == k - 1
    requires k == 0 && xs != [] ==> xs[|xs| - 1].outcome.Returned?
    ensures OnGroup(xs + RouteTries(prompts, cfg.tools.Some?, cfg.group, k, n, world), cfg, more)
    ensures WalkOver(xs + RouteTries(prompts, cfg.tools.Some?, cfg.group, k, n, world), cfg, more)
    decreases |cfg.group| - k
  {
    if k == |cfg.group| {
      assert xs + [] == xs;
      more := at;
    } else {
      var x := Exchange(cfg.group[k], prompts, cfg.tools.Some?, world.complete(n + k));
      GroupSnoc(xs, x, cfg, at, k);
      if x.outcome == Raised(true) {
        more := RoutesGroup(xs + [x], cfg, at + [k], prompts, k + 1, n, world);
        Regroup(xs, x, RouteTries(prompts, cfg.tools.Some?, cfg.group, k + 1, n, world));
      } else {
        more := at + [k];
        assert [x] + [] == [x];
      }
    }
  }

  /** Between the rounds of a conversation with a group. */
  predicate GroupBetween(c: Chat, cfg: Config, at: seq<int>) {
    && OnGroup(c.exchanges, cfg, at) && ResultsIn(c.prompts) == c.count
    && c.active in {cfg.fallback, FirstLine(cfg)}
    && (c.exchanges != [] ==>
          var n := |c.exchanges| - 1; c.exchanges[n].outcome.Returned? && NextRoute(c.exchanges[n], at[n], cfg) == 0)
  }

  lemma GroupRound(a: Chat, completion: Completion, cfg: Config, tools: set<string>, world: World, at: seq<int>)
    requires OnGroup(a.exchanges, cfg, at) && ResultsIn(a.prompts) == a.count
    requires a.active in {cfg.fallback, FirstLine(cfg)} && Answered(a.exchanges, a.prompts, completion)
    requires a.count + |completion.calls| <= cfg.maxToolCalls
    ensures GroupBetween(AfterRound(a, completion.calls, tools, world), cfg, at)
  {
    RoundCounts(a.prompts, completion.calls);
  }

  lemma GroupRuled(a: Chat, completion: Completion, cfg: Config, world: World, at: seq<int>) returns (more: seq<int>)
    requires OnGroup(a.exchanges, cfg, at) && ResultsIn(a.prompts) == a.count
    requires a.active in {cfg.fallback, FirstLine(cfg)} && Answered(a.exchanges, a.prompts, completion)
    requires a.count + |completion.calls| > cfg.maxToolCalls
    ensures match Ruled(a, cfg, world)
            case Halt(end) => OnGroup(end.exchanges, cfg, more) && WalkOver(end.exchanges, cfg, more)
            case Proceed(chat, calls) =>
              && world.complete(|a.exchanges|).Returned?
              && OnGroup(chat.exchanges, cfg, more) && chat.prompts == a.prompts && chat.count == a.count
              && chat.active == cfg.fallback
              && Answered(chat.exchanges, chat.prompts, world.complete(|a.exchanges|).completion)
              && calls == world.complete(|a.exchanges|).completion.calls
  {
    var n := |a.exchanges|;
    if !cfg.fallbackConfigured || a.usingFallback {
      GroupSnoc(a.exchanges, Exchange(a.active, a.prompts + [User(CLOSING_REQUEST)], false, world.complete(n)),
                cfg, at, -1);
      more := at + [-1];
    } else {
      var x := Exchange(cfg.fallback, a.prompts, true, world.complete(n));
      GroupSnoc(a.exchanges, x, cfg, at, -1);
      more := at + [-1];
      if x.outcome.Returned? {
        assert Answered(a.exchanges + [x], a.prompts, x.outcome.completion);
        if x.outcome.completion.calls != [] && a.count + |x.outcome.completion.calls| > cfg.maxToolCalls {
          GroupSnoc(a.exchanges + [x], Exchange(cfg.fallback, a.prompts + [User(CLOSING_REQUEST)], false,
                                                world.complete(n + 1)), cfg, more, -1);
          more := more + [-1];
        }
      }
    }
  }

  /** The loop keeps to the group, from a completion on. */
  lemma {:induction false} DecidedGroup(a: Chat, completion: Completion, cfg: Config, world: World, at: seq<int>)
    returns (more: seq<int>)
    requires cfg.useGroup && a.count <= cfg.maxToolCalls && ResultsIn(a.prompts) == a.count
    requires OnGroup(a.exchanges, cfg, at) && WalkOver(a.exchanges, cfg, at)
    requires a.active in {cfg.fallback, FirstLine(cfg)}
    requires cfg.tools.Some? ==> Answered(a.exchanges, a.prompts, completion)
    ensures var xs := Decided(a, completion, cfg, world).exchanges; OnGroup(xs, cfg, more) && WalkOver(xs, cfg, more)
    decreases cfg.maxToolCalls - a.count, 0
  {
    more := at;
    if completion.calls != [] && cfg.tools.Some? {
      if a.count + |completion.calls| <= cfg.maxToolCalls {
        GroupRound(a, completion, cfg, cfg.tools.value, world, at);
        more := PlayGroup(AfterRound(a, completion.calls, cfg.tools.value, world), cfg, world, at);
      } else {
        more := GroupRuled(a, completion, cfg, world, at);
        var r := Ruled(a, cfg, world);
        if r.Proceed? {
          GroupRound(r.chat, world.complete(|a.exchanges|).completion, cfg, cfg.tools.value, world, more);
          more := PlayGroup(AfterRound(r.chat, r.calls, cfg.tools.value, world), cfg, world, more);
        }
      }
    }
  }

  /** The whole loop keeps to the group. */
  lemma {:induction false} PlayGroup(c: Chat, cfg: Config, world: World, at: seq<int>) returns (more: seq<int>)
    requires cfg.useGroup && c.count <= cfg.maxToolCalls && GroupBetween(c, cfg, at)
    ensures OnGroup(Play(c, cfg, world).exchanges, cfg, more) && WalkOver(Play(c, cfg, world).exchanges, cfg, more)
    decreases cfg.maxToolCalls - c.count, 1
  {
    more := RoutesGroup(c.exchanges, cfg, at, c.prompts, 0, |c.exchanges|, world);
    var outcome := LastOutcome(HeadTries(c, cfg, world));
    if outcome.Returned? {
      if cfg.tools.Some? {
        HeadReturns(c, cfg, world);
      }
      more := DecidedGroup(Asked(c, cfg, world), outcome.completion, cfg, world, more);
    }
  }

  /** The tools of one exchange: those its completion may run, when it was asked for with
      tools and its calls are within the limit. */
  function ToolsOf(x: Exchange, cfg: Config, world: World): seq<string> {
    if x.outcome.Returned? && x.offered && cfg.tools.Some?
       && ResultsIn(x.prompts) + |x.outcome.completion.calls| <= cfg.maxToolCalls
    then Runnable(x.outcome.completion.calls, cfg.tools.value, world)
    else []
  }

  /** The tools the record calls for, in order. */
  function ToolsRun(xs: seq<Exchange>, cfg: Config, world: World): seq<string> {
    if xs == [] then [] else ToolsRun(xs[..|xs| - 1], cfg, world) + ToolsOf(xs[|xs| - 1], cfg, world)
  }

  lemma ToolsSnoc(xs: seq<Exchange>, x: Exchange, cfg: Config, world: World)
    ensures ToolsRun(xs + [x], cfg, world) == ToolsRun(xs, cfg, world) + ToolsOf(x, cfg, world)
  {
    assert (xs + [x])[..|xs|] == xs;
  }

  lemma {:induction false} NoToolsOf(xs: seq<Exchange>, raised: seq<Exchange>, cfg: Config, world: World)
    requires forall i :: 0 <= i < |raised| ==> raised[i].outcome.Raised?
    ensures ToolsRun(xs + raised, cfg, world) == ToolsRun(xs, cfg, world)
    decreases |raised|
  {
    if raised == [] {
      assert xs + raised == xs;
    } else {
      var last := |raised| - 1;
      NoToolsOf(xs, raised[..last], cfg, world);
      ToolsSnoc(xs + raised[..last], raised[last], cfg, world);
      SplitLast(xs, raised);
    }
  }

  lemma HeadRaised(c: Chat, cfg: Config, world: World)
    ensures forall i :: 0 <= i < |HeadTries(c, cfg, world)| - 1 ==> HeadTries(c, cfg, world)[i].outcome.Raised?
  {
    if cfg.useGroup {
      WalkFrom(c.prompts, cfg.tools.Some?, cfg.group, 0, |c.exchanges|, world);
    }
  }

  lemma LastTools(xs: seq<Exchange>, tries: seq<Exchange>, cfg: Config, world: World)
    requires forall i :: 0 <= i < |tries| - 1 ==> tries[i].outcome.Raised?
    ensures ToolsRun(xs + tries, cfg, world)
         == ToolsRun(xs, cfg, world) + if tries == [] then [] else ToolsOf(tries[|tries| - 1], cfg, world)
  {
    if tries == [] {
      assert xs + tries == xs;
    } else {
      var last := |tries| - 1;
      NoToolsOf(xs, tries[..last], cfg, world);
      ToolsSnoc(xs + tries[..last], tries[last], cfg, world);
      SplitLast(xs, tries);
    }
  }

  /** Only the exchange that ends the head of a round can call for tools. */
  lemma HeadTools(c: Chat, cfg: Config, world: World)
    ensures var tries := HeadTries(c, cfg, world);
            && (forall i :: 0 <= i < |tries| - 1 ==> tries[i].outcome.Raised?)
            && ToolsRun(Asked(c, cfg, world).exchanges, cfg, world)
            == ToolsRun(c.exchanges, cfg, world)
                 + if tries == [] then [] else ToolsOf(tries[|tries| - 1], cfg, world)
  {
    HeadRaised(c, cfg, world);
    LastTools(c.exchanges, HeadTries(c, cfg, world), cfg, world);
  }

  /** The tools a completion calls for when count calls have been made. */
  function ToolsFor(completion: Completion, count: nat, cfg: Config, world: World): seq<string> {
    if cfg.tools.Some? && count + |completion.calls| <= cfg.maxToolCalls
    then Runnable(completion.calls, cfg.tools.value, world)
    else []
  }

  /** An overrun round runs nothing itself; the retry's calls are run when they fit. */
  lemma RuledTools(a: Chat, cfg: Config, world: World)
    requires ResultsIn(a.prompts) == a.count && a.executed == ToolsRun(a.exchanges, cfg, world) && cfg.tools.Some?
    ensures var ruling := Ruled(a, cfg, world);
            if ruling.Halt? then ruling.end.executed == ToolsRun(ruling.end.exchanges, cfg, world)
            else
              && ruling.chat.prompts == a.prompts && ruling.chat.executed == a.executed
              && ToolsRun(ruling.chat.exchanges, cfg, world)
              == a.executed + Runnable(ruling.calls, cfg.tools.value, world)
  {
    var n := |a.exchanges|;
    var x := Exchange(cfg.fallback, a.prompts, true, world.complete(n));
    ToolsSnoc(a.exchanges, x, cfg, world);
    ToolsSnoc(a.exchanges, Exchange(a.active, a.prompts + [User(CLOSING_REQUEST)], false, world.complete(n)),
              cfg, world);
    ToolsSnoc(a.exchanges + [x], Exchange(cfg.fallback, a.prompts + [User(CLOSING_REQUEST)], false,
                                          world.complete(n + 1)), cfg, world);
  }

  /** From a completion on, exactly the tools it and later ones call for are run. */
  lemma {:induction false} DecidedTools(a: Chat, completion: Completion, cfg: Config, world: World)
    requires a.count <= cfg.maxToolCalls && ResultsIn(a.prompts) == a.count
    requires ToolsRun(a.exchanges, cfg, world) == a.executed + ToolsFor(completion, a.count, cfg, world)
    ensures var end := Decided(a, completion, cfg, world); end.executed == ToolsRun(end.exchanges, cfg, world)
    decreases cfg.maxToolCalls - a.count, 0
  {
    if completion.calls != [] && cfg.tools.Some? {
      if a.count + |completion.calls| <= cfg.maxToolCalls {
        RoundCounts(a.prompts, completion.calls);
        PlayTools(AfterRound(a, completion.calls, cfg.tools.value, world), cfg, world);
      } else {
        RuledTools(a, cfg, world);
        var r := Ruled(a, cfg, world);
        if r.Proceed? {
          RoundCounts(r.chat.prompts, r.calls);
          PlayTools(AfterRound(r.chat, r.calls, cfg.tools.value, world), cfg, world);
        }
      }
    }
  }

  /** Exactly the tools the record calls for are run, in order. */
  lemma {:induction false} PlayTools(c: Chat, cfg: Config, world: World)
    requires c.count <= cfg.maxToolCalls && ResultsIn(c.prompts) == c.count
    requires c.executed == ToolsRun(c.exchanges, cfg, world)
    ensures var end := Play(c, cfg, world); end.executed == ToolsRun(end.exchanges, cfg, world)
    decreases cfg.maxToolCalls - c.count, 1
  {
    HeadTools(c, cfg, world);
    var tries := HeadTries(c, cfg, world);
    if tries != [] && LastOutcome(tries).Returned? {
      if cfg.tools.Some? {
        HeadReturns(c, cfg, world);
        assert Asked(c, cfg, world).exchanges[|Asked(c, cfg, world).exchanges| - 1] == tries[|tries| - 1];
      }
      DecidedTools(Asked(c, cfg, world), LastOutcome(tries).completion, cfg, world);
    }
  }

  /** What the record of a whole conversation shows. */
  lemma RecordShows(c: Chat, cfg: Config, world: World) returns (switch: nat, routes: seq<int>)
    requires c.exchanges == [] && c.count == 0
    requires c.active == FirstLine(cfg) && c.usingFallback == cfg.vision.Some?
    ensures var end := Play(c, cfg, world);
            && (!cfg.useGroup ==> OnLines(end.exchanges, cfg, switch))
            && (cfg.useGroup && ResultsIn(c.prompts) == 0 ==>
                  OnGroup(end.exchanges, cfg, routes) && WalkOver(end.exchanges, cfg, routes))
            && (ResultsIn(c.prompts) == 0 ==> Chained(end.exchanges, c.prompts, cfg))
            && (ResultsIn(c.prompts) == 0 && c.executed == [] ==>
                  end.executed == ToolsRun(end.exchanges, cfg, world))
            && Ends(end.result, end.exchanges, cfg)
  {
    switch, routes := 0, [];
    if !cfg.useGroup {
      switch := PlayLines(c, cfg, world, 0);
    } else if ResultsIn(c.prompts) == 0 {
      routes := PlayGroup(c, cfg, world, []);
    }
    if ResultsIn(c.prompts) == 0 {
      PlayChains(c, c.prompts, cfg, world);
      if c.executed == [] {
        PlayTools(c, cfg, world);
      }
    }
    PlayEnds(c, cfg, world);
  }

  // ------------------------------------------------------------------------- code

  /** Work goes on where it is, or after one more exchange on the fallback line, there. */
  predicate StaysOrMoves(before: seq<Exchange>, after: seq<Exchange>, line: Line, onFallback: bool, cfg: Config,
                         turn: TurnEnd)
    requires turn.Again?
  {
    if after == before then turn.active == line && turn.usingFallback == onFallback
    else
      && |after| == |before| + 1 && before == after[..|before|] && after[|before|].line == cfg.fallback
      && !onFallback && turn.active == cfg.fallback && turn.usingFallback
  }

  class Conversation {
    var prompts: seq<Prompt>
    var exchanges: seq<Exchange>
    /** Usage rows added to the session but not yet committed; an exception drops them. */
    var pending: seq<Usage>
    /** Usage rows committed to the database. */
    var usage: seq<Usage>
    /** Names of the tools handed to execute_tool. */
    var executed: seq<string>
    var toolCallCount: nat

    constructor (history: seq<Prompt>)
      requires Plain(history)
      ensures WellFormed(prompts) && ResultsIn(prompts) == 0 && prompts == history
      ensures exchanges == [] && pending == [] && usage == []
      ensures executed == [] && toolCallCount == 0
    {
      prompts := history;
      exchanges, pending, usage := [], [], [];
      executed, toolCallCount := [], 0;
      new;
      PlainWellFormed(history);
      PlainHasNone(history);
    }

    /** Between rounds: every returned completion is billed, and the transcript is closed. */
    predicate Settled()
      reads this
    {
      && WellFormed(prompts) && RequestsWellFormed(exchanges)
      && pending == [] && usage == UsageOf(exchanges)
    }

    /** The conversation as it stands, with the line in use. */
    function Here(active: Line, usingFallback: bool): Chat
      reads this
    {
      Chat(prompts, exchanges, executed, toolCallCount, active, usingFallback)
    }

    method Ask(line: Line, offered: bool, world: World) returns (r: Outcome)
      modifies this`exchanges
      ensures exchanges == old(exchanges) + [Exchange(line, prompts, offered, r)]
      ensures r == world.complete(|old(exchanges)|)
    {
      r := world.complete(|exchanges|);
      exchanges := exchanges + [Exchange(line, prompts, offered, r)];
    }

    /** One route; start is where the walk began and tried what it asked before. */
    method AskRoute(routes: seq<Line>, k: nat, offered: bool, world: World,
                    ghost start: seq<Exchange>, ghost tried: seq<Exchange>)
      returns (outcome: Outcome, ghost more: seq<Exchange>)
      requires |tried| == k < |routes| && exchanges == start + tried
      modifies this`exchanges
      ensures exchanges == start + more && |more| == k + 1
      ensures more[k] == Exchange(routes[k], prompts, offered, outcome) && LastOutcome(more) == outcome
      ensures tried + RouteTries(prompts, offered, routes, k, |start|, world)
           == more + if outcome == Raised(true) then RouteTries(prompts, offered, routes, k + 1, |start|, world) else []
    {
      RouteStep(tried, prompts, offered, routes, k, |start|, world);
      outcome := Ask(routes[k], offered, world);
      more := tried + [Exchange(routes[k], prompts, offered, outcome)];
      LastSnoc(tried, Exchange(routes[k], prompts, offered, outcome));
    }

    /** complete_with_routing: the routes in priority order; only a temporary upstream failure
        moves on to the next. None when it raised. */
    method AskRoutes(routes: seq<Line>, offered: bool, world: World)
      returns (r: Option<(Line, Completion)>, ghost tried: seq<Exchange>)
      modifies this`exchanges
      ensures exchanges == old(exchanges) + tried
      ensures tried == RouteTries(prompts, offered, routes, 0, |old(exchanges)|, world)
      ensures r.Some? <==> LastOutcome(tried).Returned?
      ensures r.Some? ==> tried[|tried| - 1] == Exchange(r.value.0, prompts, offered, Returned(r.value.1))
    {
      tried := [];
      var k := 0;
      ghost var n, all := |exchanges|, RouteTries(prompts, offered, routes, 0, |exchanges|, world);
      while k < |routes|
        invariant |tried| == k <= |routes| && exchanges == old(exchanges) + tried
        invariant all == tried + RouteTries(prompts, offered, routes, k, n, world)
        invariant !LastOutcome(tried).Returned?
      {
        var outcome;
        outcome, tried := AskRoute(routes, k, offered, world, old(exchanges), tried);
        if outcome.Returned? {
          assert tried + [] == tried;
          return Some((routes[k], outcome.completion)), tried;
        }
        if !outcome.failover {
          assert tried + [] == tried;
          return None, tried;
        }
        k := k + 1;
      }
      assert tried + [] == tried;
      return None, tried;
    }

    method Record(line: Line, c: Completion)
      modifies this`pending
      ensures pending == old(pending) + [Bill(line, c)]
    {
      pending := pending + [Bill(line, c)];
    }

    method Commit()
      modifies this`pending, this`usage
      ensures usage == old(usage) + old(pending) && pending == []
    {
      usage, pending := usage + pending, [];
    }

    /** One tool call; a failure of any kind becomes an error result for the model. */
    method RunTool(call: Call, tools: set<string>, world: World)
      modifies this`executed, this`toolCallCount, this`prompts
      ensures toolCallCount == old(toolCallCount) + 1
      ensures prompts == old(prompts) + [ToolResult(call.id)]
      ensures executed == old(executed) + if Runs(call, tools, world) then [call.name] else []
      ensures Runs(call, tools, world) <==>
        |call.arguments| <= 4000 && world.parses(call.arguments) && call.name in tools
    {
      toolCallCount := toolCallCount + 1;
      if |call.arguments| <= ARGUMENT_LIMIT && world.parses(call.arguments) && call.name in tools {
        executed := executed + [call.name];
      }
      prompts := prompts + [ToolResult(call.id)];
    }

    /** Call k of a round; p and done are what stood before the round. */
    method RunCall(calls: seq<Call>, k: nat, tools: set<string>, world: World,
                   ghost p: seq<Prompt>, ghost done: seq<string>)
      requires k < |calls| && prompts == p + Results(Ids(calls))[..k]
      requires executed == done + Runnable(calls[..k], tools, world)
      modifies this`executed, this`toolCallCount, this`prompts
      ensures prompts == p + Results(Ids(calls))[..k + 1]
      ensures executed == done + Runnable(calls[..k + 1], tools, world)
      ensures toolCallCount == old(toolCallCount) + 1
    {
      RunnableSnoc(calls, k, tools, world);
      RunTool(calls[k], tools, world);
    }

    /** Append the assistant's tool_calls message and run its calls in order. */
    method RunRound(calls: seq<Call>, tools: set<string>, world: World)
      requires WellFormed(prompts)
      modifies this`executed, this`toolCallCount, this`prompts
      ensures WellFormed(prompts)
      ensures prompts == old(prompts) + [ToolCalls(Ids(calls))] + Results(Ids(calls))
      ensures toolCallCount == old(toolCallCount) + |calls|
      ensures executed == old(executed) + Runnable(calls, tools, world)
    {
      RoundAppend(prompts, Ids(calls));
      prompts := prompts + [ToolCalls(Ids(calls))];
      ghost var p := prompts;
      var k := 0;
      while k < |calls|
        invariant 0 <= k <= |calls|
        invariant prompts == p + Results(Ids(calls))[..k]
        invariant toolCallCount == old(toolCallCount) + k
        invariant executed == old(executed) + Runnable(calls[..k], tools, world)
      {
        RunCall(calls, k, tools, world, p, old(executed));
        k := k + 1;
      }
      assert calls[..|calls|] == calls;
      assert Results(Ids(calls))[..|calls|] == Results(Ids(calls));
    }

    /** The round, seen as a step of the chat. */
    method RunCalls(calls: seq<Call>, tools: set<string>, world: World, ghost line: Line, ghost onFallback: bool)
      requires Settled()
      modifies this`executed, this`toolCallCount, this`prompts
      ensures Settled()
      ensures Here(line, onFallback) == AfterRound(old(Here(line, onFallback)), calls, tools, world)
      ensures toolCallCount == old(toolCallCount) + |calls| && |executed| <= |old(executed)| + |calls|
      ensures AllowListed(old(executed), Some(tools)) ==> AllowListed(executed, Some(tools))
    {
      RunRound(calls, tools, world);
    }

    /** A direct request, billed and committed at once unless it raised. */
    method AskAndBill(line: Line, offered: bool, world: World) returns (r: Outcome)
      requires Settled()
      modifies this`exchanges, this`pending, this`usage
      ensures Settled()
      ensures exchanges == old(exchanges) + [Exchange(line, prompts, offered, r)]
      ensures r == world.complete(|old(exchanges)|)
      ensures usage == old(usage) + if r.Returned? then [Bill(line, r.completion)] else []
    {
      r := Ask(line, offered, world);
      UsageSnoc(old(exchanges), Exchange(line, prompts, offered, r));
      RequestSnoc(old(exchanges), Exchange(line, prompts, offered, r));
      if r.Returned? {
        Record(line, r.completion);
        Commit();
      }
    }

    method BillRoute(routed: Option<(Line, Completion)>, ghost tried: seq<Exchange>) returns (r: Option<Completion>)
      requires WellFormed(prompts) && RequestsWellFormed(exchanges) && pending == []
      requires UsageOf(exchanges) == usage + Billed(tried)
      requires routed.Some? <==> LastOutcome(tried).Returned?
      requires routed.Some? ==>
        tried[|tried| - 1].line == routed.value.0 && LastOutcome(tried) == Returned(routed.value.1)
      modifies this`pending, this`usage
      ensures Settled() && r == Returning(LastOutcome(tried))
      ensures |usage| == |old(usage)| + if r.Some? then 1 else 0
    {
      if routed == None {
        return None;
      }
      Record(routed.value.0, routed.value.1);
      Commit();
      return Some(routed.value.1);
    }

    /** A request to the model group, billed to the route that answered. */
    method AskGroup(cfg: Config, world: World) returns (r: Option<Completion>, ghost tried: seq<Exchange>)
      requires Settled()
      modifies this`exchanges, this`pending, this`usage
      ensures Settled() && exchanges == old(exchanges) + tried
      ensures tried == RouteTries(prompts, cfg.tools.Some?, cfg.group, 0, |old(exchanges)|, world)
      ensures Walked(tried, cfg.group)
      ensures r == Returning(LastOutcome(tried))
      ensures |usage| == |old(usage)| + if r.Some? then 1 else 0
    {
      RoutesAreWalked(prompts, cfg.tools.Some?, cfg.group, |exchanges|, world);
      var routed;
      routed, tried := AskRoutes(cfg.group, cfg.tools.Some?, world);
      WalkSettles(old(exchanges), prompts, cfg.tools.Some?, cfg.group, world);
      r := BillRoute(routed, tried);
    }

    /** A request to the active line, with its one switch to the fallback line. */
    method AskLine(cfg: Config, active: Line, world: World, ghost c: Chat) returns (r: Outcome, switched: bool)
      requires Settled() && !cfg.useGroup && c == Here(active, c.usingFallback)
      modifies this`exchanges, this`pending, this`usage
      ensures Settled() && switched == Switches(c, cfg, world)
      ensures exchanges == old(exchanges) + LineTries(c, cfg, world) && r == LastOutcome(LineTries(c, cfg, world))
      ensures |usage| == |old(usage)| + if r.Returned? then 1 else 0
    {
      r := AskAndBill(active, cfg.tools.Some?, world);
      switched := r == Raised(true) && cfg.fallbackConfigured;
      ghost var first := Exchange(active, prompts, cfg.tools.Some?, r);
      if switched {
        r := AskAndBill(cfg.fallback, cfg.tools.Some?, world);
        LinePair(c, cfg, world, first, Exchange(cfg.fallback, prompts, cfg.tools.Some?, r));
      } else {
        assert LineTries(c, cfg, world) == [first];
      }
    }

    /** The request at the head of a round. */
    method AskPrimary(cfg: Config, active: Line, world: World, ghost c: Chat)
      returns (r: Option<Completion>, switched: bool)
      requires Settled() && c == Here(active, c.usingFallback)
      modifies this`exchanges, this`pending, this`usage
      ensures Settled() && switched == Switches(c, cfg, world)
      ensures exchanges == old(exchanges) + HeadTries(c, cfg, world)
      ensures r == Returning(LastOutcome(HeadTries(c, cfg, world)))
      ensures |usage| == |old(usage)| + if r.Some? then 1 else 0
    {
      if cfg.useGroup {
        var asked, _ := AskGroup(cfg, world);
        r := asked;
        switched := false;
      } else {
        var outcome;
        outcome, switched := AskLine(cfg, active, world, c);
        r := Returning(outcome);
      }
    }

    /** The forced ending: ask once more without tools, and apologise if nothing comes. */
    method CloseOut(line: Line, world: World, ghost c: Chat) returns (result: Result)
      requires Settled() && c == Here(c.active, c.usingFallback)
      modifies this`prompts, this`exchanges, this`pending, this`usage
      ensures Settled() && End(exchanges, executed, result) == Closing(c, line, world)
      ensures |usage| <= |old(usage)| + 1
    {
      PromptAppend(prompts, User(CLOSING_REQUEST));
      prompts := prompts + [User(CLOSING_REQUEST)];
      var final := AskAndBill(line, false, world);
      if final.Raised? {
        return Failure;
      }
      var content := final.completion.content;
      return Answer(if Blank(content, WHITESPACE) then APOLOGY else content);
    }

    /** What a round without tool calls comes to. */
    method Conclude(c: Completion) returns (result: Result)
      ensures result == Conclusion(c)
    {
      if Blank(c.content, WHITESPACE) {
        return Failure;
      }
      return Answer(c.content);
    }

    /** A round that asks for more calls than are left: the fallback line gets one try at the
        round, unless it is the one that overran; failing that, the ending is forced. */
    method Overrun(cfg: Config, active: Line, usingFallback: bool, world: World, ghost c: Chat)
      returns (verdict: Verdict)
      requires Settled() && toolCallCount <= cfg.maxToolCalls && c == Here(active, usingFallback)
      modifies this`prompts, this`exchanges, this`pending, this`usage
      ensures Settled()
      ensures match Ruled(c, cfg, world)
              case Halt(end) => verdict == Stop(end.result) && end == End(exchanges, executed, end.result)
              case Proceed(chat, calls) => verdict == Go(calls) && chat == Here(cfg.fallback, true)
      ensures |usage| <= |old(usage)| + if verdict.Go? || usingFallback then 1 else 2
      ensures verdict.Go? ==>
        |exchanges| == |old(exchanges)| + 1 && exchanges[|old(exchanges)|].line == cfg.fallback && !usingFallback
    {
      if !cfg.fallbackConfigured || usingFallback {
        var result := CloseOut(active, world, c);
        return Stop(result);
      }
      var again := AskAndBill(cfg.fallback, true, world);
      if again.Raised? {
        return Stop(Failure);
      }
      if again.completion.calls == [] {
        var result := Conclude(again.completion);
        return Stop(result);
      }
      if toolCallCount + |again.completion.calls| > cfg.maxToolCalls {
        var result := CloseOut(cfg.fallback, world, Here(cfg.fallback, true));
        return Stop(result);
      }
      return Go(again.completion.calls);
    }

    /** What a completion comes to. */
    method Decide(cfg: Config, line: Line, onFallback: bool, completion: Completion, world: World)
      returns (turn: TurnEnd)
      requires Settled() && toolCallCount <= cfg.maxToolCalls
      modifies this
      ensures Settled()
      ensures |executed| - |old(executed)| <= toolCallCount - old(toolCallCount)
      ensures AllowListed(old(executed), cfg.tools) ==> AllowListed(executed, cfg.tools)
      ensures turn.Finished? ==>
        && End(exchanges, executed, turn.result) == Decided(old(Here(line, onFallback)), completion, cfg, world)
        && toolCallCount == old(toolCallCount)
        && |usage| <= |old(usage)| + if onFallback then 1 else 2
      ensures turn.Again? ==>
        && old(toolCallCount) < toolCallCount <= cfg.maxToolCalls
        && Play(Here(turn.active, turn.usingFallback), cfg, world)
           == Decided(old(Here(line, onFallback)), completion, cfg, world)
        && (onFallback ==> turn.usingFallback)
        && |usage| <= |old(usage)| + if turn.usingFallback && !onFallback then 1 else 0
      ensures turn.Again? ==> StaysOrMoves(old(exchanges), exchanges, line, onFallback, cfg, turn)
    {
      if completion.calls == [] {
        var result := Conclude(completion);
        return Finished(result);
      }
      if cfg.tools == None {
        return Finished(Failure);
      }
      if toolCallCount + |completion.calls| <= cfg.maxToolCalls {
        RunCalls(completion.calls, cfg.tools.value, world, line, onFallback);
        return Again(line, onFallback);
      }
      var verdict := Overrun(cfg, line, onFallback, world, Here(line, onFallback));
      if verdict.Stop? {
        return Finished(verdict.result);
      }
      RunCalls(verdict.calls, cfg.tools.value, world, cfg.fallback, true);
      return Again(cfg.fallback, true);
    }

    /** One turn of the loop: it ends with a result, or goes round again having run a round. */
    method Turn(cfg: Config, active: Line, usingFallback: bool, world: World) returns (turn: TurnEnd)
      requires Settled() && toolCallCount <= cfg.maxToolCalls
      modifies this
      ensures Settled()
      ensures |executed| - |old(executed)| <= toolCallCount - old(toolCallCount)
      ensures AllowListed(old(executed), cfg.tools) ==> AllowListed(executed, cfg.tools)
      ensures turn.Finished? ==>
        && End(exchanges, executed, turn.result) == Play(old(Here(active, usingFallback)), cfg, world)
        && toolCallCount == old(toolCallCount)
        && |usage| <= |old(usage)| + if usingFallback then 2 else 3
      ensures turn.Again? ==>
        && old(toolCallCount) < toolCallCount <= cfg.maxToolCalls
        && Play(Here(turn.active, turn.usingFallback), cfg, world) == Play(old(Here(active, usingFallback)), cfg, world)
        && (usingFallback ==> turn.usingFallback)
        && |usage| <= |old(usage)| + 1 + if turn.usingFallback && !usingFallback then 1 else 0
      ensures turn.Again? && !cfg.useGroup ==>
        |exchanges| > |old(exchanges)| && exchanges[|old(exchanges)|].line == active &&
        if |exchanges| == |old(exchanges)| + 1 then turn.active == active && turn.usingFallback == usingFallback
        else
          && |exchanges| == |old(exchanges)| + 2 && exchanges[|old(exchanges)| + 1].line == cfg.fallback
          && turn.active == cfg.fallback && turn.usingFallback
    {
      ghost var c := Here(active, usingFallback);
      var asked, switched := AskPrimary(cfg, active, world, c);
      var line, onFallback := if switched then cfg.fallback else active, usingFallback || switched;
      assert Here(line, onFallback) == Asked(c, cfg, world);
      if asked == None {
        return Finished(Failure);
      }
      turn := Decide(cfg, line, onFallback, asked.value, world);
    }

    /** The tool loop. Whatever the providers and tools do, it ends; every completion that
        returned is billed exactly once, with its line and tokens, on every way out; every
        request carried a well-formed transcript; at most maxToolCalls tools ran, all from
        the allow-list; and at most maxToolCalls + 3 completions were paid for. The record of
        exchanges shows it: without a group they keep to their lines, each follows from the
        one before, and the last one makes the result. */
    method CompleteAi(cfg: Config, world: World)
      returns (result: Result, ghost switch: nat, ghost routes: seq<int>)
      requires WellFormed(prompts) && exchanges == [] && pending == [] && usage == []
      requires executed == [] && toolCallCount == 0
      modifies this
      ensures End(exchanges, executed, result) == Play(old(Here(FirstLine(cfg), cfg.vision.Some?)), cfg, world)
      ensures usage == UsageOf(exchanges)
      ensures RequestsWellFormed(exchanges)
      ensures |executed| <= cfg.maxToolCalls
      ensures AllowListed(executed, cfg.tools)
      ensures |usage| <= cfg.maxToolCalls + 3
      ensures !cfg.useGroup ==> OnLines(exchanges, cfg, switch)
      ensures cfg.useGroup && ResultsIn(old(prompts)) == 0 ==>
        OnGroup(exchanges, cfg, routes) && WalkOver(exchanges, cfg, routes)
      ensures ResultsIn(old(prompts)) == 0 ==> Chained(exchanges, old(prompts), cfg)
      ensures ResultsIn(old(prompts)) == 0 ==> executed == ToolsRun(exchanges, cfg, world)
      ensures Ends(result, exchanges, cfg)
      ensures |usage| == Paid(exchanges)
      ensures forall i :: 0 <= i < |exchanges| && exchanges[i].outcome.Returned? ==>
        var c := exchanges[i].outcome.completion;
        && Paid(exchanges[..i]) < |usage|
        && usage[Paid(exchanges[..i])] == Usage(exchanges[i].line, c.promptTokens, c.completionTokens)
    {
      var active := if cfg.vision.Some? then cfg.vision.value else cfg.primary;
      var usingFallback := cfg.vision.Some?;
      ghost var end := Play(Here(active, usingFallback), cfg, world);
      switch, routes := RecordShows(Here(active, usingFallback), cfg, world);
      assert UsageOf(exchanges) == [];
      while true
        invariant Settled()
        invariant |executed| <= toolCallCount <= cfg.maxToolCalls
        invariant AllowListed(executed, cfg.tools)
        invariant |usage| <= toolCallCount + if usingFallback then 1 else 0
        invariant end == Play(Here(active, usingFallback), cfg, world)
        decreases cfg.maxToolCalls - toolCallCount
      {
        var turn := Turn(cfg, active, usingFallback, world);
        if turn.Finished? {
          UsageLists(exchanges);
          return turn.result, switch, routes;
        }
        active, usingFallback := turn.active, turn.usingFallback;
      }
    }
  }
}
