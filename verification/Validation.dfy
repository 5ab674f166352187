/** What a configuration that validates guarantees at runtime. */
module Validation {
  import opened Wrappers
  import opened Config
  import Stream

  datatype Route = Route(channel: string, dm: bool, runner: string, allowBots: seq<string>)

  /** What the checks of names and plugins decide by themselves. */
  datatype Rules = Rules(slug: string -> bool, plugin: string -> bool)

  datatype Problem =
    | BadName(name: string)
    | EmptyDefinition(name: string)
    | UnknownBase(name: string, base: string)
    | Unresolved(name: string)
    | BadPlugin(name: string, plugin: string)
    | UnknownBundle(runner: string)
    | NotOneOf(route: nat)
    | NoRunner(route: nat)
    | ClaimedTwice(channel: string, first: nat, second: nat)
    | BotsOnDm(route: nat)
    | EmptyBot(route: nat)
    | SecondDm(route: nat)

  // ------------------------------------------------------------------
  // Bundles
  // ------------------------------------------------------------------

  predicate Present(bundles: Bundles, name: string) {
    name in bundles && bundles[name].Some?
  }

  predicate BundleOk(bundles: Bundles, rules: Rules, name: string) {
    && rules.slug(name)
    && Present(bundles, name)
    && (bundles[name].value.base == "" || bundles[name].value.base in bundles)
    && Resolve(bundles, name).Ok?
    && forall i | 0 <= i < |bundles[name].value.plugins| :: rules.plugin(bundles[name].value.plugins[i])
  }

  /** A definition that is there leads to one that is empty. */
  predicate Crashes(bundles: Bundles, name: string) {
    Present(bundles, name) && Resolve(bundles, name).Crash?
  }

  lemma UnknownBaseIsMissing(bundles: Bundles, name: string)
    requires Present(bundles, name) && bundles[name].value.base != "" && bundles[name].value.base !in bundles
    ensures !Resolve(bundles, name).Crash?
  {
    var base := bundles[name].value.base;
    assert name != "" ==> Walk(bundles, base, {} + {name}) == Missing(base);
  }

  /** One bundle's problems; `crashed` says that validation itself panics. */
  method CheckBundle(bundles: Bundles, rules: Rules, name: string) returns (crashed: bool, p: seq<Problem>)
    requires name in bundles
    ensures crashed == Crashes(bundles, name)
    ensures !crashed ==> (p == [] <==> BundleOk(bundles, rules, name))
  {
    hide Resolve;
    crashed, p := false, [];
    if !rules.slug(name) {
      p := p + [BadName(name)];
    }
    if bundles[name].None? {
      p := p + [EmptyDefinition(name)];
      assert |p| > 0;
      return;
    }
    var b := bundles[name].value;
    if b.base != "" && b.base !in bundles {
      UnknownBaseIsMissing(bundles, name);
      p := p + [UnknownBase(name, b.base)];
      assert |p| > 0 && !BundleOk(bundles, rules, name);
      return;
    }
    var r := ResolveBundle(bundles, name);
    if r.Crash? {
      return true, p;
    }
    if !r.Ok? {
      p := p + [Unresolved(name)];
    }
    for i := 0 to |b.plugins|
      invariant p == [] <==> rules.slug(name) && r.Ok? && forall j | 0 <= j < i :: rules.plugin(b.plugins[j])
    {
      if !rules.plugin(b.plugins[i]) {
        p := p + [BadPlugin(name, b.plugins[i])];
      }
    }
  }

  /** `order` is the order in which the map yields its names. */
  method ValidateBundles(bundles: Bundles, rules: Rules, order: seq<string>) returns (crashed: bool, p: seq<Problem>)
    requires forall n :: n in order <==> n in bundles
    ensures crashed <==> exists n :: n in bundles && Crashes(bundles, n)
    ensures !crashed ==> (p == [] <==> forall n | n in bundles :: BundleOk(bundles, rules, n))
    ensures !crashed && p == [] ==>
              forall n | n in bundles ::
                && rules.slug(n) && bundles[n].Some? && (bundles[n].value.base == "" || bundles[n].value.base in bundles)
                && Resolve(bundles, n).Ok? && forall plugin | plugin in bundles[n].value.plugins :: rules.plugin(plugin)
    ensures !crashed && p != [] ==>
              exists n | n in bundles ::
                || !rules.slug(n) || bundles[n].None? || (bundles[n].value.base != "" && bundles[n].value.base !in bundles)
                || !Resolve(bundles, n).Ok? || exists plugin | plugin in bundles[n].value.plugins :: !rules.plugin(plugin)
  {
    BundlesAre(bundles, rules);
    hide Resolve, BundleOk, Crashes;
    crashed, p := false, [];
    for i := 0 to |order|
      invariant forall j | 0 <= j < i :: !Crashes(bundles, order[j])
      invariant p == [] <==> forall j | 0 <= j < i :: BundleOk(bundles, rules, order[j])
    {
      assert order[i] in bundles;
      var found: seq<Problem>;
      crashed, found := CheckBundle(bundles, rules, order[i]);
      if crashed {
        return;
      }
      p := p + found;
    }
    assert forall n | n in bundles :: exists j :: 0 <= j < |order| && order[j] == n;
  }

  lemma BundlesAre(bundles: Bundles, rules: Rules)
    ensures forall n | n in bundles ::
              BundleOk(bundles, rules, n) <==>
                && rules.slug(n) && bundles[n].Some? && (bundles[n].value.base == "" || bundles[n].value.base in bundles)
                && Resolve(bundles, n).Ok? && forall plugin | plugin in bundles[n].value.plugins :: rules.plugin(plugin)
  {
    hide Resolve;
  }

  /** A crash needs a base whose definition is empty, and only that. */
  lemma CrashNeedsHollowBase(bundles: Bundles, name: string)
    ensures Crashes(bundles, name) <==>
            Present(bundles, name) && exists p :: Path(bundles, name, p) && Hollow(bundles, Next(bundles, name, p))
  {
    hide Path, Walk, Hollow, Next;
    ResolvesExactly(bundles, name);
  }

  // ------------------------------------------------------------------
  // Runners
  // ------------------------------------------------------------------

  /** The check of `runners`, which map names to the bundles they use. */
  method ValidateRunners(runners: map<string, string>, bundles: Bundles, order: seq<string>) returns (p: seq<Problem>)
    requires forall n :: n in order <==> n in runners
    ensures p == [] <==> forall n | n in runners :: runners[n] == "" || runners[n] in bundles
  {
    p := [];
    for i := 0 to |order|
      invariant p == [] <==> forall j | 0 <= j < i :: order[j] in runners && (runners[order[j]] == "" || runners[order[j]] in bundles)
    {
      assert order[i] in runners;
      var bundle := runners[order[i]];
      if bundle != "" && bundle !in bundles {
        p := p + [UnknownBundle(order[i])];
      }
    }
    assert forall n | n in runners :: exists j :: 0 <= j < |order| && order[j] == n;
  }

  // ------------------------------------------------------------------
  // Routes
  // ------------------------------------------------------------------

  predicate RouteOk(r: Route, runners: map<string, string>) {
    && (r.channel != "") != r.dm
    && r.runner != "" && r.runner in runners
    && (r.dm ==> r.allowBots == [])
    && forall i | 0 <= i < |r.allowBots| :: Stream.TrimSpace(r.allowBots[i]) != ""
  }

  /** Every route is well formed, no channel is claimed twice, no second DM route. */
  predicate RoutesOk(routes: seq<Route>, runners: map<string, string>) {
    && (forall i | 0 <= i < |routes| :: RouteOk(routes[i], runners))
    && (forall i, j | 0 <= i < j < |routes| :: routes[i].channel == "" || routes[i].channel != routes[j].channel)
    && (forall i, j | 0 <= i < j < |routes| :: !(routes[i].dm && routes[j].dm))
  }

  method CheckRoute(r: Route, runners: map<string, string>, n: nat) returns (p: seq<Problem>)
    ensures p == [] <==> RouteOk(r, runners)
  {
    hide Stream.TrimSpace;
    p := [];
    if r.channel != "" && r.dm {
      p := p + [NotOneOf(n)];
    } else if r.channel == "" && !r.dm {
      p := p + [NotOneOf(n)];
    }
    if r.runner == "" || r.runner !in runners {
      p := p + [NoRunner(n)];
    }
    if r.dm && |r.allowBots| > 0 {
      p := p + [BotsOnDm(n)];
    }
    ghost var other := p == [];
    for i := 0 to |r.allowBots|
      invariant p == [] <==> other && forall j | 0 <= j < i :: Stream.TrimSpace(r.allowBots[j]) != ""
    {
      if Stream.TrimSpace(r.allowBots[i]) == "" {
        p := p + [EmptyBot(n)];
      }
    }
  }

  method ValidateRoutes(routes: seq<Route>, runners: map<string, string>) returns (p: seq<Problem>)
    ensures p == [] <==> RoutesOk(routes, runners)
    ensures p == [] <==>
              && (forall i | 0 <= i < |routes| ::
                    && (routes[i].channel != "" <==> !routes[i].dm)
                    && routes[i].runner != "" && routes[i].runner in runners
                    && (routes[i].dm ==> routes[i].allowBots == [])
                    && forall bot | bot in routes[i].allowBots :: Stream.TrimSpace(bot) != "")
              && (forall i, j | 0 <= i < j < |routes| && routes[i].channel == routes[j].channel :: routes[i].channel == "")
              && (forall i, j | 0 <= i < j < |routes| && routes[i].dm :: !routes[j].dm)
  {
    hide RouteOk, Stream.TrimSpace;
    p := [];
    var claimed: map<string, nat> := map[];
    var dmRoutes := 0;
    for i := 0 to |routes|
      invariant forall ch :: ch in claimed <==> ch != "" && exists k :: 0 <= k < i && routes[k].channel == ch
      invariant dmRoutes == 0 <==> forall k | 0 <= k < i :: !routes[k].dm
      invariant dmRoutes >= 0
      invariant p == [] <==> RoutesOk(routes[..i], runners)
    {
      var r := routes[i];
      OneMoreRoute(routes, runners, i);
      var found := CheckRoute(r, runners, i);
      p := p + found;
      if r.channel != "" {
        if r.channel in claimed {
          p := p + [ClaimedTwice(r.channel, claimed[r.channel], i)];
        } else {
          claimed := claimed[r.channel := i];
        }
      }
      if r.dm {
        dmRoutes := dmRoutes + 1;
        if dmRoutes > 1 {
          p := p + [SecondDm(i)];
        }
      }
    }
    assert routes[..|routes|] == routes;
    hide RoutesOk;
    RoutesAre(routes, runners);
  }

  lemma OneMoreRoute(routes: seq<Route>, runners: map<string, string>, i: nat)
    requires i < |routes|
    ensures RoutesOk(routes[..i + 1], runners) <==>
            && RoutesOk(routes[..i], runners)
            && RouteOk(routes[i], runners)
            && (forall k | 0 <= k < i :: routes[k].channel == "" || routes[k].channel != routes[i].channel)
            && (routes[i].dm ==> forall k | 0 <= k < i :: !routes[k].dm)
  {
    hide RouteOk;
    assert forall k | 0 <= k < i :: routes[..i][k] == routes[k] && routes[..i + 1][k] == routes[k];
    assert routes[..i + 1][i] == routes[i];
  }

  lemma RoutesAre(routes: seq<Route>, runners: map<string, string>)
    ensures RoutesOk(routes, runners) <==>
              && (forall i | 0 <= i < |routes| ::
                    && (routes[i].channel != "" <==> !routes[i].dm)
                    && routes[i].runner != "" && routes[i].runner in runners
                    && (routes[i].dm ==> routes[i].allowBots == [])
                    && forall bot | bot in routes[i].allowBots :: Stream.TrimSpace(bot) != "")
              && (forall i, j | 0 <= i < j < |routes| && routes[i].channel == routes[j].channel :: routes[i].channel == "")
              && (forall i, j | 0 <= i < j < |routes| && routes[i].dm :: !routes[j].dm)
  {
    hide Stream.TrimSpace;
  }

  predicate Matches(r: Route, channel: string, isDM: bool) {
    (isDM && r.dm) || (!isDM && r.channel != "" && r.channel == channel)
  }

  method RunnerFor(routes: seq<Route>, channel: string, isDM: bool) returns (runner: Option<string>)
    ensures runner == FirstMatch(routes, channel, isDM)
    ensures runner.None? ==>
              forall i | 0 <= i < |routes| :: if isDM then !routes[i].dm else routes[i].channel == "" || routes[i].channel != channel
    ensures runner.Some? ==>
              exists i | 0 <= i < |routes| :: runner.value == routes[i].runner
                && (if isDM then routes[i].dm else routes[i].channel != "" && routes[i].channel == channel)
                && forall j | 0 <= j < i :: if isDM then !routes[j].dm else routes[j].channel == "" || routes[j].channel != channel
  {
    for i := 0 to |routes|
      invariant FirstMatch(routes, channel, isDM) == FirstMatch(routes[i..], channel, isDM)
      invariant forall j | 0 <= j < i :: if isDM then !routes[j].dm else routes[j].channel == "" || routes[j].channel != channel
    {
      assert routes[i..][1..] == routes[i + 1..];
      if isDM && routes[i].dm {
        return Some(routes[i].runner);
      }
      if !isDM && routes[i].channel != "" && routes[i].channel == channel {
        return Some(routes[i].runner);
      }
    }
    return None;
  }

  function FirstMatch(routes: seq<Route>, channel: string, isDM: bool): Option<string> {
    if routes == [] then None
    else if Matches(routes[0], channel, isDM) then Some(routes[0].runner)
    else FirstMatch(routes[1..], channel, isDM)
  }

  lemma {:induction false} FirstMatchIs(routes: seq<Route>, channel: string, isDM: bool)
    ensures FirstMatch(routes, channel, isDM).None? <==> forall i | 0 <= i < |routes| :: !Matches(routes[i], channel, isDM)
    ensures FirstMatch(routes, channel, isDM).Some? ==>
              exists i :: 0 <= i < |routes| && Matches(routes[i], channel, isDM)
                          && FirstMatch(routes, channel, isDM).value == routes[i].runner
  {
    if routes != [] {
      FirstMatchIs(routes[1..], channel, isDM);
      assert forall i | 1 <= i < |routes| :: routes[i] == routes[1..][i - 1];
      if !Matches(routes[0], channel, isDM) && FirstMatch(routes[1..], channel, isDM).Some? {
        var i :| 0 <= i < |routes[1..]| && Matches(routes[1..][i], channel, isDM)
                 && FirstMatch(routes[1..], channel, isDM).value == routes[1..][i].runner;
        assert routes[i + 1] == routes[1..][i];
      }
      hide Matches;
    }
  }

  /** Who answers does not depend on the order of the routes, and is configured. */
  lemma RoutingIsUnambiguous(routes: seq<Route>, runners: map<string, string>, permuted: seq<Route>, channel: string, isDM: bool)
    requires RoutesOk(routes, runners) && multiset(routes) == multiset(permuted)
    ensures FirstMatch(permuted, channel, isDM) == FirstMatch(routes, channel, isDM)
    ensures FirstMatch(routes, channel, isDM).Some? ==> FirstMatch(routes, channel, isDM).value in runners
  {
    FirstMatchIs(routes, channel, isDM);
    FirstMatchIs(permuted, channel, isDM);
    assert forall r :: r in routes <==> r in multiset(routes);
    assert forall r :: r in permuted <==> r in multiset(permuted);
    hide FirstMatch;
    assert forall k | 0 <= k < |routes| :: routes[k] in permuted;
    var a, b := FirstMatch(routes, channel, isDM), FirstMatch(permuted, channel, isDM);
    if b.Some? {
      var j :| 0 <= j < |permuted| && Matches(permuted[j], channel, isDM) && b.value == permuted[j].runner;
      assert permuted[j] in routes;
      var i :| 0 <= i < |routes| && routes[i] == permuted[j];
      assert Matches(routes[i], channel, isDM);
      var k :| 0 <= k < |routes| && Matches(routes[k], channel, isDM) && a.value == routes[k].runner;
      assert i == k;
    }
  }

  /** A configuration without problems resolves every runner's bundle. */
  lemma ValidBundlesResolve(bundles: Bundles, rules: Rules, runners: map<string, string>, runner: string)
    requires forall n | n in bundles :: BundleOk(bundles, rules, n)
    requires forall n | n in runners :: runners[n] == "" || runners[n] in bundles
    requires runner in runners
    ensures Resolve(bundles, runners[runner]).Ok?
    ensures exists p :: Path(bundles, runners[runner], p) && Next(bundles, runners[runner], p) == ""
                        && Resolve(bundles, runners[runner]).value == Flattened(bundles, p)
  {
    ResolvesExactly(bundles, runners[runner]);
    hide Walk, Flattened, Path, Next;
    assert runners[runner] == "" || BundleOk(bundles, rules, runners[runner]);
    assert Resolve(bundles, "").Ok? by { EmptyResolves(bundles); }
  }

  lemma EmptyResolves(bundles: Bundles)
    ensures Resolve(bundles, "").Ok?
  {
  }
}
