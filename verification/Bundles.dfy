/**
 How a runner comes to hold the configuration built for it.

 The gateway records one bundle per runner; a connection remembers what the runner
 reported or was last sent; pushes travel in order and are lost with their
 connection. Everything here is about one runner; the gateway's maps keep runners
 apart.
 */
module Bundles {
  import opened Wrappers

  /** A digest is never empty; the empty string is "nothing". */
  type Digest = s: string | s != "" witness "sha256:"

  /** Version 0 and no digest: nothing yet. */
  datatype Bundle = Bundle(version: nat, digest: string)

  datatype Conn = Conn(bundle: Bundle, flight: seq<Bundle>)

  /** A configuration built for a connection and not pushed yet; `at` says when. */
  datatype Build = Build(conn: nat, digest: Digest, at: nat)

  /** `config` is the digest that a build made now would have; the last connection is
      the live one, if any is. `landed`, the last build that was sent or found to be
      there already on the live connection, and the clock are history. */
  datatype State = State(config: Digest, builds: seq<Build>, recorded: Bundle, conns: seq<Conn>, live: bool, runner: Bundle,
                         landed: Option<Build>, clock: nat)

  const NOTHING := Bundle(0, "")

  /** A push is a build and, any number of events later, what follows it. */
  datatype Event =
    | Reload(config: Digest)
    | Connect
    | Disconnect
    | Start(conn: nat)
    | Push(build: nat, sent: bool)
    | Materialize(ok: bool)
    | Reboot
    | Restart

  function Initial(config: Digest): State {
    State(config, [], NOTHING, [], false, NOTHING, None, 0)
  }

  /** The version under which a digest is recorded when it is built for a
      connection that has `had`, after `prev` was recorded. */
  function NextVersion(prev: Bundle, had: Bundle, digest: Digest): nat {
    var highest := if had.version > prev.version then had.version else prev.version;
    if had.digest == digest then (if highest == 0 then 1 else highest)
    else if prev.digest == digest && prev.version > 0 then prev.version
    else highest + 1
  }

  /** What is recorded, and what becomes of the connection. */
  function PushBundle(prev: Bundle, c: Conn, digest: Digest, sent: bool): (Bundle, Conn) {
    var next := Bundle(NextVersion(prev, c.bundle, digest), digest);
    (next, if c.bundle.digest == digest then c.(bundle := next)
           else if sent then Conn(next, c.flight + [next]) else c)
  }

  predicate Online(s: State) {
    s.live && s.conns != []
  }

  function Link(s: State): Conn
    requires Online(s)
  {
    s.conns[|s.conns| - 1]
  }

  predicate Pushes(s: State, ev: Event) {
    ev.Push? && ev.build < |s.builds| && s.builds[ev.build].conn < |s.conns|
  }

  /** Nothing more can be sent on a connection that was replaced. */
  predicate Sends(s: State, ev: Event)
    requires Pushes(s, ev)
  {
    ev.sent && s.live && s.builds[ev.build].conn == |s.conns| - 1
  }

  predicate Lands(s: State, ev: Event) {
    && Pushes(s, ev) && s.live && s.builds[ev.build].conn == |s.conns| - 1
    && (ev.sent || Link(s).bundle.digest == s.builds[ev.build].digest)
  }

  function PushBuild(s: State, ev: Event): State
    requires Pushes(s, ev)
  {
    var b := s.builds[ev.build];
    var (recorded, c) := PushBundle(s.recorded, s.conns[b.conn], b.digest, Sends(s, ev));
    s.(builds := s.builds[..ev.build] + s.builds[ev.build + 1..], recorded := recorded, conns := s.conns[b.conn := c],
       landed := if Lands(s, ev) then Some(b) else s.landed)
  }

  /** What a hello says: the materialized bundle, if there is one. */
  function Reported(runner: Bundle): Bundle {
    if runner.digest != "" then runner else NOTHING
  }

  function Happen(s: State, ev: Event): State {
    match ev
    case Reload(config) => s.(config := config)
    case Connect => s.(conns := s.conns + [Conn(Reported(s.runner), [])], live := true, landed := None)
    case Disconnect => s.(live := false, landed := None)
    case Start(c) => if c < |s.conns| then s.(builds := s.builds + [Build(c, s.config, s.clock)]) else s
    case Push(_, _) => if Pushes(s, ev) then PushBuild(s, ev) else s
    case Materialize(ok) =>
      if Online(s) && Link(s).flight != [] then
        var c := Link(s);
        s.(conns := s.conns[|s.conns| - 1 := c.(flight := c.flight[1..])], runner := if ok then c.flight[0] else s.runner)
      else s
    case Reboot => s.(runner := NOTHING, live := false, landed := None)
    case Restart => s.(builds := [], recorded := NOTHING, conns := [], live := false, landed := None)
  }

  function Step(s: State, ev: Event): State {
    Happen(s, ev).(clock := s.clock + 1)
  }

  function Run(s: State, evs: seq<Event>): State
    decreases |evs|
  {
    if evs == [] then s else Step(Run(s, evs[..|evs| - 1]), evs[|evs| - 1])
  }

  // ------------------------------------------------------------------
  // Convergence
  // ------------------------------------------------------------------

  /** What the runner will have once everything in flight was applied. */
  function Eventually(s: State): Bundle {
    if Online(s) && Link(s).flight != [] then Link(s).flight[|Link(s).flight| - 1] else s.runner
  }

  /** What the gateway believes of the connection is what the runner will have, and
      what was pushed last. */
  predicate Synced(s: State) {
    && (Online(s) ==> Eventually(s).digest == Link(s).bundle.digest)
    && (s.landed.Some? ==> Online(s) && s.landed.value.digest == Link(s).bundle.digest)
  }

  /** An apply that fails unnoticed is harmless exactly if a later push is still on
      its way, or the runner had that content anyway. */
  predicate Applied(s: State, ev: Event) {
    ev == Materialize(false) && Online(s) && Link(s).flight != [] ==>
      |Link(s).flight| > 1 || s.runner.digest == Link(s).flight[0].digest
  }

  lemma SyncedExactly(s: State, ev: Event)
    requires Synced(s)
    ensures Synced(Step(s, ev)) <==> Applied(s, ev)
  {
  }

  ghost predicate AppliedRun(s: State, evs: seq<Event>)
    decreases |evs|
  {
    evs == [] || (AppliedRun(s, evs[..|evs| - 1]) && Applied(Run(s, evs[..|evs| - 1]), evs[|evs| - 1]))
  }

  lemma {:induction false} RunSynced(first: Digest, evs: seq<Event>)
    requires AppliedRun(Initial(first), evs)
    ensures Synced(Run(Initial(first), evs))
    decreases |evs|
  {
    if evs != [] {
      var front := evs[..|evs| - 1];
      RunSynced(first, front);
      SyncedExactly(Run(Initial(first), front), evs[|evs| - 1]);
    }
  }

  predicate Quiet(ev: Event) {
    ev.Materialize? && ev.ok
  }

  /** The runner has this digest, or is about to. */
  predicate Bound(s: State, digest: Digest) {
    Online(s) && Eventually(s).digest == digest && (Link(s).flight == [] ==> s.runner.digest == digest)
  }

  lemma LandingBinds(s: State, push: Event)
    requires Synced(s) && Lands(s, push)
    ensures Bound(Step(s, push), s.builds[push.build].digest)
  {
  }

  lemma QuietBinds(s: State, digest: Digest, ev: Event)
    requires Bound(s, digest) && Quiet(ev)
    ensures Bound(Step(s, ev), digest)
  {
  }

  /** After any run of reloads, builds, pushes, reconnects, reboots and restarts: once
      the pushes that follow one for the live connection are applied, the runner's
      digest is the one that was built for it. */
  lemma {:induction false} Converges(first: Digest, evs: seq<Event>, push: Event, later: seq<Event>)
    requires AppliedRun(Initial(first), evs) && Lands(Run(Initial(first), evs), push)
    requires forall ev | ev in later :: Quiet(ev)
    ensures var s0 := Run(Initial(first), evs); Bound(Run(Step(s0, push), later), s0.builds[push.build].digest)
    decreases |later|
  {
    var s0 := Run(Initial(first), evs);
    RunSynced(first, evs);
    LandingBinds(s0, push);
    hide Step, Bound, Lands, Synced, AppliedRun;
    if later != [] {
      Converges(first, evs, push, later[..|later| - 1]);
      QuietBinds(Run(Step(s0, push), later[..|later| - 1]), s0.builds[push.build].digest, later[|later| - 1]);
    }
  }

  /** Every build has the digest of the configuration there was when it was made. */
  ghost predicate Dated(first: Digest, evs: seq<Event>, b: Build) {
    b.at < |evs| && evs[b.at] == Start(b.conn) && Run(Initial(first), evs[..b.at]).config == b.digest
  }

  lemma {:induction false} RunDated(first: Digest, evs: seq<Event>)
    ensures var s := Run(Initial(first), evs);
            && s.clock == |evs|
            && (forall b | b in s.builds :: Dated(first, evs, b))
            && (s.landed.Some? ==> Dated(first, evs, s.landed.value))
    decreases |evs|
  {
    hide Lands, PushBundle;
    if evs != [] {
      var front, ev := evs[..|evs| - 1], evs[|evs| - 1];
      RunDated(first, front);
      var s := Run(Initial(first), front);
      assert Run(Initial(first), evs) == Step(s, ev);
      hide Run;
      forall b | Dated(first, front, b)
        ensures Dated(first, evs, b)
      {
        assert evs[..b.at] == front[..b.at];
      }
      BuildsFrom(s, ev);
      assert evs[..|front|] == front;
    }
  }

  lemma BuildsFrom(s: State, ev: Event)
    ensures var s' := Step(s, ev);
            && (forall b | b in s'.builds :: b in s.builds || (ev == Start(b.conn) && b.digest == s.config && b.at == s.clock))
            && (s'.landed.Some? ==> s'.landed == s.landed || s'.landed.value in s.builds)
  {
  }

  lemma {:induction false} ConfigStays(first: Digest, evs: seq<Event>, i: nat)
    requires i <= |evs| && forall k | i <= k < |evs| :: !evs[k].Reload?
    ensures Run(Initial(first), evs).config == Run(Initial(first), evs[..i]).config
    decreases |evs|
  {
    if i < |evs| {
      ConfigStays(first, evs[..|evs| - 1], i);
      assert evs[..|evs| - 1][..i] == evs[..i];
    } else {
      assert evs[..i] == evs;
    }
  }

  /** A build is not atomic with its push. Whatever else was built and pushed
      meanwhile, the runner comes to have the configuration in force if and only if the
      last push to land was of a build from when the same configuration was; so it
      does if no reload came in between. */
  lemma CurrentExactly(first: Digest, evs: seq<Event>)
    requires AppliedRun(Initial(first), evs) && Run(Initial(first), evs).landed.Some?
    ensures var s := Run(Initial(first), evs); var at := s.landed.value.at;
            && at < |evs| && evs[at].Start?
            && (Eventually(s).digest == s.config <==> Run(Initial(first), evs[..at]).config == s.config)
            && ((forall k | at <= k < |evs| :: !evs[k].Reload?) ==> Eventually(s).digest == s.config)
  {
    RunSynced(first, evs);
    RunDated(first, evs);
    var at := Run(Initial(first), evs).landed.value.at;
    if forall k | at <= k < |evs| :: !evs[k].Reload? {
      ConfigStays(first, evs, at);
    }
    hide Run;
  }

  lemma RunOn(s: State, evs: seq<Event>, ev: Event)
    ensures Run(s, evs + [ev]) == Step(Run(s, evs), ev)
    ensures AppliedRun(s, evs + [ev]) <==> AppliedRun(s, evs) && Applied(Run(s, evs), ev)
  {
    assert (evs + [ev])[..|evs|] == evs;
  }

  const OPENING := [Connect, Start(0)]

  lemma Opened(config: Digest)
    ensures Run(Initial(config), OPENING)
         == State(config, [Build(0, config, 1)], NOTHING, [Conn(NOTHING, [])], true, NOTHING, None, 2)
    ensures AppliedRun(Initial(config), OPENING)
  {
    assert OPENING == [] + [Connect] + [Start(0)];
    RunOn(Initial(config), [], Connect);
    RunOn(Initial(config), [] + [Connect], Start(0));
  }

  function Overlapping(recent: Digest): seq<Event> {
    OPENING + [Reload(recent)] + [Start(0)] + [Push(1, true)] + [Push(0, true)]
  }

  lemma BothPushed(stale: Digest, recent: Digest)
    requires stale != recent
    ensures AppliedRun(Initial(stale), Overlapping(recent))
    ensures var a, b := Bundle(2, stale), Bundle(1, recent);
            Run(Initial(stale), Overlapping(recent))
            == State(recent, [], a, [Conn(a, [b, a])], true, NOTHING, Some(Build(0, stale, 1)), 6)
  {
    hide Run, AppliedRun;
    var e2 := OPENING + [Reload(recent)];
    var e3 := e2 + [Start(0)];
    var e4 := e3 + [Push(1, true)];
    var a, b := Bundle(2, stale), Bundle(1, recent);
    Opened(stale);
    RunOn(Initial(stale), OPENING, Reload(recent));
    RunOn(Initial(stale), e2, Start(0));
    assert Run(Initial(stale), e3)
        == State(recent, [Build(0, stale, 1), Build(0, recent, 3)], NOTHING, [Conn(NOTHING, [])], true, NOTHING, None, 4);
    RunOn(Initial(stale), e3, Push(1, true));
    assert [] + [b] == [b] && [b] + [a] == [b, a];
    assert Run(Initial(stale), e4)
        == State(recent, [Build(0, stale, 1)], b, [Conn(b, [b])], true, NOTHING, Some(Build(0, recent, 3)), 5);
    RunOn(Initial(stale), e4, Push(0, true));
  }

  /** A reload falls between one build and its push, and its own build is pushed
      first: nothing is left to be pushed or applied, and the runner has what was
      built before the reload. */
  lemma StaleBuildWins(stale: Digest, recent: Digest)
    requires stale != recent
    ensures var evs := Overlapping(recent) + [Materialize(true)] + [Materialize(true)];
            var s := Run(Initial(stale), evs);
            && AppliedRun(Initial(stale), evs)
            && s.builds == [] && Online(s) && Link(s).flight == []
            && s.config == recent && s.runner == Bundle(2, stale)
  {
    hide Run, AppliedRun, Overlapping;
    var e5 := Overlapping(recent);
    var a, b := Bundle(2, stale), Bundle(1, recent);
    BothPushed(stale, recent);
    assert [b, a][1..] == [a] && [a][1..] == [];
    RunOn(Initial(stale), e5, Materialize(true));
    RunOn(Initial(stale), e5 + [Materialize(true)], Materialize(true));
  }

  // ------------------------------------------------------------------
  // Versions
  // ------------------------------------------------------------------

  predicate Ascending(runner: Bundle, flight: seq<Bundle>) {
    && (forall i | 0 <= i < |flight| :: runner.version <= flight[i].version)
    && (forall i, j | 0 <= i < j < |flight| :: flight[i].version <= flight[j].version)
  }

  /** What is on a connection, against what its runner has. */
  predicate LinkCapped(c: Conn, runner: Bundle) {
    && Ascending(runner, c.flight)
    && runner.version <= c.bundle.version
    && (forall i | 0 <= i < |c.flight| :: c.flight[i].version <= c.bundle.version && c.flight[i].digest != "")
  }

  /** Until a version is recorded, nothing was pushed and later hellos say less. */
  predicate Untold(conns: seq<Conn>, runner: Bundle) {
    && (forall i | 0 <= i < |conns| :: conns[i].flight == [] && runner.version <= conns[i].bundle.version)
    && (forall i, j | 0 <= i < j < |conns| :: conns[j].bundle.version <= conns[i].bundle.version)
  }

  /** Once the gateway has recorded a version, none that exists is above it. */
  predicate Capped(s: State) {
    && (s.runner.digest == "" ==> s.runner.version == 0)
    && (s.recorded.version > 0 ==> s.runner.version <= s.recorded.version)
    && (s.recorded.version == 0 ==> Untold(s.conns, s.runner))
    && (Online(s) ==>
          && LinkCapped(Link(s), s.runner)
          && (s.recorded.version > 0 ==> Link(s).bundle.version <= s.recorded.version))
  }

  /** A push from whatever connection records a version that caps everything. */
  lemma PushCapped(s: State, ev: Event)
    requires Capped(s) && Pushes(s, ev)
    ensures Capped(PushBuild(s, ev))
  {
    var b := s.builds[ev.build];
    var c := s.conns[b.conn];
    var next := NextVersion(s.recorded, c.bundle, b.digest);
    assert next > 0 && next >= s.recorded.version;
    hide NextVersion;
  }

  lemma MaterializeCapped(s: State, ok: bool)
    requires Capped(s) && Online(s) && Link(s).flight != []
    ensures Capped(Happen(s, Materialize(ok)))
  {
  }

  lemma ConnectCapped(s: State)
    requires Capped(s)
    ensures Capped(Happen(s, Connect))
  {
    assert Link(Happen(s, Connect)) == Conn(Reported(s.runner), []);
  }

  lemma OthersCapped(s: State, ev: Event)
    requires Capped(s) && !ev.Push? && !ev.Materialize? && !ev.Connect?
    ensures Capped(Happen(s, ev))
  {
    hide PushBuild;
  }

  lemma StepCapped(s: State, ev: Event)
    requires Capped(s)
    ensures Capped(Step(s, ev))
  {
    hide Capped, PushBuild;
    match ev
    case Push(_, _) =>
      if Pushes(s, ev) {
        PushCapped(s, ev);
      }
      CappedClock(Happen(s, ev), s.clock + 1);
    case Materialize(ok) =>
      if Online(s) && Link(s).flight != [] {
        MaterializeCapped(s, ok);
      }
      CappedClock(Happen(s, ev), s.clock + 1);
    case Connect => ConnectCapped(s); CappedClock(Happen(s, ev), s.clock + 1);
    case _ => OthersCapped(s, ev); CappedClock(Happen(s, ev), s.clock + 1);
  }

  lemma CappedClock(s: State, n: nat)
    requires Capped(s)
    ensures Capped(s.(clock := n))
  {
  }

  lemma {:induction false} RunCapped(first: Digest, evs: seq<Event>)
    ensures Capped(Run(Initial(first), evs))
    decreases |evs|
  {
    hide Step;
    if evs != [] {
      hide Capped;
      RunCapped(first, evs[..|evs| - 1]);
      StepCapped(Run(Initial(first), evs[..|evs| - 1]), evs[|evs| - 1]);
    }
  }

  /** The digest pushed is neither recorded nor on the connection it is pushed to. */
  predicate Fresh(s: State, ev: Event) {
    Pushes(s, ev) && var b := s.builds[ev.build]; s.recorded.digest != b.digest && s.conns[b.conn].bundle.digest != b.digest
  }

  /** It is recorded, and the connection has something else. */
  predicate Lost(s: State, ev: Event) {
    Pushes(s, ev) && var b := s.builds[ev.build];
    s.recorded.digest == b.digest && s.recorded.version > 0 && s.conns[b.conn].bundle.digest != b.digest
  }

  /** In every run versions only climb: the recorded one until the gateway restarts,
      the runner's until it reboots. Content that neither side has gets a version
      above all there are; content the runner lost keeps the version it had. */
  lemma VersionsClimb(first: Digest, evs: seq<Event>, ev: Event)
    ensures var s, s' := Run(Initial(first), evs), Run(Initial(first), evs + [ev]);
            && (!ev.Restart? ==> s.recorded.version <= s'.recorded.version)
            && (!ev.Reboot? ==> s.runner.version <= s'.runner.version)
            && (Fresh(s, ev) ==>
                  && s'.recorded.version > s.recorded.version && s'.recorded.version > s.runner.version
                  && (Online(s) ==> forall b | b in Link(s).flight :: s'.recorded.version > b.version))
            && (Lost(s, ev) ==> s'.recorded == s.recorded)
            && (Pushes(s, ev) ==> s'.recorded.digest == s.builds[ev.build].digest && s'.recorded.version > 0)
  {
    RunCapped(first, evs);
    RunOn(Initial(first), evs, ev);
    Climbs(Run(Initial(first), evs), ev);
    hide Step, Capped;
  }

  lemma Climbs(s: State, ev: Event)
    requires Capped(s)
    ensures var s' := Step(s, ev);
            && (!ev.Restart? ==> s.recorded.version <= s'.recorded.version)
            && (!ev.Reboot? ==> s.runner.version <= s'.runner.version)
            && (Fresh(s, ev) ==>
                  && s'.recorded.version > s.recorded.version && s'.recorded.version > s.runner.version
                  && (Online(s) ==> forall b | b in Link(s).flight :: s'.recorded.version > b.version))
            && (Lost(s, ev) ==> s'.recorded == s.recorded)
            && (Pushes(s, ev) ==> s'.recorded.digest == s.builds[ev.build].digest && s'.recorded.version > 0)
  {
  }

  /** A version does not stand for one content for ever. It is given to another one
      exactly when the runner already has what was built while the gateway last
      recorded something else, at no lower version. */
  lemma VersionRenamed(s: State, ev: Event)
    requires Pushes(s, ev) && s.recorded.version > 0
    ensures var s', b := Step(s, ev), s.builds[ev.build];
            s'.recorded.version == s.recorded.version && s'.recorded.digest != s.recorded.digest
            <==> s.conns[b.conn].bundle.digest == b.digest && s.recorded.digest != b.digest
                 && s.conns[b.conn].bundle.version <= s.recorded.version
  {
  }

  /** A push is sent exactly if the connection is live, takes it, and is not believed to
      have that content; and once it is sent, the content is what it is believed to have. */
  lemma SentExactly(s: State, ev: Event)
    requires Pushes(s, ev)
    ensures var s', b := Step(s, ev), s.builds[ev.build]; var was, now := s.conns[b.conn], s'.conns[b.conn];
            && now.flight == (if ev.sent && s.live && b.conn == |s.conns| - 1 && was.bundle.digest != b.digest
                              then was.flight + [s'.recorded] else was.flight)
            && now.bundle == (if now.flight != was.flight || was.bundle.digest == b.digest then s'.recorded else was.bundle)
            && s'.builds == s.builds[..ev.build] + s.builds[ev.build + 1..]
            && forall i | 0 <= i < |s.conns| && i != b.conn :: s'.conns[i] == s.conns[i]
  {
  }

  /** The last push on its way is what the connection is believed to have, and no push
      repeats the one before it. */
  predicate Varied(c: Conn) {
    && (c.flight != [] ==> c.flight[|c.flight| - 1].digest == c.bundle.digest)
    && forall k | 0 <= k < |c.flight| - 1 :: c.flight[k].digest != c.flight[k + 1].digest
  }

  lemma StepVaried(s: State, ev: Event)
    requires forall c | c in s.conns :: Varied(c)
    ensures forall c | c in Step(s, ev).conns :: Varied(c)
  {
    hide NextVersion;
    if ev.Push? && Pushes(s, ev) {
      assert Varied(s.conns[s.builds[ev.build].conn]);
    }
    if ev.Materialize? && Online(s) {
      assert Varied(Link(s));
    }
  }

  /** A runner is never sent the same content twice in a row. */
  lemma {:induction false} NothingTwice(first: Digest, evs: seq<Event>)
    ensures forall c | c in Run(Initial(first), evs).conns :: Varied(c)
    decreases |evs|
  {
    hide Step, Varied;
    if evs != [] {
      NothingTwice(first, evs[..|evs| - 1]);
      StepVaried(Run(Initial(first), evs[..|evs| - 1]), evs[|evs| - 1]);
    }
  }

  function PushLost(b: Digest): seq<Event> {
    OPENING + [Push(0, true)] + [Materialize(true)] + [Reload(b)] + [Start(0)] + [Push(0, true)]
  }

  function TakenBack(evs: seq<Event>, a: Digest): seq<Event> {
    evs + [Disconnect] + [Connect] + [Reload(a)] + [Start(1)] + [Push(0, true)]
        + [Reboot] + [Connect] + [Start(2)] + [Push(0, true)]
  }

  /** So a push that was lost and then taken back leaves its version to the content
      it should have replaced, under which that content is sent again after a reboot. */
  lemma OneVersionTwoContents(a: Digest, b: Digest)
    requires a != b
    ensures var s := Run(Initial(a), PushLost(b)); Online(s) && Link(s).flight == [Bundle(2, b)]
    ensures var s := Run(Initial(a), TakenBack(PushLost(b), a));
            Online(s) && Link(s).flight == [Bundle(2, a)] && s.runner == NOTHING
  {
    hide Run;
    FirstIsLost(a, b);
    var e0 := PushLost(b);
    var e1 := e0 + [Disconnect];
    var e2 := e1 + [Connect];
    var e3 := e2 + [Reload(a)];
    var e4 := e3 + [Start(1)];
    var e5 := e4 + [Push(0, true)];
    var e6 := e5 + [Reboot];
    var e7 := e6 + [Connect];
    var e8 := e7 + [Start(2)];
    var gone := Conn(Bundle(2, b), [Bundle(2, b)]);
    RunOn(Initial(a), e0, Disconnect);
    RunOn(Initial(a), e1, Connect);
    RunOn(Initial(a), e2, Reload(a));
    RunOn(Initial(a), e3, Start(1));
    assert Run(Initial(a), e4) == State(a, [Build(1, a, 10)], Bundle(2, b), [gone, Conn(Bundle(1, a), [])], true, Bundle(1, a), None, 11);
    RunOn(Initial(a), e4, Push(0, true));
    RunOn(Initial(a), e5, Reboot);
    RunOn(Initial(a), e6, Connect);
    assert Run(Initial(a), e7)
        == State(a, [], Bundle(2, a), [gone, Conn(Bundle(2, a), []), Conn(NOTHING, [])], true, NOTHING, None, 14);
    assert [] + [Bundle(2, a)] == [Bundle(2, a)];
    RunOn(Initial(a), e7, Start(2));
    RunOn(Initial(a), e8, Push(0, true));
  }

  lemma FirstApplied(a: Digest)
    ensures Run(Initial(a), OPENING + [Push(0, true)] + [Materialize(true)])
         == State(a, [], Bundle(1, a), [Conn(Bundle(1, a), [])], true, Bundle(1, a), Some(Build(0, a, 1)), 4)
  {
    hide Run;
    Opened(a);
    assert [] + [Bundle(1, a)] == [Bundle(1, a)] && [Bundle(1, a)][1..] == [];
    RunOn(Initial(a), OPENING, Push(0, true));
    RunOn(Initial(a), OPENING + [Push(0, true)], Materialize(true));
  }

  lemma FirstIsLost(a: Digest, b: Digest)
    requires a != b
    ensures var lost := Bundle(2, b);
            Run(Initial(a), PushLost(b))
            == State(b, [], lost, [Conn(lost, [lost])], true, Bundle(1, a), Some(Build(0, b, 5)), 7)
  {
    hide Run;
    var e4 := OPENING + [Push(0, true)] + [Materialize(true)];
    FirstApplied(a);
    assert [] + [Bundle(2, b)] == [Bundle(2, b)];
    RunOn(Initial(a), e4, Reload(b));
    RunOn(Initial(a), e4 + [Reload(b)], Start(0));
    RunOn(Initial(a), e4 + [Reload(b)] + [Start(0)], Push(0, true));
  }

  // ------------------------------------------------------------------
  // Gateway and hub, in place
  // ------------------------------------------------------------------

  class Connection {
    const runner: string
    var bundle: Bundle
    var flight: seq<Bundle>

    constructor (runner: string, hello: Bundle)
      ensures this.runner == runner && bundle == hello && flight == []
    {
      this.runner := runner;
      bundle, flight := hello, [];
    }

    ghost function Abs(): Conn
      reads this
    {
      Conn(bundle, flight)
    }
  }

  class Gateway {
    var bundles: map<string, Bundle>
    var conns: map<string, Connection>

    constructor ()
      ensures bundles == map[] && conns == map[]
    {
      bundles, conns := map[], map[];
    }

    function Recorded(runner: string): Bundle
      reads this
    {
      if runner in bundles then bundles[runner] else NOTHING
    }

    /** `sent` is the fate of the frame handed to the connection. */
    method PushTo(c: Connection, digest: Digest, sent: bool)
      modifies this`bundles, c
      ensures (Recorded(c.runner), c.Abs()) == PushBundle(old(Recorded(c.runner)), old(c.Abs()), digest, sent)
      ensures forall r | r != c.runner :: Recorded(r) == old(Recorded(r))
    {
      var prev := Recorded(c.runner);
      if c.bundle.digest == digest {
        var version := prev.version;
        if c.bundle.version > version {
          version := c.bundle.version;
        }
        if version == 0 {
          version := 1;
        }
        bundles := bundles[c.runner := Bundle(version, digest)];
        c.bundle := Bundle(version, digest);
        return;
      }
      var base := prev.version;
      if c.bundle.version > base {
        base := c.bundle.version;
      }
      var version := base + 1;
      if prev.digest == digest && prev.version > 0 {
        version := prev.version;
      }
      var next := Bundle(version, digest);
      bundles := bundles[c.runner := next];
      if !sent {
        return;
      }
      c.flight := c.flight + [next];
      c.bundle := next;
    }

    /** The newest connection displaces an earlier one of the same runner. */
    method Register(c: Connection) returns (displaced: Option<Connection>)
      modifies this`conns
      ensures conns == old(conns)[c.runner := c]
      ensures displaced == if c.runner in old(conns) then Some(old(conns)[c.runner]) else None
    {
      displaced := if c.runner in conns then Some(conns[c.runner]) else None;
      conns := conns[c.runner := c];
    }

    /** A displaced connection that goes away takes nobody else's place. */
    method Unregister(c: Connection)
      modifies this`conns
      ensures conns == if c.runner in old(conns) && old(conns)[c.runner] == c then old(conns) - {c.runner} else old(conns)
    {
      if c.runner in conns && conns[c.runner] == c {
        conns := conns - {c.runner};
      }
    }
  }

  /** A runner's materialized configuration. */
  class Materialized {
    var version: nat
    var digest: string

    constructor ()
      ensures Abs() == NOTHING
    {
      version, digest := 0, "";
    }

    ghost function Abs(): Bundle
      reads this
    {
      Bundle(version, digest)
    }

    /** `staged` says that the new directory was built and swapped in. */
    method ApplyBundle(push: Bundle, staged: bool) returns (ok: bool)
      modifies this
      ensures ok == staged && Abs() == if ok then push else old(Abs())
    {
      if !staged {
        return false;
      }
      version := push.version;
      digest := push.digest;
      return true;
    }
  }
}
