/**
 Pushes that overlap. A push decides on a version under the lock; its frame is sent and
 the connection's note of it is made afterwards, in whatever order the scheduler of
 goroutines brings about.
 */
module BundleSends {
  import opened Wrappers
  import opened Bundles

  /** A build with the version it was recorded under. */
  datatype Numbered = Numbered(build: Build, version: nat)

  function BundleOf(p: Numbered): Bundle {
    Bundle(p.version, p.build.digest)
  }

  /** Pushes still to be sent, and those still to be noted on their connection; what the
      live connection took last is history. */
  datatype World = World(base: State, unsent: seq<Numbered>, unnoted: seq<Numbered>, taken: Option<Build>)

  /** `Other` is anything but a push. */
  datatype Act =
    | Other(event: Event)
    | Decide(build: nat)
    | Send(n: nat, ok: bool)
    | Note(n: nat)

  function Opening(config: Digest): World {
    World(Initial(config), [], [], None)
  }

  function Dropped<T>(s: seq<T>, n: nat): seq<T>
    requires n < |s|
  {
    s[..n] + s[n + 1..]
  }

  predicate Decides(s: State, k: nat) {
    k < |s.builds| && s.builds[k].conn < |s.conns|
  }

  /** Under the lock: the version is recorded; nothing is to be sent if the connection
      is noted as having that digest. */
  function DecideOn(w: World, k: nat): World
    requires Decides(w.base, k)
  {
    var s, b := w.base, w.base.builds[k];
    var had := s.conns[b.conn].bundle;
    var p := Numbered(b, NextVersion(s.recorded, had, b.digest));
    var w1 := w.(base := s.(builds := Dropped(s.builds, k), recorded := BundleOf(p)));
    if had.digest == b.digest then w1.(unnoted := w1.unnoted + [p]) else w1.(unsent := w1.unsent + [p])
  }

  /** A replaced connection takes nothing, and a push that is not taken ends there. */
  predicate Takes(w: World, n: nat, ok: bool) {
    n < |w.unsent| && ok && Online(w.base) && w.unsent[n].build.conn == |w.base.conns| - 1
  }

  function SendOn(w: World, n: nat, ok: bool): World
    requires n < |w.unsent|
  {
    var s, p := w.base, w.unsent[n];
    var w1 := w.(unsent := Dropped(w.unsent, n));
    if !Takes(w, n, ok) then w1
    else
      var c := Link(s);
      w1.(base := s.(conns := s.conns[|s.conns| - 1 := c.(flight := c.flight + [BundleOf(p)])]),
          unnoted := w1.unnoted + [p], taken := Some(p.build))
  }

  function NoteOn(w: World, n: nat): World
    requires n < |w.unnoted|
  {
    var s, p := w.base, w.unnoted[n];
    var w1 := w.(unnoted := Dropped(w.unnoted, n));
    if p.build.conn >= |s.conns| then w1
    else w1.(base := s.(conns := s.conns[p.build.conn := s.conns[p.build.conn].(bundle := BundleOf(p))]))
  }

  predicate Cuts(ev: Event) {
    ev.Connect? || ev.Disconnect? || ev.Reboot? || ev.Restart?
  }

  function Perform(w: World, a: Act): World {
    match a
    case Other(ev) =>
      if ev.Push? then w
      else World(Happen(w.base, ev), if ev.Restart? then [] else w.unsent, if ev.Restart? then [] else w.unnoted,
                 if Cuts(ev) then None else w.taken)
    case Decide(k) => if Decides(w.base, k) then DecideOn(w, k) else w
    case Send(n, ok) => if n < |w.unsent| then SendOn(w, n, ok) else w
    case Note(n) => if n < |w.unnoted| then NoteOn(w, n) else w
  }

  function Advance(w: World, a: Act): World {
    var w1 := Perform(w, a);
    w1.(base := w1.base.(clock := w.base.clock + 1))
  }

  function Trace(w: World, acts: seq<Act>): World
    decreases |acts|
  {
    if acts == [] then w else Advance(Trace(w, acts[..|acts| - 1]), acts[|acts| - 1])
  }

  // ------------------------------------------------------------------
  // Undisturbed, the steps are one push
  // ------------------------------------------------------------------

  /** What a push that is not interleaved with anything does. */
  function Straight(w: World, k: nat, ok: bool): World
    requires Decides(w.base, k) && w.unsent == [] && w.unnoted == []
  {
    var w1 := DecideOn(w, k);
    if w1.unsent == [] then NoteOn(w1, 0)
    else
      var w2 := SendOn(w1, 0, ok);
      if w2.unnoted == [] then w2 else NoteOn(w2, 0)
  }

  lemma StraightIsPush(w: World, k: nat, ok: bool)
    requires Decides(w.base, k) && w.unsent == [] && w.unnoted == []
    ensures var w' := Straight(w, k, ok); var s' := PushBuild(w.base, Push(k, ok));
            w'.unsent == [] && w'.unnoted == [] && w'.base == s'.(landed := w.base.landed)
  {
    var s, b := w.base, w.base.builds[k];
    var p := Numbered(b, NextVersion(s.recorded, s.conns[b.conn].bundle, b.digest));
    var s1 := s.(builds := Dropped(s.builds, k), recorded := BundleOf(p));
    var w1 := DecideOn(w, k);
    assert [] + [p] == [p] && Dropped([p], 0) == [];
    if s.conns[b.conn].bundle.digest == b.digest {
      assert w1 == World(s1, [], [p], w.taken);
    } else {
      assert w1 == World(s1, [p], [], w.taken);
      SentAlone(s1, p, ok, w.taken);
    }
    hide DecideOn, SendOn, NextVersion;
  }

  /** Sent and noted, or not taken. */
  lemma SentAlone(s: State, p: Numbered, ok: bool, taken: Option<Build>)
    requires p.build.conn < |s.conns|
    ensures var w := World(s, [p], [], taken);
            var w2 := SendOn(w, 0, ok);
            var c := s.conns[p.build.conn];
            if Takes(w, 0, ok) then
              && w2.unsent == [] && |w2.unnoted| == 1
              && NoteOn(w2, 0) == World(s.(conns := s.conns[p.build.conn := Conn(BundleOf(p), c.flight + [BundleOf(p)])]), [], [],
                                        Some(p.build))
            else w2 == World(s, [], [], taken)
  {
    var c := s.conns[p.build.conn];
    var longer := c.(flight := c.flight + [BundleOf(p)]);
    assert [] + [p] == [p] && Dropped([p], 0) == [];
    assert s.conns[p.build.conn := longer][p.build.conn := longer.(bundle := BundleOf(p))]
        == s.conns[p.build.conn := longer.(bundle := BundleOf(p))];
  }

  // ------------------------------------------------------------------
  // What the runner comes to have
  // ------------------------------------------------------------------

  predicate Harmless(w: World, a: Act) {
    a.Other? ==> Applied(w.base, a.event)
  }

  ghost predicate HarmlessTrace(w: World, acts: seq<Act>)
    decreases |acts|
  {
    acts == [] || (HarmlessTrace(w, acts[..|acts| - 1]) && Harmless(Trace(w, acts[..|acts| - 1]), acts[|acts| - 1]))
  }

  /** The last push the live connection took is the one that counts. */
  predicate Last(w: World) {
    w.taken.Some? ==> Online(w.base) && Eventually(w.base).digest == w.taken.value.digest
  }

  lemma OtherLast(w: World, ev: Event)
    requires Last(w) && Applied(w.base, ev)
    ensures Last(Perform(w, Other(ev)))
  {
    hide PushBuild;
  }

  lemma SendLast(w: World, n: nat, ok: bool)
    requires Last(w) && n < |w.unsent|
    ensures Last(SendOn(w, n, ok))
  {
    if Takes(w, n, ok) {
      assert Link(SendOn(w, n, ok).base).flight == Link(w.base).flight + [BundleOf(w.unsent[n])];
    }
  }

  lemma DecideLast(w: World, k: nat)
    requires Last(w) && Decides(w.base, k)
    ensures Last(DecideOn(w, k))
  {
    hide NextVersion;
  }

  lemma ClockLast(w: World, n: nat)
    requires Last(w)
    ensures Last(w.(base := w.base.(clock := n)))
  {
  }

  lemma StepLast(w: World, a: Act)
    requires Last(w) && Harmless(w, a)
    ensures Last(Advance(w, a))
  {
    assert Last(Perform(w, a)) by {
      match a
      case Other(ev) => OtherLast(w, ev);
      case Decide(k) =>
        if Decides(w.base, k) {
          DecideLast(w, k);
        }
      case Send(n, ok) =>
        if n < |w.unsent| {
          SendLast(w, n, ok);
        }
      case Note(n) =>
        if n < |w.unnoted| {
          NoteLast(w, n);
        }
      hide Happen, DecideOn, SendOn, NoteOn, Applied;
    }
    ClockLast(Perform(w, a), w.base.clock + 1);
    hide Perform, Last;
  }

  lemma NoteLast(w: World, n: nat)
    requires n < |w.unnoted|
    ensures Online(NoteOn(w, n).base) == Online(w.base) && Eventually(NoteOn(w, n).base) == Eventually(w.base)
    ensures NoteOn(w, n).taken == w.taken
  {
  }

  lemma {:induction false} TraceLast(first: Digest, acts: seq<Act>)
    requires HarmlessTrace(Opening(first), acts)
    ensures Last(Trace(Opening(first), acts))
    decreases |acts|
  {
    hide Advance, Harmless, Last;
    if acts == [] {
      NothingTaken(first);
    } else {
      TraceLast(first, acts[..|acts| - 1]);
      StepLast(Trace(Opening(first), acts[..|acts| - 1]), acts[|acts| - 1]);
    }
  }

  lemma NothingTaken(first: Digest)
    ensures Last(Opening(first))
  {
  }

  /** Every build has the digest of the configuration there was when it was made. */
  ghost predicate MadeAt(first: Digest, acts: seq<Act>, b: Build) {
    b.at < |acts| && acts[b.at] == Other(Start(b.conn)) && Trace(Opening(first), acts[..b.at]).base.config == b.digest
  }

  ghost predicate AllMade(first: Digest, acts: seq<Act>, w: World) {
    && (forall b | b in w.base.builds :: MadeAt(first, acts, b))
    && (forall p | p in w.unsent :: MadeAt(first, acts, p.build))
    && (forall p | p in w.unnoted :: MadeAt(first, acts, p.build))
    && (w.taken.Some? ==> MadeAt(first, acts, w.taken.value))
  }

  /** Where the builds of a step come from. */
  lemma StepMade(w: World, a: Act)
    ensures var w' := Advance(w, a);
            && w'.base.clock == w.base.clock + 1
            && (forall b | b in w'.base.builds ::
                  b in w.base.builds || (a == Other(Start(b.conn)) && b.digest == w.base.config && b.at == w.base.clock))
            && (forall p | p in w'.unsent :: p in w.unsent || p.build in w.base.builds)
            && (forall p | p in w'.unnoted :: p in w.unnoted || p in w.unsent || p.build in w.base.builds)
            && (w'.taken.Some? ==> w'.taken == w.taken || exists p :: p in w.unsent && p.build == w'.taken.value)
  {
    hide NextVersion, PushBuild;
  }

  lemma {:induction false} TraceMade(first: Digest, acts: seq<Act>)
    ensures Trace(Opening(first), acts).base.clock == |acts|
    ensures AllMade(first, acts, Trace(Opening(first), acts))
    decreases |acts|
  {
    hide Advance;
    if acts != [] {
      var front, a := acts[..|acts| - 1], acts[|acts| - 1];
      TraceMade(first, front);
      var w := Trace(Opening(first), front);
      StepMade(w, a);
      assert acts[..|front|] == front;
      hide Trace;
      forall b | MadeAt(first, front, b)
        ensures MadeAt(first, acts, b)
      {
        assert acts[..b.at] == front[..b.at];
      }
    }
  }

  lemma ConfigNext(w: World, a: Act)
    requires !(a.Other? && a.event.Reload?)
    ensures Advance(w, a).base.config == w.base.config
  {
    hide NextVersion, PushBuild;
  }

  lemma {:induction false} ConfigKept(first: Digest, acts: seq<Act>, i: nat)
    requires i <= |acts| && forall k | i <= k < |acts| :: !(acts[k].Other? && acts[k].event.Reload?)
    ensures Trace(Opening(first), acts).base.config == Trace(Opening(first), acts[..i]).base.config
    decreases |acts|
  {
    hide Advance;
    if i < |acts| {
      var front, a := acts[..|acts| - 1], acts[|acts| - 1];
      ConfigKept(first, front, i);
      ConfigNext(Trace(Opening(first), front), a);
      assert front[..i] == acts[..i];
    } else {
      assert acts[..i] == acts;
    }
  }

  /** However the steps of pushes interleave with each other, with reloads and with
      reconnects: once everything in flight is applied, the runner has the configuration
      in force if and only if the push that the live connection took last was of a build
      from when that was the configuration; what was recorded or noted last has no say. */
  lemma LastSentExactly(first: Digest, acts: seq<Act>)
    requires HarmlessTrace(Opening(first), acts) && Trace(Opening(first), acts).taken.Some?
    ensures var w := Trace(Opening(first), acts); var at := w.taken.value.at;
            && at < |acts| && acts[at] == Other(Start(w.taken.value.conn))
            && (Eventually(w.base).digest == w.base.config
                <==> Trace(Opening(first), acts[..at]).base.config == w.base.config)
            && ((forall k | at <= k < |acts| :: !(acts[k].Other? && acts[k].event.Reload?)) ==>
                  Eventually(w.base).digest == w.base.config)
  {
    TraceLast(first, acts);
    TraceMade(first, acts);
    var at := Trace(Opening(first), acts).taken.value.at;
    if forall k | at <= k < |acts| :: !(acts[k].Other? && acts[k].event.Reload?) {
      ConfigKept(first, acts, at);
    }
    hide Trace;
  }

  // ------------------------------------------------------------------
  // Sent in another order than recorded
  // ------------------------------------------------------------------

  lemma TraceOn(w: World, acts: seq<Act>, a: Act)
    ensures Trace(w, acts + [a]) == Advance(Trace(w, acts), a)
    ensures HarmlessTrace(w, acts + [a]) <==> HarmlessTrace(w, acts) && Harmless(Trace(w, acts), a)
  {
    assert (acts + [a])[..|acts|] == acts;
  }

  function BothDecided(recent: Digest): seq<Act> {
    [] + [Other(Connect)] + [Other(Start(0))] + [Other(Reload(recent))] + [Other(Start(0))] + [Decide(0)] + [Decide(0)]
  }

  function Crossed(recent: Digest): seq<Act> {
    BothDecided(recent) + [Send(1, true)] + [Send(0, true)] + [Note(1)] + [Note(0)]
                        + [Other(Materialize(true))] + [Other(Materialize(true))]
  }

  function Two(stale: Digest, recent: Digest): seq<Numbered> {
    [Numbered(Build(0, stale, 1), 1), Numbered(Build(0, recent, 3), 2)]
  }

  lemma BothBuilt(stale: Digest, recent: Digest)
    ensures var e := [] + [Other(Connect)] + [Other(Start(0))] + [Other(Reload(recent))] + [Other(Start(0))];
            && HarmlessTrace(Opening(stale), e)
            && Trace(Opening(stale), e)
               == World(State(recent, [Build(0, stale, 1), Build(0, recent, 3)], NOTHING, [Conn(NOTHING, [])], true, NOTHING, None, 4),
                        [], [], None)
  {
    var w0 := Opening(stale);
    assert Trace(w0, []) == w0 && HarmlessTrace(w0, []);
    hide Trace, HarmlessTrace;
    var e1 := [] + [Other(Connect)];
    var e2 := e1 + [Other(Start(0))];
    TraceOn(w0, [], Other(Connect));
    TraceOn(w0, e1, Other(Start(0)));
    TraceOn(w0, e2, Other(Reload(recent)));
    TraceOn(w0, e2 + [Other(Reload(recent))], Other(Start(0)));
  }

  lemma DecidedInOrder(stale: Digest, recent: Digest)
    requires stale != recent
    ensures HarmlessTrace(Opening(stale), BothDecided(recent))
    ensures Trace(Opening(stale), BothDecided(recent))
         == World(State(recent, [], Bundle(2, recent), [Conn(NOTHING, [])], true, NOTHING, None, 6), Two(stale, recent), [], None)
  {
    hide Trace, HarmlessTrace;
    var w0 := Opening(stale);
    var e4 := [] + [Other(Connect)] + [Other(Start(0))] + [Other(Reload(recent))] + [Other(Start(0))];
    BothBuilt(stale, recent);
    TraceOn(w0, e4, Decide(0));
    TraceOn(w0, e4 + [Decide(0)], Decide(0));
  }

  lemma SentOutOfOrder(stale: Digest, recent: Digest)
    requires stale != recent
    ensures var e := BothDecided(recent) + [Send(1, true)] + [Send(0, true)];
            var a, b := Two(stale, recent)[0], Two(stale, recent)[1];
            && HarmlessTrace(Opening(stale), e)
            && Trace(Opening(stale), e)
               == World(State(recent, [], Bundle(2, recent), [Conn(NOTHING, [BundleOf(b), BundleOf(a)])], true, NOTHING, None, 8),
                        [], [b, a], Some(a.build))
  {
    hide Trace, HarmlessTrace, BothDecided;
    var w0, e := Opening(stale), BothDecided(recent);
    DecidedInOrder(stale, recent);
    TraceOn(w0, e, Send(1, true));
    TraceOn(w0, e + [Send(1, true)], Send(0, true));
    SecondFirst(Two(stale, recent)[0], Two(stale, recent)[1], recent);
    hide Advance;
  }

  lemma SecondFirst(a: Numbered, b: Numbered, config: Digest)
    requires a.build.conn == b.build.conn == 0
    ensures var was := World(State(config, [], BundleOf(b), [Conn(NOTHING, [])], true, NOTHING, None, 6), [a, b], [], None);
            Advance(Advance(was, Send(1, true)), Send(0, true))
            == World(State(config, [], BundleOf(b), [Conn(NOTHING, [BundleOf(b), BundleOf(a)])], true, NOTHING, None, 8), [], [b, a], Some(a.build))
  {
    var was := World(State(config, [], BundleOf(b), [Conn(NOTHING, [])], true, NOTHING, None, 6), [a, b], [], None);
    var one := State(config, [], BundleOf(b), [Conn(NOTHING, [BundleOf(b)])], true, NOTHING, None, 7);
    assert Dropped([a, b], 1) == [a] && Dropped([a], 0) == [];
    assert [] + [BundleOf(b)] == [BundleOf(b)] && [BundleOf(b)] + [BundleOf(a)] == [BundleOf(b), BundleOf(a)] && [] + [b] == [b] && [b] + [a] == [b, a];
    assert Advance(was, Send(1, true)) == World(one, [a], [b], Some(b.build));
  }

  lemma NotedInOrder(stale: Digest, recent: Digest)
    requires stale != recent
    ensures var e := BothDecided(recent) + [Send(1, true)] + [Send(0, true)] + [Note(1)] + [Note(0)];
            && HarmlessTrace(Opening(stale), e)
            && Trace(Opening(stale), e)
               == World(State(recent, [], Bundle(2, recent), [Conn(Bundle(2, recent), [Bundle(2, recent), Bundle(1, stale)])], true,
                              NOTHING, None, 10), [], [], Some(Build(0, stale, 1)))
  {
    var w0, e := Opening(stale), BothDecided(recent) + [Send(1, true)] + [Send(0, true)];
    SentOutOfOrder(stale, recent);
    hide Trace, HarmlessTrace, BothDecided;
    TraceOn(w0, e, Note(1));
    TraceOn(w0, e + [Note(1)], Note(0));
  }

  /** Two overlapping pushes, recorded and noted in order but sent the other way round:
      nothing is left to do, the gateway records and notes the configuration in force,
      and the runner has the one before; pushing again finds nothing to send. */
  lemma CrossedForGood(stale: Digest, recent: Digest)
    requires stale != recent
    ensures HarmlessTrace(Opening(stale), Crossed(recent))
    ensures var w := Trace(Opening(stale), Crossed(recent));
            && w.base.builds == [] && w.unsent == [] && w.unnoted == [] && Online(w.base) && Link(w.base).flight == []
            && w.base.config == recent && w.base.recorded == Link(w.base).bundle == Bundle(2, recent)
            && w.base.runner == Bundle(1, stale)
            && var again := Advance(Advance(w, Other(Start(0))), Decide(0));
               again.unsent == [] && again.base.recorded == w.base.recorded
  {
    hide Trace, HarmlessTrace, BothDecided;
    var w0, e := Opening(stale), BothDecided(recent) + [Send(1, true)] + [Send(0, true)] + [Note(1)] + [Note(0)];
    NotedInOrder(stale, recent);
    TraceOn(w0, e, Other(Materialize(true)));
    TraceOn(w0, e + [Other(Materialize(true))], Other(Materialize(true)));
    BothApplied(Bundle(1, stale), Bundle(2, recent), recent, Build(0, stale, 1));
    NothingAgain(Bundle(2, recent), recent, Bundle(1, stale), Build(0, stale, 1));
    hide Advance;
  }

  function Noted(b: Bundle, flight: seq<Bundle>, config: Digest, runner: Bundle, last: Build, clock: nat): World {
    World(State(config, [], b, [Conn(b, flight)], true, runner, None, clock), [], [], Some(last))
  }

  lemma BothApplied(a: Bundle, b: Bundle, config: Digest, last: Build)
    ensures Advance(Advance(Noted(b, [b, a], config, NOTHING, last, 10), Other(Materialize(true))), Other(Materialize(true)))
         == Noted(b, [], config, a, last, 12)
    ensures Harmless(Noted(b, [b, a], config, NOTHING, last, 10), Other(Materialize(true)))
    ensures Harmless(Advance(Noted(b, [b, a], config, NOTHING, last, 10), Other(Materialize(true))), Other(Materialize(true)))
  {
    assert [b, a][1..] == [a] && [a][1..] == [];
  }

  lemma NothingAgain(b: Bundle, config: Digest, runner: Bundle, last: Build)
    requires b.digest == config && b.version > 0
    ensures var again := Advance(Advance(Noted(b, [], config, runner, last, 12), Other(Start(0))), Decide(0));
            again.unsent == [] && again.base.recorded == b
  {
  }
}
