/**
 The gateway and its runners together, over channels that lose and reorder.

 A turn that was sent has one input on its way to the harness or one terminal
 frame on its way back. An input moves along the hops below; the runner knows the
 open turn of a thread only through one pointer per session.
 */
module Composition {
  import opened Wrappers
  import opened Scheduler
  import opened SchedulerInvariant
  import opened SchedulerTheorems
  import opened SchedulerSends

  /** A message frame on its way down, the handler that fetches the session, holds
      it, has set its turn, and the harness process that was given the input. */
  datatype Hop = Downlink | Fetching | Ready | Sending | Given(process: nat)

  datatype Item = Item(msg: Msg, at: Hop)

  /** A Done or Error frame naming a turn. */
  datatype Frame = Frame(turn: Msg, failed: bool)

  type Key = (string, string)

  /** `pumps` holds every process whose events are still read, with the inputs it
      has not answered; the session's own process is one of them, while one that
      was closed lingers until its reader notices. */
  datatype Session = Session(turn: Option<Msg>, busy: bool, process: Option<nat>, pumps: map<nat, multiset<Msg>>)

  datatype World = World(gw: State, soup: multiset<Item>, sessions: map<Key, Session>, up: multiset<Frame>, processes: nat)

  const FRESH := Session(None, false, None, map[])

  function KeyOf(m: Msg): Key {
    (m.runner, m.thread)
  }

  function At(w: World, key: Key): Session {
    if key in w.sessions then w.sessions[key] else FRESH
  }

  /** How often a process was given an input it has not answered. */
  function Work(s: Session, p: nat, m: Msg): nat {
    if p in s.pumps then s.pumps[p][m] else 0
  }

  function Held(w: World, x: Item): nat {
    match x.at
    case Given(p) => Work(At(w, KeyOf(x.msg)), p, x.msg)
    case _ => w.soup[x]
  }

  function Ups(w: World, m: Msg): nat {
    w.up[Frame(m, true)] + w.up[Frame(m, false)]
  }

  // ------------------------------------------------------------------
  // Steps
  // ------------------------------------------------------------------

  /** `Gate` is a gateway event other than a report; `Deliver` brings one. `Close`
      covers an eviction, the idle reaper, a fresh start and a crash. */
  datatype Act =
    | Gate(event: Event)
    | Deliver(frame: Frame)
    | LoseDown(msg: Msg)
    | LoseUp(frame: Frame)
    | Receive(msg: Msg)
    | Fetch(msg: Msg, started: bool)
    | Begin(msg: Msg)
    | Submit(msg: Msg, accepted: bool)
    | Answer(msg: Msg, process: nat, failed: bool)
    | Close(key: Key)
    | Exit(key: Key, process: nat)

  function Downlinks(msgs: seq<Msg>): multiset<Item> {
    if msgs == [] then multiset{}
    else Downlinks(msgs[..|msgs| - 1]) + multiset{Item(msgs[|msgs| - 1], Downlink)}
  }

  function GateStep(w: World, ev: Event, env: Env): World {
    var g := Apply(w.gw, ev, env);
    w.(gw := g, soup := w.soup + Downlinks(if |w.gw.sent| <= |g.sent| then g.sent[|w.gw.sent|..] else []))
  }

  function Step(w: World, a: Act, env: Env): World {
    match a
    case Gate(ev) => if ev.Report? then w else GateStep(w, ev, env)
    case Deliver(f) =>
      if w.up[f] == 0 then w
      else GateStep(w.(up := w.up - multiset{f}), Report(f.turn.id, f.failed), env)
    case LoseDown(m) => w.(soup := w.soup - multiset{Item(m, Downlink)})
    case LoseUp(f) => w.(up := w.up - multiset{f})
    case Receive(m) =>
      if w.soup[Item(m, Downlink)] == 0 then w
      else w.(soup := w.soup - multiset{Item(m, Downlink)} + multiset{Item(m, Fetching)})
    case Fetch(m, started) =>
      if w.soup[Item(m, Fetching)] == 0 then w else
      var s := At(w, KeyOf(m));
      var w1 := w.(soup := w.soup - multiset{Item(m, Fetching)});
      if s.process.Some? then w1.(soup := w1.soup + multiset{Item(m, Ready)})
      else if started then
        w1.(soup := w1.soup + multiset{Item(m, Ready)}, processes := w.processes + 1,
            sessions := w.sessions[KeyOf(m) := s.(process := Some(w.processes), pumps := s.pumps[w.processes := multiset{}])])
      else w1.(up := w1.up + multiset{Frame(m, true)})
    case Begin(m) =>
      if w.soup[Item(m, Ready)] == 0 then w
      else w.(soup := w.soup - multiset{Item(m, Ready)} + multiset{Item(m, Sending)},
              sessions := w.sessions[KeyOf(m) := At(w, KeyOf(m)).(turn := Some(m), busy := true)])
    case Submit(m, accepted) =>
      if w.soup[Item(m, Sending)] == 0 then w else
      var s := At(w, KeyOf(m));
      var w1 := w.(soup := w.soup - multiset{Item(m, Sending)});
      if s.process.Some? && s.process.value in s.pumps && accepted then
        w1.(sessions := w.sessions[KeyOf(m) :=
              s.(pumps := s.pumps[s.process.value := s.pumps[s.process.value] + multiset{m}])])
      else w1.(up := w1.up + multiset{Frame(m, true)})
    case Answer(m, p, failed) =>
      var s := At(w, KeyOf(m));
      if !(p in s.pumps && m in s.pumps[p]) then w
      else w.(sessions := w.sessions[KeyOf(m) := s.(busy := false, pumps := s.pumps[p := s.pumps[p] - multiset{m}])],
              up := w.up + Told(s, failed))
    case Close(key) => w.(sessions := w.sessions[key := At(w, key).(process := None)])
    case Exit(key, p) =>
      var s := At(w, key);
      if !Lingers(s, p) then w
      else w.(sessions := w.sessions[key := s.(busy := false, pumps := s.pumps - {p})],
              up := if s.busy then w.up + Told(s, true) else w.up)
  }

  /** What the runner reports is the turn its session is set to. */
  function Told(s: Session, failed: bool): multiset<Frame> {
    if s.turn.Some? then multiset{Frame(s.turn.value, failed)} else multiset{}
  }

  predicate Lingers(s: Session, p: nat) {
    p in s.pumps && s.process != Some(p)
  }

  function Trace(w: World, acts: seq<Act>, env: Env): World
    decreases |acts|
  {
    if acts == [] then w else Step(Trace(w, acts[..|acts| - 1], env), acts[|acts| - 1], env)
  }

  // ------------------------------------------------------------------
  // What every step keeps
  // ------------------------------------------------------------------

  /** Every input belongs to a live turn which no frame calls over, and is held
      once; a turn is called over once. */
  ghost predicate Single(w: World) {
    && (forall x | Held(w, x) > 0 :: Held(w, x) == 1 && Live(w.gw, x.msg) && Ups(w, x.msg) == 0)
    && (forall x, y | Held(w, x) > 0 && Held(w, y) > 0 && x.msg == y.msg :: x == y)
    && (forall m :: Ups(w, m) <= 1)
  }

  predicate InTurn(h: Hop) {
    h.Sending? || h.Given?
  }

  /** A session is busy exactly while its turn's input is with it. */
  ghost predicate Pointed(w: World) {
    && (forall x | Held(w, x) > 0 && InTurn(x.at) ::
          At(w, KeyOf(x.msg)).busy && At(w, KeyOf(x.msg)).turn == Some(x.msg))
    && (forall key | At(w, key).busy :: At(w, key).turn.Some? && KeyOf(At(w, key).turn.value) == key
          && exists h :: InTurn(h) && Held(w, Item(At(w, key).turn.value, h)) > 0)
  }

  ghost predicate Sent(w: World) {
    && (forall x | Held(w, x) > 0 :: x.msg in w.gw.sent)
    && (forall f | f in w.up :: f.turn in w.gw.sent)
  }

  /** Sessions hold only their own thread's inputs, and name processes once. */
  ghost predicate Keyed(w: World) {
    && (forall key, p, m | Work(At(w, key), p, m) > 0 :: KeyOf(m) == key)
    && (forall key, p | p in At(w, key).pumps :: p < w.processes)
    && (forall key | At(w, key).process.Some? :: At(w, key).process.value in At(w, key).pumps)
    && (forall x | x in w.soup :: !x.at.Given?)
  }

  ghost predicate Safe(w: World) {
    Inv(w.gw, {}) && Keyed(w) && Single(w) && Pointed(w) && Sent(w)
  }

  /** The steps that keep it: a sweep or reconcile finalizes no turn whose input is
      still with a runner, rows of sent messages are deleted, the harness takes the
      input, and a reader that outlived its process does not find a newer turn. */
  ghost predicate Allowed(w: World, a: Act) {
    match a
    case Gate(ev) =>
      if ev.Visit? then Visits(w.gw, ev) ==> forall h :: Held(w, Item(w.gw.turns[ev.turn].msg, h)) == 0
      else ev.Shipment? ==> Faithful(w.gw, ev)
    case Submit(m, accepted) =>
      w.soup[Item(m, Sending)] > 0 ==> accepted && At(w, KeyOf(m)).process.Some?
    case Exit(key, p) =>
      Lingers(At(w, key), p) && At(w, key).busy ==>
        At(w, key).turn.Some? && Held(w, Item(At(w, key).turn.value, Given(p))) > 0
    case _ => true
  }

  // ------------------------------------------------------------------
  // One token per thread
  // ------------------------------------------------------------------

  lemma LiveIsOccupant(g: State, m: Msg)
    requires Inv(g, {}) && Live(g, m)
    ensures Known(g.arrivals, m) && m.thread in g.occupant && g.occupant[m.thread] == m.id
  {
    hide ParkedFiled, WaitingFiled, Backed, Blamed, Ordered;
  }

  lemma OneLive(g: State, m: Msg, n: Msg)
    requires Inv(g, {}) && Live(g, m) && Live(g, n) && m.thread == n.thread
    ensures m == n
  {
    hide Inv, Live;
    LiveIsOccupant(g, m);
    LiveIsOccupant(g, n);
  }

  /** For each thread there is at most one of an input on its way or in the
      harness, and a terminal frame on its way back for a live turn; and it is for
      the turn that occupies the thread. */
  lemma AtMostOne(w: World, m: Msg, n: Msg, h: Hop, k: Hop, failed: bool, other: bool)
    requires Safe(w) && m.thread == n.thread
    ensures Held(w, Item(m, h)) > 0 && Held(w, Item(n, k)) > 0 ==> m == n && h == k && Held(w, Item(m, h)) == 1
    ensures Held(w, Item(m, h)) > 0 && Live(w.gw, n) ==> w.up[Frame(n, failed)] == 0
    ensures Live(w.gw, m) && Live(w.gw, n) && w.up[Frame(m, failed)] > 0 && w.up[Frame(n, other)] > 0 ==>
              m == n && failed == other && w.up[Frame(m, failed)] == 1
    ensures Held(w, Item(m, h)) > 0 || (Live(w.gw, m) && w.up[Frame(m, failed)] > 0) ==>
              m.thread in w.gw.occupant && w.gw.occupant[m.thread] == m.id
  {
    hide Inv, Held, Live, Keyed, Pointed, Sent;
    if Live(w.gw, m) {
      LiveIsOccupant(w.gw, m);
      if Live(w.gw, n) {
        OneLive(w.gw, m, n);
      }
    }
  }

  lemma SameThread(w: World, x: Item, y: Item)
    requires Safe(w) && Held(w, x) > 0 && Held(w, y) > 0 && x.msg.thread == y.msg.thread
    ensures x == y
  {
    hide Safe, Held;
    AtMostOne(w, x.msg, y.msg, x.at, y.at, false, false);
  }

  // ------------------------------------------------------------------
  // Moving one token
  // ------------------------------------------------------------------

  ghost predicate Moved(w: World, w': World, m: Msg, a: Hop, b: Hop) {
    forall x :: Held(w', x) == if x == Item(m, a) then 0 else if x == Item(m, b) then 1 else Held(w, x)
  }

  ghost predicate Left(w: World, w': World, m: Msg, a: Hop) {
    forall x :: Held(w', x) == if x == Item(m, a) then 0 else Held(w, x)
  }

  lemma MovedKeeps(w: World, w': World, m: Msg, a: Hop, b: Hop)
    requires Single(w) && Sent(w) && Held(w, Item(m, a)) > 0 && Moved(w, w', m, a, b)
    requires w'.gw == w.gw && w'.up == w.up
    ensures Single(w') && Sent(w')
  {
    hide Held, Live;
    assert forall n :: Ups(w', n) == Ups(w, n);
  }

  lemma LeftKeeps(w: World, w': World, m: Msg, a: Hop)
    requires Single(w) && Sent(w) && Left(w, w', m, a) && w'.gw == w.gw && w'.up == w.up
    ensures Single(w') && Sent(w')
  {
    hide Held, Live;
    assert forall n :: Ups(w', n) == Ups(w, n);
  }

  lemma EndedKeeps(w: World, w': World, m: Msg, a: Hop, failed: bool)
    requires Single(w) && Sent(w) && Held(w, Item(m, a)) > 0 && Left(w, w', m, a)
    requires w'.gw == w.gw && w'.up == w.up + multiset{Frame(m, failed)}
    ensures Single(w') && Sent(w')
  {
    hide Held, Live;
    assert forall n | n != m :: Ups(w', n) == Ups(w, n);
    assert Ups(w', m) == Ups(w, m) + 1;
  }

  /** Neither pointer nor inputs in turn change. */
  lemma PointedSame(w: World, w': World)
    requires Pointed(w)
    requires forall key :: At(w', key).busy == At(w, key).busy && At(w', key).turn == At(w, key).turn
    requires forall x: Item | InTurn(x.at) :: Held(w', x) == Held(w, x)
    ensures Pointed(w')
  {
    hide Held, At;
    forall key | At(w', key).busy
      ensures exists h :: InTurn(h) && Held(w', Item(At(w', key).turn.value, h)) > 0
    {
      var h :| InTurn(h) && Held(w, Item(At(w, key).turn.value, h)) > 0;
      assert Held(w', Item(At(w, key).turn.value, h)) > 0;
    }
  }

  // ------------------------------------------------------------------
  // What the runner's steps do to inputs and sessions
  // ------------------------------------------------------------------

  /** The sessions differ at most in their processes. */
  ghost predicate SamePointers(w: World, w': World) {
    forall key :: At(w', key).busy == At(w, key).busy && At(w', key).turn == At(w, key).turn
  }

  ghost predicate SameWork(w: World, w': World) {
    forall key, p, m :: Work(At(w', key), p, m) == Work(At(w, key), p, m)
  }

  lemma PutSession(w: World, w': World, key: Key, s: Session)
    requires w'.sessions == w.sessions[key := s]
    ensures forall k :: At(w', k) == if k == key then s else At(w, k)
  {
  }

  lemma SoupMoved(w: World, w': World, m: Msg, a: Hop, b: Hop)
    requires SameWork(w, w') && !a.Given? && !b.Given? && a != b
    requires w'.soup == w.soup - multiset{Item(m, a)} + multiset{Item(m, b)}
    requires Held(w, Item(m, a)) == 1 && Held(w, Item(m, b)) == 0
    ensures Moved(w, w', m, a, b)
  {
    hide At, Work;
  }

  lemma SoupLeft(w: World, w': World, m: Msg, a: Hop)
    requires SameWork(w, w') && !a.Given? && w'.soup == w.soup - multiset{Item(m, a)} && Held(w, Item(m, a)) == 1
    ensures Left(w, w', m, a)
  {
    hide At, Work;
  }

  /** The conditions on sessions that concern processes only. */
  lemma KeyedAgain(w: World, w': World)
    requires Keyed(w) && SameWork(w, w') && w.processes <= w'.processes
    requires forall key :: At(w', key).pumps.Keys == At(w, key).pumps.Keys && At(w', key).process == At(w, key).process
    requires forall x | x in w'.soup :: !x.at.Given?
    ensures Keyed(w')
  {
    hide At, Work;
  }

  lemma LoseEffect(w: World, m: Msg, env: Env)
    requires Keyed(w) && Held(w, Item(m, Downlink)) == 1
    ensures var w' := Step(w, LoseDown(m), env); Keyed(w') && SamePointers(w, w') && Left(w, w', m, Downlink)
  {
    hide Keyed, Work, Left;
    var w' := Step(w, LoseDown(m), env);
    assert forall key :: At(w', key) == At(w, key);
    SoupLeft(w, w', m, Downlink);
    SoupShrinks(w, w');
  }

  lemma SoupShrinks(w: World, w': World)
    requires Keyed(w) && w'.sessions == w.sessions && w'.processes == w.processes
    requires forall x | x in w'.soup && x !in w.soup :: !x.at.Given?
    ensures Keyed(w')
  {
    hide Work;
    assert forall key :: At(w', key) == At(w, key);
    hide At;
  }

  lemma ReceiveEffect(w: World, m: Msg, env: Env)
    requires Keyed(w) && Held(w, Item(m, Downlink)) == 1 && Held(w, Item(m, Fetching)) == 0
    ensures var w' := Step(w, Receive(m), env); Keyed(w') && SamePointers(w, w') && Moved(w, w', m, Downlink, Fetching)
  {
    hide Keyed, Work, Moved;
    var w' := Step(w, Receive(m), env);
    assert forall key :: At(w', key) == At(w, key);
    SoupMoved(w, w', m, Downlink, Fetching);
    SoupShrinks(w, w');
  }

  lemma FoundEffect(w: World, m: Msg, started: bool, env: Env)
    requires Keyed(w) && Held(w, Item(m, Fetching)) == 1 && Held(w, Item(m, Ready)) == 0
    requires At(w, KeyOf(m)).process.Some?
    ensures var w' := Step(w, Fetch(m, started), env);
            Keyed(w') && SamePointers(w, w') && Moved(w, w', m, Fetching, Ready) && w'.up == w.up
  {
    hide Keyed, Work, Moved;
    var w' := Step(w, Fetch(m, started), env);
    assert forall key :: At(w', key) == At(w, key);
    SoupMoved(w, w', m, Fetching, Ready);
    SoupShrinks(w, w');
  }

  lemma StartEffect(w: World, m: Msg, env: Env)
    requires Keyed(w) && Held(w, Item(m, Fetching)) == 1 && Held(w, Item(m, Ready)) == 0
    requires At(w, KeyOf(m)).process.None?
    ensures var w' := Step(w, Fetch(m, true), env);
            Keyed(w') && SamePointers(w, w') && Moved(w, w', m, Fetching, Ready) && w'.up == w.up
  {
    hide Moved;
    var w' := Step(w, Fetch(m, true), env);
    var s := At(w, KeyOf(m));
    PutSession(w, w', KeyOf(m), s.(process := Some(w.processes), pumps := s.pumps[w.processes := multiset{}]));
    hide At;
    assert w.processes !in s.pumps;
    assert forall p, n :: Work(At(w', KeyOf(m)), p, n) == Work(s, p, n);
    assert forall x | x in w'.soup :: x in w.soup || x == Item(m, Ready);
    SoupMoved(w, w', m, Fetching, Ready);
    assert forall p | p in At(w', KeyOf(m)).pumps :: p < w'.processes;
  }

  lemma NoStartEffect(w: World, m: Msg, env: Env)
    requires Keyed(w) && Held(w, Item(m, Fetching)) == 1 && At(w, KeyOf(m)).process.None?
    ensures var w' := Step(w, Fetch(m, false), env);
            Keyed(w') && SamePointers(w, w') && Left(w, w', m, Fetching) && w'.up == w.up + multiset{Frame(m, true)}
  {
    hide Keyed, Work, Left;
    var w' := Step(w, Fetch(m, false), env);
    assert forall key :: At(w', key) == At(w, key);
    SoupLeft(w, w', m, Fetching);
    SoupShrinks(w, w');
  }

  lemma BeginEffect(w: World, m: Msg, env: Env)
    requires Keyed(w) && Held(w, Item(m, Ready)) == 1 && Held(w, Item(m, Sending)) == 0
    ensures var w' := Step(w, Begin(m), env);
            && Keyed(w') && Moved(w, w', m, Ready, Sending)
            && (forall key | key != KeyOf(m) :: At(w', key) == At(w, key))
            && At(w', KeyOf(m)) == At(w, KeyOf(m)).(turn := Some(m), busy := true)
  {
    hide Moved;
    var w' := Step(w, Begin(m), env);
    PutSession(w, w', KeyOf(m), At(w, KeyOf(m)).(turn := Some(m), busy := true));
    hide At;
    SoupMoved(w, w', m, Ready, Sending);
    KeyedAgain(w, w');
  }

  lemma Gave(s: Session, p: nat, m: Msg)
    requires p in s.pumps
    ensures forall q, n :: Work(s.(pumps := s.pumps[p := s.pumps[p] + multiset{m}]), q, n)
                           == if q == p && n == m then Work(s, p, m) + 1 else Work(s, q, n)
    ensures s.pumps[p := s.pumps[p] + multiset{m}].Keys == s.pumps.Keys
  {
    assert s.pumps[p := s.pumps[p] + multiset{m}].Keys == s.pumps.Keys;
  }

  lemma SubmitEffect(w: World, m: Msg, env: Env)
    requires Keyed(w) && Held(w, Item(m, Sending)) == 1 && At(w, KeyOf(m)).process.Some?
    requires Held(w, Item(m, Given(At(w, KeyOf(m)).process.value))) == 0
    ensures var w' := Step(w, Submit(m, true), env);
            && Keyed(w') && SamePointers(w, w') && Moved(w, w', m, Sending, Given(At(w, KeyOf(m)).process.value))
            && w'.up == w.up
  {
    var w' := Step(w, Submit(m, true), env);
    var s := At(w, KeyOf(m));
    var p := s.process.value;
    PutSession(w, w', KeyOf(m), s.(pumps := s.pumps[p := s.pumps[p] + multiset{m}]));
    Gave(s, p, m);
    assert w'.soup == w.soup - multiset{Item(m, Sending)} && w'.up == w.up && w'.processes == w.processes;
    hide At, Work, Step;
    GivenKeyed(w, w', m, p);
  }

  lemma GivenKeyed(w: World, w': World, m: Msg, p: nat)
    requires Keyed(w) && w'.processes == w.processes && w'.soup <= w.soup
    requires forall k | k != KeyOf(m) :: At(w', k) == At(w, k)
    requires At(w', KeyOf(m)).pumps.Keys == At(w, KeyOf(m)).pumps.Keys && At(w', KeyOf(m)).process == At(w, KeyOf(m)).process
    requires forall q, n :: Work(At(w', KeyOf(m)), q, n) > 0 ==> Work(At(w, KeyOf(m)), q, n) > 0 || n == m
    ensures Keyed(w')
  {
    hide At, Work;
    assert forall x | x in w'.soup :: x in w.soup;
    forall key, q, n | Work(At(w', key), q, n) > 0
      ensures KeyOf(n) == key
    {
      assert n == m || Work(At(w, key), q, n) > 0;
    }
  }

  lemma Answered(s: Session, p: nat, m: Msg)
    requires p in s.pumps
    ensures forall q, n :: Work(s.(busy := false, pumps := s.pumps[p := s.pumps[p] - multiset{m}]), q, n)
                           == if q == p && n == m then (if Work(s, p, m) > 0 then Work(s, p, m) - 1 else 0) else Work(s, q, n)
    ensures s.pumps[p := s.pumps[p] - multiset{m}].Keys == s.pumps.Keys
  {
    assert s.pumps[p := s.pumps[p] - multiset{m}].Keys == s.pumps.Keys;
  }

  lemma AnswerEffect(w: World, m: Msg, p: nat, failed: bool, env: Env)
    requires Keyed(w) && Held(w, Item(m, Given(p))) == 1
    ensures var w' := Step(w, Act.Answer(m, p, failed), env);
            && Keyed(w') && Left(w, w', m, Given(p))
            && (forall key | key != KeyOf(m) :: At(w', key) == At(w, key))
            && !At(w', KeyOf(m)).busy && w'.up == w.up + Told(At(w, KeyOf(m)), failed)
  {
    hide Told;
    var w' := Step(w, Act.Answer(m, p, failed), env);
    var s := At(w, KeyOf(m));
    PutSession(w, w', KeyOf(m), s.(busy := false, pumps := s.pumps[p := s.pumps[p] - multiset{m}]));
    Answered(s, p, m);
    hide At, Work;
    forall key, q, n | Work(At(w', key), q, n) > 0
      ensures KeyOf(n) == key
    {
      assert Work(At(w, key), q, n) > 0;
    }
  }

  lemma Exited(s: Session, p: nat)
    ensures forall q, n :: Work(s.(busy := false, pumps := s.pumps - {p}), q, n) == if q == p then 0 else Work(s, q, n)
  {
  }

  lemma ExitEffect(w: World, key: Key, p: nat, env: Env)
    requires Keyed(w) && Lingers(At(w, key), p)
    ensures var w' := Step(w, Exit(key, p), env);
            && Keyed(w')
            && (forall x: Item :: Held(w', x) == if KeyOf(x.msg) == key && x.at == Given(p) then 0 else Held(w, x))
            && (forall k | k != key :: At(w', k) == At(w, k))
            && !At(w', key).busy
            && w'.up == if At(w, key).busy then w.up + Told(At(w, key), true) else w.up
  {
    hide Told;
    var w' := Step(w, Exit(key, p), env);
    var s := At(w, key);
    PutSession(w, w', key, s.(busy := false, pumps := s.pumps - {p}));
    Exited(s, p);
    hide At, Work;
  }

  lemma CloseEffect(w: World, key: Key, env: Env)
    requires Keyed(w)
    ensures var w' := Step(w, Close(key), env);
            Keyed(w') && SamePointers(w, w') && forall x :: Held(w', x) == Held(w, x)
  {
    var w' := Step(w, Close(key), env);
    PutSession(w, w', key, At(w, key).(process := None));
    hide At;
    assert forall q, n :: Work(At(w, key).(process := None), q, n) == Work(At(w, key), q, n);
    hide Work;
  }

  // ------------------------------------------------------------------
  // The runner's steps
  // ------------------------------------------------------------------

  lemma LoseUpKeeps(w: World, f: Frame, env: Env)
    requires Safe(w)
    ensures Safe(Step(w, LoseUp(f), env))
  {
    hide Inv, Keyed, Pointed, Single, Sent;
    var w' := Step(w, LoseUp(f), env);
    SameInputs(w, w');
    FewerFramesKeep(w, w');
  }

  lemma FewerFramesKeep(w: World, w': World)
    requires Single(w) && Sent(w) && w'.gw == w.gw && w'.up <= w.up && forall x :: Held(w', x) == Held(w, x)
    ensures Single(w') && Sent(w')
  {
    hide Held, Live;
    assert forall m :: Ups(w', m) <= Ups(w, m);
  }

  lemma LoseDownKeeps(w: World, m: Msg, env: Env)
    requires Safe(w)
    ensures Safe(Step(w, LoseDown(m), env))
  {
    hide Inv, Live, Keyed, Pointed, Sent;
    var w' := Step(w, LoseDown(m), env);
    if w.soup[Item(m, Downlink)] > 0 {
      assert Held(w, Item(m, Downlink)) > 0;
      LoseEffect(w, m, env);
      hide Held, Single;
      LeftKeeps(w, w', m, Downlink);
      PointedSame(w, w');
    } else {
      assert w'.soup == w.soup;
    }
  }

  lemma SameInputs(w: World, w': World)
    requires w'.soup == w.soup && w'.sessions == w.sessions && w'.processes == w.processes
    ensures forall x :: Held(w', x) == Held(w, x)
    ensures Keyed(w) ==> Keyed(w')
    ensures Pointed(w) ==> Pointed(w')
  {
    assert forall key :: At(w', key) == At(w, key);
    assert forall x :: Held(w', x) == Held(w, x);
    hide Held, At;
  }

  lemma ReceiveKeeps(w: World, m: Msg, env: Env)
    requires Safe(w)
    ensures Safe(Step(w, Receive(m), env))
  {
    hide Inv, Live, Keyed, Pointed, Sent;
    var w' := Step(w, Receive(m), env);
    if w.soup[Item(m, Downlink)] > 0 {
      assert Held(w, Item(m, Downlink)) > 0;
      ReceiveEffect(w, m, env);
      hide Held, Single;
      MovedKeeps(w, w', m, Downlink, Fetching);
      PointedSame(w, w');
    }
  }

  lemma FetchKeeps(w: World, m: Msg, started: bool, env: Env)
    requires Safe(w)
    ensures Safe(Step(w, Fetch(m, started), env))
  {
    hide Inv, Live, Keyed, Pointed, Sent;
    var w' := Step(w, Fetch(m, started), env);
    if w.soup[Item(m, Fetching)] > 0 {
      assert Held(w, Item(m, Fetching)) > 0;
      assert w'.gw == w.gw;
      hide Held, Step;
      if At(w, KeyOf(m)).process.Some? {
        FoundEffect(w, m, started, env);
        hide Single;
        MovedKeeps(w, w', m, Fetching, Ready);
      } else if started {
        StartEffect(w, m, env);
        hide Single;
        MovedKeeps(w, w', m, Fetching, Ready);
      } else {
        NoStartEffect(w, m, env);
        hide Single;
        EndedKeeps(w, w', m, Fetching, true);
      }
      PointedSame(w, w');
    }
  }

  /** A session's turn is never overwritten mid-turn. */
  lemma NeverOverwritten(w: World, m: Msg)
    requires Safe(w) && Held(w, Item(m, Ready)) > 0
    ensures !At(w, KeyOf(m)).busy
  {
    hide Inv, Live, Held;
    var s := At(w, KeyOf(m));
    if s.busy {
      var h :| InTurn(h) && Held(w, Item(s.turn.value, h)) > 0;
      SameThread(w, Item(m, Ready), Item(s.turn.value, h));
      assert false;
    }
  }

  lemma BeginKeeps(w: World, m: Msg, env: Env)
    requires Safe(w)
    ensures Safe(Step(w, Begin(m), env))
  {
    hide Inv, Live, Keyed, Pointed, Sent;
    var w' := Step(w, Begin(m), env);
    if w.soup[Item(m, Ready)] > 0 {
      assert Held(w, Item(m, Ready)) > 0;
      BeginEffect(w, m, env);
      Alone(w, m, Ready);
      hide Held, Single;
      MovedKeeps(w, w', m, Ready, Sending);
      PointedBy(w, w', m, Sending);
    }
  }

  /** The other sessions keep pointing at their turns; this one points at `m`. */
  lemma PointedBy(w: World, w': World, m: Msg, h: Hop)
    requires Pointed(w) && InTurn(h) && Held(w', Item(m, h)) > 0
    requires forall x | Held(w', x) > 0 && KeyOf(x.msg) == KeyOf(m) :: x == Item(m, h)
    requires forall x: Item | KeyOf(x.msg) != KeyOf(m) :: Held(w', x) == Held(w, x)
    requires forall k | k != KeyOf(m) :: At(w', k) == At(w, k)
    requires At(w', KeyOf(m)).busy && At(w', KeyOf(m)).turn == Some(m)
    ensures Pointed(w')
  {
    hide Held, At;
    forall k | At(w', k).busy
      ensures At(w', k).turn.Some? && KeyOf(At(w', k).turn.value) == k
      ensures exists h :: InTurn(h) && Held(w', Item(At(w', k).turn.value, h)) > 0
    {
      if k != KeyOf(m) {
        var g :| InTurn(g) && Held(w, Item(At(w, k).turn.value, g)) > 0;
        assert Held(w', Item(At(w, k).turn.value, g)) > 0;
      }
    }
  }

  lemma PointedIdle(w: World, w': World, key: Key)
    requires Pointed(w) && !At(w', key).busy
    requires forall x | Held(w', x) > 0 :: KeyOf(x.msg) != key || !InTurn(x.at)
    requires forall x: Item | KeyOf(x.msg) != key :: Held(w', x) == Held(w, x)
    requires forall k | k != key :: At(w', k) == At(w, k)
    ensures Pointed(w')
  {
    hide Held, At;
    forall k | At(w', k).busy
      ensures At(w', k).turn.Some? && KeyOf(At(w', k).turn.value) == k
      ensures exists h :: InTurn(h) && Held(w', Item(At(w', k).turn.value, h)) > 0
    {
      var g :| InTurn(g) && Held(w, Item(At(w, k).turn.value, g)) > 0;
      assert Held(w', Item(At(w, k).turn.value, g)) > 0;
    }
  }

  lemma SubmitKeeps(w: World, m: Msg, env: Env)
    requires Safe(w) && At(w, KeyOf(m)).process.Some?
    ensures Safe(Step(w, Submit(m, true), env))
  {
    hide Inv, Live, Keyed, Pointed, Sent;
    var w' := Step(w, Submit(m, true), env);
    if w.soup[Item(m, Sending)] > 0 {
      assert Held(w, Item(m, Sending)) > 0;
      assert w'.gw == w.gw;
      hide Step;
      SubmitEffect(w, m, env);
      Alone(w, m, Sending);
      hide Held, Single;
      MovedKeeps(w, w', m, Sending, Given(At(w, KeyOf(m)).process.value));
      InTurnNow(w, m, Sending);
      PointedMoved(w, w', m, Sending, Given(At(w, KeyOf(m)).process.value));
    }
  }

  lemma InTurnNow(w: World, m: Msg, h: Hop)
    requires Pointed(w) && InTurn(h) && Held(w, Item(m, h)) > 0
    ensures At(w, KeyOf(m)).busy && At(w, KeyOf(m)).turn == Some(m)
  {
    hide Held;
  }

  lemma PointedMoved(w: World, w': World, m: Msg, a: Hop, b: Hop)
    requires Pointed(w) && InTurn(a) && InTurn(b) && a != b && Held(w, Item(m, a)) > 0 && Moved(w, w', m, a, b) && SamePointers(w, w')
    requires forall x | Held(w, x) > 0 && KeyOf(x.msg) == KeyOf(m) :: x == Item(m, a)
    ensures Pointed(w')
  {
    hide Held, At;
    forall k | At(w', k).busy
      ensures exists h :: InTurn(h) && Held(w', Item(At(w', k).turn.value, h)) > 0
    {
      var g :| InTurn(g) && Held(w, Item(At(w, k).turn.value, g)) > 0;
      var h := if Item(At(w, k).turn.value, g) == Item(m, a) then b else g;
      assert InTurn(h) && Held(w', Item(At(w, k).turn.value, h)) > 0;
    }
  }

  /** A terminal event is attributed to the message it answers. */
  lemma RightlyAttributed(w: World, m: Msg, p: nat, failed: bool)
    requires Safe(w) && Held(w, Item(m, Given(p))) > 0
    ensures Told(At(w, KeyOf(m)), failed) == multiset{Frame(m, failed)}
  {
    hide Inv, Held, Keyed, Single, Sent;
    assert InTurn(Given(p));
    InTurnNow(w, m, Given(p));
  }

  lemma Alone(w: World, m: Msg, h: Hop)
    requires Safe(w) && Held(w, Item(m, h)) > 0
    ensures forall x | Held(w, x) > 0 && KeyOf(x.msg) == KeyOf(m) :: x == Item(m, h)
  {
    hide Safe, Held;
    forall x | Held(w, x) > 0 && KeyOf(x.msg) == KeyOf(m)
      ensures x == Item(m, h)
    {
      SameThread(w, x, Item(m, h));
    }
  }

  lemma AnswerKeeps(w: World, m: Msg, p: nat, failed: bool, env: Env)
    requires Safe(w)
    ensures Safe(Step(w, Act.Answer(m, p, failed), env))
  {
    hide Inv, Live, Keyed, Pointed, Sent, Told;
    var w' := Step(w, Act.Answer(m, p, failed), env);
    var s := At(w, KeyOf(m));
    if p in s.pumps && m in s.pumps[p] {
      assert Held(w, Item(m, Given(p))) > 0;
      assert w'.gw == w.gw;
      hide Step, Held;
      RightlyAttributed(w, m, p, failed);
      AnswerEffect(w, m, p, failed, env);
      Alone(w, m, Given(p));
      hide Single;
      EndedKeeps(w, w', m, Given(p), failed);
      PointedIdle(w, w', KeyOf(m));
    }
  }

  lemma CloseKeeps(w: World, key: Key, env: Env)
    requires Safe(w)
    ensures Safe(Step(w, Close(key), env))
  {
    hide Inv, Live, Keyed, Pointed;
    var w' := Step(w, Close(key), env);
    CloseEffect(w, key, env);
    hide Held, Single, Sent;
    FewerFramesKeep(w, w');
    PointedSame(w, w');
  }

  lemma ExitKeeps(w: World, key: Key, p: nat, env: Env)
    requires Safe(w) && Allowed(w, Exit(key, p))
    ensures Safe(Step(w, Exit(key, p), env))
  {
    hide Inv, Live, Keyed, Pointed, Sent, Told, Held, Single;
    var w' := Step(w, Exit(key, p), env);
    var s := At(w, key);
    if Lingers(s, p) {
      ExitEffect(w, key, p, env);
      assert w'.gw == w.gw;
      hide Step;
      if s.busy {
        BusyExit(w, w', key, p);
      } else {
        IdleExit(w, w', key, p);
      }
    }
  }

  lemma BusyExit(w: World, w': World, key: Key, p: nat)
    requires Safe(w) && At(w, key).busy && At(w, key).turn.Some? && Held(w, Item(At(w, key).turn.value, Given(p))) > 0
    requires forall x :: Held(w', x) == if KeyOf(x.msg) == key && x.at == Given(p) then 0 else Held(w, x)
    requires forall k | k != key :: At(w', k) == At(w, k)
    requires !At(w', key).busy && w'.up == w.up + Told(At(w, key), true) && w'.gw == w.gw
    ensures Single(w') && Sent(w') && Pointed(w')
  {
    var m := At(w, key).turn.value;
    assert KeyOf(m) == key by { hide Held, Inv, Single, Sent, Keyed; }
    hide Inv, Live, Keyed, Pointed, Held, Single, Sent;
    Alone(w, m, Given(p));
    EndedKeeps(w, w', m, Given(p), true);
    PointedIdle(w, w', key);
  }

  lemma IdleExit(w: World, w': World, key: Key, p: nat)
    requires Safe(w) && !At(w, key).busy
    requires forall x :: Held(w', x) == if KeyOf(x.msg) == key && x.at == Given(p) then 0 else Held(w, x)
    requires forall k | k != key :: At(w', k) == At(w, k)
    requires !At(w', key).busy && w'.up == w.up && w'.gw == w.gw
    ensures Single(w') && Sent(w') && Pointed(w')
  {
    hide Inv, Live, Keyed, Held, Single, Sent, At;
    assert InTurn(Given(p));
    assert forall x :: Held(w', x) == Held(w, x);
    PointedIdle(w, w', key);
    FewerFramesKeep(w, w');
  }
}
