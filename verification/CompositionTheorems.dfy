/** Which steps of gateway and runners together are safe, and what follows. */
module CompositionTheorems {
  import opened Wrappers
  import opened Scheduler
  import opened SchedulerInvariant
  import opened SchedulerTheorems
  import opened SchedulerSends
  import opened Composition

  // ------------------------------------------------------------------
  // The gateway's steps
  // ------------------------------------------------------------------

  lemma {:induction false} DownlinkCount(msgs: seq<Msg>, x: Item)
    ensures Downlinks(msgs)[x] == if x.at.Downlink? then multiset(msgs)[x.msg] else 0
  {
    if msgs != [] {
      DownlinkCount(msgs[..|msgs| - 1], x);
      assert msgs == msgs[..|msgs| - 1] + [msgs[|msgs| - 1]];
    }
  }

  lemma {:induction false} CountOnce(msgs: seq<Msg>, m: Msg)
    requires forall j, k | 0 <= j < k < |msgs| :: msgs[j] != msgs[k]
    ensures multiset(msgs)[m] == if m in msgs then 1 else 0
  {
    if msgs != [] {
      CountOnce(msgs[..|msgs| - 1], m);
      assert msgs == msgs[..|msgs| - 1] + [msgs[|msgs| - 1]];
    }
  }

  function News(g: State, g': State): seq<Msg>
    requires g.sent <= g'.sent
  {
    g'.sent[|g.sent|..]
  }

  lemma NewsAreNew(g: State, g': State, m: Msg)
    requires Inv(g', {}) && g.sent <= g'.sent && m in News(g, g')
    ensures m !in g.sent
  {
    hide Inv;
    var k :| |g.sent| <= k < |g'.sent| && g'.sent[k] == m;
    forall j | 0 <= j < |g.sent|
      ensures g.sent[j] != m
    {
      SentOnce(g', j, k);
    }
  }

  lemma NewsCount(g: State, g': State, m: Msg)
    requires Inv(g', {}) && g.sent <= g'.sent
    ensures multiset(News(g, g'))[m] == if m in News(g, g') then 1 else 0
  {
    hide Inv;
    var news := News(g, g');
    forall j, k | 0 <= j < k < |news|
      ensures news[j] != news[k]
    {
      SentOnce(g', |g.sent| + j, |g.sent| + k);
    }
    CountOnce(news, m);
  }

  /** The event puts its messages on the downlink and moves no other input. */
  lemma GateHeld(w: World, ev: Event, env: Env)
    requires Sent(w) && Inv(Apply(w.gw, ev, env), {}) && w.gw.sent <= Apply(w.gw, ev, env).sent
    ensures var w' := GateStep(w, ev, env);
            forall x :: Held(w', x) == if x.msg in News(w.gw, w'.gw) then Count(x.at.Downlink?) else Held(w, x)
    ensures forall key :: At(GateStep(w, ev, env), key) == At(w, key)
    ensures Keyed(w) ==> Keyed(GateStep(w, ev, env))
  {
    hide Inv, Apply, Work, Downlinks;
    var w' := GateStep(w, ev, env);
    var news := News(w.gw, w'.gw);
    assert forall key :: At(w', key) == At(w, key);
    hide At;
    forall x
      ensures Held(w', x) == if x.msg in news then Count(x.at.Downlink?) else Held(w, x)
    {
      DownlinkCount(news, x);
      NewsCount(w.gw, w'.gw, x.msg);
      if x.msg in news {
        NewsAreNew(w.gw, w'.gw, x.msg);
      }
    }
    forall x | x in w'.soup
      ensures x in w.soup || x.at.Downlink?
    {
      DownlinkCount(news, x);
    }
  }

  lemma GateKeeps(w: World, ev: Event, env: Env)
    requires Safe(w) && Faithful(w.gw, ev) && forall x | Held(w, x) > 0 :: !Ends(w.gw, ev, x.msg.id)
    ensures Safe(GateStep(w, ev, env))
  {
    hide Inv, Apply, Held, Keyed, At, Live, Downlinks, Pointed;
    var w' := GateStep(w, ev, env);
    ApplyKeeps(w.gw, {}, ev, env);
    EventSends(w.gw, ev, env);
    GateHeld(w, ev, env);
    forall x | Held(w', x) > 0
      ensures Held(w', x) == 1 && Live(w'.gw, x.msg) && Ups(w', x.msg) == 0
    {
      if x.msg in News(w.gw, w'.gw) {
        NewsAreNew(w.gw, w'.gw, x.msg);
        assert Ups(w', x.msg) == 0;
      } else {
        EventOthers(w.gw, ev, env, x.msg);
      }
    }
    forall x: Item | InTurn(x.at)
      ensures Held(w', x) == Held(w, x)
    {
      if x.msg in News(w.gw, w'.gw) {
        NewsAreNew(w.gw, w'.gw, x.msg);
      }
    }
    assert forall m :: Ups(w', m) == Ups(w, m);
    PointedSame(w, w');
  }

  lemma DeliverKeeps(w: World, f: Frame, env: Env)
    requires Safe(w)
    ensures Safe(Step(w, Deliver(f), env))
  {
    hide Inv, Keyed, Pointed, GateStep, Live;
    if w.up[f] > 0 {
      var w1 := w.(up := w.up - multiset{f});
      assert f in w.up && Ups(w, f.turn) > 0;
      SameInputs(w, w1);
      hide Held;
      FewerFramesKeep(w, w1);
      SentIsNotQueued(w.gw, f.turn);
      if f.turn.id in w.gw.turns {
        LiveFlag(w.gw, f.turn);
      }
      forall x | Held(w1, x) > 0
        ensures !Ends(w.gw, Report(f.turn.id, f.failed), x.msg.id)
      {
        assert x.msg in w.gw.sent && x.msg != f.turn;
        SentIsNotQueued(w.gw, x.msg);
      }
      GateKeeps(w1, Report(f.turn.id, f.failed), env);
    }
  }

  lemma LiveFlag(g: State, m: Msg)
    requires Live(g, m)
    ensures m.id in g.turns && !g.turns[m.id].queued
  {
  }

  // ------------------------------------------------------------------
  // Exactly the allowed steps are safe
  // ------------------------------------------------------------------

  const EMPTY := World(INITIAL, multiset{}, map[], multiset{}, 0)

  lemma StartsSafe()
    ensures Safe(EMPTY)
  {
    Initially();
    hide Inv;
    assert forall x :: Held(EMPTY, x) == 0;
    assert forall key :: At(EMPTY, key) == FRESH;
  }

  lemma StepKeeps(w: World, a: Act, env: Env)
    requires Safe(w) && Allowed(w, a)
    ensures Safe(Step(w, a, env))
  {
    match a
    case Gate(ev) =>
      if !ev.Report? {
        GateAllowed(w, ev);
        GateKeeps(w, ev, env);
      }
    case Deliver(f) => DeliverKeeps(w, f, env);
    case LoseDown(m) => LoseDownKeeps(w, m, env);
    case LoseUp(f) => LoseUpKeeps(w, f, env);
    case Receive(m) => ReceiveKeeps(w, m, env);
    case Fetch(m, started) => FetchKeeps(w, m, started, env);
    case Begin(m) => BeginKeeps(w, m, env);
    case Submit(m, _) => SubmitAllowed(w, a, env);
    case Answer(m, p, failed) => AnswerKeeps(w, m, p, failed, env);
    case Close(key) => CloseKeeps(w, key, env);
    case Exit(key, p) => ExitKeeps(w, key, p, env);
  }

  lemma GateAllowed(w: World, ev: Event)
    requires Safe(w) && Allowed(w, Gate(ev)) && !ev.Report?
    ensures Faithful(w.gw, ev) && forall x | Held(w, x) > 0 :: !Ends(w.gw, ev, x.msg.id)
  {
    hide Inv, Held, Keyed, Pointed, Sent;
    forall x | Held(w, x) > 0 && ev.Visit?
      ensures !Ends(w.gw, ev, x.msg.id)
    {
      assert Item(x.msg, x.at) == x;
    }
  }

  lemma SubmitAllowed(w: World, a: Act, env: Env)
    requires a.Submit? && Safe(w) && Allowed(w, a)
    ensures Safe(Step(w, a, env))
  {
    hide Safe;
    if w.soup[Item(a.msg, Sending)] > 0 {
      SubmitKeeps(w, a.msg, env);
    }
  }

  lemma TurnName(g: State, id: nat)
    requires Inv(g, {}) && id in g.turns
    ensures g.turns[id].msg.id == id
  {
    hide ParkedFiled, WaitingFiled, Backed, OneOccupant, Blamed, Ordered;
  }

  lemma VisitBreaks(w: World, ev: Event, h: Hop, env: Env)
    requires Safe(w) && ev.Visit? && Visits(w.gw, ev) && Held(w, Item(w.gw.turns[ev.turn].msg, h)) > 0
    ensures !Safe(GateStep(w, ev, env))
  {
    hide Inv, Apply, Held, At, Downlinks, Pointed, Keyed;
    var m := w.gw.turns[ev.turn].msg;
    TurnName(w.gw, ev.turn);
    ApplyKeeps(w.gw, {}, ev, env);
    EventSends(w.gw, ev, env);
    GateHeld(w, ev, env);
    EventOthers(w.gw, ev, env, m);
    if m in News(w.gw, Apply(w.gw, ev, env)) {
      NewsAreNew(w.gw, Apply(w.gw, ev, env), m);
    }
    assert Held(GateStep(w, ev, env), Item(m, h)) > 0;
  }

  /** A send that fails leaves the session marked busy with nothing to wait for. */
  lemma FailedSendBreaks(w: World, m: Msg, accepted: bool, env: Env)
    requires Safe(w) && w.soup[Item(m, Sending)] > 0 && !(accepted && At(w, KeyOf(m)).process.Some?)
    ensures var w' := Step(w, Submit(m, accepted), env);
            At(w', KeyOf(m)).busy && (forall h :: Held(w', Item(m, h)) == 0) && !Safe(w')
  {
    hide Inv, Live, Keyed, Sent;
    var w' := Step(w, Submit(m, accepted), env);
    assert InTurn(Sending) && Held(w, Item(m, Sending)) == 1;
    InTurnNow(w, m, Sending);
    assert forall key :: At(w', key) == At(w, key);
    SoupLeft(w, w', m, Sending);
    forall h
      ensures Held(w', Item(m, h)) == 0
    {
      assert Held(w, Item(m, h)) > 0 ==> Item(m, h) == Item(m, Sending);
    }
    hide Held, At;
  }

  /** The reader of a closed process finds the session busy with a turn whose input
      went elsewhere, and reports that turn as failed while it goes on. */
  lemma LateExitBreaks(w: World, key: Key, p: nat, env: Env)
    requires Safe(w) && Lingers(At(w, key), p) && !Allowed(w, Exit(key, p))
    ensures var m := At(w, key).turn.value; var w' := Step(w, Exit(key, p), env);
            && Live(w'.gw, m) && w'.up[Frame(m, true)] > 0
            && (exists h :: InTurn(h) && Held(w', Item(m, h)) > 0) && !Safe(w')
  {
    hide Inv, Live, Held;
    var m := At(w, key).turn.value;
    var w' := Step(w, Exit(key, p), env);
    var h :| InTurn(h) && Held(w, Item(m, h)) > 0;
    assert w'.up[Frame(m, true)] > 0 && w'.gw == w.gw;
    ExitEffect(w, key, p, env);
    hide Step, At;
    assert Held(w', Item(m, h)) > 0;
    assert Ups(w', m) > 0;
  }

  lemma StepExactly(w: World, a: Act, env: Env)
    requires Safe(w)
    ensures Safe(Step(w, a, env)) <==> Allowed(w, a)
  {
    if Allowed(w, a) {
      StepKeeps(w, a, env);
    } else {
      match a
      case Gate(ev) =>
        if ev.Visit? {
          var h :| Held(w, Item(w.gw.turns[ev.turn].msg, h)) > 0;
          VisitBreaks(w, ev, h, env);
        } else {
          Exactly(w.gw, {}, ev, env);
        }
      case Submit(m, accepted) => FailedSendBreaks(w, m, accepted, env);
      case Exit(key, p) => LateExitBreaks(w, key, p, env);
      case _ =>
    }
  }

  ghost predicate AllowedTrace(w: World, acts: seq<Act>, env: Env)
    decreases |acts|
  {
    acts == [] || (AllowedTrace(w, acts[..|acts| - 1], env) && Allowed(Trace(w, acts[..|acts| - 1], env), acts[|acts| - 1]))
  }

  lemma {:induction false} TraceKeeps(w: World, acts: seq<Act>, env: Env)
    requires Safe(w) && AllowedTrace(w, acts, env)
    ensures Safe(Trace(w, acts, env))
    decreases |acts|
  {
    hide Safe, Step, Allowed;
    if acts != [] {
      TraceKeeps(w, acts[..|acts| - 1], env);
      StepKeeps(Trace(w, acts[..|acts| - 1], env), acts[|acts| - 1], env);
    }
  }

  /** From the start: in every such run, whatever was lost, reordered, closed or
      started, a thread has one thing outstanding at most. */
  lemma AlwaysOne(acts: seq<Act>, env: Env, m: Msg, n: Msg, h: Hop, k: Hop, failed: bool, other: bool)
    requires AllowedTrace(EMPTY, acts, env) && m.thread == n.thread
    ensures var w := Trace(EMPTY, acts, env);
            && Safe(w)
            && (Held(w, Item(m, h)) > 0 && Held(w, Item(n, k)) > 0 ==> m == n && h == k && Held(w, Item(m, h)) == 1)
            && (Held(w, Item(m, h)) > 0 && Live(w.gw, n) ==> w.up[Frame(n, failed)] == 0)
            && (Live(w.gw, m) && Live(w.gw, n) && w.up[Frame(m, failed)] > 0 && w.up[Frame(n, other)] > 0 ==>
                  m == n && failed == other && w.up[Frame(m, failed)] == 1)
  {
    StartsSafe();
    TraceKeeps(EMPTY, acts, env);
    AtMostOne(Trace(EMPTY, acts, env), m, n, h, k, failed, other);
    hide Safe, Held, Trace, Live;
  }

  // ------------------------------------------------------------------
  // How a reader comes to outlive its process
  // ------------------------------------------------------------------

  lemma TraceSnoc(w: World, acts: seq<Act>, a: Act, env: Env)
    ensures Trace(w, acts + [a], env) == Step(Trace(w, acts, env), a, env)
    ensures AllowedTrace(w, acts, env) && Allowed(Trace(w, acts, env), a) ==> AllowedTrace(w, acts + [a], env)
  {
    hide Step, Allowed;
    assert (acts + [a])[..|acts|] == acts;
  }

  /** A running process has its reader. */
  lemma Resident(w: World, key: Key, p: nat)
    requires Safe(w) && At(w, key).process == Some(p)
    ensures p in At(w, key).pumps && p < w.processes
  {
    hide Inv, Single, Pointed, Sent, Held;
  }

  lemma Closed(w: World, key: Key, env: Env)
    ensures var w' := Step(w, Close(key), env);
            w'.soup == w.soup && At(w', key) == At(w, key).(process := None) && w'.processes == w.processes
  {
  }

  lemma Restarted(w: World, m: Msg, p: nat, env: Env)
    requires w.soup[Item(m, Fetching)] > 0 && At(w, KeyOf(m)).process.None?
    requires p in At(w, KeyOf(m)).pumps && p < w.processes
    ensures var w' := Step(w, Fetch(m, true), env);
            w'.soup[Item(m, Ready)] > 0 && p in At(w', KeyOf(m)).pumps
            && At(w', KeyOf(m)).process == Some(w.processes) && w.processes in At(w', KeyOf(m)).pumps
  {
  }

  lemma Begun(w: World, m: Msg, env: Env)
    requires w.soup[Item(m, Ready)] > 0
    ensures var w' := Step(w, Begin(m), env);
            w'.soup[Item(m, Sending)] > 0 && At(w', KeyOf(m)) == At(w, KeyOf(m)).(turn := Some(m), busy := true)
  {
  }

  lemma Handed(w: World, m: Msg, q: nat, env: Env)
    requires w.soup[Item(m, Sending)] > 0 && At(w, KeyOf(m)).process == Some(q) && q in At(w, KeyOf(m)).pumps
    ensures var w' := Step(w, Submit(m, true), env);
            && Held(w', Item(m, Given(q))) > 0
            && At(w', KeyOf(m)).(pumps := map[]) == At(w, KeyOf(m)).(pumps := map[])
            && At(w, KeyOf(m)).pumps.Keys <= At(w', KeyOf(m)).pumps.Keys
  {
  }

  /** Whenever a message finds its thread's process closed just before, allowed
      steps lead to a state where the old reader's exit check ends the new turn. */
  lemma LingeringReader(w: World, m: Msg, p: nat, env: Env)
    requires Safe(w) && w.soup[Item(m, Fetching)] > 0 && At(w, KeyOf(m)).process == Some(p)
    ensures var acts := [Close(KeyOf(m)), Fetch(m, true), Begin(m), Submit(m, true)];
            && AllowedTrace(w, acts, env)
            && var w' := Trace(w, acts, env);
               Lingers(At(w', KeyOf(m)), p) && At(w', KeyOf(m)).turn == Some(m) && !Allowed(w', Exit(KeyOf(m), p))
  {
    hide Step, Held, Inv, Single, Pointed, Sent, At, Trace, AllowedTrace, Keyed, Safe;
    var key := KeyOf(m);
    var w1 := Step(w, Close(key), env);
    var w2 := Step(w1, Fetch(m, true), env);
    var w3 := Step(w2, Begin(m), env);
    var w4 := Step(w3, Submit(m, true), env);
    Resident(w, key, p);
    Closed(w, key, env);
    Restarted(w1, m, p, env);
    Begun(w2, m, env);
    Handed(w3, m, w.processes, env);
    StepKeeps(w, Close(key), env);
    StepKeeps(w1, Fetch(m, true), env);
    StepKeeps(w2, Begin(m), env);
    StepKeeps(w3, Submit(m, true), env);
    FourSteps(w, Close(key), Fetch(m, true), Begin(m), Submit(m, true), env);
    if Held(w4, Item(m, Given(p))) > 0 {
      SameThread(w4, Item(m, Given(p)), Item(m, Given(w.processes)));
    }
  }

  lemma FourSteps(w: World, a: Act, b: Act, c: Act, d: Act, env: Env)
    ensures Trace(w, [a, b, c, d], env) == Step(Step(Step(Step(w, a, env), b, env), c, env), d, env)
    ensures (&& Allowed(w, a) && Allowed(Step(w, a, env), b) && Allowed(Step(Step(w, a, env), b, env), c)
             && Allowed(Step(Step(Step(w, a, env), b, env), c, env), d)) ==> AllowedTrace(w, [a, b, c, d], env)
  {
    hide Step, Allowed;
    assert [a] == [] + [a] && [a, b] == [a] + [b] && [a, b, c] == [a, b] + [c] && [a, b, c, d] == [a, b, c] + [d];
    TraceSnoc(w, [], a, env);
    TraceSnoc(w, [a], b, env);
    TraceSnoc(w, [a, b], c, env);
    TraceSnoc(w, [a, b, c], d, env);
  }
}
