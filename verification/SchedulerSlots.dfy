/** The runners' concurrency slots: bounds, first come first served, and what the
    counter counts. */
module SchedulerSlots {
  import opened Scheduler
  import opened SchedulerInvariant
  import opened SchedulerTheorems
  import opened SchedulerAttempts

  // ------------------------------------------------------------------
  // Bounds, over any run in which a runner's limit does not change
  // ------------------------------------------------------------------

  predicate Capped(q: seq<Msg>, caps: string -> int) {
    forall k | 0 <= k < |q| :: q[k].cap == caps(q[k].runner)
  }

  predicate ParkedCapped(parked: map<string, seq<Msg>>, caps: string -> int) {
    forall t | t in parked :: Capped(parked[t], caps)
  }

  /** The slots in use never exceed the limit, the list never its depth, and
      somebody waits only while every slot is in use. */
  predicate InBounds(q: RunnerQueue, cap: int) {
    && 0 <= q.active <= cap
    && |q.waiting| <= MAX_QUEUE_DEPTH
    && (q.waiting != [] ==> q.active == cap > 0)
  }

  predicate QueuesBounded(queues: map<string, RunnerQueue>, caps: string -> int) {
    forall r | r in queues :: Capped(queues[r].waiting, caps) && InBounds(queues[r], caps(r))
  }

  predicate Bounded(s: State, caps: string -> int) {
    ParkedCapped(s.parked, caps) && QueuesBounded(s.queues, caps)
  }

  lemma TurnsTakeNoSlot(s: State, m: Msg, env: Env)
    ensures TryTurn(s, m, env).0.queues == s.queues
  {
    hide Queueable;
  }

  lemma TryBounded(s: State, m: Msg, env: Env, caps: string -> int)
    requires Bounded(s, caps) && m.cap == caps(m.runner)
    ensures Bounded(TryAdmitted(s, m, env).0, caps)
  {
    hide TryTurn, ParkedCapped;
    TurnsTakeNoSlot(s, m, env);
    TurnsTakeNoSlot(TakeSlot(s, m), m, env);
  }

  lemma UnparkBounded(s: State, t: string, caps: string -> int)
    requires Bounded(s, caps) && Parked(s, t) != []
    ensures Bounded(Unpark(s, t), caps) && s.parked[t][0].cap == caps(s.parked[t][0].runner)
  {
    assert Capped(s.parked[t], caps);
  }

  lemma {:induction false} EndThreadBounded(s: State, t: string, env: Env, caps: string -> int)
    requires Bounded(s, caps)
    ensures Bounded(EndThread(s, t, env), caps)
    decreases |Parked(s, t)|
  {
    hide TryAdmitted, TryTurn, QueuesBounded, Bounded;
    if Parked(s, t) != [] {
      UnparkBounded(s, t, caps);
      TryBounded(Unpark(s, t), s.parked[t][0], env, caps);
      var (s1, dropped) := TryAdmitted(Unpark(s, t), s.parked[t][0], env);
      if dropped {
        EndThreadBounded(s1, t, env, caps);
      }
    } else {
      ReleaseBounded(s, t, caps);
    }
  }

  lemma ReleaseBounded(s: State, t: string, caps: string -> int)
    requires Bounded(s, caps)
    ensures Bounded(Release(s, t), caps)
  {
  }

  lemma DispatchBounded(s: State, m: Msg, env: Env, caps: string -> int)
    requires Bounded(s, caps) && m.cap == caps(m.runner)
    ensures Bounded(DispatchTurn(s, m, env), caps)
    ensures Bounded(DispatchAdmitted(s, m, env), caps)
  {
    hide TryAdmitted, TryTurn, ParkedCapped, QueuesBounded;
    TurnsTakeNoSlot(s, m, env);
    TryBounded(s, m, env, caps);
    EndThreadBounded(TryTurn(s, m, env).0, m.thread, env, caps);
    EndThreadBounded(TryAdmitted(s, m, env).0, m.thread, env, caps);
  }

  lemma SlotFreedBounded(s: State, r: string, env: Env, caps: string -> int)
    requires Bounded(s, caps)
    ensures Bounded(SlotFreed(s, r, env), caps)
  {
    hide DispatchTurn, ParkedCapped;
    if Waiting(s, r) != [] {
      DispatchBounded(FreeSlot(s, r), Waiting(s, r)[0], env, caps);
    }
  }

  lemma FinishBounded(s: State, id: nat, o: Outcome, env: Env, caps: string -> int)
    requires Bounded(s, caps) && id in s.turns
    ensures Bounded(Finish(s, id, o, env), caps)
  {
    hide SlotFreed, ParkedCapped, QueuesBounded;
    var m := s.turns[id].msg;
    SlotFreedBounded(EndTurn(s, id, o), m.runner, env, caps);
    EndThreadBounded(SlotFreed(EndTurn(s, id, o), m.runner, env), m.thread, env, caps);
  }

  predicate CappedEvents(evs: seq<Event>, caps: string -> int) {
    forall k | 0 <= k < |evs| && evs[k].Message? :: evs[k].cap == caps(evs[k].runner)
  }

  lemma ClaimBounded(s: State, m: Msg, caps: string -> int)
    requires Bounded(s, caps) && m.cap == caps(m.runner)
    ensures Bounded(Claim(s, m), caps) && Bounded(Park(s, m), caps)
  {
    hide QueuesBounded;
    assert ParkedCapped(s.parked, caps) && Capped(Parked(s, m.thread), caps);
  }

  lemma ShipBounded(s: State, row: nat, deleted: bool, caps: string -> int)
    requires Bounded(s, caps)
    ensures Bounded(Ship(s, row, deleted), caps)
  {
    hide ParkedCapped, QueuesBounded, RowAt, Placed;
  }

  lemma ApplyBounded(s: State, ev: Event, env: Env, caps: string -> int)
    requires Bounded(s, caps) && (ev.Message? ==> ev.cap == caps(ev.runner))
    ensures Bounded(Apply(s, ev, env), caps)
  {
    match ev
    case Message(t, r, cap) =>
      hide DispatchAdmitted, Ship, Bounded, Claim, Park;
      var m := Msg(|s.arrivals|, t, r, cap);
      ClaimBounded(s, m, caps);
      DispatchBounded(Claim(s, m), m, env, caps);
    case Report(id, failed) =>
      hide Finish, Ship, ParkedCapped, QueuesBounded;
      if id in s.turns {
        FinishBounded(s, id, if failed then RunnerFailed else Completed, env, caps);
      }
    case Visit(id, _, _) =>
      hide Finish, Ship, ParkedCapped, QueuesBounded;
      if id in s.turns {
        FinishBounded(s, id, Swept, env, caps);
      }
    case Shipment(row, deleted) => hide ParkedCapped, QueuesBounded; ShipBounded(s, row, deleted, caps); hide Ship;
  }

  /** Whatever happens and however hub and store answer. */
  lemma {:induction false} RunBounded(s: State, evs: seq<Event>, env: Env, caps: string -> int)
    requires Bounded(s, caps) && CappedEvents(evs, caps)
    ensures Bounded(Run(s, evs, env), caps)
    decreases |evs|
  {
    hide Apply, Bounded;
    if evs != [] {
      RunBounded(s, evs[..|evs| - 1], env, caps);
      ApplyBounded(Run(s, evs[..|evs| - 1], env), evs[|evs| - 1], env, caps);
    }
  }

  // ------------------------------------------------------------------
  // First come, first served
  // ------------------------------------------------------------------

  /** Whether the event ends a turn of runner `r` and so releases a slot. */
  predicate Releases(s: State, ev: Event, r: string) {
    match ev
    case Report(id, _) => id in s.turns && s.turns[id].msg.runner == r
    case Visit(id, _, _) => Visits(s, ev) && s.turns[id].msg.runner == r
    case _ => false
  }

  function ReleaseCount(s: State, evs: seq<Event>, env: Env, r: string): nat
    decreases |evs|
  {
    if evs == [] then 0
    else
      var init := evs[..|evs| - 1];
      ReleaseCount(s, init, env, r) + if Releases(Run(s, init, env), evs[|evs| - 1], r) then 1 else 0
  }

  function After(w: seq<Msg>, k: nat): seq<Msg> {
    if k <= |w| then w[k..] else []
  }

  lemma TryFifo(s: State, m: Msg, env: Env, r: string)
    ensures Waiting(s, r) <= Waiting(TryAdmitted(s, m, env).0, r)
  {
    hide TryTurn;
    TurnsTakeNoSlot(s, m, env);
    TurnsTakeNoSlot(TakeSlot(s, m), m, env);
  }

  lemma {:induction false} EndThreadFifo(s: State, t: string, env: Env, r: string)
    ensures Waiting(s, r) <= Waiting(EndThread(s, t, env), r)
    decreases |Parked(s, t)|
  {
    hide TryAdmitted, TryTurn;
    if Parked(s, t) != [] {
      TryFifo(Unpark(s, t), s.parked[t][0], env, r);
      var (s1, dropped) := TryAdmitted(Unpark(s, t), s.parked[t][0], env);
      if dropped {
        EndThreadFifo(s1, t, env, r);
      }
    }
  }

  lemma DispatchFifo(s: State, m: Msg, env: Env, r: string)
    ensures Waiting(s, r) <= Waiting(DispatchTurn(s, m, env), r)
    ensures Waiting(s, r) <= Waiting(DispatchAdmitted(s, m, env), r)
  {
    hide TryAdmitted, TryTurn;
    TurnsTakeNoSlot(s, m, env);
    TryFifo(s, m, env, r);
    EndThreadFifo(TryTurn(s, m, env).0, m.thread, env, r);
    EndThreadFifo(TryAdmitted(s, m, env).0, m.thread, env, r);
  }

  lemma FinishFifo(s: State, id: nat, o: Outcome, env: Env, r: string)
    requires id in s.turns
    ensures After(Waiting(s, r), if s.turns[id].msg.runner == r then 1 else 0) <= Waiting(Finish(s, id, o, env), r)
  {
    hide DispatchTurn;
    var m := s.turns[id].msg;
    var s0 := EndTurn(s, id, o);
    if Waiting(s0, m.runner) != [] {
      DispatchFifo(FreeSlot(s0, m.runner), Waiting(s0, m.runner)[0], env, r);
    }
    EndThreadFifo(SlotFreed(s0, m.runner, env), m.thread, env, r);
  }

  lemma ApplyFifo(s: State, ev: Event, env: Env, r: string)
    ensures After(Waiting(s, r), if Releases(s, ev, r) then 1 else 0) <= Waiting(Apply(s, ev, env), r)
  {
    hide Finish, DispatchAdmitted;
    match ev
    case Message(t, q, cap) =>
      DispatchFifo(Claim(s, Msg(|s.arrivals|, t, q, cap)), Msg(|s.arrivals|, t, q, cap), env, r);
    case Report(id, failed) =>
      if id in s.turns {
        FinishFifo(s, id, if failed then RunnerFailed else Completed, env, r);
      }
    case Visit(id, _, _) =>
      if id in s.turns {
        FinishFifo(s, id, Swept, env, r);
      }
    case Shipment(_, _) =>
  }

  /** Whatever arrives meanwhile, a waiting message moves up by one place with
      every slot its runner releases, and by nothing else. */
  lemma {:induction false} MovesUp(s: State, evs: seq<Event>, env: Env, r: string, i: nat)
    requires i < |Waiting(s, r)| && ReleaseCount(s, evs, env, r) <= i
    ensures var w := Waiting(Run(s, evs, env), r);
            var k := ReleaseCount(s, evs, env, r);
            i - k < |w| && w[i - k] == Waiting(s, r)[i]
    decreases |evs|
  {
    hide Apply, Releases;
    if evs != [] {
      var init, last := evs[..|evs| - 1], evs[|evs| - 1];
      MovesUp(s, init, env, r, i);
      ApplyFifo(Run(s, init, env), last, env, r);
    }
  }

  /** The release that finds a message at the head dispatches it. */
  lemma HeadStarts(s: State, ev: Event, env: Env, r: string)
    requires Inv(s, {}) && Faithful(s, ev) && Waiting(s, r) != [] && Releases(s, ev, r)
    ensures var m := Waiting(s, r)[0];
            var p := Apply(s, ev, env).place;
            m.id < |p| && (p[m.id].Running? || p[m.id].Stored? || p[m.id].Gone?)
  {
    hide Inv, Finish;
    if ev.Report? {
      FinishStarts(s, ev.turn, if ev.failed then RunnerFailed else Completed, env);
    } else {
      FinishStarts(s, ev.turn, Swept, env);
    }
  }

  /** The item at position i is dispatched by release number i + 1 and by nothing
      before it, whatever happens meanwhile. */
  lemma ServedInTurn(s: State, evs: seq<Event>, ev: Event, env: Env, r: string, i: nat)
    requires Inv(s, {}) && FaithfulRun(s, evs + [ev], env) && i < |Waiting(s, r)|
    requires ReleaseCount(s, evs, env, r) == i && Releases(Run(s, evs, env), ev, r)
    ensures forall j | 0 <= j <= |evs| ::
              var before := Run(s, evs[..j], env);
              Inv(before, {}) && Waiting(s, r)[i] in Waiting(before, r)
    ensures var m := Waiting(s, r)[i];
            var p := Run(s, evs + [ev], env).place;
            m.id < |p| && (p[m.id].Running? || p[m.id].Stored? || p[m.id].Gone?)
  {
    hide Inv, Run, FaithfulRun, ReleaseCount, Apply;
    FaithfulSnoc(s, evs, ev, env);
    forall j | 0 <= j <= |evs|
      ensures var before := Run(s, evs[..j], env); Inv(before, {}) && Waiting(s, r)[i] in Waiting(before, r)
    {
      FewerReleases(s, evs, env, r, j);
      MovesUp(s, evs[..j], env, r, i);
      RunKeeps(s, evs[..j], env);
    }
    assert evs[..|evs|] == evs;
    MovesUp(s, evs, env, r, i);
    HeadStarts(Run(s, evs, env), ev, env, r);
  }

  lemma FaithfulSnoc(s: State, evs: seq<Event>, ev: Event, env: Env)
    ensures FaithfulRun(s, evs + [ev], env) <==> FaithfulRun(s, evs, env) && Faithful(Run(s, evs, env), ev)
    ensures Run(s, evs + [ev], env) == Apply(Run(s, evs, env), ev, env)
  {
    hide Apply, Faithful;
    assert (evs + [ev])[..|evs|] == evs;
  }

  lemma {:induction false} FewerReleases(s: State, evs: seq<Event>, env: Env, r: string, j: nat)
    requires j <= |evs|
    ensures ReleaseCount(s, evs[..j], env, r) <= ReleaseCount(s, evs, env, r)
    ensures FaithfulRun(s, evs, env) ==> FaithfulRun(s, evs[..j], env)
    decreases |evs|
  {
    hide Releases, Run, Faithful;
    if j < |evs| {
      FewerReleases(s, evs[..|evs| - 1], env, r, j);
      assert evs[..|evs| - 1][..j] == evs[..j];
    } else {
      assert evs[..j] == evs;
    }
  }

  lemma WaitingIsUnparked(s: State, m: Msg, r: string)
    requires Inv(s, {}) && m in Waiting(s, r)
    ensures m.id < |s.place| && m.id !in s.turns
    ensures forall t, k | 0 <= k < |Parked(s, t)| :: Parked(s, t)[k].id != m.id
  {
    hide Backed, OneOccupant, Blamed, Ordered;
  }

  lemma PlacedThere(place: seq<Place>, id: nat, p: Place)
    requires id < |place|
    ensures |Placed(place, id, p)| == |place| && Placed(place, id, p)[id] == p
  {
  }

  lemma TryTurnPlaces(s: State, m: Msg, env: Env)
    requires m.id < |s.place|
    ensures var p := TryTurn(s, m, env).0.place;
            m.id < |p| && (p[m.id].Running? || p[m.id].Stored? || p[m.id].Gone?)
  {
    PlacedThere(s.place, m.id, Running);
    PlacedThere(s.place, m.id, Stored);
    PlacedThere(s.place, m.id, Gone(NotStarted));
    PlacedThere(s.place, m.id, Gone(Abandoned));
    hide Queueable, Placed;
  }

  lemma FinishStarts(s: State, id: nat, o: Outcome, env: Env)
    requires Inv(s, {}) && id in s.turns && Waiting(s, s.turns[id].msg.runner) != []
    ensures var m := Waiting(s, s.turns[id].msg.runner)[0];
            var p := Finish(s, id, o, env).place;
            m.id < |p| && (p[m.id].Running? || p[m.id].Stored? || p[m.id].Gone?)
  {
    hide Inv, TryTurn, Untouched, EndTurn, FreeSlot;
    var done := s.turns[id].msg;
    var m := Waiting(s, done.runner)[0];
    var s0 := EndTurn(s, id, o);
    EndedLists(s, {}, id, o);
    WaitingIsUnparked(s, m, done.runner);
    HeadIsElsewhere(s, {}, id, done.runner);
    var s1 := FreeSlot(s0, done.runner);
    FreedLists(s0, done.runner);
    EndedPlaces(s, id, o);
    TryTurnPlaces(s1, m, env);
    var (s2, dropped) := TryTurn(s1, m, env);
    assert Parked(s2, m.thread) == Parked(s, m.thread);
    if dropped {
      EndThreadBystander(s2, m.thread, env, m.id);
    }
    var s3 := DispatchTurn(s1, m, env);
    DispatchElsewhere(s1, m, env, done.thread);
    UntouchedParked(s1, s3, done.thread);
    EndThreadBystander(s3, done.thread, env, m.id);
  }

  lemma FreedLists(s: State, r: string)
    ensures |FreeSlot(s, r).place| == |s.place|
    ensures forall t :: Parked(FreeSlot(s, r), t) == Parked(s, t)
  {
  }

  lemma EndedPlaces(s: State, id: nat, o: Outcome)
    requires id in s.turns
    ensures |EndTurn(s, id, o).place| == |s.place|
  {
  }

  // ------------------------------------------------------------------
  // What the counter counts
  // ------------------------------------------------------------------

  ghost function LiveOf(turns: map<nat, Turn>, r: string): set<nat> {
    set id | id in turns && turns[id].msg.runner == r
  }

  /** The counter is the number of the runner's live turns. */
  ghost predicate Balanced(s: State, r: string) {
    Queue(s, r).active == |LiveOf(s.turns, r)|
  }

  /** By how much the runner's live turns outnumber its counter. */
  ghost function Drift(s: State, r: string): int {
    |LiveOf(s.turns, r)| - Queue(s, r).active
  }

  lemma LiveAdd(turns: map<nat, Turn>, m: Msg, queued: bool, r: string)
    requires m.id !in turns
    ensures |LiveOf(turns[m.id := Turn(m, queued)], r)| == |LiveOf(turns, r)| + if m.runner == r then 1 else 0
  {
    var now := LiveOf(turns[m.id := Turn(m, queued)], r);
    assert now == LiveOf(turns, r) + if m.runner == r then {m.id} else {};
  }

  lemma LiveRemove(turns: map<nat, Turn>, id: nat, r: string)
    requires id in turns
    ensures |LiveOf(turns - {id}, r)| == |LiveOf(turns, r)| - if turns[id].msg.runner == r then 1 else 0
  {
    var before := LiveOf(turns, r);
    assert LiveOf(turns - {id}, r) == before - {id};
    if turns[id].msg.runner == r {
      assert id in before;
    }
  }

  /** A turn opened past the gate takes no slot. */
  predicate Extra(a: Attempt, env: Env) {
    !Gated(a, env) && Opens(a, env)
  }

  /** A slot was taken, or handed over, for a turn that was not opened. */
  predicate Short(a: Attempt, env: Env) {
    Gated(a, env) && Free(a) && !Opens(a, env)
  }

  /** A gated attempt that must wait, or one that opens a turn exactly if it is gated. */
  predicate Square(a: Attempt, env: Env) {
    (Gated(a, env) && !Free(a)) || (Gated(a, env) <==> Opens(a, env))
  }

  function Extras(tries: seq<Attempt>, env: Env, r: string): nat {
    if tries == [] then 0
    else Extras(tries[..|tries| - 1], env, r) + Count(tries[|tries| - 1].m.runner == r && Extra(tries[|tries| - 1], env))
  }

  function Shorts(tries: seq<Attempt>, env: Env, r: string): nat {
    if tries == [] then 0
    else Shorts(tries[..|tries| - 1], env, r) + Count(tries[|tries| - 1].m.runner == r && Short(tries[|tries| - 1], env))
  }

  /** What a list of attempts adds to the drift. */
  function Net(tries: seq<Attempt>, env: Env, r: string): int {
    Extras(tries, env, r) - Shorts(tries, env, r)
  }

  lemma {:induction false} NetJoin(a: seq<Attempt>, b: seq<Attempt>, env: Env, r: string)
    ensures Extras(a + b, env, r) == Extras(a, env, r) + Extras(b, env, r)
    ensures Shorts(a + b, env, r) == Shorts(a, env, r) + Shorts(b, env, r)
    decreases |b|
  {
    hide Extra, Short;
    if b == [] {
      assert a + b == a;
    } else {
      NetJoin(a, b[..|b| - 1], env, r);
      assert (a + b)[..|a + b| - 1] == a + b[..|b| - 1];
    }
  }

  lemma NetNone(env: Env, r: string)
    ensures Net([], env, r) == 0
  {
  }

  lemma NetOne(a: Attempt, env: Env, r: string)
    ensures Extras([a], env, r) == Count(a.m.runner == r && Extra(a, env))
    ensures Shorts([a], env, r) == Count(a.m.runner == r && Short(a, env))
  {
    hide Extra, Short;
    assert [a][..0] == [];
  }

  lemma CallsDoNotMatter(s: State, r: string, a: Answer)
    ensures Queueable(s.(calls := s.calls + 1), r, a) == Queueable(s, r, a)
  {
  }

  lemma TryTurnLive(s: State, m: Msg, env: Env, r: string)
    requires m.id !in s.turns
    ensures |LiveOf(TryTurn(s, m, env).0.turns, r)|
         == |LiveOf(s.turns, r)| + Count(m.runner == r && Opens(Attempt(s, m, true), env))
  {
    hide Queueable, LiveOf, Placed;
    LiveAdd(s.turns, m, false, r);
    LiveAdd(s.turns, m, true, r);
    assert s.turns - {m.id} == s.turns;
    CallsDoNotMatter(s, m.runner, env(s.calls, m.runner));
  }

  lemma TryDrift(a: Attempt, env: Env, r: string)
    requires a.m.id !in a.state.turns
    ensures Drift(Try(a, env).0, r)
         == Drift(a.state, r) + Count(a.slot && a.m.runner == r) + Net([a], env, r)
  {
    hide TryTurn, LiveOf, Opens;
    var s, m := a.state, a.m;
    NetOne(a, env, r);
    hide Extras, Shorts;
    TurnsTakeNoSlot(s, m, env);
    TurnsTakeNoSlot(TakeSlot(s, m), m, env);
    TryTurnLive(s, m, env, r);
    TryTurnLive(TakeSlot(s, m), m, env, r);
    SameOpens(a, env);
  }

  lemma SameOpens(a: Attempt, env: Env)
    ensures Opens(Attempt(a.state, a.m, true), env) == Opens(a, env) == Opens(Attempt(TakeSlot(a.state, a.m), a.m, true), env)
  {
  }

  /** One attempt, exactly: the counter still counts its runner's live turns if and
      only if the attempt is square. */
  lemma AttemptExactly(a: Attempt, env: Env)
    requires a.m.id !in a.state.turns && Drift(a.state, a.m.runner) + Count(a.slot) == 0
    ensures Balanced(Try(a, env).0, a.m.runner) <==> Square(a, env)
  {
    hide Try, LiveOf, Opens;
    TryDrift(a, env, a.m.runner);
    NetOne(a, env, a.m.runner);
  }

  lemma QuietDrift(s: State, t: string, r: string)
    ensures Drift(Release(s, t), r) == Drift(s, r)
    ensures Parked(s, t) != [] ==> Drift(Unpark(s, t), r) == Drift(s, r)
  {
    hide LiveOf, Placed;
  }

  lemma {:induction false} EndThreadDrift(s: State, holes: set<string>, t: string, env: Env, r: string)
    requires Inv(s, holes) && t in holes && t !in s.occupant
    ensures Drift(EndThread(s, t, env), r) == Drift(s, r) + Net(EndThreadAttempts(s, t, env), env, r)
    decreases |Parked(s, t)|
  {
    hide Inv, TryAdmitted, Drift, Extras, Shorts;
    if Parked(s, t) == [] {
      QuietDrift(s, t, r);
      NetNone(env, r);
    } else {
      var m := s.parked[t][0];
      var a := Attempt(Unpark(s, t), m, false);
      UnparkKeeps(s, holes, t);
      HeldIsElsewhere(Unpark(s, t), holes, m);
      QuietDrift(s, t, r);
      TryDrift(a, env, r);
      TryAdmittedKeeps(Unpark(s, t), holes, m, env);
      var (s1, dropped) := TryAdmitted(Unpark(s, t), m, env);
      if dropped {
        EndThreadDrift(s1, holes, t, env, r);
        NetJoin([a], EndThreadAttempts(s1, t, env), env, r);
      } else {
        assert [a] + [] == [a];
      }
    }
  }

  lemma DispatchDrift(a: Attempt, holes: set<string>, env: Env, r: string)
    requires Inv(a.state, holes) && Holds(a.state, a.m) && a.m.thread in holes
    ensures var s' := if a.slot then DispatchTurn(a.state, a.m, env) else DispatchAdmitted(a.state, a.m, env);
            Drift(s', r) == Drift(a.state, r) + Count(a.slot && a.m.runner == r) + Net(DispatchAttempts(a, env), env, r)
  {
    hide Inv, TryAdmitted, TryTurn, Drift, Extras, Shorts;
    HeldIsElsewhere(a.state, holes, a.m);
    TryDrift(a, env, r);
    TryTurnKeeps(a.state, holes, a.m, env);
    TryAdmittedKeeps(a.state, holes, a.m, env);
    var (s1, dropped) := Try(a, env);
    if dropped {
      EndThreadDrift(s1, holes, a.m.thread, env, r);
      NetJoin([a], EndThreadAttempts(s1, a.m.thread, env), env, r);
    } else {
      assert [a] + [] == [a];
    }
  }

  /** A slot given back while the counter stands at zero is not counted down. */
  lemma FreeDrift(s: State, q: string, r: string)
    ensures Drift(FreeSlot(s, q), r)
         == Drift(s, r) + if q == r then Count(Queue(s, r).active > 0) - Count(Waiting(s, r) != []) else 0
  {
    hide LiveOf;
  }

  lemma SlotFreedDrift(s: State, holes: set<string>, q: string, env: Env, r: string)
    requires Inv(s, holes)
    ensures Drift(SlotFreed(s, q, env), r)
         == Drift(s, r) + Count(q == r && Queue(s, r).active > 0) + Net(SlotFreedAttempts(s, q, env), env, r)
  {
    hide Inv, DispatchTurn, DispatchAttempts, Drift, Extras, Shorts;
    FreeKeeps(s, holes, q);
    FreeDrift(s, q, r);
    if Waiting(s, q) == [] {
      NetNone(env, r);
    } else {
      WaitingHead(s, holes, q);
      var m := Waiting(s, q)[0];
      DispatchDrift(Attempt(FreeSlot(s, q), m, true), holes + {m.thread}, env, r);
    }
  }

  /** Whether the event gives a slot back that the counter does not have. */
  predicate Spare(s: State, ev: Event, r: string) {
    Releases(s, ev, r) && Queue(s, r).active <= 0
  }

  lemma FinishDrift(s: State, id: nat, o: Outcome, env: Env, r: string)
    requires Inv(s, {}) && id in s.turns && !s.turns[id].queued && !Wasted(Gone(o))
    ensures Drift(Finish(s, id, o, env), r)
         == Drift(s, r) + Net(FinishAttempts(s, id, o, env), env, r)
            - Count(s.turns[id].msg.runner == r && Queue(s, r).active <= 0)
  {
    hide Inv, SlotFreed, SlotFreedAttempts, EndThread, EndThreadAttempts, Extras, Shorts, LiveOf;
    var m := s.turns[id].msg;
    var s0 := EndTurn(s, id, o);
    EndKeeps(s, {}, id, o);
    LiveRemove(s.turns, id, r);
    assert Queue(s0, r) == Queue(s, r);
    SlotFreedDrift(s0, {} + {m.thread}, m.runner, env, r);
    SlotFreedKeeps(s0, {} + {m.thread}, m.runner, env);
    var s1 := SlotFreed(s0, m.runner, env);
    EndThreadDrift(s1, {} + {m.thread}, m.thread, env, r);
    NetJoin(SlotFreedAttempts(s0, m.runner, env), EndThreadAttempts(s1, m.thread, env), env, r);
    hide Queue, EndTurn;
  }

  lemma ArriveDrift(s: State, t: string, q: string, cap: int, env: Env, r: string)
    requires Inv(s, {})
    ensures Drift(Arrive(s, t, q, cap, env), r) == Drift(s, r) + Net(ArriveAttempts(s, t, q, cap, env), env, r)
  {
    hide Inv, DispatchAdmitted, DispatchAttempts, LiveOf, Extras, Shorts;
    var m := Msg(|s.arrivals|, t, q, cap);
    if t in s.active {
      NetNone(env, r);
    } else {
      ClaimKeeps(s, {}, m);
      DispatchDrift(Attempt(Claim(s, m), m, false), {} + {t}, env, r);
    }
  }

  /** The account of one event: live turns and counter part by the turns opened past
      the gate, less the slots taken for nothing and the release of a slot that the
      counter does not have. */
  lemma EventDrift(s: State, ev: Event, env: Env, r: string)
    requires Inv(s, {}) && Faithful(s, ev)
    ensures Drift(Apply(s, ev, env), r) == Drift(s, r) + Net(Attempts(s, ev, env), env, r) - Count(Spare(s, ev, r))
  {
    hide Inv, Finish, FinishAttempts, Arrive, ArriveAttempts, Drift, Extras, Shorts;
    NetNone(env, r);
    match ev
    case Message(t, q, cap) => ArriveDrift(s, t, q, cap, env, r);
    case Report(id, failed) =>
      if id in s.turns {
        FinishDrift(s, id, if failed then RunnerFailed else Completed, env, r);
      }
    case Visit(id, _, _) =>
      if Visits(s, ev) {
        FinishDrift(s, id, Swept, env, r);
      }
    case Shipment(row, deleted) => ShipDrift(s, row, deleted, r);
  }

  lemma ShipDrift(s: State, row: nat, deleted: bool, r: string)
    ensures Drift(Ship(s, row, deleted), r) == Drift(s, r)
  {
    assert LiveOf(Ship(s, row, deleted).turns, r) == LiveOf(s.turns, r);
  }

  function Spares(s: State, evs: seq<Event>, env: Env, r: string): nat
    decreases |evs|
  {
    if evs == [] then 0
    else
      var front := evs[..|evs| - 1];
      Spares(s, front, env, r) + Count(Spare(Run(s, front, env), evs[|evs| - 1], r))
  }

  /** The account of a whole run, for every runner and whatever hub and store answer. */
  lemma {:induction false} RunDrift(s: State, evs: seq<Event>, env: Env, r: string)
    requires Inv(s, {}) && FaithfulRun(s, evs, env)
    ensures Drift(Run(s, evs, env), r)
         == Drift(s, r) + Extras(RunAttempts(s, evs, env), env, r) - Shorts(RunAttempts(s, evs, env), env, r)
            - Spares(s, evs, env, r)
    decreases |evs|
  {
    hide Inv, Apply, Attempts, Drift, Extras, Shorts, Spare;
    if evs == [] {
      NetNone(env, r);
    } else {
      var front, ev := evs[..|evs| - 1], evs[|evs| - 1];
      RunDrift(s, front, env, r);
      RunKeeps(s, front, env);
      EventDrift(Run(s, front, env), ev, env, r);
      NetJoin(RunAttempts(s, front, env), Attempts(Run(s, front, env), ev, env), env, r);
    }
  }

  /** So the counter is right after a run if and only if every turn opened past the
      gate was made up for by a slot taken for nothing or a release at zero. */
  lemma BalancedExactly(s: State, evs: seq<Event>, env: Env, r: string)
    requires Inv(s, {}) && FaithfulRun(s, evs, env) && Balanced(s, r)
    ensures Balanced(Run(s, evs, env), r) <==>
            Extras(RunAttempts(s, evs, env), env, r)
            == Shorts(RunAttempts(s, evs, env), env, r) + Spares(s, evs, env, r)
  {
    RunDrift(s, evs, env, r);
    hide Inv, Run, RunAttempts, Spares, Extras, Shorts, LiveOf;
  }

  lemma {:induction false} NoneAstray(tries: seq<Attempt>, env: Env, r: string)
    requires forall a | a in tries && a.m.runner == r :: Square(a, env)
    ensures Extras(tries, env, r) == 0 && Shorts(tries, env, r) == 0
  {
    hide Gated, Free, Opens;
    if tries != [] {
      NoneAstray(tries[..|tries| - 1], env, r);
      assert tries[|tries| - 1] in tries;
    }
  }

  /** A live turn whose runner's counter is right has a slot to give back. */
  lemma NothingSpare(s: State, ev: Event, r: string)
    requires Balanced(s, r)
    ensures !Spare(s, ev, r)
  {
    if Releases(s, ev, r) {
      assert ev.turn in LiveOf(s.turns, r);
    }
  }

  /** In particular it is the number of live turns throughout if every attempt is
      square: as long as whatever reaches the runner passes its gate and nothing that
      got a slot is abandoned or fails to start, be it sent or queued. */
  lemma {:induction false} RunBalanced(s: State, evs: seq<Event>, env: Env, r: string)
    requires Inv(s, {}) && FaithfulRun(s, evs, env) && Balanced(s, r)
    requires forall a | a in RunAttempts(s, evs, env) && a.m.runner == r :: Square(a, env)
    ensures Balanced(Run(s, evs, env), r)
    decreases |evs|
  {
    hide Inv, Apply, Attempts, Square, LiveOf;
    if evs != [] {
      var front, ev := evs[..|evs| - 1], evs[|evs| - 1];
      var before := Run(s, front, env);
      assert forall a | a in RunAttempts(s, front, env) || a in Attempts(before, ev, env) :: a in RunAttempts(s, evs, env);
      RunBalanced(s, front, env, r);
      RunKeeps(s, front, env);
      EventDrift(before, ev, env, r);
      NoneAstray(Attempts(before, ev, env), env, r);
      NothingSpare(before, ev, r);
    }
  }

  /** A limited runner that is online whenever asked, and for which whatever finds a
      free slot is sent or at least queued, is counted right all the time. */
  lemma StaysOnline(s: State, evs: seq<Event>, env: Env, r: string)
    requires Inv(s, {}) && FaithfulRun(s, evs, env) && Balanced(s, r)
    requires forall a | a in RunAttempts(s, evs, env) && a.m.runner == r ::
               Asked(a, env).online && a.m.cap > 0 && (Free(a) ==> Opens(a, env))
    ensures Balanced(Run(s, evs, env), r)
  {
    hide Inv, Run, RunAttempts, FaithfulRun, Free, Opens, LiveOf;
    RunBalanced(s, evs, env, r);
  }

  /** A runner has no more live turns than its limit and those opened past its gate. */
  lemma WithinLimit(s: State, evs: seq<Event>, env: Env, caps: string -> int, r: string)
    requires Inv(s, {}) && FaithfulRun(s, evs, env) && Balanced(s, r) && caps(r) >= 0
    requires Bounded(s, caps) && CappedEvents(evs, caps)
    ensures |LiveOf(Run(s, evs, env).turns, r)| <= caps(r) + Extras(RunAttempts(s, evs, env), env, r)
  {
    RunDrift(s, evs, env, r);
    RunBounded(s, evs, env, caps);
    hide Inv, Run, RunAttempts, Spares, Extras, Shorts, LiveOf;
  }

  // After an offline period it can: a message from the offline queue runs
  // without a slot. The run below limits the runner to one turn.

  const UP := Answer(true, true, true, true, true, 0, true, true)
  const A := Msg(0, "a", "r", 1)
  const B := Msg(1, "b", "r", 1)
  const QUEUED := State(map[], {"a"}, map[], map[0 := Turn(A, true)], [Row(0, A)], 1, 1, [A], [Stored], map["a" := 0], [], map[])
  const SHIPPED := State(map[], {"a"}, map[], map[0 := Turn(A, false)], [], 1, 1, [A], [Running], map["a" := 0], [A], map[])

  function OfflineFirst(n: nat, r: string): Answer {
    if n == 0 then UP.(online := false, reachable := false) else UP
  }

  lemma FirstIsQueued()
    ensures Apply(INITIAL, Message("a", "r", 1), OfflineFirst) == QUEUED
  {
    QueuedOnArrival(INITIAL, A, OfflineFirst);
  }

  lemma FirstIsShipped()
    ensures Apply(QUEUED, Shipment(0, true), OfflineFirst) == SHIPPED
    ensures Faithful(QUEUED, Shipment(0, true))
  {
    assert RowAt(QUEUED.rows, 0) == 0;
  }

  /** A runner limited to one turn ends up with two, one slot counted. */
  lemma OfflineTurnsTakeNoSlot() returns (evs: seq<Event>)
    ensures CappedEvents(evs, _ => 1) && FaithfulRun(INITIAL, evs, OfflineFirst)
    ensures var s := Run(INITIAL, evs, OfflineFirst);
            s.turns == map[0 := Turn(A, false), 1 := Turn(B, false)] && Queue(s, "r").active == 1
  {
    hide Run, FaithfulRun, Apply;
    evs := [Message("a", "r", 1), Shipment(0, true), Message("b", "r", 1)];
    FirstIsQueued();
    FirstIsShipped();
    SecondIsSent();
    RunOfThree(evs[0], evs[1], evs[2], OfflineFirst);
  }

  lemma SecondIsSent()
    ensures var s := Apply(SHIPPED, Message("b", "r", 1), OfflineFirst);
            s.turns == map[0 := Turn(A, false), 1 := Turn(B, false)] && Queue(s, "r").active == 1
  {
    SentOnArrival(SHIPPED, B, OfflineFirst);
  }

  lemma QueuedOnArrival(s: State, m: Msg, env: Env)
    requires m.thread !in s.active && m.id == |s.arrivals| == |s.place|
    requires var a := env(s.calls, m.runner);
             !a.online && a.started && !a.reachable && a.limit == 0 && a.encoded && a.enqueued
    ensures Arrive(s, m.thread, m.runner, m.cap, env) == Hold(Claim(s, m).(calls := s.calls + 1), m)
  {
  }

  lemma SentOnArrival(s: State, m: Msg, env: Env)
    requires m.thread !in s.active && m.id == |s.arrivals| == |s.place| && m.cap > 0
    requires Queue(s, m.runner).active < m.cap && Waiting(s, m.runner) == []
    requires var a := env(s.calls, m.runner); a.online && a.started && a.reachable && a.sent
    ensures Arrive(s, m.thread, m.runner, m.cap, env) == Send(TakeSlot(Claim(s, m), m).(calls := s.calls + 1), m)
  {
    var s1 := Claim(s, m);
    assert Queue(s1, m.runner) == Queue(s, m.runner) && s1.calls == s.calls && TakeSlot(s1, m).calls == s.calls;
    assert m == Msg(|s.arrivals|, m.thread, m.runner, m.cap);
    hide Send, TakeSlot, Claim, Queue, Queueable, EndThread;
  }

  lemma RunOfThree(e0: Event, e1: Event, e2: Event, env: Env)
    ensures var s1 := Apply(INITIAL, e0, env);
            var s2 := Apply(s1, e1, env);
            && Run(INITIAL, [e0, e1, e2], env) == Apply(s2, e2, env)
            && (Faithful(INITIAL, e0) && Faithful(s1, e1) && Faithful(s2, e2) ==> FaithfulRun(INITIAL, [e0, e1, e2], env))
  {
    hide Apply, Faithful;
    assert [e0][..0] == [] && [e0, e1][..1] == [e0] && [e0, e1, e2][..2] == [e0, e1];
    var s1 := Apply(INITIAL, e0, env);
    var s2 := Apply(s1, e1, env);
    assert Run(INITIAL, [e0], env) == s1;
    assert Run(INITIAL, [e0, e1], env) == s2;
    assert Faithful(INITIAL, e0) ==> FaithfulRun(INITIAL, [e0], env);
    assert Faithful(INITIAL, e0) && Faithful(s1, e1) ==> FaithfulRun(INITIAL, [e0, e1], env);
  }
}
