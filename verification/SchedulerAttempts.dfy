/** The dispatch attempts that an event sets off, and which of them leak their thread. */
module SchedulerAttempts {
  import opened Scheduler
  import opened SchedulerInvariant
  import opened SchedulerTheorems

  /** An attempt to dispatch `m`; with `slot` it was handed a freed slot and does not
      pass the gate again. */
  datatype Attempt = Attempt(state: State, m: Msg, slot: bool)

  function Asked(a: Attempt, env: Env): Answer {
    env(a.state.calls, a.m.runner)
  }

  predicate Gated(a: Attempt, env: Env) {
    a.slot || (Asked(a, env).online && a.m.cap > 0)
  }

  predicate Free(a: Attempt) {
    a.slot || (Queue(a.state, a.m.runner).active < a.m.cap && Waiting(a.state, a.m.runner) == [])
  }

  /** A turn that is opened becomes one by being sent or stored. */
  predicate Opens(a: Attempt, env: Env) {
    Asked(a, env).started && ((Asked(a, env).reachable && Asked(a, env).sent) || Queueable(a.state, a.m.runner, Asked(a, env)))
  }

  function Try(a: Attempt, env: Env): (State, bool) {
    if a.slot then TryTurn(a.state, a.m, env) else TryAdmitted(a.state, a.m, env)
  }

  // ------------------------------------------------------------------
  // The attempts of each handler, in order
  // ------------------------------------------------------------------

  function EndThreadAttempts(s: State, t: string, env: Env): seq<Attempt>
    decreases |Parked(s, t)|
  {
    if Parked(s, t) == [] then []
    else
      var a := Attempt(Unpark(s, t), s.parked[t][0], false);
      var (s1, dropped) := TryAdmitted(Unpark(s, t), s.parked[t][0], env);
      [a] + if dropped then EndThreadAttempts(s1, t, env) else []
  }

  function DispatchAttempts(a: Attempt, env: Env): seq<Attempt> {
    var (s1, dropped) := Try(a, env);
    [a] + if dropped then EndThreadAttempts(s1, a.m.thread, env) else []
  }

  function SlotFreedAttempts(s: State, r: string, env: Env): seq<Attempt> {
    if Waiting(s, r) == [] then [] else DispatchAttempts(Attempt(FreeSlot(s, r), Waiting(s, r)[0], true), env)
  }

  function FinishAttempts(s: State, id: nat, o: Outcome, env: Env): seq<Attempt>
    requires id in s.turns
  {
    var m := s.turns[id].msg;
    var s0 := EndTurn(s, id, o);
    SlotFreedAttempts(s0, m.runner, env) + EndThreadAttempts(SlotFreed(s0, m.runner, env), m.thread, env)
  }

  function ArriveAttempts(s: State, t: string, r: string, cap: int, env: Env): seq<Attempt> {
    var m := Msg(|s.arrivals|, t, r, cap);
    if t in s.active then [] else DispatchAttempts(Attempt(Claim(s, m), m, false), env)
  }

  function Attempts(s: State, ev: Event, env: Env): seq<Attempt> {
    match ev
    case Message(t, r, cap) => ArriveAttempts(s, t, r, cap, env)
    case Report(id, failed) =>
      if id in s.turns then FinishAttempts(s, id, if failed then RunnerFailed else Completed, env) else []
    case Visit(id, _, _) => if Visits(s, ev) then FinishAttempts(s, id, Swept, env) else []
    case Shipment(_, _) => []
  }

  function RunAttempts(s: State, evs: seq<Event>, env: Env): seq<Attempt>
    decreases |evs|
  {
    if evs == [] then []
    else
      var front := evs[..|evs| - 1];
      RunAttempts(s, front, env) + Attempts(Run(s, front, env), evs[|evs| - 1], env)
  }

  // ------------------------------------------------------------------
  // They are all of them: each asks the world one question
  // ------------------------------------------------------------------

  predicate Consecutive(tries: seq<Attempt>, first: nat) {
    forall k | 0 <= k < |tries| :: tries[k].state.calls == first + k
  }

  lemma TryTurnAsks(s: State, m: Msg, env: Env)
    ensures TryTurn(s, m, env).0.calls == s.calls + 1
  {
    hide Queueable, Placed;
  }

  lemma TryAsks(a: Attempt, env: Env)
    ensures Try(a, env).0.calls == a.state.calls + 1
  {
    hide TryTurn;
    TryTurnAsks(a.state, a.m, env);
    TryTurnAsks(TakeSlot(a.state, a.m), a.m, env);
  }

  lemma QuietMoves(s: State, id: nat, o: Outcome, r: string)
    ensures id in s.turns ==> EndTurn(s, id, o).calls == s.calls
    ensures FreeSlot(s, r).calls == s.calls
  {
  }

  lemma {:induction false} EndThreadAsks(s: State, t: string, env: Env)
    ensures EndThread(s, t, env).calls == s.calls + |EndThreadAttempts(s, t, env)|
    ensures Consecutive(EndThreadAttempts(s, t, env), s.calls)
    decreases |Parked(s, t)|
  {
    hide TryAdmitted;
    if Parked(s, t) != [] {
      TryAsks(Attempt(Unpark(s, t), s.parked[t][0], false), env);
      var (s1, dropped) := TryAdmitted(Unpark(s, t), s.parked[t][0], env);
      if dropped {
        EndThreadAsks(s1, t, env);
      }
    }
  }

  lemma DispatchAsks(a: Attempt, env: Env)
    ensures var s' := if a.slot then DispatchTurn(a.state, a.m, env) else DispatchAdmitted(a.state, a.m, env);
            s'.calls == a.state.calls + |DispatchAttempts(a, env)|
    ensures Consecutive(DispatchAttempts(a, env), a.state.calls)
  {
    hide TryTurn, TryAdmitted;
    TryAsks(a, env);
    EndThreadAsks(Try(a, env).0, a.m.thread, env);
  }

  lemma FinishAsks(s: State, id: nat, o: Outcome, env: Env)
    requires id in s.turns
    ensures Finish(s, id, o, env).calls == s.calls + |FinishAttempts(s, id, o, env)|
    ensures Consecutive(FinishAttempts(s, id, o, env), s.calls)
  {
    hide DispatchTurn, DispatchAttempts, EndTurn, FreeSlot, EndThread, EndThreadAttempts;
    var m := s.turns[id].msg;
    var s0 := EndTurn(s, id, o);
    QuietMoves(s, id, o, m.runner);
    QuietMoves(s0, id, o, m.runner);
    if Waiting(s0, m.runner) != [] {
      DispatchAsks(Attempt(FreeSlot(s0, m.runner), Waiting(s0, m.runner)[0], true), env);
    }
    EndThreadAsks(SlotFreed(s0, m.runner, env), m.thread, env);
  }

  lemma ApplyAsks(s: State, ev: Event, env: Env)
    ensures Apply(s, ev, env).calls == s.calls + |Attempts(s, ev, env)|
    ensures Consecutive(Attempts(s, ev, env), s.calls)
  {
    hide Finish, FinishAttempts, DispatchAdmitted, DispatchAttempts;
    match ev
    case Message(t, r, cap) =>
      DispatchAsks(Attempt(Claim(s, Msg(|s.arrivals|, t, r, cap)), Msg(|s.arrivals|, t, r, cap), false), env);
    case Report(id, failed) =>
      if id in s.turns {
        FinishAsks(s, id, if failed then RunnerFailed else Completed, env);
      }
    case Visit(id, _, _) =>
      if Visits(s, ev) {
        FinishAsks(s, id, Swept, env);
      }
    case Shipment(_, _) =>
  }

  /** Every answer the world gives in a run is the answer to one listed attempt. */
  lemma {:induction false} RunAsks(s: State, evs: seq<Event>, env: Env)
    ensures Run(s, evs, env).calls == s.calls + |RunAttempts(s, evs, env)|
    ensures Consecutive(RunAttempts(s, evs, env), s.calls)
    decreases |evs|
  {
    hide Apply, Attempts;
    if evs != [] {
      RunAsks(s, evs[..|evs| - 1], env);
      ApplyAsks(Run(s, evs[..|evs| - 1], env), evs[|evs| - 1], env);
    }
  }

  // ------------------------------------------------------------------
  // Which attempts leak their thread
  // ------------------------------------------------------------------

  /** An attempt that finds no slot leaks its thread if nobody more may wait; any
      other does if the turn cannot be started. */
  predicate Leaks(a: Attempt, env: Env) {
    if Gated(a, env) && !Free(a) then |Waiting(a.state, a.m.runner)| >= MAX_QUEUE_DEPTH else !Asked(a, env).started
  }

  ghost predicate LeaksIn(tries: seq<Attempt>, env: Env, t: string) {
    exists k :: 0 <= k < |tries| && tries[k].m.thread == t && Leaks(tries[k], env)
  }

  lemma LeaksJoin(a: seq<Attempt>, b: seq<Attempt>, env: Env, t: string)
    ensures LeaksIn(a + b, env, t) <==> LeaksIn(a, env, t) || LeaksIn(b, env, t)
  {
    hide Leaks;
    if k :| 0 <= k < |a| && a[k].m.thread == t && Leaks(a[k], env) {
      assert (a + b)[k] == a[k];
    }
    if k :| 0 <= k < |b| && b[k].m.thread == t && Leaks(b[k], env) {
      assert (a + b)[|a| + k] == b[k];
    }
  }

  lemma NoAttempts(env: Env, t: string)
    ensures !LeaksIn([], env, t)
  {
  }

  lemma LeaksOne(a: Attempt, env: Env, t: string)
    ensures LeaksIn([a], env, t) <==> a.m.thread == t && Leaks(a, env)
  {
    hide Leaks;
    assert [a][0] == a;
  }

  lemma TryTurnLeaks(s: State, m: Msg, env: Env)
    ensures TryTurn(s, m, env).0.leaked == if env(s.calls, m.runner).started then s.leaked else s.leaked[m.thread := m.id]
  {
    hide Queueable, Placed;
  }

  /** One attempt, exactly. */
  lemma TryLeaks(a: Attempt, env: Env)
    ensures Try(a, env).0.leaked == if Leaks(a, env) then a.state.leaked[a.m.thread := a.m.id] else a.state.leaked
  {
    hide TryTurn;
    TryTurnLeaks(a.state, a.m, env);
    TryTurnLeaks(TakeSlot(a.state, a.m), a.m, env);
  }

  lemma {:induction false} EndThreadLeaks(s: State, t: string, env: Env, u: string)
    ensures u in EndThread(s, t, env).leaked <==> u in s.leaked || LeaksIn(EndThreadAttempts(s, t, env), env, u)
    decreases |Parked(s, t)|
  {
    hide TryAdmitted, Leaks, LeaksIn;
    if Parked(s, t) == [] {
      NoAttempts(env, u);
    } else {
      var a := Attempt(Unpark(s, t), s.parked[t][0], false);
      TryLeaks(a, env);
      LeaksOne(a, env, u);
      var (s1, dropped) := TryAdmitted(Unpark(s, t), s.parked[t][0], env);
      if dropped {
        EndThreadLeaks(s1, t, env, u);
        LeaksJoin([a], EndThreadAttempts(s1, t, env), env, u);
      } else {
        assert [a] + [] == [a];
      }
    }
  }

  lemma DispatchLeaks(a: Attempt, env: Env, u: string)
    ensures var s' := if a.slot then DispatchTurn(a.state, a.m, env) else DispatchAdmitted(a.state, a.m, env);
            u in s'.leaked <==> u in a.state.leaked || LeaksIn(DispatchAttempts(a, env), env, u)
  {
    hide TryAdmitted, TryTurn, Leaks, LeaksIn, EndThread;
    TryLeaks(a, env);
    LeaksOne(a, env, u);
    var (s1, dropped) := Try(a, env);
    EndThreadLeaks(s1, a.m.thread, env, u);
    LeaksJoin([a], EndThreadAttempts(s1, a.m.thread, env), env, u);
    assert [a] + [] == [a];
  }

  lemma SlotFreedLeaks(s: State, r: string, env: Env, u: string)
    ensures u in SlotFreed(s, r, env).leaked <==> u in s.leaked || LeaksIn(SlotFreedAttempts(s, r, env), env, u)
  {
    hide DispatchTurn, DispatchAttempts, Leaks, LeaksIn;
    if Waiting(s, r) == [] {
      NoAttempts(env, u);
    } else {
      DispatchLeaks(Attempt(FreeSlot(s, r), Waiting(s, r)[0], true), env, u);
    }
  }

  lemma FinishLeaks(s: State, id: nat, o: Outcome, env: Env, u: string)
    requires id in s.turns
    ensures u in Finish(s, id, o, env).leaked <==> u in s.leaked || LeaksIn(FinishAttempts(s, id, o, env), env, u)
  {
    hide SlotFreed, SlotFreedAttempts, EndThread, EndThreadAttempts, Leaks, LeaksIn;
    var m := s.turns[id].msg;
    var s0 := EndTurn(s, id, o);
    SlotFreedLeaks(s0, m.runner, env, u);
    EndThreadLeaks(SlotFreed(s0, m.runner, env), m.thread, env, u);
    LeaksJoin(SlotFreedAttempts(s0, m.runner, env), EndThreadAttempts(SlotFreed(s0, m.runner, env), m.thread, env), env, u);
  }

  lemma ArriveLeaks(s: State, t: string, r: string, cap: int, env: Env, u: string)
    ensures u in Arrive(s, t, r, cap, env).leaked <==> u in s.leaked || LeaksIn(ArriveAttempts(s, t, r, cap, env), env, u)
  {
    hide DispatchAdmitted, DispatchAttempts, Leaks, LeaksIn;
    var m := Msg(|s.arrivals|, t, r, cap);
    if t in s.active {
      NoAttempts(env, u);
    } else {
      DispatchLeaks(Attempt(Claim(s, m), m, false), env, u);
    }
  }

  /** An event leaks a thread if and only if one of the attempts it sets off, for
      that thread, finds the runner's waiting list full or cannot be started. */
  lemma EventLeaks(s: State, ev: Event, env: Env, u: string)
    ensures u in Apply(s, ev, env).leaked <==> u in s.leaked || LeaksIn(Attempts(s, ev, env), env, u)
  {
    hide Finish, FinishAttempts, Arrive, ArriveAttempts, LeaksIn;
    NoAttempts(env, u);
    match ev
    case Message(t, r, cap) => ArriveLeaks(s, t, r, cap, env, u);
    case Report(id, failed) =>
      if id in s.turns {
        FinishLeaks(s, id, if failed then RunnerFailed else Completed, env, u);
      }
    case Visit(id, _, _) =>
      if Visits(s, ev) {
        FinishLeaks(s, id, Swept, env, u);
      }
    case Shipment(_, _) =>
  }

  /** The same for whole runs; what is leaked so is leaked for good. */
  lemma {:induction false} RunLeaks(s: State, evs: seq<Event>, env: Env, u: string)
    ensures u in Run(s, evs, env).leaked <==> u in s.leaked || LeaksIn(RunAttempts(s, evs, env), env, u)
    decreases |evs|
  {
    hide Apply, Attempts, LeaksIn;
    if evs == [] {
      NoAttempts(env, u);
    } else {
      var front := evs[..|evs| - 1];
      RunLeaks(s, front, env, u);
      EventLeaks(Run(s, front, env), evs[|evs| - 1], env, u);
      LeaksJoin(RunAttempts(s, front, env), Attempts(Run(s, front, env), evs[|evs| - 1], env), env, u);
    }
  }

  // ------------------------------------------------------------------
  // It does happen
  // ------------------------------------------------------------------

  const STUCK := [Message("a", "r", 0), Message("a", "r", 0)]

  function FirstFails(n: nat, r: string): Answer {
    Answer(true, n > 0, true, true, true, 0, true, true)
  }

  /** The first message cannot be started, the second is parked behind it for good. */
  lemma StuckThread(evs: seq<Event>)
    requires FaithfulRun(Run(INITIAL, STUCK, FirstFails), evs, FirstFails)
    ensures var s := Run(INITIAL, STUCK, FirstFails); var s' := Run(s, evs, FirstFails);
            && Inv(s, {}) && "a" in s.leaked && Parked(s, "a") == [Msg(1, "a", "r", 0)]
            && Parked(s', "a") != [] && SentTo(s'.sent, "a") == []
  {
    StuckSoFar();
    LeakIsForever(Run(INITIAL, STUCK, FirstFails), evs, FirstFails, "a");
    hide Inv, Run;
  }

  lemma StuckSoFar()
    ensures var s := Run(INITIAL, STUCK, FirstFails);
            Inv(s, {}) && "a" in s.leaked && Parked(s, "a") == [Msg(1, "a", "r", 0)] && s.sent == []
  {
    var m, n := Msg(0, "a", "r", 0), Msg(1, "a", "r", 0);
    assert [Message("a", "r", 0)][..0] == [] && STUCK[..1] == [Message("a", "r", 0)];
    var s := Run(INITIAL, [Message("a", "r", 0)], FirstFails);
    assert s == Arrive(INITIAL, "a", "r", 0, FirstFails) == FailStart(Claim(INITIAL, m).(calls := 1), m);
    assert Run(INITIAL, STUCK, FirstFails) == Park(s, n);
    assert FaithfulRun(INITIAL, STUCK, FirstFails);
    Initially();
    RunKeeps(INITIAL, STUCK, FirstFails);
  }
}
