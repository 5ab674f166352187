/** Handlers that overlap: a turn that is in the map too early, or too late. */
module SchedulerOverlap {
  import opened Scheduler
  import opened SchedulerInvariant
  import opened SchedulerTheorems
  import opened SchedulerAttempts
  import opened SchedulerMarking
  import opened SchedulerSends

  // ------------------------------------------------------------------
  // What a turn in the map does to the others: nothing
  // ------------------------------------------------------------------

  function Without(s: State, id: nat): State {
    s.(turns := s.turns - {id})
  }

  lemma MovesWithout(s: State, m: Msg, id: nat)
    requires m.id != id
    ensures Send(Without(s, id), m) == Without(Send(s, m), id)
    ensures Hold(Without(s, id), m) == Without(Hold(s, m), id)
    ensures Drop(Without(s, id), m) == Without(Drop(s, m), id)
    ensures FailStart(Without(s, id), m) == Without(FailStart(s, m), id)
  {
    assert s.turns[m.id := Turn(m, false)] - {id} == (s.turns - {id})[m.id := Turn(m, false)];
    assert s.turns[m.id := Turn(m, true)] - {id} == (s.turns - {id})[m.id := Turn(m, true)];
    assert s.turns - {m.id} - {id} == s.turns - {id} - {m.id};
  }

  lemma TryTurnWithout(s: State, m: Msg, env: Env, id: nat)
    requires m.id != id
    ensures TryTurn(Without(s, id), m, env) == (Without(TryTurn(s, m, env).0, id), TryTurn(s, m, env).1)
  {
    hide RowsOf, Send, Hold, Drop, FailStart;
    MovesWithout(s.(calls := s.calls + 1), m, id);
  }

  lemma TryWithout(s: State, m: Msg, env: Env, id: nat)
    requires m.id != id
    ensures TryAdmitted(Without(s, id), m, env) == (Without(TryAdmitted(s, m, env).0, id), TryAdmitted(s, m, env).1)
  {
    hide TryTurn, TakeSlot, Refuse, Wait;
    TryTurnWithout(s, m, env, id);
    TryTurnWithout(TakeSlot(s, m), m, env, id);
    GatesWithout(s, m, id);
  }

  lemma GatesWithout(s: State, m: Msg, id: nat)
    ensures TakeSlot(Without(s, id), m) == Without(TakeSlot(s, m), id)
    ensures Refuse(Without(s, id), m) == Without(Refuse(s, m), id)
    ensures Wait(Without(s, id), m) == Without(Wait(s, m), id)
  {
    hide Placed;
  }

  lemma {:induction false} EndThreadWithout(s: State, t: string, env: Env, id: nat)
    requires forall k | 0 <= k < |Parked(s, t)| :: Parked(s, t)[k].id != id
    ensures EndThread(Without(s, id), t, env) == Without(EndThread(s, t, env), id)
    decreases |Parked(s, t)|
  {
    hide TryAdmitted;
    if Parked(s, t) != [] {
      var m := s.parked[t][0];
      assert Unpark(Without(s, id), t) == Without(Unpark(s, t), id);
      TryWithout(Unpark(s, t), m, env, id);
      var (s1, dropped) := TryAdmitted(Unpark(s, t), m, env);
      assert s1.parked[t] == s.parked[t][1..];
      if dropped {
        EndThreadWithout(s1, t, env, id);
      }
    }
  }

  lemma DispatchWithout(s: State, m: Msg, env: Env, id: nat)
    requires m.id != id && forall k | 0 <= k < |Parked(s, m.thread)| :: Parked(s, m.thread)[k].id != id
    ensures DispatchTurn(Without(s, id), m, env) == Without(DispatchTurn(s, m, env), id)
    ensures DispatchAdmitted(Without(s, id), m, env) == Without(DispatchAdmitted(s, m, env), id)
  {
    hide TryTurn, TryAdmitted, EndThread;
    TryTurnWithout(s, m, env, id);
    TryWithout(s, m, env, id);
    var (s1, dropped1) := TryTurn(s, m, env);
    assert Parked(s1, m.thread) == Parked(s, m.thread);
    EndThreadWithout(s1, m.thread, env, id);
    var (s2, dropped2) := TryAdmitted(s, m, env);
    assert Parked(s2, m.thread) == Parked(s, m.thread);
    EndThreadWithout(s2, m.thread, env, id);
  }

  lemma FreeWithout(s: State, r: string, id: nat)
    ensures FreeSlot(Without(s, id), r) == Without(FreeSlot(s, r), id)
  {
    assert Waiting(Without(s, id), r) == Waiting(s, r);
    if Waiting(s, r) != [] {
      PutWithout(s, Waiting(s, r)[0].id, id);
    }
    hide Put;
  }

  lemma PutWithout(s: State, x: nat, id: nat)
    ensures Put(Without(s, id), x, InHand) == Without(Put(s, x, InHand), id)
    ensures Put(s, x, InHand).queues == s.queues
  {
  }

  lemma FreeParked(s: State, r: string, t: string)
    ensures Parked(FreeSlot(s, r), t) == Parked(s, t)
  {
  }

  lemma SlotFreedWithout(s: State, r: string, env: Env, id: nat)
    requires Waiting(s, r) != [] ==> Waiting(s, r)[0].id != id
    requires forall t, k | 0 <= k < |Parked(s, t)| :: Parked(s, t)[k].id != id
    ensures SlotFreed(Without(s, id), r, env) == Without(SlotFreed(s, r, env), id)
  {
    hide DispatchTurn, DispatchAdmitted, FreeSlot;
    FreeWithout(s, r, id);
    if Waiting(s, r) != [] {
      var m := Waiting(s, r)[0];
      FreeParked(s, r, m.thread);
      DispatchWithout(FreeSlot(s, r), m, env, id);
    }
  }

  /** onDone removes the turn only after everything it set off; that changes nothing. */
  lemma DeferredDelete(s: State, id: nat, o: Outcome, env: Env)
    requires Inv(s, {}) && id in s.turns
    ensures var m := s.turns[id].msg;
            var kept := EndTurn(s, id, o).(turns := s.turns);
            Finish(s, id, o, env) == Without(EndThread(SlotFreed(kept, m.runner, env), m.thread, env), id)
  {
    hide Inv, SlotFreed, Untouched;
    var m := s.turns[id].msg;
    var kept := EndTurn(s, id, o).(turns := s.turns);
    assert Without(kept, id) == EndTurn(s, id, o);
    TurnIsUnlisted(s, {}, id);
    assert forall t :: Parked(kept, t) == Parked(s, t);
    assert forall r :: Waiting(kept, r) == Waiting(s, r);
    SlotFreedWithout(kept, m.runner, env, id);
    if Waiting(s, m.runner) != [] {
      HeadIsElsewhere(s, {}, id, m.runner);
    }
    EndedLists(s, {}, id, o);
    SlotFreedElsewhere(kept, m.runner, env, m.thread);
    UntouchedParked(kept, SlotFreed(kept, m.runner, env), m.thread);
    EndThreadWithout(SlotFreed(kept, m.runner, env), m.thread, env, id);
  }

  // ------------------------------------------------------------------
  // Dispatching brings nothing new
  // ------------------------------------------------------------------

  lemma TryTurnArrivals(s: State, m: Msg, env: Env)
    ensures TryTurn(s, m, env).0.arrivals == s.arrivals
  {
    hide Queueable;
  }

  lemma TryArrivals(s: State, m: Msg, env: Env)
    ensures TryAdmitted(s, m, env).0.arrivals == s.arrivals
  {
    hide TryTurn;
    TryTurnArrivals(s, m, env);
    TryTurnArrivals(TakeSlot(s, m), m, env);
  }

  lemma {:induction false} EndThreadArrivals(s: State, t: string, env: Env)
    ensures Scheduler.EndThread(s, t, env).arrivals == s.arrivals
    decreases |Parked(s, t)|
  {
    hide TryAdmitted, TryTurn;
    if Parked(s, t) != [] {
      TryArrivals(Unpark(s, t), s.parked[t][0], env);
      var (s1, dropped) := TryAdmitted(Unpark(s, t), s.parked[t][0], env);
      if dropped {
        EndThreadArrivals(s1, t, env);
      }
    }
  }

  lemma DispatchArrivals(s: State, m: Msg, env: Env)
    ensures Scheduler.DispatchAdmitted(s, m, env).arrivals == s.arrivals
    ensures DispatchTurn(s, m, env).arrivals == s.arrivals
  {
    hide TryAdmitted, TryTurn;
    TryArrivals(s, m, env);
    TryTurnArrivals(s, m, env);
    EndThreadArrivals(TryAdmitted(s, m, env).0, m.thread, env);
    EndThreadArrivals(TryTurn(s, m, env).0, m.thread, env);
  }

  lemma SlotFreedArrivals(s: State, r: string, env: Env)
    ensures SlotFreed(s, r, env).arrivals == s.arrivals
  {
    hide DispatchTurn;
    if Waiting(s, r) != [] {
      DispatchArrivals(FreeSlot(s, r), Waiting(s, r)[0], env);
    }
  }

  lemma FinishArrivals(s: State, id: nat, o: Outcome, env: Env)
    requires id in s.turns
    ensures Finish(s, id, o, env).arrivals == s.arrivals
  {
    hide SlotFreed;
    var m := s.turns[id].msg;
    SlotFreedArrivals(EndTurn(s, id, o), m.runner, env);
    EndThreadArrivals(SlotFreed(EndTurn(s, id, o), m.runner, env), m.thread, env);
  }

  // ------------------------------------------------------------------
  // Between opening a turn and inserting its row
  // ------------------------------------------------------------------

  /** The turn is in the map; whether it is sent or queued is not decided. */
  function Opened(s: State, m: Msg): State {
    s.(turns := s.turns[m.id := Turn(m, false)])
  }

  function Enqueued(s: State, m: Msg): State {
    s.(rows := s.rows + [Row(s.nextRow, m)], nextRow := s.nextRow + 1)
  }

  predicate EndsOpened(s: State, m: Msg, ev: Event) {
    match ev
    case Report(id, _) => id == m.id
    case Visit(id, _, _) => id == m.id && Visits(Opened(s, m), ev)
    case _ => false
  }

  lemma Reopened(z: State, s: State, m: Msg)
    requires Without(z, m.id) == s && m.id in z.turns && z.turns[m.id] == Turn(m, false)
    ensures z == Opened(s, m)
  {
    assert z.turns == (z.turns - {m.id})[m.id := Turn(m, false)];
  }

  lemma OpenedWithout(s: State, m: Msg)
    requires m.id !in s.turns
    ensures Without(Opened(s, m), m.id) == s
    ensures m.id in Opened(s, m).turns && Opened(s, m).turns[m.id] == Turn(m, false)
    ensures forall t :: Parked(Opened(s, m), t) == Parked(s, t)
    ensures forall r :: Waiting(Opened(s, m), r) == Waiting(s, r)
  {
    assert s.turns[m.id := Turn(m, false)] - {m.id} == s.turns;
  }

  /** A message in hand is on no list, and its thread heads no waiting list. */
  lemma HeldIsUnlisted(s: State, holes: set<string>, m: Msg)
    requires Inv(s, holes) && Holds(s, m)
    ensures m.id !in s.turns && |s.place| == |s.arrivals|
    ensures forall t, k | 0 <= k < |Parked(s, t)| :: Parked(s, t)[k].id != m.id && Parked(s, t)[k].thread == t
    ensures forall r, k | 0 <= k < |Waiting(s, r)| :: Waiting(s, r)[k].id != m.id
    ensures forall r | Waiting(s, r) != [] :: Waiting(s, r)[0].thread != m.thread
    ensures forall i | 0 <= i < |s.rows| :: s.rows[i].msg.id != m.id
  {
    HeldIsElsewhere(s, holes, m);
    hide Blamed, Ordered;
  }

  lemma SlotFreedOpened(s: State, r: string, m: Msg, env: Env)
    requires m.id !in s.turns && m.id !in SlotFreed(s, r, env).turns
    requires forall t, k | 0 <= k < |Parked(s, t)| :: Parked(s, t)[k].id != m.id
    requires forall q, k | 0 <= k < |Waiting(s, q)| :: Waiting(s, q)[k].id != m.id
    ensures SlotFreed(Opened(s, m), r, env) == Opened(SlotFreed(s, r, env), m)
  {
    hide SlotFreed, Parked, Waiting;
    OpenedWithout(s, m);
    SlotFreedWithout(Opened(s, m), r, env, m.id);
    SlotFreedBystander(Opened(s, m), r, env, m.id);
    Reopened(SlotFreed(Opened(s, m), r, env), SlotFreed(s, r, env), m);
  }

  lemma EndThreadOpened(s: State, t: string, m: Msg, env: Env)
    requires m.id !in s.turns && forall k | 0 <= k < |Parked(s, t)| :: Parked(s, t)[k].id != m.id
    ensures EndThread(Opened(s, m), t, env) == Opened(EndThread(s, t, env), m)
  {
    hide EndThread, Parked;
    OpenedWithout(s, m);
    EndThreadWithout(Opened(s, m), t, env, m.id);
    EndThreadBystander(Opened(s, m), t, env, m.id);
    Reopened(EndThread(Opened(s, m), t, env), EndThread(s, t, env), m);
  }

  /** What the end of another turn works on. */
  lemma EndedAround(s: State, holes: set<string>, m: Msg, id: nat, o: Outcome, env: Env)
    requires Inv(s, holes) && Holds(s, m) && id in s.turns
    ensures id != m.id && m.id !in s.turns
    ensures var s0 := EndTurn(s, id, o);
            && m.id !in s0.turns
            && (forall t, k | 0 <= k < |Parked(s0, t)| :: Parked(s0, t)[k].id != m.id)
            && (forall r, k | 0 <= k < |Waiting(s0, r)| :: Waiting(s0, r)[k].id != m.id)
            && var s1 := SlotFreed(s0, s.turns[id].msg.runner, env); var t := s.turns[id].msg.thread;
               m.id !in s1.turns && forall k | 0 <= k < |Parked(s1, t)| :: Parked(s1, t)[k].id != m.id
  {
    HeldIsUnlisted(s, holes, m);
    EndedLists(s, holes, id, o);
    var s0, done := EndTurn(s, id, o), s.turns[id].msg;
    EndedElse(s, id, o, m.id);
    if Waiting(s, done.runner) != [] {
      HeadIsElsewhere(s, holes, id, done.runner);
    }
    hide Inv, SlotFreed, EndTurn, Untouched;
    SlotFreedBystander(s0, done.runner, env, m.id);
    SlotFreedElsewhere(s0, done.runner, env, done.thread);
    UntouchedParked(s0, SlotFreed(s0, done.runner, env), done.thread);
  }

  lemma EndOpened(s: State, m: Msg, id: nat, o: Outcome)
    requires id in s.turns && id != m.id
    ensures id in Opened(s, m).turns && Opened(s, m).turns[id] == s.turns[id]
    ensures EndTurn(Opened(s, m), id, o) == Opened(EndTurn(s, id, o), m)
  {
    assert s.turns[m.id := Turn(m, false)] - {id} == (s.turns - {id})[m.id := Turn(m, false)];
  }

  lemma FinishOpened(s: State, holes: set<string>, m: Msg, id: nat, o: Outcome, env: Env)
    requires Inv(s, holes) && Holds(s, m) && id in s.turns
    ensures id != m.id && id in Opened(s, m).turns
    ensures Finish(Opened(s, m), id, o, env) == Opened(Finish(s, id, o, env), m)
    ensures Holds(Finish(s, id, o, env), m)
  {
    hide Inv, SlotFreed, EndTurn, EndThread, Holds, Opened, Parked, Waiting;
    var done := s.turns[id].msg;
    var s0 := EndTurn(s, id, o);
    EndedAround(s, holes, m, id, o, env);
    EndOpened(s, m, id, o);
    StaysHeld(s, holes, m, id, o, env);
    SlotFreedOpened(s0, done.runner, m, env);
    EndThreadOpened(SlotFreed(s0, done.runner, env), done.thread, m, env);
  }

  lemma StaysHeld(s: State, holes: set<string>, m: Msg, id: nat, o: Outcome, env: Env)
    requires Inv(s, holes) && Holds(s, m) && id in s.turns
    ensures Holds(Finish(s, id, o, env), m)
  {
    HeldIsUnlisted(s, holes, m);
    FinishUnlisted(s, holes, id, o, env, m.id);
    EndedElse(s, id, o, m.id);
    FinishArrivals(s, id, o, env);
    hide Inv, Finish, EndTurn;
  }

  lemma DispatchOpened(s: State, n: Msg, m: Msg, env: Env)
    requires m.id !in s.turns && n.id != m.id && m.id !in DispatchAdmitted(s, n, env).turns
    requires forall k | 0 <= k < |Parked(s, n.thread)| :: Parked(s, n.thread)[k].id != m.id
    ensures DispatchAdmitted(Opened(s, m), n, env) == Opened(DispatchAdmitted(s, n, env), m)
  {
    hide DispatchAdmitted, DispatchTurn, Parked;
    OpenedWithout(s, m);
    DispatchWithout(Opened(s, m), n, env, m.id);
    DispatchBystander(Opened(s, m), n, env, m.id);
    Reopened(DispatchAdmitted(Opened(s, m), n, env), DispatchAdmitted(s, n, env), m);
  }

  lemma ArriveOpened(s: State, holes: set<string>, m: Msg, t: string, r: string, cap: int, env: Env)
    requires Inv(s, holes) && Holds(s, m)
    ensures Arrive(Opened(s, m), t, r, cap, env) == Opened(Arrive(s, t, r, cap, env), m)
    ensures Holds(Arrive(s, t, r, cap, env), m)
  {
    HeldIsUnlisted(s, holes, m);
    var n := Msg(|s.arrivals|, t, r, cap);
    assert n.id != m.id;
    hide Inv, DispatchAdmitted, Claim, Park;
    ArriveHolds(s, t, r, cap, m, env);
    ClaimOpened(s, n, m);
    if t !in s.active {
      DispatchOpened(Claim(s, n), n, m, env);
    }
  }

  lemma ClaimOpened(s: State, n: Msg, m: Msg)
    ensures Claim(Opened(s, m), n) == Opened(Claim(s, n), m) && Park(Opened(s, m), n) == Opened(Park(s, n), m)
    ensures Claim(s, n).parked == s.parked && Claim(s, n).turns == s.turns
  {
  }

  lemma ArriveHolds(s: State, t: string, r: string, cap: int, m: Msg, env: Env)
    requires Holds(s, m) && |s.place| == |s.arrivals| && m.id !in s.turns
    requires forall k | 0 <= k < |Parked(s, t)| :: Parked(s, t)[k].id != m.id
    ensures Holds(Arrive(s, t, r, cap, env), m) && m.id !in Arrive(s, t, r, cap, env).turns
  {
    ArriveUnlisted(s, t, r, cap, env, m.id);
    ArriveArrivals(s, t, r, cap, env);
    hide Arrive;
  }

  lemma ArriveArrivals(s: State, t: string, r: string, cap: int, env: Env)
    ensures s.arrivals <= Arrive(s, t, r, cap, env).arrivals
  {
    hide DispatchAdmitted, DispatchTurn;
    var n := Msg(|s.arrivals|, t, r, cap);
    DispatchArrivals(Claim(s, n), n, env);
  }

  lemma ShipOpened(s: State, m: Msg, row: nat, deleted: bool)
    requires m.id !in s.turns && forall i | 0 <= i < |s.rows| :: s.rows[i].msg.id != m.id
    ensures Ship(Opened(s, m), row, deleted) == Opened(Ship(s, row, deleted), m)
  {
    hide RowAt, Placed;
    var i := RowAt(s.rows, row);
    if i < |s.rows| {
      var n := s.rows[i].msg;
      if n.id in s.turns {
        var sent := Turn(s.turns[n.id].msg, false);
        assert s.turns[m.id := Turn(m, false)][n.id := sent] == s.turns[n.id := sent][m.id := Turn(m, false)];
      }
    }
  }

  lemma ShipHolds(s: State, m: Msg, row: nat, deleted: bool)
    requires Holds(s, m) && forall i | 0 <= i < |s.rows| :: s.rows[i].msg.id != m.id
    ensures Holds(Ship(s, row, deleted), m)
  {
    hide RowAt;
  }

  /** What an event finds of a turn that was only just opened. */
  lemma OpenedLooks(s: State, m: Msg, ev: Event)
    requires m.id !in s.turns && !EndsOpened(s, m, ev)
    ensures Faithful(Opened(s, m), ev) <==> Faithful(s, ev)
    ensures ev.Report? ==> (ev.turn in Opened(s, m).turns <==> ev.turn in s.turns)
    ensures ev.Visit? ==> (Visits(Opened(s, m), ev) <==> Visits(s, ev))
  {
    hide RowAt;
  }

  /** An event that does not end it treats the others as if the turn were not there. */
  lemma ApplyOpened(s: State, holes: set<string>, m: Msg, ev: Event, env: Env)
    requires Inv(s, holes) && Holds(s, m) && !EndsOpened(s, m, ev)
    ensures Apply(Opened(s, m), ev, env) == Opened(Apply(s, ev, env), m) && Holds(Apply(s, ev, env), m)
    ensures Faithful(Opened(s, m), ev) <==> Faithful(s, ev)
  {
    hide Inv, Finish, Arrive, Ship, Holds, Opened, EndsOpened, Faithful, Visits, Parked, Waiting;
    HeldIsUnlisted(s, holes, m);
    OpenedLooks(s, m, ev);
    match ev
    case Message(t, r, cap) => ArriveOpened(s, holes, m, t, r, cap, env);
    case Report(id, failed) =>
      if id in s.turns {
        FinishOpened(s, holes, m, id, if failed then RunnerFailed else Completed, env);
      }
    case Visit(id, _, _) =>
      if Visits(s, ev) {
        VisitedIsLive(s, ev);
        FinishOpened(s, holes, m, id, Swept, env);
      }
    case Shipment(row, deleted) => ShipOpened(s, m, row, deleted); ShipHolds(s, m, row, deleted);
  }

  lemma VisitedIsLive(s: State, ev: Event)
    requires ev.Visit? && Visits(s, ev)
    ensures ev.turn in s.turns
  {
  }

  /** A row whose turn is gone, or no longer queued. */
  ghost predicate Stray(s: State, i: nat) {
    i < |s.rows| && !(s.rows[i].msg.id in s.turns && s.turns[s.rows[i].msg.id].queued)
  }

  lemma StrayBreaks(s: State, holes: set<string>, i: nat)
    requires Stray(s, i)
    ensures !Inv(s, holes)
  {
    hide ParkedFiled, WaitingFiled, TurnsFiled, OneOccupant, Blamed, Ordered;
  }

  lemma UndeletedStrays(s: State, holes: set<string>, row: nat)
    requires Inv(s, holes) && RowAt(s.rows, row) < |s.rows|
    ensures var i := RowAt(s.rows, row);
            Stray(Ship(s, row, false), i) && Ship(s, row, false).rows[i] == s.rows[i]
  {
    ShipTurn(s, holes, RowAt(s.rows, row));
    hide Inv, RowAt, Placed;
  }

  /** What an unfaithful event leaves behind. */
  lemma UnfaithfulStrays(s: State, holes: set<string>, ev: Event, env: Env) returns (i: nat)
    requires Inv(s, holes) && !Faithful(s, ev)
    ensures i < |s.rows| && Stray(Apply(s, ev, env), i) && Apply(s, ev, env).rows[i] == s.rows[i]
  {
    hide Inv, Finish, EndTurn, RowAt, Ship;
    if ev.Report? {
      var o := if ev.failed then RunnerFailed else Completed;
      FinishBystander(s, holes, ev.turn, o, env, ev.turn);
      EndedElseRows(s, ev.turn, o);
      i := RowOf(s, holes, ev.turn);
    } else {
      i := RowAt(s.rows, ev.row);
      UndeletedStrays(s, holes, ev.row);
    }
  }

  lemma EndedElseRows(s: State, id: nat, o: Outcome)
    requires id in s.turns
    ensures EndTurn(s, id, o).rows == s.rows && id !in EndTurn(s, id, o).turns
  {
  }

  lemma RowOf(s: State, holes: set<string>, id: nat) returns (i: nat)
    requires Inv(s, holes) && id in s.turns && s.turns[id].queued
    ensures i < |s.rows| && s.rows[i].msg.id == id
  {
    hide ParkedFiled, WaitingFiled, TurnsFiled, OneOccupant, Blamed, Ordered;
    i :| 0 <= i < |s.rows| && s.rows[i].msg.id == id;
  }

  lemma EndOpenedLists(s: State, m: Msg, o: Outcome)
    requires m.id !in s.turns
    ensures m.id in Opened(s, m).turns && Opened(s, m).turns[m.id].msg == m
    ensures var s0 := EndTurn(Opened(s, m), m.id, o);
            m.id !in s0.turns && (forall t :: Parked(s0, t) == Parked(s, t)) && forall r :: Waiting(s0, r) == Waiting(s, r)
  {
    hide Placed;
  }

  /** The opened turn is ended: it is not in the map when its row is inserted. */
  lemma OpenedEnds(s: State, holes: set<string>, m: Msg, o: Outcome, env: Env)
    requires Inv(s, holes) && Holds(s, m)
    ensures var mid := Opened(s, m); m.id in mid.turns && mid.turns[m.id].msg == m && m.id !in Finish(mid, m.id, o, env).turns
  {
    hide Inv, SlotFreed, EndTurn, Untouched, EndThread, Parked, Waiting, Opened;
    HeldIsUnlisted(s, holes, m);
    EndOpenedLists(s, m, o);
    var s0 := EndTurn(Opened(s, m), m.id, o);
    SlotFreedBystander(s0, m.runner, env, m.id);
    SlotFreedElsewhere(s0, m.runner, env, m.thread);
    UntouchedParked(s0, SlotFreed(s0, m.runner, env), m.thread);
    EndThreadBystander(SlotFreed(s0, m.runner, env), m.thread, env, m.id);
  }

  lemma EnqueuedStrays(s: State, holes: set<string>, m: Msg)
    requires m.id !in s.turns
    ensures var s' := Mark(Enqueued(s, m), m.id);
            m.id !in s'.turns && Row(s.nextRow, m) in s'.rows && !Inv(s', holes)
  {
    var s' := Mark(Enqueued(s, m), m.id);
    assert s'.rows[|s.rows|] == Row(s.nextRow, m);
    StrayBreaks(s', holes, |s.rows|);
  }

  lemma HeldStray(s: State, holes: set<string>, m: Msg, i: nat)
    requires Stray(s, i) && s.rows[i].msg.id != m.id
    ensures !Inv(Hold(s, m), holes)
  {
    StrayBreaks(Hold(s, m), holes, i);
    hide Inv;
  }

  /** For any event between the opening of a turn and the insert of its row, whatever
      threads other handlers are settling: once the row is inserted and the turn marked,
      the invariant holds if and only if the event is faithful and does not end the turn. */
  lemma OpenedExactly(s: State, holes: set<string>, m: Msg, ev: Event, env: Env)
    requires Inv(s, holes) && Holds(s, m)
    ensures var s' := Mark(Enqueued(Apply(Opened(s, m), ev, env), m), m.id);
            Inv(s', holes - {m.thread}) <==> Faithful(Opened(s, m), ev) && !EndsOpened(s, m, ev)
  {
    hide Inv, Finish, Arrive, Ship, Mark, RowAt, Hold;
    var a := Apply(s, ev, env);
    if EndsOpened(s, m, ev) {
      var o := if ev.Visit? then Swept else if ev.failed then RunnerFailed else Completed;
      OpenedEnds(s, holes, m, o, env);
      EnqueuedStrays(Finish(Opened(s, m), m.id, o, env), holes - {m.thread}, m);
    } else {
      ApplyOpened(s, holes, m, ev, env);
      InsertAndMark(a, m);
      assert Enqueued(Opened(a, m), m) == Inserted(a, m);
      if Faithful(s, ev) {
        ApplyKeeps(s, holes, ev, env);
        HoldKeeps(a, holes, m);
      } else {
        HeldIsUnlisted(s, holes, m);
        var i := UnfaithfulStrays(s, holes, ev, env);
        HeldStray(a, holes - {m.thread}, m, i);
      }
    }
  }

  /** A reconcile in that window: the turn is over before its row is inserted. */
  lemma RowOfEndedTurn(s: State, holes: set<string>, m: Msg, only: set<string>, env: Env)
    requires Inv(s, holes) && Holds(s, m) && m.runner in only
    ensures var s' := Mark(Enqueued(Apply(Opened(s, m), Visit(m.id, only, false), env), m), m.id);
            m.id !in s'.turns && exists row :: row in s'.rows && row.msg == m
  {
    hide Inv, Finish, Mark;
    OpenedEnds(s, holes, m, Swept, env);
    EnqueuedStrays(Finish(Opened(s, m), m.id, Swept, env), holes, m);
  }
}
