/**
 Queueing a turn is not atomic: the turn is in the map, then its row is inserted, then
 the turn is marked as queued. What may happen between the last two, exactly.
 */
module SchedulerMarking {
  import opened Scheduler
  import opened SchedulerInvariant
  import opened SchedulerTheorems

  function Inserted(s: State, m: Msg): State {
    s.(turns := s.turns[m.id := Turn(m, false)], rows := s.rows + [Row(s.nextRow, m)], nextRow := s.nextRow + 1)
  }

  /** Sets the flag of a turn that is still there; a message that was not sent
      meanwhile is filed by it. */
  function Mark(s: State, x: nat): State {
    if x !in s.turns then s
    else s.(turns := s.turns[x := s.turns[x].(queued := true)],
            place := if x < |s.place| && s.place[x].InHand? then s.place[x := Stored] else s.place)
  }

  /** The two halves are the one step of the scheduler. */
  lemma InsertAndMark(s: State, m: Msg)
    requires m.id < |s.place| && s.place[m.id].InHand?
    ensures Mark(Inserted(s, m), m.id) == Hold(s, m)
  {
    assert s.turns[m.id := Turn(m, false)][m.id := Turn(m, true)] == s.turns[m.id := Turn(m, true)];
  }

  /** Between the halves. */
  predicate Unmarked(s: State, x: nat) {
    x in s.turns && !s.turns[x].queued && x < |s.place| && s.place[x].InHand?
  }

  /** What must not come between them: the shipment of the row, and whatever ends
      the turn. */
  predicate Disturbs(s: State, x: nat, ev: Event) {
    match ev
    case Message(_, _, _) => false
    case Report(id, _) => id == x
    case Visit(id, _, _) => id == x && Visits(s, ev)
    case Shipment(row, _) => var i := RowAt(s.rows, row); i < |s.rows| && s.rows[i].msg.id == x
  }

  // ------------------------------------------------------------------
  // Marking commutes with everything that concerns other messages
  // ------------------------------------------------------------------

  lemma OpensMarked(s: State, m: Msg, x: nat)
    requires Unmarked(s, x) && m.id != x
    ensures Send(Mark(s, x), m) == Mark(Send(s, m), x) && Unmarked(Send(s, m), x)
    ensures Hold(Mark(s, x), m) == Mark(Hold(s, m), x) && Unmarked(Hold(s, m), x)
  {
    var marked := s.turns[x].(queued := true);
    assert s.turns[x := marked][m.id := Turn(m, false)] == s.turns[m.id := Turn(m, false)][x := marked];
    assert s.turns[x := marked][m.id := Turn(m, true)] == s.turns[m.id := Turn(m, true)][x := marked];
    PlacedApart(s.place, x, Stored, m.id, Running);
    PlacedApart(s.place, x, Stored, m.id, Stored);
  }

  lemma GivesUpMarked(s: State, m: Msg, x: nat)
    requires Unmarked(s, x) && m.id != x
    ensures Drop(Mark(s, x), m) == Mark(Drop(s, m), x) && Unmarked(Drop(s, m), x)
    ensures FailStart(Mark(s, x), m) == Mark(FailStart(s, m), x) && Unmarked(FailStart(s, m), x)
  {
    var marked := s.turns[x].(queued := true);
    assert s.turns[x := marked] - {m.id} == (s.turns - {m.id})[x := marked];
    PlacedApart(s.place, x, Stored, m.id, Gone(Abandoned));
    PlacedApart(s.place, x, Stored, m.id, Gone(NotStarted));
  }

  lemma GatesMarked(s: State, m: Msg, x: nat)
    requires Unmarked(s, x) && m.id != x
    ensures TakeSlot(Mark(s, x), m) == Mark(TakeSlot(s, m), x) && Unmarked(TakeSlot(s, m), x)
    ensures Wait(Mark(s, x), m) == Mark(Wait(s, m), x) && Unmarked(Wait(s, m), x)
    ensures Refuse(Mark(s, x), m) == Mark(Refuse(s, m), x) && Unmarked(Refuse(s, m), x)
  {
    PlacedApart(s.place, x, Stored, m.id, Waitlisted);
    PlacedApart(s.place, x, Stored, m.id, Gone(Refused));
  }

  lemma PlacedApart(place: seq<Place>, x: nat, p: Place, y: nat, q: Place)
    requires x != y
    ensures Placed(Placed(place, x, p), y, q) == Placed(Placed(place, y, q), x, p)
  {
  }

  lemma AskMarked(s: State, x: nat, n: nat)
    requires Unmarked(s, x)
    ensures Mark(s, x).(calls := n) == Mark(s.(calls := n), x) && Unmarked(s.(calls := n), x)
    ensures Mark(s, x).rows == s.rows && Mark(s, x).calls == s.calls && Mark(s, x).queues == s.queues
    ensures Mark(s, x).parked == s.parked && Mark(s, x).active == s.active && Mark(s, x).arrivals == s.arrivals
  {
  }

  lemma TryTurnMarked(s: State, m: Msg, env: Env, x: nat)
    requires Unmarked(s, x) && m.id != x
    ensures TryTurn(Mark(s, x), m, env) == (Mark(TryTurn(s, m, env).0, x), TryTurn(s, m, env).1)
    ensures Unmarked(TryTurn(s, m, env).0, x)
  {
    hide Mark, Unmarked, RowsOf, Send, Hold, Drop, FailStart;
    AskMarked(s, x, s.calls + 1);
    var s1 := s.(calls := s.calls + 1);
    AskMarked(s1, x, 0);
    OpensMarked(s1, m, x);
    GivesUpMarked(s1, m, x);
  }

  lemma TryMarked(s: State, m: Msg, env: Env, x: nat)
    requires Unmarked(s, x) && m.id != x
    ensures TryAdmitted(Mark(s, x), m, env) == (Mark(TryAdmitted(s, m, env).0, x), TryAdmitted(s, m, env).1)
    ensures Unmarked(TryAdmitted(s, m, env).0, x)
  {
    hide Mark, Unmarked, TryTurn, TakeSlot, Wait, Refuse;
    AskMarked(s, x, 0);
    GatesMarked(s, m, x);
    TryTurnMarked(s, m, env, x);
    TryTurnMarked(TakeSlot(s, m), m, env, x);
    AskMarked(Wait(s, m), x, s.calls + 1);
    AskMarked(Refuse(s, m), x, s.calls + 1);
  }

  lemma ThreadMarked(s: State, t: string, x: nat)
    requires Unmarked(s, x)
    ensures Parked(s, t) != [] && s.parked[t][0].id != x ==>
              Unpark(Mark(s, x), t) == Mark(Unpark(s, t), x) && Unmarked(Unpark(s, t), x)
    ensures Release(Mark(s, x), t) == Mark(Release(s, t), x) && Unmarked(Release(s, t), x)
  {
    if Parked(s, t) != [] && s.parked[t][0].id != x {
      PlacedApart(s.place, x, Stored, s.parked[t][0].id, InHand);
    }
  }

  lemma {:induction false} EndThreadMarked(s: State, t: string, env: Env, x: nat)
    requires Unmarked(s, x) && forall k | 0 <= k < |Parked(s, t)| :: Parked(s, t)[k].id != x
    ensures EndThread(Mark(s, x), t, env) == Mark(EndThread(s, t, env), x) && Unmarked(EndThread(s, t, env), x)
    decreases |Parked(s, t)|
  {
    hide Mark, Unmarked, TryAdmitted, Release;
    AskMarked(s, x, 0);
    ThreadMarked(s, t, x);
    if Parked(s, t) != [] {
      var m := s.parked[t][0];
      TryMarked(Unpark(s, t), m, env, x);
      var (s1, dropped) := TryAdmitted(Unpark(s, t), m, env);
      assert s1.parked[t] == s.parked[t][1..];
      if dropped {
        EndThreadMarked(s1, t, env, x);
      }
    }
  }

  lemma DispatchMarked(s: State, m: Msg, env: Env, x: nat)
    requires Unmarked(s, x) && m.id != x && forall k | 0 <= k < |Parked(s, m.thread)| :: Parked(s, m.thread)[k].id != x
    ensures DispatchTurn(Mark(s, x), m, env) == Mark(DispatchTurn(s, m, env), x) && Unmarked(DispatchTurn(s, m, env), x)
    ensures DispatchAdmitted(Mark(s, x), m, env) == Mark(DispatchAdmitted(s, m, env), x)
    ensures Unmarked(DispatchAdmitted(s, m, env), x)
  {
    hide Mark, Unmarked, TryTurn, TryAdmitted, EndThread;
    TryTurnMarked(s, m, env, x);
    TryMarked(s, m, env, x);
    var (s1, dropped1) := TryTurn(s, m, env);
    assert Parked(s1, m.thread) == Parked(s, m.thread);
    EndThreadMarked(s1, m.thread, env, x);
    var (s2, dropped2) := TryAdmitted(s, m, env);
    assert Parked(s2, m.thread) == Parked(s, m.thread);
    EndThreadMarked(s2, m.thread, env, x);
  }

  lemma FreeMarked(s: State, r: string, x: nat)
    requires Unmarked(s, x) && (Waiting(s, r) != [] ==> Waiting(s, r)[0].id != x)
    ensures FreeSlot(Mark(s, x), r) == Mark(FreeSlot(s, r), x) && Unmarked(FreeSlot(s, r), x)
  {
    if Waiting(s, r) != [] {
      PlacedApart(s.place, x, Stored, Waiting(s, r)[0].id, InHand);
    }
  }

  lemma SlotFreedMarked(s: State, r: string, env: Env, x: nat)
    requires Unmarked(s, x) && (Waiting(s, r) != [] ==> Waiting(s, r)[0].id != x)
    requires forall t, k | 0 <= k < |Parked(s, t)| :: Parked(s, t)[k].id != x
    ensures SlotFreed(Mark(s, x), r, env) == Mark(SlotFreed(s, r, env), x) && Unmarked(SlotFreed(s, r, env), x)
  {
    hide Mark, Unmarked, DispatchTurn;
    AskMarked(s, x, 0);
    FreeMarked(s, r, x);
    if Waiting(s, r) != [] {
      var m := Waiting(s, r)[0];
      assert Parked(FreeSlot(s, r), m.thread) == Parked(s, m.thread);
      DispatchMarked(FreeSlot(s, r), m, env, x);
    }
  }

  lemma EndMarked(s: State, id: nat, o: Outcome, x: nat)
    requires Unmarked(s, x) && id in s.turns && id != x
    ensures id in Mark(s, x).turns && Mark(s, x).turns[id] == s.turns[id]
    ensures EndTurn(Mark(s, x), id, o) == Mark(EndTurn(s, id, o), x) && Unmarked(EndTurn(s, id, o), x)
  {
    var marked := s.turns[x].(queued := true);
    assert s.turns[x := marked] - {id} == (s.turns - {id})[x := marked];
    PlacedApart(s.place, x, Stored, id, Gone(o));
  }

  /** The lists that the end of another turn works on, none of which names `x`. */
  lemma ListsMarked(s: State, holes: set<string>, id: nat, o: Outcome, x: nat)
    requires Unmarked(s, x) && Inv(Mark(s, x), holes) && id in s.turns && id != x
    ensures var s0, z0 := EndTurn(s, id, o), EndTurn(Mark(s, x), id, o);
            && (forall t :: Parked(z0, t) == Parked(s0, t) == Parked(Mark(s, x), t))
            && (forall r :: Waiting(z0, r) == Waiting(s0, r) == Waiting(Mark(s, x), r))
            && (forall t, k | 0 <= k < |Parked(s0, t)| :: Parked(s0, t)[k].id != x && Parked(s0, t)[k].thread == t)
            && (forall r, k | 0 <= k < |Waiting(s0, r)| :: Waiting(s0, r)[k].id != x)
  {
    EndMarked(s, id, o, x);
    TurnIsUnlisted(Mark(s, x), holes, x);
    EndedLists(Mark(s, x), holes, id, o);
    AskMarked(EndTurn(s, id, o), x, 0);
    hide Mark, Unmarked, Inv, EndTurn;
  }

  lemma FinishMarked(s: State, holes: set<string>, id: nat, o: Outcome, env: Env, x: nat)
    requires Unmarked(s, x) && Inv(Mark(s, x), holes) && id in s.turns && id != x
    ensures id in Mark(s, x).turns
    ensures Finish(Mark(s, x), id, o, env) == Mark(Finish(s, id, o, env), x) && Unmarked(Finish(s, id, o, env), x)
  {
    hide Mark, Unmarked, Inv, SlotFreed, EndTurn, EndThread, Untouched, Parked, Waiting;
    var m, z := s.turns[id].msg, Mark(s, x);
    EndMarked(s, id, o, x);
    ListsMarked(s, holes, id, o, x);
    var s0, z0 := EndTurn(s, id, o), EndTurn(z, id, o);
    SlotFreedMarked(s0, m.runner, env, x);
    var s1, z1 := SlotFreed(s0, m.runner, env), SlotFreed(z0, m.runner, env);
    if Waiting(z, m.runner) != [] {
      HeadIsElsewhere(z, holes, id, m.runner);
    }
    SlotFreedElsewhere(s0, m.runner, env, m.thread);
    UntouchedParked(s0, s1, m.thread);
    EndThreadMarked(s1, m.thread, env, x);
  }

  lemma ClaimMarked(s: State, m: Msg, x: nat)
    requires Unmarked(s, x)
    ensures Claim(Mark(s, x), m) == Mark(Claim(s, m), x) && Unmarked(Claim(s, m), x)
    ensures Park(Mark(s, x), m) == Mark(Park(s, m), x) && Unmarked(Park(s, m), x)
  {
    assert s.place[x := Stored] + [Parking] == (s.place + [Parking])[x := Stored];
    assert s.place[x := Stored] + [InHand] == (s.place + [InHand])[x := Stored];
  }

  lemma ArriveMarked(s: State, holes: set<string>, t: string, r: string, cap: int, env: Env, x: nat)
    requires Unmarked(s, x) && Inv(Mark(s, x), holes)
    ensures Arrive(Mark(s, x), t, r, cap, env) == Mark(Arrive(s, t, r, cap, env), x) && Unmarked(Arrive(s, t, r, cap, env), x)
  {
    var m := Msg(|s.arrivals|, t, r, cap);
    assert x in Mark(s, x).turns && x < |s.place| == |Mark(s, x).place|;
    TurnIsUnlisted(Mark(s, x), holes, x);
    LiveTurn(Mark(s, x), holes, x);
    PlacesMatch(Mark(s, x), holes);
    hide Inv, DispatchAdmitted, Mark, Unmarked, Park;
    AskMarked(s, x, 0);
    ClaimMarked(s, m, x);
    if t !in s.active {
      assert Parked(Claim(s, m), t) == Parked(Mark(s, x), t);
      DispatchMarked(Claim(s, m), m, env, x);
    }
  }

  lemma ShipMarked(s: State, row: nat, deleted: bool, x: nat)
    requires Unmarked(s, x) && !Disturbs(s, x, Shipment(row, deleted))
    ensures Ship(Mark(s, x), row, deleted) == Mark(Ship(s, row, deleted), x) && Unmarked(Ship(s, row, deleted), x)
  {
    hide RowAt;
    var i := RowAt(s.rows, row);
    if i < |s.rows| {
      var m := s.rows[i].msg;
      PlacedApart(s.place, x, Stored, m.id, Running);
      if m.id in s.turns {
        var marked, sent := s.turns[x].(queued := true), Turn(s.turns[m.id].msg, false);
        assert s.turns[x := marked][m.id := sent] == s.turns[m.id := sent][x := marked];
      }
    }
  }

  lemma ApplyMarked(s: State, holes: set<string>, ev: Event, env: Env, x: nat)
    requires Unmarked(s, x) && Inv(Mark(s, x), holes) && !Disturbs(s, x, ev)
    ensures Apply(Mark(s, x), ev, env) == Mark(Apply(s, ev, env), x) && Unmarked(Apply(s, ev, env), x)
    ensures Faithful(Mark(s, x), ev) <==> Faithful(s, ev)
  {
    hide Inv, Finish, Arrive, Ship, RowAt;
    match ev
    case Message(t, r, cap) => ArriveMarked(s, holes, t, r, cap, env, x);
    case Report(id, failed) =>
      if id in s.turns {
        FinishMarked(s, holes, id, if failed then RunnerFailed else Completed, env, x);
      }
    case Visit(id, _, _) =>
      if Visits(s, ev) {
        FinishMarked(s, holes, id, Swept, env, x);
      }
    case Shipment(row, deleted) => ShipMarked(s, row, deleted, x);
  }

  // ------------------------------------------------------------------
  // What disturbs it
  // ------------------------------------------------------------------

  lemma SameEnd(s: State, o: Outcome, x: nat)
    requires Unmarked(s, x)
    ensures x in Mark(s, x).turns && Mark(s, x).turns[x].queued && Mark(s, x).turns[x].msg == s.turns[x].msg
    ensures EndTurn(Mark(s, x), x, o) == EndTurn(s, x, o) && x !in EndTurn(s, x, o).turns
    ensures EndTurn(s, x, o).rows == s.rows
  {
    assert s.turns[x := s.turns[x].(queued := true)] - {x} == s.turns - {x};
    assert Placed(s.place[x := Stored], x, Gone(o)) == Placed(s.place, x, Gone(o));
  }

  lemma EndedEarly(s: State, holes: set<string>, o: Outcome, env: Env, x: nat)
    requires Unmarked(s, x) && Inv(Mark(s, x), holes)
    ensures var s' := Finish(s, x, o, env); x !in s'.turns && !Inv(s', holes)
  {
    var z := Mark(s, x);
    SameEnd(s, o, x);
    hide Inv, SlotFreed, EndThread, EndTurn, Mark;
    FinishBystander(z, holes, x, o, env, x);
    OrphanedRow(z, holes, x, o, env);
  }

  lemma ShippedEarly(s: State, holes: set<string>, row: nat, deleted: bool, x: nat)
    requires Unmarked(s, x) && Inv(Mark(s, x), holes) && Disturbs(s, x, Shipment(row, deleted))
    ensures !Inv(Mark(Ship(s, row, deleted), x), holes)
  {
    SentEarly(s, row, deleted, x);
    hide RowAt, Ship, Mark, ParkedFiled, WaitingFiled, Backed, OneOccupant, Blamed, Ordered;
  }

  lemma SentEarly(s: State, row: nat, deleted: bool, x: nat)
    requires Unmarked(s, x) && Disturbs(s, x, Shipment(row, deleted))
    ensures var z := Mark(Ship(s, row, deleted), x);
            x in z.turns && z.turns[x].queued && x < |z.place| && z.place[x] == Running
  {
    hide RowAt;
  }

  /** For any event that comes between insert and mark, and whatever threads other
      handlers are settling: the invariant holds after the mark if and only if the
      event is faithful and neither ships the row nor ends the turn. */
  lemma MarkedExactly(s: State, holes: set<string>, ev: Event, env: Env, x: nat)
    requires Unmarked(s, x) && Inv(Mark(s, x), holes)
    ensures Inv(Mark(Apply(s, ev, env), x), holes) <==> Faithful(s, ev) && !Disturbs(s, x, ev)
  {
    hide Inv, Finish, Arrive, Ship, Mark, RowAt;
    if !Disturbs(s, x, ev) {
      ApplyMarked(s, holes, ev, env, x);
      Exactly(Mark(s, x), holes, ev, env);
    } else {
      match ev
      case Report(id, failed) =>
        var o := if failed then RunnerFailed else Completed;
        EndedEarly(s, holes, o, env, x);
        MarkGone(Finish(s, x, o, env), x);
      case Visit(id, _, _) =>
        EndedEarly(s, holes, Swept, env, x);
        MarkGone(Finish(s, x, Swept, env), x);
      case Shipment(row, deleted) => ShippedEarly(s, holes, row, deleted, x);
    }
  }

  ghost predicate QuietRun(s: State, evs: seq<Event>, env: Env, x: nat)
    decreases |evs|
  {
    evs == [] ||
    (QuietRun(s, evs[..|evs| - 1], env, x)
     && var before := Run(s, evs[..|evs| - 1], env);
        Faithful(before, evs[|evs| - 1]) && !Disturbs(before, x, evs[|evs| - 1]))
  }

  /** Any number of such events may come between: the mark then makes of it what the
      same events would have made of the marked turn. */
  lemma {:induction false} MarkedInTime(s: State, holes: set<string>, m: Msg, evs: seq<Event>, env: Env)
    requires Inv(s, holes) && Holds(s, m) && QuietRun(Inserted(s, m), evs, env, m.id)
    ensures var before := Run(Inserted(s, m), evs, env);
            && Unmarked(before, m.id)
            && Mark(before, m.id) == Run(Hold(s, m), evs, env)
            && Inv(Mark(before, m.id), holes - {m.thread})
    decreases |evs|
  {
    hide Apply, Disturbs, Faithful, Inv, Mark;
    if evs == [] {
      InsertAndMark(s, m);
      HoldKeeps(s, holes, m);
    } else {
      var front, ev := evs[..|evs| - 1], evs[|evs| - 1];
      MarkedInTime(s, holes, m, front, env);
      ApplyMarked(Run(Inserted(s, m), front, env), holes - {m.thread}, ev, env, m.id);
      MarkedExactly(Run(Inserted(s, m), front, env), holes - {m.thread}, ev, env, m.id);
    }
  }

  // ------------------------------------------------------------------
  // Both ways of coming too late
  // ------------------------------------------------------------------

  lemma NewRow(s: State, holes: set<string>, m: Msg, rows: seq<Row>)
    requires Inv(s, holes) && s.rows + [Row(s.nextRow, m)] <= rows
    ensures var i := RowAt(rows, s.nextRow); i == |s.rows| && i < |rows| && rows[i] == Row(s.nextRow, m)
  {
    OlderRows(s, holes);
    hide Inv;
    assert rows[|s.rows|] == Row(s.nextRow, m);
    FirstRow(rows, |s.rows|);
  }

  lemma {:induction false} FirstRow(rows: seq<Row>, i: nat)
    requires i < |rows| && forall k | 0 <= k < i :: rows[k].id != rows[i].id
    ensures RowAt(rows, rows[i].id) == i
  {
  }

  lemma OlderRows(s: State, holes: set<string>)
    requires Inv(s, holes)
    ensures forall i | 0 <= i < |s.rows| :: s.rows[i].id < s.nextRow
  {
    hide Named, ParkedFiled, WaitingFiled, TurnsFiled, OneOccupant, Blamed, Ordered;
  }

  /** A drain in between: the turn runs, but is marked queued without a row, so that
      no sweep or reconcile ever ends it. */
  lemma ShippedTooEarly(s: State, holes: set<string>, m: Msg, env: Env)
    requires Inv(s, holes)
    ensures var s' := Mark(Apply(Inserted(s, m), Shipment(s.nextRow, true), env), m.id);
            && s'.sent == s.sent + [m] && s'.rows == s.rows
            && m.id in s'.turns && s'.turns[m.id].queued
            && forall only, every :: !Visits(s', Visit(m.id, only, every))
  {
    var rows := s.rows + [Row(s.nextRow, m)];
    NewRow(s, holes, m, rows);
    hide Inv, RowAt, Placed;
    assert rows[..|s.rows|] + rows[|s.rows| + 1..] == s.rows;
  }

  /** A reconcile in between: the turn ends while its row stays, and a later drain
      sends the message of the ended turn. */
  lemma EndedTooEarly(s: State, holes: set<string>, m: Msg, only: set<string>, env: Env)
    requires Inv(s, holes) && Holds(s, m) && m.runner in only
    ensures var s' := Mark(Apply(Inserted(s, m), Visit(m.id, only, false), env), m.id);
            && m.id !in s'.turns && Row(s.nextRow, m) in s'.rows
            && Apply(s', Shipment(s.nextRow, true), env).sent == s'.sent + [m]
  {
    hide Inv, Finish, RowAt, Inserted, Placed, Mark, Unmarked, Ship;
    var mid := Inserted(s, m);
    HoldKeeps(s, holes, m);
    InsertAndMark(s, m);
    Midway(s, m);
    EndedEarly(mid, holes - {m.thread}, Swept, env, m.id);
    EndedRows(mid, holes - {m.thread}, Swept, env, m.id);
    var s' := Finish(mid, m.id, Swept, env);
    NewRow(s, holes, m, s'.rows);
    MarkGone(s', m.id);
    LateShipment(s', s.nextRow);
  }

  lemma Midway(s: State, m: Msg)
    requires m.id < |s.place| && s.place[m.id].InHand?
    ensures var mid := Inserted(s, m);
            Unmarked(mid, m.id) && mid.turns[m.id] == Turn(m, false) && mid.rows == s.rows + [Row(s.nextRow, m)]
  {
  }

  lemma MarkGone(s: State, x: nat)
    requires x !in s.turns
    ensures Mark(s, x) == s
  {
  }

  lemma LateShipment(s: State, row: nat)
    requires RowAt(s.rows, row) < |s.rows|
    ensures Ship(s, row, true).sent == s.sent + [s.rows[RowAt(s.rows, row)].msg]
  {
    hide RowAt, Placed;
  }

  lemma EndedRows(s: State, holes: set<string>, o: Outcome, env: Env, x: nat)
    requires Unmarked(s, x) && Inv(Mark(s, x), holes)
    ensures s.rows <= Finish(s, x, o, env).rows
  {
    SameEnd(s, o, x);
    FinishBystander(Mark(s, x), holes, x, o, env, x);
    hide Inv, SlotFreed, EndThread;
  }

  const A := Msg(0, "a", "r", 1)

  /** It can come to that from the start. */
  lemma WindowOpens()
    ensures Inv(Claim(INITIAL, A), {"a"}) && Holds(Claim(INITIAL, A), A)
  {
    Initially();
    ClaimKeeps(INITIAL, {}, A);
    hide Inv;
    assert {} + {"a"} == {"a"};
  }

  /** One message, and either way. */
  lemma BothHappen(env: Env)
    ensures var mid := Inserted(Claim(INITIAL, A), A);
            && Mark(Apply(mid, Shipment(0, true), env), 0).sent == [A]
            && Mark(Apply(mid, Shipment(0, true), env), 0).rows == []
            && 0 in Mark(Apply(mid, Shipment(0, true), env), 0).turns
            && Mark(Apply(mid, Shipment(0, true), env), 0).turns[0].queued
            && 0 !in Mark(Apply(mid, Visit(0, {"r"}, false), env), 0).turns
            && Row(0, A) in Mark(Apply(mid, Visit(0, {"r"}, false), env), 0).rows
  {
    WindowOpens();
    ShippedTooEarly(Claim(INITIAL, A), {"a"}, A, env);
    EndedTooEarly(Claim(INITIAL, A), {"a"}, A, {"r"}, env);
    hide Inv, Apply, Inserted, Mark;
    assert [] + [A] == [A];
  }
}
