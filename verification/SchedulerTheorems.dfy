/** What holds over whole runs of the scheduler, and exactly when a step breaks it. */
module SchedulerTheorems {
  import opened Scheduler
  import opened SchedulerInvariant

  /** What the invariant asks of the world: a runner reports only turns that were
      sent to it, and a row whose message was sent is deleted. */
  predicate Faithful(s: State, ev: Event) {
    match ev
    case Message(_, _, _) => true
    case Report(id, _) => id in s.turns ==> !s.turns[id].queued
    case Visit(_, _, _) => true
    case Shipment(row, deleted) => deleted || RowAt(s.rows, row) == |s.rows|
  }

  ghost predicate FaithfulRun(s: State, evs: seq<Event>, env: Env)
    decreases |evs|
  {
    evs == [] || (FaithfulRun(s, evs[..|evs| - 1], env) && Faithful(Run(s, evs[..|evs| - 1], env), evs[|evs| - 1]))
  }

  // ------------------------------------------------------------------
  // A message that is not dispatched stays where it is
  // ------------------------------------------------------------------

  predicate Bystander(s: State, s': State, id: nat) {
    && (id in s.turns <==> id in s'.turns)
    && (id in s.turns ==> s.turns[id] == s'.turns[id])
    && (id < |s.place| ==> id < |s'.place| && s.place[id] == s'.place[id])
    && s.rows <= s'.rows
  }

  lemma OpenBystander(s: State, m: Msg, id: nat)
    requires m.id != id
    ensures Bystander(s, Send(s, m), id)
    ensures Bystander(s, Hold(s, m), id)
  {
  }

  lemma GiveUpBystander(s: State, m: Msg, id: nat)
    requires m.id != id
    ensures Bystander(s, Drop(s, m), id)
    ensures Bystander(s, FailStart(s, m), id)
  {
  }

  lemma GateBystander(s: State, m: Msg, id: nat)
    requires m.id != id
    ensures Bystander(s, TakeSlot(s, m), id)
    ensures Bystander(s, Wait(s, m), id)
    ensures Bystander(s, Refuse(s, m), id)
  {
  }

  lemma TryTurnBystander(s: State, m: Msg, env: Env, id: nat)
    requires m.id != id
    ensures Bystander(s, TryTurn(s, m, env).0, id)
  {
    hide Queueable, Send, Hold, Drop, FailStart;
    OpenBystander(s.(calls := s.calls + 1), m, id);
    GiveUpBystander(s.(calls := s.calls + 1), m, id);
  }

  lemma TryBystander(s: State, m: Msg, env: Env, id: nat)
    requires m.id != id
    ensures Bystander(s, TryAdmitted(s, m, env).0, id)
  {
    hide TryTurn, TakeSlot, Wait, Refuse;
    GateBystander(s, m, id);
    TryTurnBystander(s, m, env, id);
    TryTurnBystander(TakeSlot(s, m), m, env, id);
  }

  lemma {:induction false} EndThreadBystander(s: State, t: string, env: Env, id: nat)
    requires forall k | 0 <= k < |Parked(s, t)| :: Parked(s, t)[k].id != id
    ensures Bystander(s, EndThread(s, t, env), id)
    decreases |Parked(s, t)|
  {
    hide TryAdmitted;
    if Parked(s, t) != [] {
      var m := s.parked[t][0];
      TryBystander(Unpark(s, t), m, env, id);
      var (s1, dropped) := TryAdmitted(Unpark(s, t), m, env);
      assert s1.parked[t] == s.parked[t][1..];
      if dropped {
        EndThreadBystander(s1, t, env, id);
      }
    }
  }

  lemma DispatchBystander(s: State, m: Msg, env: Env, id: nat)
    requires m.id != id && forall k | 0 <= k < |Parked(s, m.thread)| :: Parked(s, m.thread)[k].id != id
    ensures Bystander(s, DispatchTurn(s, m, env), id)
    ensures Bystander(s, DispatchAdmitted(s, m, env), id)
  {
    hide TryTurn, TryAdmitted;
    TryTurnBystander(s, m, env, id);
    TryBystander(s, m, env, id);
    var (s1, dropped1) := TryTurn(s, m, env);
    assert Parked(s1, m.thread) == Parked(s, m.thread);
    if dropped1 {
      EndThreadBystander(s1, m.thread, env, id);
    }
    var (s2, dropped2) := TryAdmitted(s, m, env);
    assert Parked(s2, m.thread) == Parked(s, m.thread);
    if dropped2 {
      EndThreadBystander(s2, m.thread, env, id);
    }
  }

  /** No list names a message that has a turn. */
  lemma TurnIsUnlisted(s: State, holes: set<string>, id: nat)
    requires Inv(s, holes) && id in s.turns
    ensures forall t, k | 0 <= k < |Parked(s, t)| :: Parked(s, t)[k].id != id
    ensures forall r, k | 0 <= k < |Waiting(s, r)| :: Waiting(s, r)[k].id != id
  {
    hide Backed, OneOccupant, Blamed, Ordered;
  }

  /** A finished turn's thread is not the one its freed slot goes to. */
  lemma HeadIsElsewhere(s: State, holes: set<string>, id: nat, r: string)
    requires Inv(s, holes) && id in s.turns && Waiting(s, r) != []
    ensures Waiting(s, r)[0].thread != s.turns[id].msg.thread
  {
    hide ParkedFiled, Backed, Blamed, Ordered;
  }

  lemma SlotFreedBystander(s: State, r: string, env: Env, x: nat)
    requires forall k | 0 <= k < |Waiting(s, r)| :: Waiting(s, r)[k].id != x
    requires forall t, k | 0 <= k < |Parked(s, t)| :: Parked(s, t)[k].id != x
    ensures Bystander(s, SlotFreed(s, r, env), x)
  {
    hide DispatchTurn;
    if Waiting(s, r) != [] {
      var next := Waiting(s, r)[0];
      assert Parked(FreeSlot(s, r), next.thread) == Parked(s, next.thread);
      DispatchBystander(FreeSlot(s, r), next, env, x);
    }
  }

  lemma SlotFreedElsewhere(s: State, r: string, env: Env, u: string)
    requires Waiting(s, r) != [] ==> Waiting(s, r)[0].thread != u
    requires forall t, k | 0 <= k < |Parked(s, t)| :: Parked(s, t)[k].thread == t
    ensures Untouched(s, SlotFreed(s, r, env), u)
  {
    hide DispatchTurn, SentTo;
    if Waiting(s, r) != [] {
      var next := Waiting(s, r)[0];
      assert Parked(FreeSlot(s, r), next.thread) == Parked(s, next.thread);
      DispatchElsewhere(FreeSlot(s, r), next, env, u);
    }
  }

  /** Ending a turn changes none of the lists. */
  lemma EndedLists(s: State, holes: set<string>, id: nat, o: Outcome)
    requires Inv(s, holes) && id in s.turns
    ensures forall t :: Parked(EndTurn(s, id, o), t) == Parked(s, t)
    ensures forall r :: Waiting(EndTurn(s, id, o), r) == Waiting(s, r)
    ensures forall t, k | 0 <= k < |Parked(s, t)| :: Parked(s, t)[k].thread == t
  {
    hide WaitingFiled, Backed, OneOccupant, Blamed, Ordered;
  }

  lemma UntouchedParked(s: State, s': State, u: string)
    requires Untouched(s, s', u)
    ensures Parked(s, u) == Parked(s', u)
  {
    hide SentTo;
  }

  /** The end of one turn leaves alone every message that is on no list. */
  lemma FinishUnlisted(s: State, holes: set<string>, id: nat, o: Outcome, env: Env, x: nat)
    requires Inv(s, holes) && id in s.turns
    requires forall t, k | 0 <= k < |Parked(s, t)| :: Parked(s, t)[k].id != x
    requires forall r, k | 0 <= k < |Waiting(s, r)| :: Waiting(s, r)[k].id != x
    ensures Bystander(EndTurn(s, id, o), Finish(s, id, o, env), x)
  {
    hide Inv, SlotFreed, EndTurn, Untouched;
    var m := s.turns[id].msg;
    var s0 := EndTurn(s, id, o);
    EndedLists(s, holes, id, o);
    SlotFreedBystander(s0, m.runner, env, x);
    var s1 := SlotFreed(s0, m.runner, env);
    assert Parked(s1, m.thread) == Parked(s, m.thread) by {
      if Waiting(s, m.runner) != [] {
        HeadIsElsewhere(s, holes, id, m.runner);
      }
      SlotFreedElsewhere(s0, m.runner, env, m.thread);
      UntouchedParked(s0, s1, m.thread);
    }
    EndThreadBystander(s1, m.thread, env, x);
  }

  lemma FinishBystander(s: State, holes: set<string>, id: nat, o: Outcome, env: Env, x: nat)
    requires Inv(s, holes) && id in s.turns && x in s.turns
    ensures Bystander(EndTurn(s, id, o), Finish(s, id, o, env), x)
  {
    hide Inv, Finish, Bystander;
    TurnIsUnlisted(s, holes, x);
    FinishUnlisted(s, holes, id, o, env, x);
  }

  // ------------------------------------------------------------------
  // The invariant over runs, and when exactly it breaks
  // ------------------------------------------------------------------

  lemma Initially()
    ensures Inv(INITIAL, {})
  {
  }

  lemma ApplyKeeps(s: State, holes: set<string>, ev: Event, env: Env)
    requires Inv(s, holes) && Faithful(s, ev)
    ensures Inv(Apply(s, ev, env), holes)
  {
    hide Inv, Arrive, Finish, Ship;
    match ev
    case Message(t, r, cap) => ArriveKeeps(s, holes, t, r, cap, env);
    case Report(id, failed) =>
      if id in s.turns {
        FinishKeeps(s, holes, id, if failed then RunnerFailed else Completed, env);
      }
    case Visit(id, _, _) =>
      if Visits(s, ev) {
        FinishKeeps(s, holes, id, Swept, env);
      }
    case Shipment(row, deleted) =>
      if deleted {
        ShipKeeps(s, holes, row);
      } else {
        assert Ship(s, row, false) == s by { RowMissing(s, row); }
      }
  }

  lemma RowMissing(s: State, row: nat)
    requires RowAt(s.rows, row) == |s.rows|
    ensures forall deleted :: Ship(s, row, deleted) == s
  {
  }

  /** A report for a turn that still waits in the offline queue leaves its row
      behind, and so does a row that is not deleted: both break the invariant. */
  lemma Exactly(s: State, holes: set<string>, ev: Event, env: Env)
    requires Inv(s, holes)
    ensures Inv(Apply(s, ev, env), holes) <==> Faithful(s, ev)
  {
    if Faithful(s, ev) {
      ApplyKeeps(s, holes, ev, env);
    } else if ev.Report? {
      hide Finish, Inv;
      OrphanedRow(s, holes, ev.turn, if ev.failed then RunnerFailed else Completed, env);
    } else {
      hide Inv;
      KeptRow(s, holes, ev.row);
    }
  }

  lemma OrphanedRow(s: State, holes: set<string>, id: nat, o: Outcome, env: Env)
    requires Inv(s, holes) && id in s.turns && s.turns[id].queued
    ensures !Inv(Finish(s, id, o, env), holes)
  {
    FinishBystander(s, holes, id, o, env, id);
    hide Finish, ParkedFiled, WaitingFiled, TurnsFiled, OneOccupant, Blamed, Ordered;
    var i :| 0 <= i < |s.rows| && s.rows[i].msg.id == id;
    assert Finish(s, id, o, env).rows[i] == s.rows[i];
  }

  lemma KeptRow(s: State, holes: set<string>, row: nat)
    requires RowAt(s.rows, row) < |s.rows|
    ensures !Inv(Ship(s, row, false), holes)
  {
    hide ParkedFiled, WaitingFiled, TurnsFiled, OneOccupant, Blamed, Ordered;
    var i := RowAt(s.rows, row);
    assert Ship(s, row, false).rows[i] == s.rows[i];
  }

  lemma {:induction false} RunKeeps(s: State, evs: seq<Event>, env: Env)
    requires Inv(s, {}) && FaithfulRun(s, evs, env)
    ensures Inv(Run(s, evs, env), {})
    decreases |evs|
  {
    hide Inv, Apply;
    if evs != [] {
      RunKeeps(s, evs[..|evs| - 1], env);
      ApplyKeeps(Run(s, evs[..|evs| - 1], env), {}, evs[|evs| - 1], env);
    }
  }

  // ------------------------------------------------------------------
  // What the invariant says about the gateway's own collections
  // ------------------------------------------------------------------

  function Count(b: bool): nat { if b then 1 else 0 }

  /** A message that its gateway accepted is in exactly one place. */
  lemma Conserved(s: State, m: Msg)
    requires Inv(s, {}) && Known(s.arrivals, m)
    ensures Count(m in Parked(s, m.thread)) + Count(m in Waiting(s, m.runner))
            + Count(m.id in s.turns && !s.turns[m.id].queued) + Count(m.id in s.turns && s.turns[m.id].queued)
            + Count(s.place[m.id].Gone?) == 1
    ensures m.id in s.turns && s.turns[m.id].queued <==>
            exists i :: 0 <= i < |s.rows| && s.rows[i].msg == m
    ensures forall i, j | 0 <= i < |s.rows| && 0 <= j < |s.rows| && s.rows[i].msg == s.rows[j].msg :: i == j
  {
    assert !s.place[m.id].InHand? by { hide ParkedFiled, WaitingFiled, TurnsFiled, Backed, Blamed, Ordered; }
    assert m in Parked(s, m.thread) <==> s.place[m.id].Parking? by {
      hide WaitingFiled, TurnsFiled, Backed, OneOccupant, Blamed, Ordered;
    }
    assert m in Waiting(s, m.runner) <==> s.place[m.id].Waitlisted? by {
      hide ParkedFiled, TurnsFiled, Backed, OneOccupant, Blamed, Ordered;
    }
    hide ParkedFiled, WaitingFiled, OneOccupant, Blamed, Ordered;
  }

  predicate Occupies(s: State, m: Msg) {
    m in Waiting(s, m.runner) || (m.id in s.turns && s.turns[m.id].msg == m)
  }

  lemma OccupantOf(s: State, m: Msg)
    requires Inv(s, {})
    ensures Occupies(s, m) <==> m.thread in s.occupant && s.arrivals[s.occupant[m.thread]] == m
  {
    hide ParkedFiled, Backed, Blamed, Ordered;
    if m.thread in s.occupant && s.arrivals[s.occupant[m.thread]] == m {
      assert Busy(s.place[m.id]);
    }
  }

  /** Between handlers a thread is occupied at most once; it is active exactly
      when it is occupied or leaked, messages are parked only behind an active
      thread, and a thread is leaked exactly when one of its messages was refused
      by a full waiting list or could not be started. */
  lemma OneTurnPerThread(s: State, t: string)
    requires Inv(s, {})
    ensures forall m, n | Occupies(s, m) && Occupies(s, n) && m.thread == n.thread :: m == n
    ensures t in s.active <==> t in s.leaked || exists m :: Occupies(s, m) && m.thread == t
    ensures t in s.leaked ==> !exists m :: Occupies(s, m) && m.thread == t
    ensures Parked(s, t) != [] ==> t in s.active
    ensures t in s.leaked <==> exists i :: 0 <= i < |s.place| && s.arrivals[i].thread == t && Wasted(s.place[i])
  {
    forall m
      ensures Occupies(s, m) <==> m.thread in s.occupant && s.arrivals[s.occupant[m.thread]] == m
    {
      OccupantOf(s, m);
    }
    assert t in s.occupant ==> s.arrivals[s.occupant[t]].thread == t && Occupies(s, s.arrivals[s.occupant[t]]);
    if Parked(s, t) != [] {
      ParkedHead(s, {}, t);
    }
    hide ParkedFiled, WaitingFiled, TurnsFiled, Backed, Ordered, Occupies;
  }

  /** Whatever cascade a handler set off, each thread is settled when it returns: it
      is occupied, or free with nothing parked, or was leaked. */
  lemma ThreadIsSettled(s: State, t: string)
    requires Inv(s, {})
    ensures (exists m :: Occupies(s, m) && m.thread == t) || (t !in s.active && Parked(s, t) == []) || t in s.leaked
  {
    OneTurnPerThread(s, t);
    hide Inv, Occupies;
  }

  /** The frames sent for a thread are accepted messages in order of arrival, none
      of them twice, and none overtakes a message that still waits anywhere. */
  lemma SentInOrder(s: State, j: nat, k: nat)
    requires Inv(s, {}) && j < k < |s.sent| && s.sent[j].thread == s.sent[k].thread
    ensures Known(s.arrivals, s.sent[j]) && Known(s.arrivals, s.sent[k]) && s.sent[j].id < s.sent[k].id
    ensures forall m | Known(s.arrivals, m) && m.thread == s.sent[k].thread && m.id < s.sent[k].id ::
              s.place[m.id].Running? || s.place[m.id].Gone?
  {
    hide ParkedFiled, WaitingFiled, TurnsFiled, Backed, OneOccupant, Blamed;
  }

  // ------------------------------------------------------------------
  // Queued turns are left for the queue
  // ------------------------------------------------------------------

  lemma ArriveUnlisted(s: State, t: string, r: string, cap: int, env: Env, x: nat)
    requires x < |s.arrivals| == |s.place| && forall k | 0 <= k < |Parked(s, t)| :: Parked(s, t)[k].id != x
    ensures Bystander(s, Arrive(s, t, r, cap, env), x)
  {
    hide DispatchAdmitted;
    var m := Msg(|s.arrivals|, t, r, cap);
    if t !in s.active {
      assert Parked(Claim(s, m), t) == Parked(s, t);
      DispatchBystander(Claim(s, m), m, env, x);
    }
  }

  lemma ArriveBystander(s: State, holes: set<string>, t: string, r: string, cap: int, env: Env, x: nat)
    requires Inv(s, holes) && x in s.turns
    ensures Bystander(s, Arrive(s, t, r, cap, env), x)
  {
    hide Inv, Arrive, Bystander;
    PlacesMatch(s, holes);
    LiveTurn(s, holes, x);
    TurnIsUnlisted(s, holes, x);
    ArriveUnlisted(s, t, r, cap, env, x);
  }

  lemma PlacesMatch(s: State, holes: set<string>)
    requires Inv(s, holes)
    ensures |s.place| == |s.arrivals|
  {
  }

  /** Nothing but the shipment of its own row moves a queued turn: no sweep, no
      reconcile and no other turn's end finalizes it. */
  lemma QueuedStays(s: State, ev: Event, env: Env, x: nat)
    requires Inv(s, {}) && Faithful(s, ev) && x in s.turns && s.turns[x].queued
    requires ev.Shipment? ==> RowAt(s.rows, ev.row) < |s.rows| ==> s.rows[RowAt(s.rows, ev.row)].msg.id != x
    ensures x in Apply(s, ev, env).turns && Apply(s, ev, env).turns[x] == s.turns[x]
  {
    hide Finish, Arrive, Inv;
    match ev
    case Message(t, r, cap) => ArriveBystander(s, {}, t, r, cap, env, x);
    case Report(id, failed) =>
      if id in s.turns {
        FinishBystander(s, {}, id, if failed then RunnerFailed else Completed, env, x);
      }
    case Visit(id, _, _) =>
      if Visits(s, ev) {
        FinishBystander(s, {}, id, Swept, env, x);
      }
    case Shipment(_, _) =>
  }

  // ------------------------------------------------------------------
  // A leaked thread stays leaked
  // ------------------------------------------------------------------

  lemma LiveIsNotLeaked(s: State, id: nat, t: string)
    requires Inv(s, {}) && t in s.leaked
    ensures id in s.turns ==> s.turns[id].msg.thread != t
    ensures forall r | Waiting(s, r) != [] :: Waiting(s, r)[0].thread != t
    ensures forall u, k | 0 <= k < |Parked(s, u)| :: Parked(s, u)[k].thread == u
    ensures t in s.active
  {
    hide Backed, Blamed, Ordered;
  }

  lemma FinishElsewhere(s: State, id: nat, o: Outcome, env: Env, t: string)
    requires Inv(s, {}) && t in s.leaked && id in s.turns
    ensures Untouched(s, Finish(s, id, o, env), t)
  {
    hide Inv, SlotFreed, SentTo;
    LiveIsNotLeaked(s, id, t);
    EndedLists(s, {}, id, o);
    var m := s.turns[id].msg;
    var s0 := EndTurn(s, id, o);
    SlotFreedElsewhere(s0, m.runner, env, t);
    var s1 := SlotFreed(s0, m.runner, env);
    if Waiting(s, m.runner) != [] {
      HeadIsElsewhere(s, {}, id, m.runner);
    }
    SlotFreedElsewhere(s0, m.runner, env, m.thread);
    assert Parked(s1, m.thread) == Parked(s, m.thread);
    EndThreadElsewhere(s1, m.thread, env, t);
  }

  lemma ArriveElsewhere(s: State, u: string, r: string, cap: int, env: Env, t: string)
    requires Inv(s, {}) && t in s.leaked && u != t
    ensures Untouched(s, Arrive(s, u, r, cap, env), t)
  {
    hide Inv, DispatchAdmitted, SentTo;
    LiveIsNotLeaked(s, 0, t);
    var m := Msg(|s.arrivals|, u, r, cap);
    if u !in s.active {
      assert Parked(Claim(s, m), u) == Parked(s, u);
      DispatchElsewhere(Claim(s, m), m, env, t);
    }
  }

  /** Once a message of a thread was refused or could not be started, nothing is
      ever sent for that thread again: later messages only pile up behind it. */
  lemma {:induction false} LeakIsForever(s: State, evs: seq<Event>, env: Env, t: string)
    requires Inv(s, {}) && FaithfulRun(s, evs, env) && t in s.leaked
    ensures var s' := Run(s, evs, env);
            && t in s'.leaked
            && SentTo(s'.sent, t) == SentTo(s.sent, t)
            && Parked(s, t) <= Parked(s', t)
    decreases |evs|
  {
    hide Inv, Finish, Arrive, SentTo;
    if evs != [] {
      var before := Run(s, evs[..|evs| - 1], env);
      LeakIsForever(s, evs[..|evs| - 1], env, t);
      RunKeeps(s, evs[..|evs| - 1], env);
      LeakStep(before, evs[|evs| - 1], env, t);
    }
  }

  lemma LeakStep(s: State, ev: Event, env: Env, t: string)
    requires Inv(s, {}) && Faithful(s, ev) && t in s.leaked
    ensures t in Apply(s, ev, env).leaked
    ensures SentTo(Apply(s, ev, env).sent, t) == SentTo(s.sent, t)
    ensures Parked(s, t) <= Parked(Apply(s, ev, env), t)
  {
    hide Inv, Finish, Arrive, SentTo;
    match ev
    case Message(u, r, cap) =>
      if u == t {
        LeakPark(s, t, r, cap, env);
      } else {
        ArriveElsewhere(s, u, r, cap, env, t);
      }
    case Report(id, failed) =>
      if id in s.turns {
        FinishElsewhere(s, id, if failed then RunnerFailed else Completed, env, t);
      }
    case Visit(id, _, _) =>
      if Visits(s, ev) {
        FinishElsewhere(s, id, Swept, env, t);
      }
    case Shipment(row, _) =>
      var i := RowAt(s.rows, row);
      if i < |s.rows| {
        ShipTurn(s, {}, i);
        LiveIsNotLeaked(s, s.rows[i].msg.id, t);
        SentToAppend(s.sent, s.rows[i].msg, t);
      }
  }

  lemma LeakPark(s: State, t: string, r: string, cap: int, env: Env)
    requires Inv(s, {}) && t in s.leaked
    ensures Arrive(s, t, r, cap, env) == Park(s, Msg(|s.arrivals|, t, r, cap))
  {
    hide Inv;
    LiveIsNotLeaked(s, 0, t);
  }

  // ------------------------------------------------------------------
  // What has ended stays ended
  // ------------------------------------------------------------------

  lemma GoneIsUnlisted(s: State, x: nat)
    requires Inv(s, {}) && x < |s.place| && s.place[x].Gone?
    ensures x !in s.turns && x < |s.arrivals|
    ensures forall t, k | 0 <= k < |Parked(s, t)| :: Parked(s, t)[k].id != x
    ensures forall r, k | 0 <= k < |Waiting(s, r)| :: Waiting(s, r)[k].id != x
  {
    hide Backed, OneOccupant, Blamed, Ordered;
  }

  /** No later event changes the end a message came to. */
  lemma EndIsFinal(s: State, ev: Event, env: Env, x: nat)
    requires Inv(s, {}) && Faithful(s, ev) && x < |s.place| && s.place[x].Gone?
    ensures var s' := Apply(s, ev, env); x < |s'.place| && s'.place[x] == s.place[x] && x !in s'.turns
  {
    hide Finish, Arrive, Inv, EndTurn;
    GoneIsUnlisted(s, x);
    match ev
    case Message(t, r, cap) =>
      PlacesMatch(s, {});
      ArriveUnlisted(s, t, r, cap, env, x);
    case Report(id, failed) =>
      if id in s.turns {
        var o := if failed then RunnerFailed else Completed;
        FinishUnlisted(s, {}, id, o, env, x);
        EndedElse(s, id, o, x);
      }
    case Visit(id, _, _) =>
      if Visits(s, ev) {
        FinishUnlisted(s, {}, id, Swept, env, x);
        EndedElse(s, id, Swept, x);
      }
    case Shipment(row, _) =>
      var i := RowAt(s.rows, row);
      if i < |s.rows| {
        ShipTurn(s, {}, i);
      }
  }

  lemma EndedElse(s: State, id: nat, o: Outcome, x: nat)
    requires id in s.turns && x != id
    ensures |EndTurn(s, id, o).place| == |s.place|
    ensures x < |s.place| ==> EndTurn(s, id, o).place[x] == s.place[x]
    ensures x in EndTurn(s, id, o).turns <==> x in s.turns
  {
  }
}
