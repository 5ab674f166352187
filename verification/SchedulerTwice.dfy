/**
 A turn that is ended twice. A Done handler looks its turn up first and removes it last;
 a sweep, a reconcile or an Error frame in between ends the same turn, and the handler
 goes on to free slot and thread a second time.
 */
module SchedulerTwice {
  import opened Scheduler
  import opened SchedulerInvariant
  import opened SchedulerTheorems
  import opened SchedulerAttempts
  import opened SchedulerSends
  import opened SchedulerOverlap

  /** What is left to do for a turn that is over already. */
  function EndAgain(s: State, m: Msg, env: Env): State {
    EndThread(SlotFreed(s, m.runner, env), m.thread, env)
  }

  /** Ending a thread that nobody is settling does no harm if it is idle, or if it was
      leaked and leaks again. */
  ghost predicate Harmless(s: State, t: string, env: Env) {
    t !in s.active || (t in s.leaked && LeaksIn(EndThreadAttempts(s, t, env), env, t))
  }

  // ------------------------------------------------------------------
  // An idle thread
  // ------------------------------------------------------------------

  lemma IdleKeeps(s: State, t: string, env: Env)
    requires Inv(s, {}) && t !in s.active
    ensures Inv(EndThread(s, t, env), {})
  {
    OneTurnPerThread(s, t);
    hide ParkedFiled, WaitingFiled, TurnsFiled, Backed, OneOccupant, Blamed, Ordered, Occupies;
    assert Parked(s, t) == [];
    ReleaseParked(s, t);
    assert s.active - {t} == s.active;
    OccupantFrame(s, Release(s, t), {});
  }

  // ------------------------------------------------------------------
  // How the cascade of an ended thread comes out
  // ------------------------------------------------------------------

  ghost predicate ParkedOf(s: State, t: string) {
    forall k | 0 <= k < |Parked(s, t)| :: Parked(s, t)[k].thread == t
  }

  /** The thread is occupied by one of those that were parked, or free, or leaked. */
  ghost predicate CameOut(s: State, t: string, e: State, leaks: bool) {
    && (t in e.occupant ==> exists k :: 0 <= k < |Parked(s, t)| && Parked(s, t)[k].id == e.occupant[t])
    && (leaks ==> t !in e.occupant && t in e.active)
    && (!leaks ==> t in e.occupant || t !in e.active)
  }

  lemma TryTurnSeats(s: State, m: Msg, env: Env)
    requires m.thread in s.occupant && s.occupant[m.thread] == m.id
    ensures var (s1, dropped) := TryTurn(s, m, env);
            && s1.active == s.active
            && (dropped ==> m.thread !in s1.occupant && env(s.calls, m.runner).started)
            && (!dropped ==> (m.thread in s1.occupant <==> env(s.calls, m.runner).started))
            && (m.thread in s1.occupant ==> s1.occupant[m.thread] == m.id)
  {
    hide Queueable, Placed;
  }

  /** One attempt seats the message, drops it, or leaks its thread. */
  lemma TrySeats(a: Attempt, env: Env)
    requires !a.slot && a.m.thread in a.state.occupant && a.state.occupant[a.m.thread] == a.m.id
    ensures var (s1, dropped) := TryAdmitted(a.state, a.m, env);
            && s1.active == a.state.active
            && (dropped ==> a.m.thread !in s1.occupant && !Leaks(a, env))
            && (!dropped ==> (a.m.thread in s1.occupant <==> !Leaks(a, env)))
            && (a.m.thread in s1.occupant ==> s1.occupant[a.m.thread] == a.m.id)
  {
    hide TryTurn, Placed;
    TryTurnSeats(a.state, a.m, env);
    TryTurnSeats(TakeSlot(a.state, a.m), a.m, env);
  }

  lemma {:induction false} EndThreadComesOut(s: State, t: string, env: Env)
    requires ParkedOf(s, t) && t in s.active && (Parked(s, t) == [] ==> t !in s.occupant)
    ensures CameOut(s, t, EndThread(s, t, env), LeaksIn(EndThreadAttempts(s, t, env), env, t))
    decreases |Parked(s, t)|
  {
    hide TryAdmitted, Leaks, LeaksIn;
    if Parked(s, t) == [] {
      NoAttempts(env, t);
    } else {
      var m := s.parked[t][0];
      var a := Attempt(Unpark(s, t), m, false);
      assert m == Parked(s, t)[0] && m.thread == t;
      TrySeats(a, env);
      LeaksOne(a, env, t);
      var (s1, dropped) := TryAdmitted(Unpark(s, t), m, env);
      assert s1.parked[t] == s.parked[t][1..];
      if dropped {
        EndThreadComesOut(s1, t, env);
        LeaksJoin([a], EndThreadAttempts(s1, t, env), env, t);
        LaterParked(s, s1, t, EndThread(s1, t, env), LeaksIn(EndThreadAttempts(s1, t, env), env, t));
      } else {
        assert [a] + [] == [a];
      }
    }
  }

  lemma LaterParked(s: State, s1: State, t: string, e: State, leaks: bool)
    requires Parked(s, t) != [] && Parked(s1, t) == Parked(s, t)[1..] && CameOut(s1, t, e, leaks)
    ensures CameOut(s, t, e, leaks)
  {
    if t in e.occupant {
      var k :| 0 <= k < |Parked(s1, t)| && Parked(s1, t)[k].id == e.occupant[t];
      assert Parked(s, t)[k + 1].id == e.occupant[t];
    }
  }

  // ------------------------------------------------------------------
  // A thread that is taken
  // ------------------------------------------------------------------

  lemma ReleasedBreaks(s: State, t: string)
    requires Inv(s, {}) && t in s.active
    ensures !Inv(Release(s, t), {})
  {
    hide ParkedFiled, WaitingFiled, TurnsFiled, Backed, Blamed, Ordered;
  }

  lemma OccupiedBreaks(s: State, t: string, env: Env)
    requires Inv(s, {}) && t in s.occupant && Parked(s, t) != []
    ensures !Inv(EndThread(s, t, env), {})
  {
    var y := s.occupant[t];
    var e := EndThread(s, t, env);
    OccupantIsUnparked(s, t);
    EndThreadBystander(s, t, env, y);
    EndThreadArrivals(s, t, env);
    EndThreadComesOut(s, t, env);
    StillBusy(s, t, e);
    hide EndThread, EndThreadAttempts, LeaksIn, Inv;
  }

  lemma OccupantIsUnparked(s: State, t: string)
    requires Inv(s, {}) && t in s.occupant
    ensures ParkedOf(s, t) && t in s.active
    ensures forall k | 0 <= k < |Parked(s, t)| :: Parked(s, t)[k].id != s.occupant[t]
  {
    hide WaitingFiled, TurnsFiled, Backed, Blamed, Ordered;
  }

  lemma StillBusy(s: State, t: string, e: State)
    requires Inv(s, {}) && t in s.occupant && Bystander(s, e, s.occupant[t]) && e.arrivals == s.arrivals
    ensures Inv(e, {}) ==> t in e.occupant && e.occupant[t] == s.occupant[t]
  {
    hide ParkedFiled, WaitingFiled, TurnsFiled, Backed, Blamed, Ordered;
  }

  lemma LeakedBreaks(s: State, t: string, env: Env)
    requires Inv(s, {}) && t in s.leaked && Parked(s, t) != [] && !LeaksIn(EndThreadAttempts(s, t, env), env, t)
    ensures !Inv(EndThread(s, t, env), {})
  {
    LiveIsNotLeaked(s, 0, t);
    EndThreadComesOut(s, t, env);
    EndThreadLeaks(s, t, env, t);
    hide EndThread, EndThreadAttempts, LeaksIn, ParkedFiled, WaitingFiled, TurnsFiled, Backed, Blamed, Ordered;
  }

  // ------------------------------------------------------------------
  // A leaked thread that leaks again: history plays no part in what is done
  // ------------------------------------------------------------------

  /** The thread's losses written off as abandoned. */
  function Forgiven(s: State, t: string): State {
    s.(place := seq(|s.place|, i requires 0 <= i < |s.place| =>
          if Wasted(s.place[i]) && i < |s.arrivals| && s.arrivals[i].thread == t then Gone(Abandoned) else s.place[i]),
       leaked := s.leaked - {t})
  }

  ghost predicate AlikePlaces(p: seq<Place>, q: seq<Place>, arrivals: seq<Msg>, t: string) {
    && |p| == |q|
    && forall i | 0 <= i < |p| && p[i] != q[i] ::
         q[i] == Gone(Abandoned) && Wasted(p[i]) && i < |arrivals| && arrivals[i].thread == t
  }

  predicate AlikeLeaks(l: map<string, nat>, k: map<string, nat>, t: string) {
    l - {t} == k - {t} && (t in k ==> l == k)
  }

  /** Two states that differ in nothing but the thread's losses. */
  ghost predicate Alike(a: State, b: State, t: string) {
    && a == b.(place := a.place, leaked := a.leaked)
    && AlikePlaces(a.place, b.place, a.arrivals, t)
    && AlikeLeaks(a.leaked, b.leaked, t)
  }

  lemma ForgivenAlike(s: State, t: string)
    ensures Alike(s, Forgiven(s, t), t)
  {
    assert s.leaked - {t} == (s.leaked - {t}) - {t};
  }

  lemma PlacedAlike(p: seq<Place>, q: seq<Place>, arrivals: seq<Msg>, t: string, id: nat, x: Place)
    requires AlikePlaces(p, q, arrivals, t)
    ensures AlikePlaces(Placed(p, id, x), Placed(q, id, x), arrivals, t)
  {
  }

  lemma LeakAlike(l: map<string, nat>, k: map<string, nat>, t: string, id: nat)
    requires AlikeLeaks(l, k, t)
    ensures AlikeLeaks(l[t := id], k[t := id], t)
  {
    assert l[t := id] == (l - {t})[t := id] && k[t := id] == (k - {t})[t := id];
    assert l[t := id] - {t} == l - {t} && k[t := id] - {t} == k - {t};
  }

  lemma OpensAlike(a: State, b: State, m: Msg, t: string)
    requires Alike(a, b, t)
    ensures Alike(Send(a, m), Send(b, m), t) && Alike(Hold(a, m), Hold(b, m), t) && Alike(Drop(a, m), Drop(b, m), t)
  {
    PlacedAlike(a.place, b.place, a.arrivals, t, m.id, Running);
    PlacedAlike(a.place, b.place, a.arrivals, t, m.id, Stored);
    PlacedAlike(a.place, b.place, a.arrivals, t, m.id, Gone(Abandoned));
    hide Placed, AlikePlaces, AlikeLeaks;
  }

  lemma LeaksAlike(a: State, b: State, m: Msg, t: string)
    requires Alike(a, b, t) && m.thread == t
    ensures Alike(FailStart(a, m), FailStart(b, m), t)
    ensures Alike(Refuse(a, m), Refuse(b, m), t)
  {
    PlacedAlike(a.place, b.place, a.arrivals, t, m.id, Gone(NotStarted));
    PlacedAlike(a.place, b.place, a.arrivals, t, m.id, Gone(Refused));
    LeakAlike(a.leaked, b.leaked, t, m.id);
    hide Placed, AlikePlaces, AlikeLeaks;
  }

  lemma GatesAlike(a: State, b: State, m: Msg, t: string)
    requires Alike(a, b, t)
    ensures Alike(TakeSlot(a, m), TakeSlot(b, m), t) && Alike(Wait(a, m), Wait(b, m), t)
  {
    PlacedAlike(a.place, b.place, a.arrivals, t, m.id, Waitlisted);
    hide Placed, AlikePlaces, AlikeLeaks;
  }

  lemma AskAlike(a: State, b: State, t: string, n: nat)
    requires Alike(a, b, t)
    ensures Alike(a.(calls := n), b.(calls := n), t)
  {
    hide AlikePlaces, AlikeLeaks;
  }

  lemma ThreadAlike(a: State, b: State, t: string)
    requires Alike(a, b, t)
    ensures Alike(Release(a, t), Release(b, t), t) && Parked(a, t) == Parked(b, t)
    ensures Parked(a, t) != [] ==> Alike(Unpark(a, t), Unpark(b, t), t)
  {
    if Parked(a, t) != [] {
      PlacedAlike(a.place, b.place, a.arrivals, t, a.parked[t][0].id, InHand);
    }
    hide Placed, AlikePlaces, AlikeLeaks;
  }

  lemma SameAnswers(a: State, b: State, r: string, t: string)
    requires Alike(a, b, t)
    ensures a.calls == b.calls && Queue(a, r) == Queue(b, r) && a.rows == b.rows
    ensures forall x :: Queueable(a, r, x) == Queueable(b, r, x)
  {
    hide AlikePlaces, AlikeLeaks, RowsOf;
  }

  lemma TryTurnAlike(a: State, b: State, m: Msg, t: string, env: Env)
    requires Alike(a, b, t) && m.thread == t
    ensures Alike(TryTurn(a, m, env).0, TryTurn(b, m, env).0, t) && TryTurn(a, m, env).1 == TryTurn(b, m, env).1
  {
    hide Queueable, Send, Hold, Drop, FailStart, Alike;
    var a1, b1 := a.(calls := a.calls + 1), b.(calls := b.calls + 1);
    SameAnswers(a, b, m.runner, t);
    AskAlike(a, b, t, a.calls + 1);
    SameAnswers(a1, b1, m.runner, t);
    OpensAlike(a1, b1, m, t);
    LeaksAlike(a1, b1, m, t);
  }

  lemma TryAlike(a: State, b: State, m: Msg, t: string, env: Env)
    requires Alike(a, b, t) && m.thread == t
    ensures Alike(TryAdmitted(a, m, env).0, TryAdmitted(b, m, env).0, t) && TryAdmitted(a, m, env).1 == TryAdmitted(b, m, env).1
  {
    hide TryTurn, TakeSlot, Wait, Refuse, Alike, Queue;
    SameAnswers(a, b, m.runner, t);
    GatesAlike(a, b, m, t);
    LeaksAlike(a, b, m, t);
    TryTurnAlike(a, b, m, t, env);
    TryTurnAlike(TakeSlot(a, m), TakeSlot(b, m), m, t, env);
    AskAlike(Refuse(a, m), Refuse(b, m), t, a.calls + 1);
    AskAlike(Wait(a, m), Wait(b, m), t, a.calls + 1);
  }

  lemma {:induction false} EndThreadAlike(a: State, b: State, t: string, env: Env)
    requires Alike(a, b, t) && ParkedOf(a, t)
    ensures Alike(EndThread(a, t, env), EndThread(b, t, env), t)
    decreases |Parked(a, t)|
  {
    ThreadAlike(a, b, t);
    hide TryAdmitted, Alike, Release;
    if Parked(a, t) != [] {
      var m := a.parked[t][0];
      assert m == Parked(a, t)[0] && b.parked[t][0] == m;
      TryAlike(Unpark(a, t), Unpark(b, t), m, t, env);
      var (a1, dropped) := TryAdmitted(Unpark(a, t), m, env);
      assert a1.parked[t] == a.parked[t][1..];
      if dropped {
        EndThreadAlike(a1, TryAdmitted(Unpark(b, t), m, env).0, t, env);
      }
    }
  }

  lemma AlikeParked(p: seq<Place>, q: seq<Place>, arrivals: seq<Msg>, t: string, parked: map<string, seq<Msg>>)
    requires AlikePlaces(p, q, arrivals, t) && |p| == |arrivals|
    ensures ParkedFiled(p, arrivals, parked) <==> ParkedFiled(q, arrivals, parked)
  {
    SameKinds(p, q, arrivals, t);
    hide AlikePlaces;
  }

  lemma AlikeWaiting(p: seq<Place>, q: seq<Place>, arrivals: seq<Msg>, t: string, queues: map<string, RunnerQueue>)
    requires AlikePlaces(p, q, arrivals, t) && |p| == |arrivals|
    ensures WaitingFiled(p, arrivals, queues) <==> WaitingFiled(q, arrivals, queues)
  {
    SameKinds(p, q, arrivals, t);
    hide AlikePlaces;
  }

  lemma AlikeTurns(p: seq<Place>, q: seq<Place>, arrivals: seq<Msg>, t: string, turns: map<nat, Turn>)
    requires AlikePlaces(p, q, arrivals, t) && |p| == |arrivals|
    ensures TurnsFiled(p, arrivals, turns) <==> TurnsFiled(q, arrivals, turns)
  {
    SameKinds(p, q, arrivals, t);
    hide AlikePlaces;
  }

  lemma AlikeOrder(p: seq<Place>, q: seq<Place>, arrivals: seq<Msg>, t: string, sent: seq<Msg>)
    requires AlikePlaces(p, q, arrivals, t) && |p| == |arrivals|
    ensures Ordered(p, arrivals, sent) <==> Ordered(q, arrivals, sent)
  {
    SameKinds(p, q, arrivals, t);
    hide AlikePlaces;
  }

  lemma SameKinds(p: seq<Place>, q: seq<Place>, arrivals: seq<Msg>, t: string)
    requires AlikePlaces(p, q, arrivals, t)
    ensures |p| == |q| && forall i | 0 <= i < |p| :: p[i] == q[i] || (p[i].Gone? && q[i].Gone?)
  {
  }

  /** Only the record of blame tells the two apart. */
  lemma AlikeFiled(a: State, b: State, t: string)
    requires Alike(a, b, t) && |a.place| == |a.arrivals|
    ensures |b.place| == |b.arrivals|
    ensures ParkedFiled(a.place, a.arrivals, a.parked) <==> ParkedFiled(b.place, b.arrivals, b.parked)
    ensures WaitingFiled(a.place, a.arrivals, a.queues) <==> WaitingFiled(b.place, b.arrivals, b.queues)
    ensures TurnsFiled(a.place, a.arrivals, a.turns) <==> TurnsFiled(b.place, b.arrivals, b.turns)
    ensures Ordered(a.place, a.arrivals, a.sent) <==> Ordered(b.place, b.arrivals, b.sent)
  {
    hide ParkedFiled, WaitingFiled, TurnsFiled, Ordered, AlikeLeaks;
    AlikeParked(a.place, b.place, a.arrivals, t, a.parked);
    AlikeWaiting(a.place, b.place, a.arrivals, t, a.queues);
    AlikeTurns(a.place, b.place, a.arrivals, t, a.turns);
    AlikeOrder(a.place, b.place, a.arrivals, t, a.sent);
  }

  lemma ForgivenKeeps(s: State, t: string)
    requires Inv(s, {}) && t in s.leaked
    ensures Inv(Forgiven(s, t), {t}) && t !in s.occupant
  {
    var f := Forgiven(s, t);
    ForgivenAlike(s, t);
    AlikeFiled(s, f, t);
    ForgivenSeats(s, t);
    ForgivenBlame(s, t);
    hide Forgiven, ParkedFiled, WaitingFiled, TurnsFiled, Backed, OneOccupant, Blamed, Ordered;
  }

  lemma ForgivenSeats(s: State, t: string)
    requires Inv(s, {}) && t in s.leaked
    ensures |Forgiven(s, t).place| == |s.arrivals| && OneOccupant(Forgiven(s, t), {t}) && t !in s.occupant
  {
    hide ParkedFiled, WaitingFiled, TurnsFiled, Backed, Blamed, Ordered;
    assert (s.leaked - {t}).Keys == s.leaked.Keys - {t};
  }

  lemma ForgivenBlame(s: State, t: string)
    requires Inv(s, {})
    ensures var f := Forgiven(s, t); |f.place| == |f.arrivals| && Blamed(f.place, f.arrivals, f.leaked)
  {
    hide ParkedFiled, WaitingFiled, TurnsFiled, Backed, OneOccupant, Ordered;
  }

  lemma BlamedAgain(a: State, b: State, t: string)
    requires Alike(a, b, t) && Inv(b, {}) && t in b.leaked
    ensures Inv(a, {})
  {
    AlikeFiled(a, b, t);
    BlamedSeats(a, b, t);
    hide ParkedFiled, WaitingFiled, TurnsFiled, Backed, OneOccupant, Blamed, Ordered;
  }

  lemma BlamedSeats(a: State, b: State, t: string)
    requires Alike(a, b, t) && Inv(b, {}) && t in b.leaked
    ensures |a.place| == |a.arrivals| && OneOccupant(a, {}) && Blamed(a.place, a.arrivals, a.leaked)
  {
    hide ParkedFiled, WaitingFiled, TurnsFiled, Backed, Ordered;
  }

  lemma LeakedAgainKeeps(s: State, t: string, env: Env)
    requires Inv(s, {}) && t in s.leaked && LeaksIn(EndThreadAttempts(s, t, env), env, t)
    ensures Inv(EndThread(s, t, env), {})
  {
    var f := Forgiven(s, t);
    hide Inv, Forgiven, EndThread, EndThreadAttempts, Alike, LeaksIn;
    LiveIsNotLeaked(s, 0, t);
    ForgivenKeeps(s, t);
    ForgivenAlike(s, t);
    AlikeActs(s, f, t);
    EndThreadKeeps(f, {t}, t, env);
    assert {t} - {t} == {};
    EndThreadAlike(s, f, t, env);
    EndThreadComesOut(s, t, env);
    AlikeActs(EndThread(s, t, env), EndThread(f, t, env), t);
    ActiveIsLeaked(EndThread(f, t, env), t);
    BlamedAgain(EndThread(s, t, env), EndThread(f, t, env), t);
  }

  lemma AlikeActs(a: State, b: State, t: string)
    requires Alike(a, b, t)
    ensures a.active == b.active && a.occupant == b.occupant
  {
  }

  lemma ActiveIsLeaked(s: State, t: string)
    requires Inv(s, {}) && t in s.active && t !in s.occupant
    ensures t in s.leaked
  {
    hide ParkedFiled, WaitingFiled, TurnsFiled, Backed, Blamed, Ordered;
  }

  // ------------------------------------------------------------------
  // Exactly
  // ------------------------------------------------------------------

  /** Ending a thread that nobody is settling keeps the invariant exactly if that is
      harmless. */
  lemma EndThreadExactly(s: State, t: string, env: Env)
    requires Inv(s, {})
    ensures Inv(EndThread(s, t, env), {}) <==> Harmless(s, t, env)
  {
    hide Inv, EndThread, EndThreadAttempts, LeaksIn;
    if t !in s.active {
      IdleKeeps(s, t, env);
    } else if Parked(s, t) == [] {
      ReleasedBreaks(s, t);
      NothingTried(s, t, env);
    } else if t in s.occupant {
      OccupiedBreaks(s, t, env);
      OccupiedIsNotLeaked(s, t);
    } else {
      ActiveIsLeaked(s, t);
      if LeaksIn(EndThreadAttempts(s, t, env), env, t) {
        LeakedAgainKeeps(s, t, env);
      } else {
        LeakedBreaks(s, t, env);
      }
    }
  }

  lemma NothingTried(s: State, t: string, env: Env)
    requires Parked(s, t) == []
    ensures EndThread(s, t, env) == Release(s, t) && !LeaksIn(EndThreadAttempts(s, t, env), env, t)
  {
  }

  lemma OccupiedIsNotLeaked(s: State, t: string)
    requires Inv(s, {}) && t in s.occupant
    ensures t !in s.leaked
  {
    hide ParkedFiled, WaitingFiled, TurnsFiled, Backed, Blamed, Ordered;
  }

  /** Whoever comes second, a turn that is ended twice leaves the invariant intact if and
      only if, once the slot was freed again, its thread is idle, or was leaked and leaks
      again. */
  lemma EndedTwiceExactly(s: State, m: Msg, env: Env)
    requires Inv(s, {})
    ensures Inv(EndAgain(s, m, env), {}) <==> Harmless(SlotFreed(s, m.runner, env), m.thread, env)
  {
    hide Inv, SlotFreed, EndThread, Harmless;
    SlotFreedKeeps(s, {}, m.runner, env);
    EndThreadExactly(SlotFreed(s, m.runner, env), m.thread, env);
  }

  lemma LiveIs(s: State, id: nat)
    requires Inv(s, {}) && id in s.turns && !s.turns[id].queued
    ensures s.turns[id].msg.id == id && Live(s, s.turns[id].msg)
  {
    hide ParkedFiled, WaitingFiled, Backed, OneOccupant, Blamed, Ordered;
  }

  /** For any faithful event between the lookup and the rest of a Done: the invariant
      holds in the end if and only if the event does not end the same turn, or ending it
      again is harmless. */
  lemma DoneExactly(s: State, id: nat, ev: Event, env: Env)
    requires Inv(s, {}) && Faithful(s, ev) && id in s.turns && !s.turns[id].queued
    ensures var m, s1 := s.turns[id].msg, Apply(s, ev, env);
            var s' := if id in s1.turns then Finish(s1, id, Completed, env) else EndAgain(s1, m, env);
            Inv(s', {}) <==> !Ends(s, ev, id) || Harmless(SlotFreed(s1, m.runner, env), m.thread, env)
  {
    hide Inv, Finish, Arrive, Ship, EndAgain, Harmless, SlotFreed, Live, Ends, Faithful;
    var m, s1 := s.turns[id].msg, Apply(s, ev, env);
    LiveIs(s, id);
    ApplyKeeps(s, {}, ev, env);
    EventOthers(s, ev, env, m);
    if Ends(s, ev, id) {
      EndedTwiceExactly(s1, m, env);
    } else {
      StaysLive(s1, m);
      FinishKeeps(s1, {}, id, Completed, env);
    }
  }

  lemma StaysLive(s: State, m: Msg)
    requires Live(s, m)
    ensures m.id in s.turns && !s.turns[m.id].queued
  {
  }

  // ------------------------------------------------------------------
  // It does happen
  // ------------------------------------------------------------------

  const A := Msg(0, "a", "r", 0)
  const B := Msg(1, "a", "r", 0)

  function Fine(n: nat, r: string): Answer {
    Answer(true, true, true, true, true, 0, true, true)
  }

  /** The first message runs, the second is parked. */
  function Begun(): State {
    Park(Send(Claim(INITIAL, A).(calls := 1), A), B)
  }

  lemma BeginsSo()
    ensures Run(INITIAL, [Message("a", "r", 0), Message("a", "r", 0)], Fine) == Begun() && Inv(Begun(), {})
  {
    var evs := [Message("a", "r", 0), Message("a", "r", 0)];
    assert [evs[0]][..0] == [] && evs[..1] == [evs[0]];
    assert Run(INITIAL, [evs[0]], Fine) == Arrive(INITIAL, "a", "r", 0, Fine) == Send(Claim(INITIAL, A).(calls := 1), A);
    assert FaithfulRun(INITIAL, evs, Fine);
    Initially();
    RunKeeps(INITIAL, evs, Fine);
    hide Inv;
  }

  lemma SweepsNext()
    ensures var s := Apply(Begun(), Visit(0, {}, true), Fine);
            && s.turns == map[1 := Turn(B, false)] && s.active == {"a"} && Parked(s, "a") == [] && s.queues == map[]
  {
    var s0 := EndTurn(Begun(), 0, Swept);
    assert SlotFreed(s0, "r", Fine) == s0;
    assert Parked(s0, "a") == [B] && Unpark(s0, "a").turns == map[];
    assert TryAdmitted(Unpark(s0, "a"), B, Fine) == (Send(Unpark(s0, "a").(calls := 2), B), false);
    assert EndThread(s0, "a", Fine) == Send(Unpark(s0, "a").(calls := 2), B);
    hide EndThread, TryAdmitted, SlotFreed;
  }

  /** A sweep ends the turn while its Done is being handled, and the next message is
      sent; then the Done marks the thread idle while that message's turn runs. */
  lemma DoneFreesTheNext()
    ensures Run(INITIAL, [Message("a", "r", 0), Message("a", "r", 0)], Fine) == Begun() && 0 in Begun().turns
    ensures var s := EndAgain(Apply(Begun(), Visit(0, {}, true), Fine), A, Fine);
            s.turns == map[1 := Turn(B, false)] && B.thread !in s.active
  {
    BeginsSo();
    SweepsNext();
    hide Apply;
  }
}
