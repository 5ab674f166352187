/** What one event of the scheduler sends, and which turns it leaves alone. */
module SchedulerSends {
  import opened Scheduler
  import opened SchedulerInvariant
  import opened SchedulerTheorems

  predicate Live(g: State, m: Msg) {
    m.id in g.turns && g.turns[m.id] == Turn(m, false)
  }

  /** At most one message was sent, and its turn is live. */
  predicate SendsOne(s: State, s': State) {
    || s'.sent == s.sent
    || (|s'.sent| == |s.sent| + 1 && s.sent <= s'.sent && Live(s', s'.sent[|s.sent|]))
  }

  lemma TryTurnSends(s: State, m: Msg, env: Env)
    ensures var (s1, dropped) := TryTurn(s, m, env);
            SendsOne(s, s1) && (dropped ==> s1.sent == s.sent)
  {
    hide Queueable;
  }

  lemma TrySends(s: State, m: Msg, env: Env)
    ensures var (s1, dropped) := TryAdmitted(s, m, env);
            SendsOne(s, s1) && (dropped ==> s1.sent == s.sent)
  {
    hide TryTurn;
    TryTurnSends(s, m, env);
    TryTurnSends(TakeSlot(s, m), m, env);
  }

  lemma {:induction false} EndThreadSends(s: State, t: string, env: Env)
    ensures SendsOne(s, EndThread(s, t, env))
    decreases |Parked(s, t)|
  {
    hide TryAdmitted;
    if Parked(s, t) != [] {
      var m := s.parked[t][0];
      TrySends(Unpark(s, t), m, env);
      var (s1, dropped) := TryAdmitted(Unpark(s, t), m, env);
      assert s1.parked[t] == s.parked[t][1..];
      if dropped {
        EndThreadSends(s1, t, env);
      }
    }
  }

  lemma DispatchSends(s: State, m: Msg, env: Env)
    ensures SendsOne(s, DispatchTurn(s, m, env))
    ensures SendsOne(s, DispatchAdmitted(s, m, env))
  {
    hide TryTurn, TryAdmitted;
    TryTurnSends(s, m, env);
    TrySends(s, m, env);
    EndThreadSends(TryTurn(s, m, env).0, m.thread, env);
    EndThreadSends(TryAdmitted(s, m, env).0, m.thread, env);
  }

  lemma SlotFreedSends(s: State, r: string, env: Env)
    ensures SendsOne(s, SlotFreed(s, r, env))
  {
    hide DispatchTurn;
    if Waiting(s, r) != [] {
      DispatchSends(FreeSlot(s, r), Waiting(s, r)[0], env);
    }
  }

  /** Everything sent since is live. */
  ghost predicate Sends(s: State, s': State) {
    s.sent <= s'.sent && forall k | |s.sent| <= k < |s'.sent| :: Live(s', s'.sent[k])
  }

  lemma JoinSends(s: State, s1: State, s2: State)
    requires SendsOne(s, s1) && SendsOne(s1, s2) && (s1.sent != s.sent ==> Live(s2, s1.sent[|s.sent|]))
    ensures Sends(s, s2)
  {
    hide Live;
  }

  lemma StaysLive(s: State, t: string, env: Env, m: Msg)
    requires Inv(s, {} + {t}) && Live(s, m)
    ensures Live(EndThread(s, t, env), m)
  {
    TurnIsUnlisted(s, {} + {t}, m.id);
    hide Inv;
    EndThreadBystander(s, t, env, m.id);
  }

  lemma FinishSends(s: State, id: nat, o: Outcome, env: Env)
    requires Inv(s, {}) && id in s.turns && !s.turns[id].queued && !Wasted(Gone(o))
    ensures Sends(s, Finish(s, id, o, env))
  {
    hide Inv, SlotFreed, EndTurn, EndThread, Live, Sends;
    var m := s.turns[id].msg;
    var s0 := EndTurn(s, id, o);
    var s1 := SlotFreed(s0, m.runner, env);
    EndKeeps(s, {}, id, o);
    SlotFreedKeeps(s0, {} + {m.thread}, m.runner, env);
    SlotFreedSends(s0, m.runner, env);
    EndThreadSends(s1, m.thread, env);
    EndedSent(s, id, o);
    if s1.sent != s0.sent {
      StaysLive(s1, m.thread, env, s1.sent[|s0.sent|]);
    }
    JoinSends(s0, s1, EndThread(s1, m.thread, env));
    SameSent(s, s0, EndThread(s1, m.thread, env));
  }

  lemma SameSent(s: State, s0: State, s': State)
    requires s0.sent == s.sent && Sends(s0, s')
    ensures Sends(s, s')
  {
    hide Live;
  }

  lemma EndedSent(s: State, id: nat, o: Outcome)
    requires id in s.turns
    ensures EndTurn(s, id, o).sent == s.sent
  {
  }

  lemma ShipSends(s: State, row: nat, deleted: bool)
    requires Inv(s, {})
    ensures Sends(s, Ship(s, row, deleted))
  {
    hide Inv, RowAt;
    var i := RowAt(s.rows, row);
    if i < |s.rows| {
      ShipTurn(s, {}, i);
      hide Placed;
    }
  }

  lemma ArriveSends(s: State, t: string, r: string, cap: int, env: Env)
    ensures Sends(s, Arrive(s, t, r, cap, env))
  {
    hide DispatchAdmitted;
    var m := Msg(|s.arrivals|, t, r, cap);
    DispatchSends(Claim(s, m), m, env);
  }

  /** Whatever an event sends is live when its handler returns. */
  lemma EventSends(s: State, ev: Event, env: Env)
    requires Inv(s, {}) && Faithful(s, ev)
    ensures Sends(s, Apply(s, ev, env))
  {
    hide Inv, Finish, Arrive, Ship;
    match ev
    case Message(t, r, cap) => ArriveSends(s, t, r, cap, env);
    case Report(id, failed) =>
      if id in s.turns {
        FinishSends(s, id, if failed then RunnerFailed else Completed, env);
      }
    case Visit(id, _, _) =>
      if Visits(s, ev) {
        FinishSends(s, id, Swept, env);
      }
    case Shipment(row, deleted) => ShipSends(s, row, deleted);
  }

  /** The turn an event ends, if any. */
  predicate Ends(s: State, ev: Event, id: nat) {
    match ev
    case Report(x, _) => x == id && id in s.turns
    case Visit(x, _, _) => x == id && Visits(s, ev)
    case _ => false
  }

  /** Every other turn that was sent stays live, and the ended one is gone. */
  lemma EventOthers(s: State, ev: Event, env: Env, m: Msg)
    requires Inv(s, {}) && Live(s, m)
    ensures Live(Apply(s, ev, env), m) <==> !Ends(s, ev, m.id)
    ensures Ends(s, ev, m.id) ==> m.id !in Apply(s, ev, env).turns
  {
    hide Inv, Finish, Arrive;
    match ev
    case Message(t, r, cap) => ArriveBystander(s, {}, t, r, cap, env, m.id);
    case Report(id, failed) =>
      if id in s.turns {
        FinishBystander(s, {}, id, if failed then RunnerFailed else Completed, env, m.id);
      }
    case Visit(id, _, _) =>
      if Visits(s, ev) {
        FinishBystander(s, {}, id, Swept, env, m.id);
      }
    case Shipment(row, _) =>
      var i := RowAt(s.rows, row);
      if i < |s.rows| {
        ShipTurn(s, {}, i);
        LiveIsNotStored(s, m);
      }
  }

  lemma LiveIsNotStored(s: State, m: Msg)
    requires Inv(s, {}) && Live(s, m)
    ensures m.id < |s.place| && s.place[m.id].Running?
  {
    hide ParkedFiled, WaitingFiled, Backed, OneOccupant, Blamed, Ordered;
  }

  /** A message that was sent is not in the offline queue. */
  lemma SentIsNotQueued(s: State, m: Msg)
    requires Inv(s, {}) && m in s.sent
    ensures Known(s.arrivals, m) && (m.id in s.turns ==> Live(s, m))
  {
    hide ParkedFiled, WaitingFiled, Backed, OneOccupant, Blamed;
  }

  /** No message is sent twice. */
  lemma SentOnce(s: State, j: nat, k: nat)
    requires Inv(s, {}) && j < k < |s.sent|
    ensures s.sent[j] != s.sent[k]
  {
    hide ParkedFiled, WaitingFiled, TurnsFiled, Backed, OneOccupant, Blamed;
  }

  /** A report ends its turn as what it says: a Done completes it, an Error fails it. */
  lemma ReportEnds(s: State, m: Msg, failed: bool, env: Env)
    requires Inv(s, {}) && Live(s, m)
    ensures var s' := Apply(s, Report(m.id, failed), env);
            m.id !in s'.turns && m.id < |s'.place| && s'.place[m.id] == Gone(if failed then RunnerFailed else Completed)
  {
    hide Inv, Finish, EndTurn;
    var o := if failed then RunnerFailed else Completed;
    LiveIsNotStored(s, m);
    TurnIsUnlisted(s, {}, m.id);
    FinishUnlisted(s, {}, m.id, o, env, m.id);
    EndedAs(s, m.id, o);
  }

  lemma EndedAs(s: State, id: nat, o: Outcome)
    requires id in s.turns && id < |s.place|
    ensures var s' := EndTurn(s, id, o); id !in s'.turns && |s'.place| == |s.place| && s'.place[id] == Gone(o)
  {
  }
}
