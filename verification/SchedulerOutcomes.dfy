/** What one attempt makes of a message, and what becomes of an arrival. */
module SchedulerOutcomes {
  import opened Scheduler
  import opened SchedulerInvariant
  import opened SchedulerTheorems
  import opened SchedulerDrain

  /** The runner's slots are asked for and none is free, or somebody waits already. */
  predicate MustWait(s: State, m: Msg, a: Answer) {
    a.online && m.cap > 0 && (Queue(s, m.runner).active >= m.cap || |Queue(s, m.runner).waiting| > 0)
  }

  /** The offline queue takes one more: it is not full, as far as its rows could be counted,
      and the row can be written. */
  predicate RoomOffline(s: State, m: Msg, a: Answer) {
    && (a.limit <= 0 || (if a.counted then |Older(s.rows, m.runner, |s.rows|)| else 0) < a.limit)
    && a.encoded && a.enqueued
  }

  function Fate(s: State, m: Msg, a: Answer): Place {
    if MustWait(s, m, a) then if |Queue(s, m.runner).waiting| < 25 then Waitlisted else Gone(Refused)
    else if !a.started then Gone(NotStarted)
    else if a.reachable && a.sent then Running
    else if RoomOffline(s, m, a) then Stored
    else Gone(Abandoned)
  }

  lemma Counts(rows: seq<Row>, runner: string)
    ensures |RowsOf(rows, runner)| == |Older(rows, runner, |rows|)|
  {
    PlacesOf(rows, runner);
    PlacesCount(rows, runner, |rows|);
    assert rows[..|rows|] == rows;
    hide RowsOf, Places;
  }

  /** The message goes where its fate says, and nothing else of the state changes. */
  predicate Filed(s: State, m: Msg, fate: Place, s': State) {
    && m.id < |s.place| && s'.place == s.place[m.id := fate]
    && s'.sent == (if fate == Running then s.sent + [m] else s.sent)
    && s'.rows == (if fate == Stored then s.rows + [Row(s.nextRow, m)] else s.rows)
    && s'.turns == (match fate
                    case Running => s.turns[m.id := Turn(m, false)]
                    case Stored => s.turns[m.id := Turn(m, true)]
                    case Gone(Abandoned) => s.turns - {m.id}
                    case _ => s.turns)
    && s'.leaked == (if fate == Gone(Refused) || fate == Gone(NotStarted) then s.leaked[m.thread := m.id] else s.leaked)
    && s'.parked == s.parked && s'.active == s.active && s'.arrivals == s.arrivals && s'.calls == s.calls + 1
  }

  /** A slot is taken exactly if the gate was asked and let the message through. */
  ghost predicate Gated(s: State, m: Msg, a: Answer, s': State) {
    var q := Queue(s, m.runner);
    && Queue(s', m.runner) == RunnerQueue(q.active + (if a.online && m.cap > 0 && !MustWait(s, m, a) then 1 else 0),
                                          q.waiting + if Fate(s, m, a) == Waitlisted then [m] else [])
    && (forall r | r != m.runner :: Queue(s', r) == Queue(s, r))
  }

  /** The whole effect of an attempt; the thread is to be ended exactly if the message was
      abandoned. */
  ghost predicate Made(s: State, m: Msg, a: Answer, s': State, dropped: bool) {
    Filed(s, m, Fate(s, m, a), s') && Gated(s, m, a, s') && (dropped <==> Fate(s, m, a) == Gone(Abandoned))
  }

  lemma TurnFiled(s: State, m: Msg, env: Env)
    requires var a := env(s.calls, m.runner); m.id < |s.place|
    ensures var (s', dropped) := TryTurn(s, m, env); var a := env(s.calls, m.runner);
            var fate := if !a.started then Gone(NotStarted)
                        else if a.reachable && a.sent then Running
                        else if RoomOffline(s, m, a) then Stored
                        else Gone(Abandoned);
            Filed(s, m, fate, s') && s'.queues == s.queues && (dropped <==> fate == Gone(Abandoned))
  {
    hide RowsOf, Older;
    Counts(s.rows, m.runner);
  }

  lemma Slots(s: State, m: Msg, a: Answer, s0: State, s': State)
    requires !MustWait(s, m, a) && s0 == (if a.online && m.cap > 0 then TakeSlot(s, m) else s) && s'.queues == s0.queues
    ensures Gated(s, m, a, s')
  {
    hide RoomOffline;
    assert Queue(s, m.runner).waiting + [] == Queue(s, m.runner).waiting;
  }

  lemma NotAdmitted(s: State, m: Msg, env: Env)
    requires m.id < |s.place| && MustWait(s, m, env(s.calls, m.runner))
    ensures var (s', dropped) := TryAdmitted(s, m, env); Made(s, m, env(s.calls, m.runner), s', dropped)
  {
    hide RoomOffline;
    assert Queue(s, m.runner).waiting + [] == Queue(s, m.runner).waiting;
  }

  lemma Admitted(s: State, m: Msg, env: Env)
    requires m.id < |s.place| && !MustWait(s, m, env(s.calls, m.runner))
    ensures var (s', dropped) := TryAdmitted(s, m, env); Made(s, m, env(s.calls, m.runner), s', dropped)
  {
    var a := env(s.calls, m.runner);
    var s0 := if a.online && m.cap > 0 then TakeSlot(s, m) else s;
    Through(s, m, env);
    hide TryAdmitted, TryTurn, Gated, Older, Filed;
    TurnFiled(s0, m, env);
    Slots(s, m, a, s0, TryTurn(s0, m, env).0);
    SameElse(s, s0, m, Fate(s, m, a), TryTurn(s0, m, env).0);
    hide RoomOffline;
  }

  lemma Through(s: State, m: Msg, env: Env)
    requires !MustWait(s, m, env(s.calls, m.runner))
    ensures var a := env(s.calls, m.runner);
            TryAdmitted(s, m, env) == TryTurn(if a.online && m.cap > 0 then TakeSlot(s, m) else s, m, env)
  {
    hide TryTurn;
  }

  lemma SameElse(s: State, s0: State, m: Msg, fate: Place, s': State)
    requires s0 == s.(queues := s0.queues) && Filed(s0, m, fate, s')
    ensures Filed(s, m, fate, s')
  {
  }

  /** One attempt, whatever is answered: the message waits if the runner's slots are asked
      for and none is free, unless 25 wait already; it is sent if the runner is reachable and
      takes it; else it is stored, unless the runner's rows have reached the limit or the row
      cannot be written. */
  lemma AttemptMade(s: State, m: Msg, env: Env)
    requires m.id < |s.place|
    ensures var (s', dropped) := TryAdmitted(s, m, env); Made(s, m, env(s.calls, m.runner), s', dropped)
  {
    hide TryAdmitted, Made, MustWait;
    if MustWait(s, m, env(s.calls, m.runner)) {
      NotAdmitted(s, m, env);
    } else {
      Admitted(s, m, env);
    }
  }

  // ------------------------------------------------------------------
  // An arrival, and the head of a parked list
  // ------------------------------------------------------------------

  lemma ParkedIsBusy(s: State, t: string)
    requires Inv(s, {}) && Parked(s, t) != []
    ensures t in s.active
  {
    hide WaitingFiled, TurnsFiled, Backed, Seated, NoOther, Activated, Blamed, Ordered;
    var m := s.parked[t][0];
    assert m.thread == t && s.place[m.id].Parking?;
  }

  lemma IdleHasNone(s: State, t: string)
    requires Inv(s, {})
    ensures |s.place| == |s.arrivals| && (t !in s.active ==> Parked(s, t) == [])
  {
    assert |s.place| == |s.arrivals|;
    hide Inv;
    if Parked(s, t) != [] {
      ParkedIsBusy(s, t);
    }
  }

  lemma SameAnswers(s: State, m: Msg, a: Answer)
    ensures Fate(Claim(s, m), m, a) == Fate(s, m, a) && MustWait(Claim(s, m), m, a) == MustWait(s, m, a)
  {
    hide Older;
  }

  /** What an arrival at an idle thread comes to. */
  ghost predicate Begun(s: State, m: Msg, a: Answer, s': State) {
    var fate := Fate(s, m, a);
    && s'.arrivals == s.arrivals + [m] && s'.place == s.place + [fate] && Gated(s, m, a, s')
    && s'.active == (if fate == Gone(Abandoned) then s.active else s.active + {m.thread})
    && s'.sent == (if fate == Running then s.sent + [m] else s.sent)
    && s'.rows == (if fate == Stored then s.rows + [Row(s.nextRow, m)] else s.rows)
    && (forall u :: Parked(s', u) == Parked(s, u))
  }

  lemma ClaimMade(s: State, m: Msg, a: Answer, s1: State, dropped: bool)
    requires m.id == |s.arrivals| == |s.place| && m.thread !in s.active && Parked(s, m.thread) == []
    requires Made(Claim(s, m), m, a, s1, dropped)
    ensures Begun(s, m, a, if dropped then Release(s1, m.thread) else s1) && Parked(s1, m.thread) == []
  {
    SameAnswers(s, m, a);
    hide Fate, MustWait, Older;
    var fate := Fate(s, m, a);
    assert Claim(s, m).place[m.id := fate] == s.place + [fate];
    assert forall r :: Queue(Claim(s, m), r) == Queue(s, r);
  }

  /** A message for a busy thread is parked behind it. A message for an idle one meets its
      fate at once, and the thread is busy from then on, unless the message was abandoned. */
  lemma ArrivalMade(s: State, t: string, r: string, cap: int, env: Env)
    requires Inv(s, {})
    ensures var s' := Apply(s, Message(t, r, cap), env); var m := Msg(|s.arrivals|, t, r, cap);
            if t in s.active then
              && Parked(s', t) == Parked(s, t) + [m] && (forall u | u != t :: Parked(s', u) == Parked(s, u))
              && s' == s.(parked := s'.parked, arrivals := s.arrivals + [m], place := s.place + [Parking])
            else Begun(s, m, env(s.calls, r), s')
  {
    var m := Msg(|s.arrivals|, t, r, cap);
    IdleHasNone(s, t);
    hide Inv, TryAdmitted, Made, Begun;
    if t !in s.active {
      var (s1, dropped) := TryAdmitted(Claim(s, m), m, env);
      AttemptMade(Claim(s, m), m, env);
      ClaimMade(s, m, env(s.calls, r), s1, dropped);
    }
  }

  /** When a thread ends, the head of its parked list meets its fate; if it is abandoned, the
      next one's turn has come. */
  lemma HeadIsTried(s: State, t: string, env: Env)
    requires Parked(s, t) != [] && s.parked[t][0].id < |s.place|
    ensures var head, taken := s.parked[t][0], Unpark(s, t);
            var (s1, dropped) := TryAdmitted(taken, head, env);
            && Made(taken, head, env(s.calls, head.runner), s1, dropped)
            && Parked(s1, t) == Parked(s, t)[1..]
            && EndThread(s, t, env) == if Fate(taken, head, env(s.calls, head.runner)) == Gone(Abandoned) then EndThread(s1, t, env) else s1
  {
    AttemptMade(Unpark(s, t), s.parked[t][0], env);
    hide TryAdmitted, Fate, Filed, Gated;
  }
}
