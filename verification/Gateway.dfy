/** The scheduler's handlers as the gateway runs them: in place, on its own fields. */
module GatewayScheduler {
  import opened Scheduler
  import opened SchedulerInvariant
  import opened SchedulerTheorems
  import opened SchedulerOverlap

  /** The stops of the stranded sweep at the turns that went silent. */
  function SweepEvents(order: seq<nat>, stale: set<nat>): (evs: seq<Event>)
    ensures forall k | 0 <= k < |evs| :: evs[k].Visit?
  {
    if order == [] then []
    else
      var id := order[|order| - 1];
      SweepEvents(order[..|order| - 1], stale) + if id in stale then [Visit(id, {}, true)] else []
  }

  /** The stops of the reconcile after a runner's disconnect. */
  function ReconcileEvents(order: seq<nat>, runner: string): (evs: seq<Event>)
    ensures |evs| == |order| && forall k | 0 <= k < |order| :: evs[k] == Visit(order[k], {runner}, false)
  {
    if order == [] then []
    else ReconcileEvents(order[..|order| - 1], runner) + [Visit(order[|order| - 1], {runner}, false)]
  }

  /** What one drain reads: the oldest rows of the runner, up to the limit. */
  function Batch(rows: seq<Row>, runner: string): seq<Row> {
    var all := RowsOf(rows, runner);
    if |all| > DRAIN_LIMIT then all[..DRAIN_LIMIT] else all
  }

  /** The rows that were sent; those in `kept` could not be deleted. */
  function DrainEvents(batch: seq<Row>, kept: set<nat>): (evs: seq<Event>)
    ensures forall k | 0 <= k < |evs| :: evs[k].Shipment?
  {
    if batch == [] then []
    else
      var row := batch[|batch| - 1].id;
      DrainEvents(batch[..|batch| - 1], kept) + [Shipment(row, row !in kept)]
  }

  lemma RunSnoc(s: State, evs: seq<Event>, ev: Event, env: Env)
    ensures Run(s, evs + [ev], env) == Apply(Run(s, evs, env), ev, env)
  {
    hide Apply;
    assert (evs + [ev])[..|evs|] == evs;
  }

  // ------------------------------------------------------------------
  // The gateway
  // ------------------------------------------------------------------

  class Gateway {
    /** How hub and store answer; `calls` counts the attempts answered so far. */
    const env: Env
    var calls: nat
    /** How many names newID has drawn. */
    var drawn: nat

    var queues: map<string, RunnerQueue>
    var threadActive: set<string>
    var threadWaiting: map<string, seq<Msg>>
    var turns: map<nat, Turn>
    var rows: seq<Row>
    var nextRow: nat

    ghost var arrivals: seq<Msg>
    ghost var place: seq<Place>
    ghost var occupant: map<string, nat>
    ghost var sent: seq<Msg>
    ghost var leaked: map<string, nat>

    ghost function Abs(): State
      reads this
    {
      State(queues, threadActive, threadWaiting, turns, rows, nextRow, calls, arrivals, place, occupant, sent, leaked)
    }

    ghost predicate Valid()
      reads this
    {
      Inv(Abs(), {}) && drawn == |arrivals|
    }

    constructor (env: Env)
      ensures this.env == env && Abs() == INITIAL && drawn == 0 && Valid()
    {
      this.env := env;
      calls, drawn, nextRow := 0, 0, 0;
      queues, threadActive, threadWaiting := map[], {}, map[];
      turns, rows := map[], [];
      arrivals, place, occupant, sent, leaked := [], [], map[], [], map[];
    }

    /** From the moment the message is routed and bound to its thread. */
    method OnMessage(thread: string, runner: string, cap: int)
      requires Valid()
      modifies this
      ensures Abs() == Apply(old(Abs()), Message(thread, runner, cap), env)
      ensures Valid()
    {
      hide Inv, Scheduler.DispatchAdmitted;
      ghost var before := Abs();
      ApplyKeeps(before, {}, Message(thread, runner, cap), env);
      var m := Msg(drawn, thread, runner, cap);
      drawn := drawn + 1;
      var free := BeginThreadTurn(m);
      if free {
        ParkedAreNamed(before, {}, thread);
        assert Parked(Abs(), thread) == Parked(before, thread);
        DispatchArrivals(Abs(), m, env);
        DispatchAdmitted(m);
      }
    }

    method BeginThreadTurn(m: Msg) returns (free: bool)
      modifies this
      ensures free == (m.thread !in old(threadActive)) && drawn == old(drawn)
      ensures Abs() == if free then Claim(old(Abs()), m) else Park(old(Abs()), m)
    {
      arrivals := arrivals + [m];
      if m.thread !in threadActive {
        place, occupant := place + [InHand], occupant[m.thread := m.id];
        threadActive := threadActive + {m.thread};
        return true;
      }
      place := place + [Parking];
      var parked := if m.thread in threadWaiting then threadWaiting[m.thread] else [];
      threadWaiting := threadWaiting[m.thread := parked + [m]];
      return false;
    }

    method DispatchAdmitted(m: Msg)
      requires forall k | 0 <= k < |Parked(Abs(), m.thread)| :: Parked(Abs(), m.thread)[k].thread == m.thread
      modifies this
      ensures Abs() == Scheduler.DispatchAdmitted(old(Abs()), m, env) && drawn == old(drawn)
      decreases |Parked(Abs(), m.thread)|, 4
    {
      hide RowsOf, Send, Hold, Drop, FailStart;
      if env(calls, m.runner).online && m.cap > 0 {
        var handled := Admit(m);
        if handled {
          return;
        }
      }
      DispatchTurn(m);
    }

    method Admit(m: Msg) returns (handled: bool)
      modifies this`queues, this`calls, this`place, this`leaked, this`occupant
      ensures drawn == old(drawn)
      ensures var q := Queue(old(Abs()), m.runner);
              if q.active < m.cap && q.waiting == [] then !handled && Abs() == TakeSlot(old(Abs()), m)
              else if |q.waiting| >= MAX_QUEUE_DEPTH then handled && Abs() == Refuse(old(Abs()), m).(calls := old(calls) + 1)
              else handled && Abs() == Wait(old(Abs()), m).(calls := old(calls) + 1)
    {
      var q := if m.runner in queues then queues[m.runner] else RunnerQueue(0, []);
      queues := queues[m.runner := q];
      if q.active < m.cap && |q.waiting| == 0 {
        queues := queues[m.runner := q.(active := q.active + 1)];
        return false;
      }
      calls := calls + 1;
      if |q.waiting| >= MAX_QUEUE_DEPTH {
        TurnAway(m);
        return true;
      }
      JoinLine(m);
      return true;
    }

    method JoinLine(m: Msg)
      requires m.runner in queues
      modifies this`place, this`queues
      ensures Abs() == Scheduler.Wait(old(Abs()), m)
    {
      var q := queues[m.runner];
      place := Placed(place, m.id, Waitlisted);
      queues := queues[m.runner := q.(waiting := q.waiting + [m])];
    }

    /** The history of a message that the full list does not take. */
    method TurnAway(m: Msg)
      requires m.runner in queues
      modifies this`place, this`leaked, this`occupant
      ensures Abs() == Refuse(old(Abs()), m)
    {
      place := Placed(place, m.id, Gone(Refused));
      leaked, occupant := leaked[m.thread := m.id], occupant - {m.thread};
      assert queues[m.runner := queues[m.runner]] == queues;
    }

    /** The turn row's insert, then the live turn map. */
    method StartTurn(m: Msg, a: Answer) returns (ok: bool)
      modifies this
      ensures ok == a.started && drawn == old(drawn)
      ensures Abs() == if ok then old(Abs()).(turns := old(turns)[m.id := Turn(m, false)])
                       else FailStart(old(Abs()), m)
    {
      if !a.started {
        place := Placed(place, m.id, Gone(NotStarted));
        leaked, occupant := leaked[m.thread := m.id], occupant - {m.thread};
        return false;
      }
      turns := turns[m.id := Turn(m, false)];
      return true;
    }

    method DispatchTurn(m: Msg)
      requires forall k | 0 <= k < |Parked(Abs(), m.thread)| :: Parked(Abs(), m.thread)[k].thread == m.thread
      modifies this
      ensures Abs() == Scheduler.DispatchTurn(old(Abs()), m, env) && drawn == old(drawn)
      decreases |Parked(Abs(), m.thread)|, 3
    {
      TurnCases(Abs(), m, env);
      hide Scheduler.EndThread, TryTurn, Queueable, Hold, Drop, FailStart;
      var a := env(calls, m.runner);
      calls := calls + 1;
      ghost var asked := Abs();
      var ok := StartTurn(m, a);
      if !ok {
        return;
      }
      StoredFirst(asked, m, a);
      assert Parked(Abs(), m.thread) == Parked(old(Abs()), m.thread);
      if !a.reachable || !a.sent {
        hide Send;
        QueueMessage(m, a);
        return;
      }
      place, sent := Placed(place, m.id, Running), sent + [m];
    }

    method QueueMessage(m: Msg, a: Answer)
      requires forall k | 0 <= k < |Parked(Abs(), m.thread)| :: Parked(Abs(), m.thread)[k].thread == m.thread
      modifies this
      ensures drawn == old(drawn)
      ensures Abs() == if Queueable(old(Abs()), m.runner, a) then Hold(old(Abs()), m)
                       else Scheduler.EndThread(Drop(old(Abs()), m), m.thread, env)
      decreases |Parked(Abs(), m.thread)|, 2
    {
      hide RowsOf;
      var depth := if a.counted then |RowsOf(rows, m.runner)| else 0;
      if a.limit > 0 && depth >= a.limit {
        AbandonTurn(m);
        return;
      }
      if !a.encoded {
        AbandonTurn(m);
        return;
      }
      if !a.enqueued {
        AbandonTurn(m);
        return;
      }
      rows, nextRow := rows + [Row(nextRow, m)], nextRow + 1;
      turns := turns[m.id := Turn(m, true)];
      place := Placed(place, m.id, Stored);
    }

    method AbandonTurn(m: Msg)
      requires forall k | 0 <= k < |Parked(Abs(), m.thread)| :: Parked(Abs(), m.thread)[k].thread == m.thread
      modifies this
      ensures Abs() == Scheduler.EndThread(Drop(old(Abs()), m), m.thread, env) && drawn == old(drawn)
      decreases |Parked(Abs(), m.thread)|, 1
    {
      turns := turns - {m.id};
      place := Placed(place, m.id, Gone(Abandoned));
      occupant := occupant - {m.thread};
      EndThreadTurn(m.thread);
    }

    method EndThreadTurn(t: string)
      requires forall k | 0 <= k < |Parked(Abs(), t)| :: Parked(Abs(), t)[k].thread == t
      modifies this
      ensures Abs() == Scheduler.EndThread(old(Abs()), t, env) && drawn == old(drawn)
      decreases |Parked(Abs(), t)|, 0
    {
      hide RowsOf, Send, Hold, Drop, FailStart;
      if t !in threadWaiting || threadWaiting[t] == [] {
        threadActive := threadActive - {t};
        threadWaiting := threadWaiting - {t};
        return;
      }
      var next := threadWaiting[t][0];
      threadWaiting := threadWaiting[t := threadWaiting[t][1..]];
      place := Placed(place, next.id, InHand);
      occupant := occupant[t := next.id];
      DispatchAdmitted(next);
    }

    method TurnSlotFreed(runner: string)
      requires forall t, k | 0 <= k < |Parked(Abs(), t)| :: Parked(Abs(), t)[k].thread == t
      modifies this
      ensures Abs() == Scheduler.SlotFreed(old(Abs()), runner, env) && drawn == old(drawn)
    {
      if runner !in queues {
        return;
      }
      var q := queues[runner];
      if q.active > 0 {
        q := q.(active := q.active - 1);
      }
      if q.waiting == [] {
        queues := queues[runner := q];
        return;
      }
      var next := q.waiting[0];
      queues := queues[runner := RunnerQueue(q.active + 1, q.waiting[1..])];
      place := Placed(place, next.id, InHand);
      assert Abs() == FreeSlot(old(Abs()), runner);
      assert Parked(Abs(), next.thread) == Parked(old(Abs()), next.thread);
      hide Scheduler.DispatchTurn;
      DispatchTurn(next);
    }

    /** A Done frame: the turn leaves the map only after all it set off. */
    method OnDone(id: nat)
      requires Valid()
      modifies this
      ensures Abs() == Apply(old(Abs()), Report(id, false), env)
      ensures Faithful(old(Abs()), Report(id, false)) ==> Valid()
    {
      hide Inv, Finish, EndTurn, Scheduler.SlotFreed;
      if id !in turns {
        return;
      }
      ghost var before := Abs();
      Exactly(before, {}, Report(id, false), env);
      FinishLists(before, id, Completed, env, turns);
      FinishArrivals(before, id, Completed, env);
      DeferredDelete(before, id, Completed, env);
      var m := turns[id].msg;
      place, occupant := Placed(place, id, Gone(Completed)), occupant - {m.thread};
      TurnEnded(before, Abs(), id, Completed);
      TurnSlotFreed(m.runner);
      EndThreadTurn(m.thread);
      turns := turns - {id};
    }

    /** How every other handler ends a turn: out of the map first. */
    method FinalizeTurn(id: nat, o: Outcome)
      requires Valid() && id in turns
      modifies this
      ensures Abs() == Finish(old(Abs()), id, o, env)
      ensures drawn == |arrivals|
    {
      hide Inv, EndTurn, Scheduler.SlotFreed;
      ghost var before := Abs();
      FinishLists(before, id, o, env, turns - {id});
      FinishArrivals(before, id, o, env);
      var m := turns[id].msg;
      turns := turns - {id};
      place, occupant := Placed(place, id, Gone(o)), occupant - {m.thread};
      TurnEnded(before, Abs(), id, o);
      TurnSlotFreed(m.runner);
      EndThreadTurn(m.thread);
    }

    method OnRunnerError(id: nat)
      requires Valid()
      modifies this
      ensures Abs() == Apply(old(Abs()), Report(id, true), env)
      ensures Faithful(old(Abs()), Report(id, true)) ==> Valid()
    {
      Exactly(Abs(), {}, Report(id, true), env);
      hide Inv, Finish;
      if id in turns {
        FinalizeTurn(id, RunnerFailed);
      }
    }

    /** `order` is the order in which the turn map yields its keys, `stale` the
        turns that were silent too long when visited. */
    method SweepStrandedOnce(order: seq<nat>, stale: set<nat>) returns (n: nat)
      requires Valid()
      modifies this
      ensures Abs() == Run(old(Abs()), SweepEvents(order, stale), env)
      ensures Valid()
    {
      hide Inv, Finish;
      n := 0;
      for i := 0 to |order|
        invariant Valid()
        invariant Abs() == Run(old(Abs()), SweepEvents(order[..i], stale), env)
      {
        assert order[..i + 1][..i] == order[..i] && order[..i + 1][i] == order[i];
        var id := order[i];
        ghost var ev := Visit(id, {}, true);
        ghost var evs := SweepEvents(order[..i], stale);
        assert SweepEvents(order[..i + 1], stale) == if id in stale then evs + [ev] else evs;
        ApplyKeeps(Abs(), {}, ev, env);
        RunSnoc(old(Abs()), SweepEvents(order[..i], stale), ev, env);
        if id in turns {
          if id !in stale || turns[id].queued {
            continue;
          }
          FinalizeTurn(id, Swept);
          n := n + 1;
        }
      }
      assert order[..|order|] == order;
    }

    method ReconcileTurns(order: seq<nat>, runner: string)
      requires Valid()
      modifies this
      ensures Abs() == Run(old(Abs()), ReconcileEvents(order, runner), env)
      ensures Valid()
    {
      hide Inv, Finish;
      for i := 0 to |order|
        invariant Valid()
        invariant Abs() == Run(old(Abs()), ReconcileEvents(order[..i], runner), env)
      {
        assert order[..i + 1][..i] == order[..i] && order[..i + 1][i] == order[i];
        var id := order[i];
        ghost var ev := Visit(id, {runner}, false);
        ApplyKeeps(Abs(), {}, ev, env);
        RunSnoc(old(Abs()), ReconcileEvents(order[..i], runner), ev, env);
        if id in turns {
          if turns[id].msg.runner != runner || turns[id].queued {
            continue;
          }
          FinalizeTurn(id, Swept);
        }
      }
      assert order[..|order|] == order;
    }

    /** A stored message was handed to the connection. */
    method RowSent(row: Row, deleted: bool)
      requires RowAt(rows, row.id) < |rows| && rows[RowAt(rows, row.id)] == row
      modifies this
      ensures Abs() == Ship(old(Abs()), row.id, deleted) && drawn == old(drawn) && arrivals == old(arrivals)
      ensures var k := RowAt(old(rows), row.id); rows == if deleted then old(rows)[..k] + old(rows)[k + 1..] else old(rows)
    {
      hide RowAt;
      sent := sent + [row.msg];
      if row.msg.id in turns {
        turns := turns[row.msg.id := Turn(turns[row.msg.id].msg, false)];
        place := Placed(place, row.msg.id, Running);
      }
      if deleted {
        var k := RowAt(rows, row.id);
        rows := rows[..k] + rows[k + 1..];
      }
    }

    /** `accepted` sends succeed before one fails; rows in `kept` resist deletion. */
    method DrainQueue(runner: string, accepted: nat, kept: set<nat>)
      requires Valid()
      modifies this
      ensures var batch := Batch(old(rows), runner);
              Abs() == Run(old(Abs()),
                           DrainEvents(if accepted < |batch| then batch[..accepted] else batch, kept), env)
      ensures kept == {} ==> Valid()
    {
      hide Inv, Apply, Ship, DrainEvents, Run, Batch, RowAt, Listed;
      var msgs := Batch(rows, runner);
      BatchIsListed(Abs(), runner);
      DrainStart(Abs(), msgs, kept, env);
      for i := 0 to |msgs|
        invariant Listed(rows, msgs[i..]) && i <= accepted
        invariant Abs() == Run(old(Abs()), DrainEvents(msgs[..i], kept), env)
        invariant drawn == |arrivals| && (kept == {} ==> Inv(Abs(), {}))
      {
        if i == accepted {
          return;
        }
        DrainStep(old(Abs()), Abs(), msgs, i, kept, env);
        RowSent(msgs[i], msgs[i].id !in kept);
      }
      assert msgs[..|msgs|] == msgs;
    }
  }

  // ------------------------------------------------------------------
  // Helpers of the loops
  // ------------------------------------------------------------------

  lemma TurnEnded(s: State, s': State, id: nat, o: Outcome)
    requires id in s.turns
    requires s' == s.(turns := s'.turns, place := Placed(s.place, id, Gone(o)), occupant := s.occupant - {s.turns[id].msg.thread})
    ensures s' == EndTurn(s, id, o).(turns := s'.turns)
    ensures s'.turns == s.turns - {id} ==> s' == EndTurn(s, id, o)
  {
  }

  lemma FinishLists(s: State, id: nat, o: Outcome, env: Env, kept: map<nat, Turn>)
    requires Inv(s, {}) && id in s.turns
    ensures var s0 := EndTurn(s, id, o).(turns := kept);
            && (forall t, k | 0 <= k < |Parked(s0, t)| :: Parked(s0, t)[k].thread == t)
            && var after := Parked(SlotFreed(s0, s.turns[id].msg.runner, env), s.turns[id].msg.thread);
               after == Parked(s, s.turns[id].msg.thread) && forall k | 0 <= k < |after| :: after[k].thread == s.turns[id].msg.thread
  {
    hide Inv, SlotFreed, Untouched, EndTurn;
    var m := s.turns[id].msg;
    var s0 := EndTurn(s, id, o).(turns := kept);
    EndedLists(s, {}, id, o);
    assert forall t :: Parked(s0, t) == Parked(EndTurn(s, id, o), t);
    assert Waiting(s0, m.runner) == Waiting(EndTurn(s, id, o), m.runner);
    if Waiting(s, m.runner) != [] {
      HeadIsElsewhere(s, {}, id, m.runner);
    }
    SlotFreedElsewhere(s0, m.runner, env, m.thread);
    UntouchedParked(s0, SlotFreed(s0, m.runner, env), m.thread);
  }

  /** The batch is stored, in the order of the row ids. */
  predicate Listed(rows: seq<Row>, batch: seq<Row>) {
    && (forall i, j | 0 <= i < j < |rows| :: rows[i].id < rows[j].id)
    && (forall k | 0 <= k < |batch| :: batch[k] in rows)
    && (forall j, k | 0 <= j < k < |batch| :: batch[j].id < batch[k].id)
  }

  lemma {:induction false} RowsOfListed(rows: seq<Row>, r: string)
    requires forall i, j | 0 <= i < j < |rows| :: rows[i].id < rows[j].id
    ensures Listed(rows, RowsOf(rows, r))
  {
    if rows != [] {
      RowsOfListed(rows[..|rows| - 1], r);
    }
  }

  lemma BatchIsListed(s: State, runner: string)
    requires Inv(s, {})
    ensures Listed(s.rows, Batch(s.rows, runner))
  {
    hide ParkedFiled, WaitingFiled, TurnsFiled, OneOccupant, Blamed, Ordered;
    RowsOfListed(s.rows, runner);
  }

  lemma DeleteListed(rows: seq<Row>, batch: seq<Row>, i: nat)
    requires Listed(rows, batch) && i < |rows| && rows[i] !in batch
    ensures Listed(rows[..i] + rows[i + 1..], batch)
  {
    var now := rows[..i] + rows[i + 1..];
    assert forall j | 0 <= j < |now| :: now[j] == rows[if j < i then j else j + 1];
    forall r | r in batch
      ensures r in now
    {
      var j :| 0 <= j < |rows| && rows[j] == r;
      assert now[if j < i then j else j - 1] == r;
    }
  }

  lemma ShipListed(rows: seq<Row>, batch: seq<Row>)
    requires Listed(rows, batch) && batch != []
    ensures var i := RowAt(rows, batch[0].id);
            && i < |rows| && rows[i] == batch[0]
            && Listed(rows[..i] + rows[i + 1..], batch[1..]) && Listed(rows, batch[1..])
  {
    hide RowAt, Listed;
    ListedHead(rows, batch);
    ListedTail(rows, batch);
    DeleteListed(rows, batch[1..], RowAt(rows, batch[0].id));
  }

  lemma ListedHead(rows: seq<Row>, batch: seq<Row>)
    requires Listed(rows, batch) && batch != []
    ensures var i := RowAt(rows, batch[0].id); i < |rows| && rows[i] == batch[0]
  {
    hide RowAt;
    var at :| 0 <= at < |rows| && rows[at] == batch[0];
  }

  lemma ListedTail(rows: seq<Row>, batch: seq<Row>)
    requires Listed(rows, batch) && batch != []
    ensures Listed(rows, batch[1..]) && batch[0] !in batch[1..]
  {
    assert forall k | 0 <= k < |batch| - 1 :: batch[1..][k] == batch[k + 1];
  }

  lemma DrainStart(s: State, batch: seq<Row>, kept: set<nat>, env: Env)
    ensures batch[0..] == batch && Run(s, DrainEvents(batch[..0], kept), env) == s
  {
  }

  lemma DrainStep(s0: State, s: State, batch: seq<Row>, i: nat, kept: set<nat>, env: Env)
    requires i < |batch| && Listed(s.rows, batch[i..]) && s == Run(s0, DrainEvents(batch[..i], kept), env)
    ensures var k := RowAt(s.rows, batch[i].id);
            && k < |s.rows| && s.rows[k] == batch[i]
            && Listed(s.rows, batch[i + 1..]) && Listed(s.rows[..k] + s.rows[k + 1..], batch[i + 1..])
    ensures Ship(s, batch[i].id, batch[i].id !in kept) == Run(s0, DrainEvents(batch[..i + 1], kept), env)
    ensures kept == {} && Inv(s, {}) ==> Inv(Ship(s, batch[i].id, true), {})
  {
    hide Inv, Run, Ship, Listed, RowAt;
    ShipListed(s.rows, batch[i..]);
    assert batch[i..][0] == batch[i] && batch[i..][1..] == batch[i + 1..];
    assert batch[..i + 1][..i] == batch[..i] && batch[..i + 1][i] == batch[i];
    RunSnoc(s0, DrainEvents(batch[..i], kept), Shipment(batch[i].id, batch[i].id !in kept), env);
    if kept == {} && Inv(s, {}) {
      ShipKeeps(s, {}, batch[i].id);
    }
  }

  lemma TurnCases(s: State, m: Msg, env: Env)
    ensures var a := env(s.calls, m.runner);
            var asked := s.(calls := s.calls + 1);
            TryTurn(s, m, env) == if !a.started then (FailStart(asked, m), false)
                                  else if a.reachable && a.sent then (Send(asked, m), false)
                                  else if Queueable(asked, m.runner, a) then (Hold(asked, m), false)
                                  else (Drop(asked, m), true)
  {
  }

  /** The turn map already lists the turn when its message is queued or dropped. */
  lemma StoredFirst(s: State, m: Msg, a: Answer)
    ensures var stored := s.(turns := s.turns[m.id := Turn(m, false)]);
            && Queueable(stored, m.runner, a) == Queueable(s, m.runner, a)
            && Hold(stored, m) == Hold(s, m) && Drop(stored, m) == Drop(s, m)
  {
    assert s.turns[m.id := Turn(m, false)] - {m.id} == s.turns - {m.id};
  }

}
