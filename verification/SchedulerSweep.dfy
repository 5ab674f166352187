/** What a sweep, a reconcile and a drain leave behind. */
module SchedulerSweep {
  import opened Scheduler
  import opened SchedulerInvariant
  import opened SchedulerTheorems
  import opened SchedulerSends
  import opened GatewayScheduler

  predicate Swept(s: State, id: nat) {
    id !in s.turns && id < |s.place| && s.place[id] == Gone(Outcome.Swept)
  }

  /** The visits that are meant for a live turn. */
  predicate Meant(evs: seq<Event>, m: Msg) {
    exists k :: 0 <= k < |evs| && evs[k].Visit? && evs[k].turn == m.id && (evs[k].every || m.runner in evs[k].only)
  }

  lemma VisitEnds(s: State, ev: Event, env: Env, m: Msg)
    requires Inv(s, {}) && Live(s, m) && ev.Visit? && ev.turn == m.id && (ev.every || m.runner in ev.only)
    ensures Swept(Apply(s, ev, env), m.id)
  {
    hide Inv, Finish, EndTurn;
    LiveIsNotStored(s, m);
    TurnIsUnlisted(s, {}, m.id);
    FinishUnlisted(s, {}, m.id, Outcome.Swept, env, m.id);
    Ended(s, m.id);
  }

  lemma Ended(s: State, id: nat)
    requires id in s.turns && id < |s.place|
    ensures Swept(EndTurn(s, id, Outcome.Swept), id)
  {
  }

  /** A sweep or reconcile ends exactly the live turns it was meant for, whatever it
      dispatches on the way. */
  lemma {:induction false} VisitsEndWhatTheyShould(s: State, evs: seq<Event>, env: Env, m: Msg)
    requires Inv(s, {}) && Live(s, m) && forall k | 0 <= k < |evs| :: evs[k].Visit?
    ensures Inv(Run(s, evs, env), {})
    ensures if Meant(evs, m) then Swept(Run(s, evs, env), m.id) else Live(Run(s, evs, env), m)
    decreases |evs|
  {
    hide Inv, Apply, Live, Swept;
    if evs != [] {
      var front, ev := evs[..|evs| - 1], evs[|evs| - 1];
      var before := Run(s, front, env);
      VisitsEndWhatTheyShould(s, front, env, m);
      ApplyKeeps(before, {}, ev, env);
      MeantNext(evs, m);
      if Meant(front, m) {
        SweptStays(before, ev, env, m.id);
      } else if ev.turn == m.id && (ev.every || m.runner in ev.only) {
        VisitEnds(before, ev, env, m);
      } else {
        LiveStays(before, ev, env, m);
      }
    }
  }

  lemma MeantNext(evs: seq<Event>, m: Msg)
    requires evs != [] && evs[|evs| - 1].Visit?
    ensures var ev := evs[|evs| - 1];
            Meant(evs, m) <==> Meant(evs[..|evs| - 1], m) || (ev.turn == m.id && (ev.every || m.runner in ev.only))
  {
    var front := evs[..|evs| - 1];
    if k :| 0 <= k < |evs| && evs[k].Visit? && evs[k].turn == m.id && (evs[k].every || m.runner in evs[k].only) {
      assert k == |evs| - 1 || front[k] == evs[k];
    }
    if k :| 0 <= k < |front| && front[k].Visit? && front[k].turn == m.id && (front[k].every || m.runner in front[k].only) {
      assert evs[k] == front[k];
    }
  }

  /** The sweep is meant for the silent turns among those it visits. */
  lemma {:induction false} SweepIsMeant(order: seq<nat>, stale: set<nat>, m: Msg)
    ensures Meant(SweepEvents(order, stale), m) <==> m.id in order && m.id in stale
  {
    if order != [] {
      var front, id := order[..|order| - 1], order[|order| - 1];
      SweepIsMeant(front, stale, m);
      assert m.id in order <==> m.id in front || m.id == id;
      var evs := SweepEvents(front, stale);
      if id in stale {
        assert SweepEvents(order, stale) == evs + [Visit(id, {}, true)];
        assert (evs + [Visit(id, {}, true)])[..|evs|] == evs;
        MeantNext(SweepEvents(order, stale), m);
      } else {
        assert SweepEvents(order, stale) == evs;
      }
    }
  }

  /** The reconcile is meant for the dropped runner's turns among those it visits. */
  lemma ReconcileIsMeant(order: seq<nat>, runner: string, m: Msg)
    ensures Meant(ReconcileEvents(order, runner), m) <==> m.id in order && m.runner == runner
  {
    var evs := ReconcileEvents(order, runner);
    if m.id in order && m.runner == runner {
      var k :| 0 <= k < |order| && order[k] == m.id;
      assert evs[k] == Visit(m.id, {runner}, false);
    }
  }

  lemma SweptStays(s: State, ev: Event, env: Env, id: nat)
    requires Inv(s, {}) && Swept(s, id) && ev.Visit?
    ensures Swept(Apply(s, ev, env), id)
  {
    hide Inv, Apply;
    EndIsFinal(s, ev, env, id);
  }

  lemma LiveStays(s: State, ev: Event, env: Env, m: Msg)
    requires Inv(s, {}) && Live(s, m) && ev.Visit? && !(ev.turn == m.id && (ev.every || m.runner in ev.only))
    ensures Live(Apply(s, ev, env), m)
  {
    hide Inv, Apply;
    EventOthers(s, ev, env, m);
  }

  // ------------------------------------------------------------------
  // A drain
  // ------------------------------------------------------------------

  function Messages(batch: seq<Row>): seq<Msg> {
    if batch == [] then [] else Messages(batch[..|batch| - 1]) + [batch[|batch| - 1].msg]
  }

  /** The rows that are left keep their order. */
  function Undelivered(rows: seq<Row>, batch: seq<Row>): seq<Row> {
    if rows == [] then []
    else Undelivered(rows[..|rows| - 1], batch) + if rows[|rows| - 1] in batch then [] else [rows[|rows| - 1]]
  }

  lemma ShipOne(s: State, row: Row, env: Env)
    requires Inv(s, {}) && RowAt(s.rows, row.id) < |s.rows| && s.rows[RowAt(s.rows, row.id)] == row
    ensures var s' := Apply(s, Shipment(row.id, true), env);
            && s'.sent == s.sent + [row.msg] && Live(s', row.msg)
            && (forall m | Live(s, m) :: Live(s', m))
            && s'.rows == s.rows[..RowAt(s.rows, row.id)] + s.rows[RowAt(s.rows, row.id) + 1..]
  {
    hide Inv, RowAt, Live, Ship;
    Shipped(s, row);
    forall m | Live(s, m)
      ensures Live(Apply(s, Shipment(row.id, true), env), m)
    {
      EventOthers(s, Shipment(row.id, true), env, m);
    }
  }

  lemma Shipped(s: State, row: Row)
    requires Inv(s, {}) && RowAt(s.rows, row.id) < |s.rows| && s.rows[RowAt(s.rows, row.id)] == row
    ensures var s' := Ship(s, row.id, true);
            && s'.sent == s.sent + [row.msg] && Live(s', row.msg)
            && s'.rows == s.rows[..RowAt(s.rows, row.id)] + s.rows[RowAt(s.rows, row.id) + 1..]
  {
    hide Inv, RowAt, Placed;
    ShipTurn(s, {}, RowAt(s.rows, row.id));
  }

  lemma {:induction false} DropOne(rows: seq<Row>, batch: seq<Row>, next: Row, k: nat)
    requires k < |Undelivered(rows, batch)| && Undelivered(rows, batch)[k] == next
    requires forall i, j | 0 <= i < j < |rows| :: rows[i] != rows[j]
    ensures Undelivered(rows, batch + [next]) == Undelivered(rows, batch)[..k] + Undelivered(rows, batch)[k + 1..]
    decreases |rows|
  {
    var front, last := rows[..|rows| - 1], rows[|rows| - 1];
    var u := Undelivered(front, batch);
    assert forall r :: r in batch + [next] <==> r in batch || r == next;
    if last == next {
      KeepsAll(front, batch, next);
      assert k == |u| by {
        if k < |u| {
          UndeliveredIn(front, batch, k);
        }
      }
    } else {
      assert k < |u|;
      DropOne(front, batch, next, k);
    }
  }

  lemma {:induction false} UndeliveredIn(rows: seq<Row>, batch: seq<Row>, k: nat)
    requires k < |Undelivered(rows, batch)|
    ensures Undelivered(rows, batch)[k] in rows
  {
    if k < |Undelivered(rows[..|rows| - 1], batch)| {
      UndeliveredIn(rows[..|rows| - 1], batch, k);
    }
  }

  lemma {:induction false} KeepsAll(rows: seq<Row>, batch: seq<Row>, next: Row)
    requires next !in rows
    ensures Undelivered(rows, batch + [next]) == Undelivered(rows, batch)
  {
    if rows != [] {
      assert forall r :: r in batch + [next] <==> r in batch || r == next;
      assert rows[|rows| - 1] in rows;
      KeepsAll(rows[..|rows| - 1], batch, next);
    }
  }

  lemma {:induction false} DrainedSoFar(s: State, batch: seq<Row>, i: nat, env: Env)
    requires Inv(s, {}) && i <= |batch| && Listed(s.rows, batch)
    ensures var s' := Run(s, DrainEvents(batch[..i], {}), env);
            && Inv(s', {}) && Listed(s'.rows, batch[i..])
            && s'.sent == s.sent + Messages(batch[..i])
            && (forall j | 0 <= j < i :: Live(s', batch[j].msg))
            && s'.rows == Undelivered(s.rows, batch[..i])
    decreases i
  {
    hide Inv, Listed, Run, DrainEvents, RowAt;
    if i == 0 {
      DrainStart(s, batch, {}, env);
      assert batch[..0] == [];
      NothingDelivered(s.rows);
    } else {
      var k := i - 1;
      var was := Run(s, DrainEvents(batch[..k], {}), env);
      DrainedSoFar(s, batch, k, env);
      DrainStep(s, was, batch, k, {}, env);
      ShipOne(was, batch[k], env);
      assert batch[..i] == batch[..k] + [batch[k]];
      assert batch[..i][..k] == batch[..k];
      ListedDistinct(s.rows, batch);
      DropOne(s.rows, batch[..k], batch[k], RowAt(was.rows, batch[k].id));
    }
  }

  lemma ListedDistinct(rows: seq<Row>, batch: seq<Row>)
    requires Listed(rows, batch)
    ensures forall i, j | 0 <= i < j < |rows| :: rows[i] != rows[j]
  {
  }

  lemma {:induction false} NothingDelivered(rows: seq<Row>)
    ensures Undelivered(rows, []) == rows
  {
    if rows != [] {
      NothingDelivered(rows[..|rows| - 1]);
    }
  }

  /** A drain that is not cut short sends what the runner's oldest rows hold, in the
      order of storing, makes those turns live and removes exactly those rows. */
  lemma DrainDelivers(s: State, runner: string, env: Env)
    requires Inv(s, {})
    ensures var batch := Batch(s.rows, runner); var s' := Run(s, DrainEvents(batch, {}), env);
            && Inv(s', {}) && s'.sent == s.sent + Messages(batch)
            && (forall row | row in batch :: Live(s', row.msg))
            && s'.rows == Undelivered(s.rows, batch)
  {
    var batch := Batch(s.rows, runner);
    BatchIsListed(s, runner);
    DrainedSoFar(s, batch, |batch|, env);
    assert batch[..|batch|] == batch;
    hide Inv, Run, DrainEvents, Batch;
  }
}
