/** Which rows a drain takes, counted on the store itself. */
module SchedulerDrain {
  import opened Scheduler
  import opened SchedulerInvariant
  import opened SchedulerTheorems
  import opened GatewayScheduler
  import opened SchedulerSweep

  /** The runner's rows before a place: the older ones. */
  function Older(rows: seq<Row>, runner: string, i: nat): set<nat> {
    set j | 0 <= j < i && j < |rows| && rows[j].msg.runner == runner
  }

  /** Places in increasing order, and what stands there. */
  predicate Picks(rows: seq<Row>, at: seq<nat>) {
    && (forall k | 0 <= k < |at| :: at[k] < |rows|)
    && (forall j, k | 0 <= j < k < |at| :: at[j] < at[k])
  }

  function Chosen(rows: seq<Row>, at: seq<nat>): (q: seq<Row>)
    requires Picks(rows, at)
    ensures |q| == |at| && forall k | 0 <= k < |at| :: q[k] == rows[at[k]]
  {
    seq(|at|, k requires 0 <= k < |at| => rows[at[k]])
  }

  /** Where the runner's rows stand. */
  function Places(rows: seq<Row>, runner: string): (at: seq<nat>)
    ensures forall k | 0 <= k < |at| :: at[k] < |rows|
  {
    if rows == [] then []
    else
      Places(rows[..|rows| - 1], runner) + if rows[|rows| - 1].msg.runner == runner then [|rows| - 1] else []
  }

  lemma {:induction false} PlacesRise(rows: seq<Row>, runner: string)
    ensures var at := Places(rows, runner);
            Picks(rows, at) && forall i | 0 <= i < |rows| :: i in at <==> rows[i].msg.runner == runner
  {
    if rows != [] {
      PlacesRise(rows[..|rows| - 1], runner);
    }
  }

  lemma PlacesOf(rows: seq<Row>, runner: string)
    ensures var at := Places(rows, runner);
            && Picks(rows, at) && RowsOf(rows, runner) == Chosen(rows, at)
            && (forall i | 0 <= i < |rows| :: i in at <==> rows[i].msg.runner == runner)
  {
    PlacesRise(rows, runner);
    PlacesShow(rows, runner);
    hide RowsOf, Places, Chosen;
  }

  lemma {:induction false} PlacesShow(rows: seq<Row>, runner: string)
    requires Picks(rows, Places(rows, runner))
    ensures RowsOf(rows, runner) == Chosen(rows, Places(rows, runner))
  {
    if rows != [] {
      var front, last := rows[..|rows| - 1], |rows| - 1;
      PlacesRise(front, runner);
      PlacesShow(front, runner);
      ChosenMore(rows, Places(front, runner), rows[last].msg.runner == runner);
      hide Chosen, Picks;
    }
  }

  lemma ChosenMore(rows: seq<Row>, at: seq<nat>, more: bool)
    requires rows != [] && Picks(rows[..|rows| - 1], at)
    ensures var now := at + if more then [|rows| - 1] else [];
            Picks(rows, now)
            && Chosen(rows, now) == Chosen(rows[..|rows| - 1], at) + if more then [rows[|rows| - 1]] else []
  {
  }

  lemma OlderGrows(rows: seq<Row>, runner: string, i: nat)
    requires i < |rows|
    ensures Older(rows, runner, i + 1) == Older(rows, runner, i) + if rows[i].msg.runner == runner then {i} else {}
    ensures i !in Older(rows, runner, i)
  {
  }

  lemma {:induction false} PlacesCount(rows: seq<Row>, runner: string, n: nat)
    requires n <= |rows|
    ensures var at := Places(rows[..n], runner);
            && |Older(rows, runner, n)| == |at|
            && forall k | 0 <= k < |at| :: |Older(rows, runner, at[k])| == k
  {
    if n > 0 {
      assert rows[..n][..n - 1] == rows[..n - 1];
      PlacesCount(rows, runner, n - 1);
      OlderGrows(rows, runner, n - 1);
      hide Older;
    }
  }

  /** The other places. */
  function Others(n: nat, at: seq<nat>): seq<nat> {
    if n == 0 then [] else Others(n - 1, at) + if n - 1 in at then [] else [n - 1]
  }

  lemma {:induction false} OthersOf(n: nat, at: seq<nat>)
    ensures var rest := Others(n, at);
            && (forall k | 0 <= k < |rest| :: rest[k] < n)
            && (forall j, k | 0 <= j < k < |rest| :: rest[j] < rest[k])
            && forall i | 0 <= i < n :: i in rest <==> i !in at
  {
    if n > 0 {
      OthersOf(n - 1, at);
    }
  }

  lemma {:induction false} UndeliveredOf(rows: seq<Row>, batch: seq<Row>, at: seq<nat>, n: nat)
    requires n <= |rows| && Picks(rows, Others(n, at))
    requires forall i | 0 <= i < |rows| :: rows[i] in batch <==> i in at
    ensures Undelivered(rows[..n], batch) == Chosen(rows, Others(n, at))
  {
    if n > 0 {
      OthersOf(n - 1, at);
      var before := Others(n - 1, at);
      assert Picks(rows, before);
      hide Undelivered, Chosen;
      UndeliveredOf(rows, batch, at, n - 1);
      UndeliveredNext(rows, batch, n);
      if n - 1 !in at {
        ChosenSnoc(rows, before, n - 1);
      }
      hide Picks;
    } else {
      assert rows[..0] == [];
    }
  }

  lemma UndeliveredNext(rows: seq<Row>, batch: seq<Row>, n: nat)
    requires 0 < n <= |rows|
    ensures Undelivered(rows[..n], batch)
            == Undelivered(rows[..n - 1], batch) + if rows[n - 1] in batch then [] else [rows[n - 1]]
  {
    assert rows[..n][..n - 1] == rows[..n - 1];
  }

  lemma ChosenSnoc(rows: seq<Row>, at: seq<nat>, i: nat)
    requires i < |rows| && Picks(rows, at) && Picks(rows, at + [i])
    ensures Chosen(rows, at + [i]) == Chosen(rows, at) + [rows[i]]
  {
  }

  lemma AmongChosen(rows: seq<Row>, at: seq<nat>, i: nat)
    requires Picks(rows, at) && i < |rows|
    requires forall i, j | 0 <= i < j < |rows| :: rows[i] != rows[j]
    ensures rows[i] in Chosen(rows, at) <==> i in at
  {
    if i in at {
      var k :| 0 <= k < |at| && at[k] == i;
      assert Chosen(rows, at)[k] == rows[i];
    }
  }

  lemma {:induction false} MessagesOf(batch: seq<Row>)
    ensures |Messages(batch)| == |batch| && forall k | 0 <= k < |batch| :: Messages(batch)[k] == batch[k].msg
  {
    if batch != [] {
      MessagesOf(batch[..|batch| - 1]);
    }
  }

  /** What a drain comes to: the messages at these places were handed over, in order and
      each once, and the rows at the other places are what is left, as they were. */
  predicate HandedOver(s: State, s': State, taken: seq<nat>, left: seq<nat>) {
    && Picks(s.rows, taken) && Picks(s.rows, left) && (forall i | 0 <= i < |s.rows| :: i in left <==> i !in taken)
    && |s'.sent| == |s.sent| + |taken| && s.sent <= s'.sent
    && (forall k | 0 <= k < |taken| :: s'.sent[|s.sent| + k] == s.rows[taken[k]].msg)
    && |s'.rows| == |left| && (forall k | 0 <= k < |left| :: s'.rows[k] == s.rows[left[k]])
  }

  lemma BatchHandedOver(s: State, s': State, taken: seq<nat>, left: seq<nat>)
    requires Picks(s.rows, taken) && left == Others(|s.rows|, taken)
    requires forall i, j | 0 <= i < j < |s.rows| :: s.rows[i] != s.rows[j]
    requires s'.sent == s.sent + Messages(Chosen(s.rows, taken)) && s'.rows == Undelivered(s.rows, Chosen(s.rows, taken))
    ensures HandedOver(s, s', taken, left)
  {
    hide Undelivered, Messages;
    MessagesOf(Chosen(s.rows, taken));
    OthersOf(|s.rows|, taken);
    forall i | 0 <= i < |s.rows|
      ensures s.rows[i] in Chosen(s.rows, taken) <==> i in taken
    {
      AmongChosen(s.rows, taken, i);
    }
    UndeliveredOf(s.rows, Chosen(s.rows, taken), taken, |s.rows|);
    assert s.rows[..|s.rows|] == s.rows;
  }

  lemma FirstPlaces(rows: seq<Row>, runner: string, n: nat, i: nat)
    requires n <= |Places(rows, runner)| && i < |rows| && rows[i].msg.runner == runner
    ensures i in Places(rows, runner)[..n] <==> |Older(rows, runner, i)| < n
    ensures |Older(rows, runner, i)| < |Places(rows, runner)|
  {
    hide Older, Places;
    var at := Places(rows, runner);
    PlacesOf(rows, runner);
    PlacesCount(rows, runner, |rows|);
    assert rows[..|rows|] == rows;
    var k :| 0 <= k < |at| && at[k] == i;
    if k < n {
      assert at[..n][k] == i;
    }
    hide Chosen, RowsOf;
  }

  lemma BatchPlaces(rows: seq<Row>, runner: string, n: nat)
    requires n <= |Batch(rows, runner)|
    ensures n <= |Places(rows, runner)| && Picks(rows, Places(rows, runner)[..n])
    ensures Batch(rows, runner)[..n] == Chosen(rows, Places(rows, runner)[..n])
    ensures |Batch(rows, runner)| == if |Places(rows, runner)| > 1000 then 1000 else |Places(rows, runner)|
  {
    PlacesOf(rows, runner);
    hide RowsOf, Places;
  }

  lemma BatchIsFirst(rows: seq<Row>, runner: string, accepted: nat) returns (taken: seq<nat>)
    ensures Picks(rows, taken) && |taken| <= |Batch(rows, runner)| && Batch(rows, runner)[..|taken|] == Chosen(rows, taken)
    ensures |taken| == if accepted < |Batch(rows, runner)| then accepted else |Batch(rows, runner)|
    ensures forall i | 0 <= i < |rows| ::
              i in taken <==> rows[i].msg.runner == runner && |Older(rows, runner, i)| < accepted && |Older(rows, runner, i)| < 1000
  {
    hide RowsOf, Older, Places, Batch, Chosen, Picks;
    var n := |Batch(rows, runner)|;
    BatchPlaces(rows, runner, n);
    taken := Places(rows, runner)[..if accepted < n then accepted else n];
    BatchPlaces(rows, runner, |taken|);
    forall i | 0 <= i < |rows|
      ensures i in taken <==> rows[i].msg.runner == runner && |Older(rows, runner, i)| < accepted && |Older(rows, runner, i)| < 1000
    {
      if rows[i].msg.runner == runner {
        FirstPlaces(rows, runner, |taken|, i);
      } else if i in taken {
        assert i in Places(rows, runner);
        PlacesOf(rows, runner);
      }
    }
  }

  /** A drain of which `accepted` sends succeed hands over the runner's oldest rows, as
      many of them, but no more than a thousand. */
  lemma DrainTakesTheOldest(s: State, runner: string, accepted: nat, env: Env) returns (taken: seq<nat>, left: seq<nat>)
    requires Inv(s, {})
    ensures var batch := Batch(s.rows, runner);
            HandedOver(s, Run(s, DrainEvents(if accepted < |batch| then batch[..accepted] else batch, {}), env), taken, left)
    ensures forall i | 0 <= i < |s.rows| ::
              i in taken <==> s.rows[i].msg.runner == runner
                              && |Older(s.rows, runner, i)| < accepted && |Older(s.rows, runner, i)| < 1000
  {
    hide Inv, Run, DrainEvents, RowsOf, Undelivered, Messages, Listed, Older, Picks, Chosen, HandedOver, Batch;
    taken := BatchIsFirst(s.rows, runner, accepted);
    var batch := Batch(s.rows, runner);
    BatchIsListed(s, runner);
    ListedDistinct(s.rows, batch);
    DrainedSoFar(s, batch, |taken|, env);
    left := Others(|s.rows|, taken);
    BatchHandedOver(s, Run(s, DrainEvents(batch[..|taken|], {}), env), taken, left);
    assert accepted >= |batch| ==> batch[..|taken|] == batch;
  }

  lemma OlderBounds(rows: seq<Row>, runner: string, i: nat)
    requires i < |rows| && rows[i].msg.runner == runner
    ensures |Older(rows, runner, i)| < |Older(rows, runner, |rows|)|
  {
    var few, many := Older(rows, runner, i), Older(rows, runner, |rows|);
    assert few < many && i in many && i !in few;
    Smaller(few, many, i);
  }

  lemma {:induction false} Smaller(few: set<nat>, many: set<nat>, i: nat)
    requires few <= many && i in many && i !in few
    ensures |few| < |many|
  {
    if few != {} {
      var j :| j in few;
      Smaller(few - {j}, many - {j}, i);
    }
  }

  /** So a drain that is not cut short leaves nothing stored for a runner that had at
      most a thousand rows, and takes nobody else's. */
  lemma DrainedDry(s: State, runner: string, env: Env)
    requires Inv(s, {}) && |Older(s.rows, runner, |s.rows|)| <= 1000
    ensures var s' := Run(s, DrainEvents(Batch(s.rows, runner), {}), env);
            && (forall row :: row in s'.rows <==> row in s.rows && row.msg.runner != runner)
            && (forall row | row in s.rows && row.msg.runner == runner :: exists k :: |s.sent| <= k < |s'.sent| && s'.sent[k] == row.msg)
  {
    hide Inv, Run, DrainEvents, Batch, Older;
    var most := |Batch(s.rows, runner)| + 1000;
    var taken, left := DrainTakesTheOldest(s, runner, most, env);
    forall i | 0 <= i < |s.rows| && s.rows[i].msg.runner == runner
      ensures i in taken
    {
      OlderBounds(s.rows, runner, i);
    }
    DryAre(s, Run(s, DrainEvents(Batch(s.rows, runner), {}), env), runner, taken, left);
    hide HandedOver;
  }

  lemma DryAre(s: State, s': State, runner: string, taken: seq<nat>, left: seq<nat>)
    requires HandedOver(s, s', taken, left) && forall i | 0 <= i < |s.rows| :: i in taken <==> s.rows[i].msg.runner == runner
    ensures forall row :: row in s'.rows <==> row in s.rows && row.msg.runner != runner
    ensures forall row | row in s.rows && row.msg.runner == runner :: exists k :: |s.sent| <= k < |s'.sent| && s'.sent[k] == row.msg
  {
    forall row | row in s.rows && row.msg.runner != runner
      ensures row in s'.rows
    {
      var i :| 0 <= i < |s.rows| && s.rows[i] == row;
      var k :| 0 <= k < |left| && left[k] == i;
      assert s'.rows[k] == row;
    }
    forall row | row in s.rows && row.msg.runner == runner
      ensures exists k :: |s.sent| <= k < |s'.sent| && s'.sent[k] == row.msg
    {
      var i :| 0 <= i < |s.rows| && s.rows[i] == row;
      var k :| 0 <= k < |taken| && taken[k] == i;
      assert s'.sent[|s.sent| + k] == row.msg;
    }
  }
}
