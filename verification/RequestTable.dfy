/** The request table as the runner keeps it: what its reader does between two reads. */
module RequestTable {
  import opened Requests
  import opened Wrappers

  /** Each entry is failed in turn, in the order in which the table yields them. */
  function FailEach(order: seq<nat>): seq<Act> {
    if order == [] then [] else FailEach(order[..|order| - 1]) + [Fail(order[|order| - 1]), Hand]
  }

  lemma TraceTwo(w: World, acts: seq<Act>, a: Act, b: Act)
    ensures Trace(w, acts + [a, b]) == Step(Step(Trace(w, acts), a), b)
  {
    hide Step;
    assert (acts + [a, b])[..|acts| + 1] == acts + [a];
    assert (acts + [a])[..|acts|] == acts;
  }

  lemma TraceOne(w: World, acts: seq<Act>, a: Act)
    ensures Trace(w, acts + [a]) == Step(Trace(w, acts), a)
  {
    hide Step;
    assert (acts + [a])[..|acts|] == acts;
  }

  /** A drop, handled up to the first `n` entries. */
  function Failed(w: World, order: seq<nat>, n: nat): World
    requires n <= |order|
  {
    Trace(w, [StartFailing] + FailEach(order[..n]))
  }

  /** A drop, handled. */
  function FailedAll(w: World, order: seq<nat>): World {
    Step(Failed(w, order, |order|), StopFailing)
  }

  lemma FailFirst(w: World, order: seq<nat>)
    ensures Failed(w, order, 0) == Step(w, StartFailing)
  {
    hide Step;
    assert [StartFailing] + FailEach(order[..0]) == [StartFailing];
    TraceOne(w, [], StartFailing);
    assert [] + [StartFailing] == [StartFailing];
  }

  lemma FailNext(w: World, order: seq<nat>, n: nat)
    requires n < |order|
    ensures Failed(w, order, n + 1) == Step(Step(Failed(w, order, n), Fail(order[n])), Hand)
  {
    hide Step;
    assert order[..n + 1][..n] == order[..n];
    AppendAgain([StartFailing], FailEach(order[..n]), [Fail(order[n]), Hand]);
    TraceTwo(w, [StartFailing] + FailEach(order[..n]), Fail(order[n]), Hand);
  }

  class Table {
    var calls: map<nat, Call>
    var pending: set<nat>
    var conn: Option<nat>

    constructor ()
      ensures View(Offline(0)) == IDLE
    {
      calls, pending, conn := map[], {}, None;
    }

    ghost function View(reader: Reader): World
      reads this
    {
      World(calls, pending, conn, reader)
    }

    method Add(id: nat, ghost reader: Reader)
      requires id !in calls
      modifies this
      ensures View(reader) == Step(old(View(reader)), Register(id))
    {
      calls := calls[id := Call(Registered, None, 0)];
      pending := pending + {id};
    }

    /** Hands a reply to whoever waits for it; a full channel drops it. */
    method ResolvePending(id: nat, body: nat, ghost epoch: nat)
      modifies this
      ensures View(Reading(epoch)) == Trace(old(View(Reading(epoch))), [Claim(id, body), Hand])
    {
      TraceTwo(View(Reading(epoch)), [], Claim(id, body), Hand);
      assert [] + [Claim(id, body), Hand] == [Claim(id, body), Hand];
      if id !in pending {
        return;
      }
      pending := pending - {id};
      Offer(id, Requests.Reply(body));
    }

    method Offer(id: nat, v: Value)
      modifies this`calls
      ensures forall r :: View(r) == Push(old(View(r)), id, v)
    {
      if id in calls && calls[id].channel.None? {
        calls := calls[id := calls[id].(channel := Some(v), pushes := calls[id].pushes + 1)];
      }
    }

    /** Unblocks every waiter when the connection of `epoch` is gone. */
    method FailPending(order: seq<nat>, ghost epoch: nat)
      requires conn.None? && forall id | id in pending :: id in order
      modifies this`calls, this`pending
      ensures pending == {}
      ensures View(Offline(epoch)) == FailedAll(old(View(Dropped(epoch))), order)
    {
      hide Failed;
      ghost var start := View(Dropped(epoch));
      ghost var must, seen := pending, {};
      FailFirst(start, order);
      for i := 0 to |order|
        invariant View(Failing(epoch, must, seen)) == Failed(start, order, i)
        invariant pending == must - (set k | 0 <= k < i :: order[k]) && seen !! pending
      {
        var id := order[i];
        FailNext(start, order, i);
        if id in pending {
          pending := pending - {id};
          seen := seen + {id};
          Offer(id, Lost);
        }
      }
      assert pending == {};
    }
  }

  lemma {:induction false} FailedSoFar(w: World, order: seq<nat>, n: nat)
    requires w.reader.Dropped? && n <= |order|
    ensures var w' := Failed(w, order, n);
            && w'.reader.Failing? && w'.reader.epoch == w.reader.epoch && w'.reader.must == w.pending
            && w'.pending == w.pending - (set k | 0 <= k < n :: order[k]) && w'.reader.seen !! w'.pending
            && w'.calls.Keys == w.calls.Keys && forall id | id in w.calls :: w'.calls[id].phase == w.calls[id].phase
  {
    hide Failed;
    if n == 0 {
      FailFirst(w, order);
    } else {
      FailedSoFar(w, order, n - 1);
      FailNext(w, order, n - 1);
    }
  }

  /** Every entry listed at the drop has been told by then, if the walk has reached it,
      that the connection is lost; nobody else was told anything. */
  lemma {:induction false} ToldSoFar(w: World, order: seq<nat>, n: nat, id: nat)
    requires Inv(w) && w.reader.Dropped? && n <= |order| && id in w.calls
    ensures var w' := Failed(w, order, n);
            && id in w'.calls
            && w'.calls[id] == if id in w.pending && id in order[..n] then w.calls[id].(channel := Some(Lost), pushes := 1) else w.calls[id]
  {
    hide Failed;
    assert Promised(w, id, w.calls[id]);
    if n == 0 {
      FailFirst(w, order);
    } else {
      FailedSoFar(w, order, n - 1);
      ToldSoFar(w, order, n - 1, id);
      FailNext(w, order, n - 1);
      assert order[..n] == order[..n - 1] + [order[n - 1]];
    }
  }

  /** Once a drop has been handled the table is empty, every entry that was listed has been
      told that the connection is lost, every other call is as it was, and every waiter
      that wrote to the dropped connection has its value. */
  lemma DropLeavesNobody(w: World, order: seq<nat>, id: nat)
    requires Inv(w) && w.reader.Dropped? && id in w.calls && forall x | x in w.pending :: x in order
    ensures var w' := FailedAll(w, order);
            && w'.pending == {} && w'.reader == Offline(w.reader.epoch) && id in w'.calls
            && w'.calls[id] == (if id in w.pending then w.calls[id].(channel := Some(Lost), pushes := 1) else w.calls[id])
            && (w.calls[id].phase == Waiting(w.reader.epoch) ==> w'.calls[id].channel.Some?)
  {
    ToldSoFar(w, order, |order|, id);
    assert order[..|order|] == order;
    FailedSoFar(w, order, |order|);
    var w1 := Failed(w, order, |order|);
    assert w1.pending == {};
    DropKeeps(w, order);
    var w' := FailedAll(w, order);
    hide Failed, Inv;
    if w.calls[id].phase == Waiting(w.reader.epoch) {
      WaiterHasIt(w', id);
    }
  }

  /** A connection that drops is failed over, and the next one is open under a new number. */
  lemma DropAndReturn(w: World, order: seq<nat>)
    requires Inv(w) && w.reader.Reading? && forall x | x in w.pending :: x in order
    ensures var w' := Step(FailedAll(Step(w, Drop), order), Connect);
            && w'.pending == {} && w'.conn == Some(w.reader.epoch + 1) && w'.reader == Reading(w.reader.epoch + 1)
            && w'.calls.Keys == w.calls.Keys && forall id | id in w.calls :: w'.calls[id].phase == w.calls[id].phase
  {
    FailedSoFar(Step(w, Drop), order, |order|);
    assert Failed(Step(w, Drop), order, |order|).pending == {};
    hide Inv, Failed;
  }

  lemma DropKeeps(w: World, order: seq<nat>)
    requires Inv(w)
    ensures Inv(FailedAll(w, order))
  {
    hide Inv, Step;
    FromKeeps(w, [StartFailing] + FailEach(order[..|order|]));
    StepKeeps(Failed(w, order, |order|), StopFailing);
  }

  lemma WaiterHasIt(w: World, id: nat)
    requires Inv(w) && w.reader.Offline? && id in w.calls && w.calls[id].phase == Waiting(w.reader.epoch)
    ensures w.calls[id].channel.Some?
  {
    assert Promised(w, id, w.calls[id]) && Reached(w, id, w.calls[id].phase);
    assert Uses(w.calls[id].phase, w.reader.epoch);
  }

  lemma {:induction false} FromKeeps(w: World, acts: seq<Act>)
    requires Inv(w)
    ensures Inv(Trace(w, acts))
    decreases |acts|
  {
    hide Inv, Step;
    if acts != [] {
      FromKeeps(w, acts[..|acts| - 1]);
      StepKeeps(Trace(w, acts[..|acts| - 1]), acts[|acts| - 1]);
    }
  }
}
