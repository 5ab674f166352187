/**
 The runner's request table: callers, one reader and connections that come and go.

 Every caller registers a channel for one value, sends, and waits. One goroutine
 reads a connection, hands replies over, and fails what is left when it drops.
 */
module Requests {
  import opened Wrappers

  /** What a channel carries: a reply, or word that the connection is lost. */
  datatype Value = Reply(body: nat) | Lost

  datatype Result = Answered(value: Value) | SendFailed | TimedOut

  /** Registered, the connection picked for the write, waiting after a write on
      connection `epoch`, about to remove the entry, and gone. */
  datatype Phase =
    | Registered
    | Picked(conn: Option<nat>)
    | Waiting(epoch: nat)
    | Returning(result: Result)
    | Done(result: Result)

  /** `channel` buffers one value; `pushes` counts the values ever put in. */
  datatype Call = Call(phase: Phase, channel: Option<Value>, pushes: nat)

  /** The reader of connection `epoch`: reading, holding a claimed waiter, having
      cleared the connection, failing the waiters it still has to see, or done. */
  datatype Reader =
    | Reading(epoch: nat)
    | Handing(epoch: nat, id: nat, value: Value)
    | Dropped(epoch: nat)
    | Failing(epoch: nat, must: set<nat>, seen: set<nat>)
    | FailHanding(epoch: nat, must: set<nat>, seen: set<nat>, id: nat)
    | Offline(epoch: nat)

  datatype World = World(calls: map<nat, Call>, pending: set<nat>, conn: Option<nat>, reader: Reader)

  datatype Act =
    | Register(id: nat)
    | Pick(id: nat)
    | Write(id: nat, ok: bool)
    | Receive(id: nat)
    | Expire(id: nat)
    | Leave(id: nat)
    | Claim(id: nat, body: nat)
    | Hand
    | Drop
    | StartFailing
    | Fail(id: nat)
    | StopFailing
    | Connect

  function Put(w: World, id: nat, c: Call): World {
    w.(calls := w.calls[id := c])
  }

  /** A send on a full channel is dropped. */
  function Push(w: World, id: nat, v: Value): World {
    if id in w.calls && w.calls[id].channel.None?
    then Put(w, id, w.calls[id].(channel := Some(v), pushes := w.calls[id].pushes + 1))
    else w
  }

  function CallStep(w: World, a: Act): World
    requires a.Pick? || a.Write? || a.Receive? || a.Expire? || a.Leave?
    requires a.id in w.calls
  {
    var c := w.calls[a.id];
    match a
    case Pick(id) => if c.phase.Registered? then Put(w, id, c.(phase := Picked(w.conn))) else w
    case Write(id, ok) =>
      if !c.phase.Picked? then w
      else if c.phase.conn.Some? && ok then Put(w, id, c.(phase := Waiting(c.phase.conn.value)))
      else Put(w, id, c.(phase := Returning(SendFailed)))
    case Receive(id) =>
      if c.phase.Waiting? && c.channel.Some? then
        Put(w, id, c.(phase := Returning(Answered(c.channel.value)), channel := None))
      else w
    case Expire(id) => if c.phase.Waiting? then Put(w, id, c.(phase := Returning(TimedOut))) else w
    case Leave(id) =>
      if c.phase.Returning? then Put(w, id, c.(phase := Done(c.phase.result))).(pending := w.pending - {id}) else w
  }

  function ReaderStep(w: World, a: Act): World
    requires !(a.Register? || a.Pick? || a.Write? || a.Receive? || a.Expire? || a.Leave?)
  {
    var r := w.reader;
    match a
    case Claim(id, body) =>
      if r.Reading? && id in w.pending then
        w.(pending := w.pending - {id}, reader := Handing(r.epoch, id, Reply(body)))
      else w
    case Hand =>
      if r.Handing? then Push(w, r.id, r.value).(reader := Reading(r.epoch))
      else if r.FailHanding? then Push(w, r.id, Lost).(reader := Failing(r.epoch, r.must, r.seen))
      else w
    case Drop => if r.Reading? then w.(conn := None, reader := Dropped(r.epoch)) else w
    case StartFailing => if r.Dropped? then w.(reader := Failing(r.epoch, w.pending, {})) else w
    case Fail(id) =>
      if r.Failing? && id in w.pending && id !in r.seen then
        w.(pending := w.pending - {id}, reader := FailHanding(r.epoch, r.must, r.seen + {id}, id))
      else w
    case StopFailing => if r.Failing? && r.must * w.pending <= r.seen then w.(reader := Offline(r.epoch)) else w
    case Connect => if r.Offline? then w.(conn := Some(r.epoch + 1), reader := Reading(r.epoch + 1)) else w
  }

  function Step(w: World, a: Act): World {
    if a.Register? then
      if a.id in w.calls then w
      else Put(w, a.id, Call(Registered, None, 0)).(pending := w.pending + {a.id})
    else if a.Pick? || a.Write? || a.Receive? || a.Expire? || a.Leave? then
      if a.id in w.calls then CallStep(w, a) else w
    else ReaderStep(w, a)
  }

  const IDLE := World(map[], {}, None, Offline(0))

  function Trace(w: World, acts: seq<Act>): World
    decreases |acts|
  {
    if acts == [] then w else Step(Trace(w, acts[..|acts| - 1]), acts[|acts| - 1])
  }

  // ------------------------------------------------------------------
  // What every interleaving keeps
  // ------------------------------------------------------------------

  predicate Held(r: Reader, id: nat) {
    (r.Handing? || r.FailHanding?) && r.id == id
  }

  predicate Open(p: Phase) {
    p.Registered? || p.Picked? || p.Waiting?
  }

  /** The connection a call wrote to, or is about to. */
  predicate Uses(p: Phase, e: nat) {
    p == Waiting(e) || p == Picked(Some(e))
  }

  /** No more than one value, and until it is there, somebody will bring it. */
  predicate Promised(w: World, id: nat, c: Call) {
    && c.pushes <= 1
    && (c.channel.Some? ==> c.pushes == 1)
    && (id in w.pending || Held(w.reader, id) ==> c.pushes == 0)
    && !(id in w.pending && Held(w.reader, id))
    && (id in w.pending ==> !c.phase.Done?)
    && (Open(c.phase) ==> id in w.pending || Held(w.reader, id) || c.channel.Some?)
  }

  /** A call that used a connection whose failing has begun is still to be seen;
      once the failing is over it is neither pending nor held. */
  ghost predicate Reached(w: World, id: nat, p: Phase) {
    && (forall e: nat | Uses(p, e) :: e <= w.reader.epoch)
    && (forall e: nat | Uses(p, e) && (id in w.pending || Held(w.reader, id)) :: e == w.reader.epoch && !w.reader.Offline?)
    && (forall e: nat | Uses(p, e) && id in w.pending && (w.reader.Failing? || w.reader.FailHanding?) ::
          id in w.reader.must && id !in w.reader.seen)
  }

  ghost predicate Inv(w: World) {
    && w.pending <= w.calls.Keys
    && (w.reader.Handing? || w.reader.FailHanding? ==> w.reader.id in w.calls)
    && (forall id | id in w.calls :: Promised(w, id, w.calls[id]) && Reached(w, id, w.calls[id].phase))
    && w.conn == if w.reader.Reading? || w.reader.Handing? then Some(w.reader.epoch) else None
  }

  lemma CallKeeps(w: World, a: Act)
    requires Inv(w) && (a.Pick? || a.Write? || a.Receive? || a.Expire? || a.Leave?) && a.id in w.calls
    ensures Inv(CallStep(w, a))
  {
    var w' := CallStep(w, a);
    assert w'.reader == w.reader && w'.conn == w.conn && w'.pending <= w.pending && w'.calls.Keys == w.calls.Keys;
    CallSelf(w, a);
    forall id | id in w'.calls && id != a.id
      ensures Promised(w', id, w'.calls[id]) && Reached(w', id, w'.calls[id].phase)
    {
      assert w'.calls[id] == w.calls[id] && (id in w'.pending <==> id in w.pending);
      hide CallStep;
      assert Promised(w, id, w.calls[id]) && Reached(w, id, w.calls[id].phase);
    }
    hide CallStep, Promised, Reached;
  }

  lemma CallSelf(w: World, a: Act)
    requires Inv(w) && (a.Pick? || a.Write? || a.Receive? || a.Expire? || a.Leave?) && a.id in w.calls
    ensures var w' := CallStep(w, a);
            Promised(w', a.id, w'.calls[a.id]) && Reached(w', a.id, w'.calls[a.id].phase)
  {
    assert Promised(w, a.id, w.calls[a.id]) && Reached(w, a.id, w.calls[a.id].phase);
    if a.Write? && w.calls[a.id].phase.Picked? && w.calls[a.id].phase.conn.Some? {
      assert Uses(w.calls[a.id].phase, w.calls[a.id].phase.conn.value);
    }
  }

  lemma ReaderKeeps(w: World, a: Act)
    requires Inv(w) && !(a.Register? || a.Pick? || a.Write? || a.Receive? || a.Expire? || a.Leave?)
    ensures Inv(ReaderStep(w, a))
  {
    var w' := ReaderStep(w, a);
    forall id | id in w'.calls
      ensures Promised(w', id, w'.calls[id]) && Reached(w', id, w'.calls[id].phase)
    {
      assert Promised(w, id, w.calls[id]) && Reached(w, id, w.calls[id].phase);
    }
  }

  lemma RegisterKeeps(w: World, id: nat)
    requires Inv(w)
    ensures Inv(Step(w, Register(id)))
  {
  }

  lemma StepKeeps(w: World, a: Act)
    requires Inv(w)
    ensures Inv(Step(w, a))
  {
    hide Inv, CallStep, ReaderStep;
    if a.Register? {
      RegisterKeeps(w, a.id);
    } else if a.Pick? || a.Write? || a.Receive? || a.Expire? || a.Leave? {
      if a.id in w.calls {
        CallKeeps(w, a);
      }
    } else {
      ReaderKeeps(w, a);
    }
  }

  lemma {:induction false} TraceKeeps(acts: seq<Act>)
    ensures Inv(Trace(IDLE, acts))
    decreases |acts|
  {
    hide Inv, Step;
    if acts == [] {
      assert Inv(IDLE) by { IdleIsSound(); }
    } else {
      TraceKeeps(acts[..|acts| - 1]);
      StepKeeps(Trace(IDLE, acts[..|acts| - 1]), acts[|acts| - 1]);
    }
  }

  lemma IdleIsSound()
    ensures Inv(IDLE)
  {
  }

  // ------------------------------------------------------------------
  // What the callers get
  // ------------------------------------------------------------------

  /** Under any interleaving no waiter is forgotten: its one value is there, or the
      reader has it in hand, or the table still lists it. If the connection it
      wrote to was dropped and failed over, its value is there. No entry outlives
      its call. */
  lemma NoOrphans(acts: seq<Act>, id: nat)
    requires id in Trace(IDLE, acts).calls
    ensures var w := Trace(IDLE, acts); var c := w.calls[id];
            && c.pushes <= 1
            && (c.phase.Waiting? ==> c.channel.Some? || Held(w.reader, id) || id in w.pending)
            && (c.phase.Waiting? && (c.phase.epoch != w.reader.epoch || w.reader.Offline?) ==> c.channel.Some?)
            && (c.phase.Done? ==> id !in w.pending)
  {
    TraceKeeps(acts);
    hide Trace;
    var w := Trace(IDLE, acts);
    assert Promised(w, id, w.calls[id]) && Reached(w, id, w.calls[id].phase);
    if w.calls[id].phase.Waiting? {
      assert Uses(w.calls[id].phase, w.calls[id].phase.epoch);
    }
  }

  /** Until the caller takes it, nothing replaces a value that was put in. */
  lemma ValueStays(w: World, a: Act, id: nat, v: Value)
    requires Inv(w) && id in w.calls && w.calls[id].channel == Some(v)
    ensures var w' := Step(w, a);
            && id in w'.calls
            && (w'.calls[id].channel == Some(v) || w'.calls[id].phase == Returning(Answered(v)))
  {
    assert Promised(w, id, w.calls[id]);
  }

  /** A reply that the reader claims is what the caller finds, even if the write
      that asked for it has not returned yet. */
  lemma ReplyIsDelivered(w: World, id: nat, body: nat)
    requires Inv(w) && id in w.pending && w.reader.Reading?
    ensures var w1 := Step(w, Claim(id, body)); var w2 := Step(w1, Hand);
            && w2.reader == w.reader && id in w2.calls && w2.calls[id].channel == Some(Reply(body))
            && w2.calls[id].phase == w.calls[id].phase && id !in w2.pending
  {
    assert Promised(w, id, w.calls[id]);
  }

  /** The caller may move while the reader holds its waiter; it cannot lose it. */
  lemma HandedOver(w: World, id: nat, body: nat, epoch: nat)
    requires Inv(w) && w.reader == Handing(epoch, id, Reply(body))
    ensures var w' := Step(w, Hand); id in w'.calls && w'.calls[id].channel == Some(Reply(body))
  {
    assert Promised(w, id, w.calls[id]);
  }

  /** Failing a dropped connection fails no waiter that wrote to another one. */
  lemma FailsOnlyItsOwn(w: World, id: nat)
    requires Inv(w) && w.reader.Failing? && Step(w, Fail(id)) != w && w.calls[id].phase.Waiting?
    ensures w.calls[id].phase.epoch == w.reader.epoch && id in w.reader.must
  {
    assert Uses(w.calls[id].phase, w.calls[id].phase.epoch) && Reached(w, id, w.calls[id].phase);
  }

  // ------------------------------------------------------------------
  // Where what they get comes from
  // ------------------------------------------------------------------

  /** A reply was read for this call, or the call was failed after a drop. */
  predicate Sourced(acts: seq<Act>, id: nat, v: Value) {
    match v
    case Reply(body) => Claim(id, body) in acts
    case Lost => Fail(id) in acts
  }

  predicate ResultSourced(acts: seq<Act>, id: nat, r: Result) {
    match r
    case Answered(v) => Sourced(acts, id, v)
    case SendFailed => Write(id, true) in acts || Write(id, false) in acts
    case TimedOut => Expire(id) in acts
  }

  ghost predicate AllSourced(w: World, acts: seq<Act>) {
    && (forall id | id in w.calls ::
          && (w.calls[id].channel.Some? ==> Sourced(acts, id, w.calls[id].channel.value))
          && (w.calls[id].phase.Returning? || w.calls[id].phase.Done? ==> ResultSourced(acts, id, w.calls[id].phase.result)))
    && (w.reader.Handing? ==> Sourced(acts, w.reader.id, w.reader.value))
    && (w.reader.FailHanding? ==> Fail(w.reader.id) in acts)
  }

  lemma StillSourced(acts: seq<Act>, a: Act)
    ensures forall id, v | Sourced(acts, id, v) :: Sourced(acts + [a], id, v)
    ensures forall id, r | ResultSourced(acts, id, r) :: ResultSourced(acts + [a], id, r)
  {
  }

  lemma StepSourced(w: World, acts: seq<Act>, a: Act)
    requires AllSourced(w, acts)
    ensures AllSourced(Step(w, a), acts + [a])
  {
    assert a in acts + [a];
    StillSourced(acts, a);
  }

  lemma {:induction false} TraceSourced(acts: seq<Act>)
    ensures AllSourced(Trace(IDLE, acts), acts)
    decreases |acts|
  {
    hide AllSourced, Step;
    if acts == [] {
      IdleIsSourced();
    } else {
      var n := |acts| - 1;
      TraceSourced(acts[..n]);
      StepSourced(Trace(IDLE, acts[..n]), acts[..n], acts[n]);
      assert acts[..n] + [acts[n]] == acts;
    }
  }

  lemma IdleIsSourced()
    ensures AllSourced(IDLE, [])
  {
  }

  /** A caller is answered with a reply only if the reader read that reply for this very
      call, and hears that the connection is lost only if its entry was failed; it
      reports a failed write or a timeout only after one of its own. */
  lemma AnswersAreReal(acts: seq<Act>, id: nat)
    requires id in Trace(IDLE, acts).calls
    ensures var c := Trace(IDLE, acts).calls[id];
            && (c.channel.Some? ==>
                  match c.channel.value
                  case Reply(body) => Claim(id, body) in acts
                  case Lost => Fail(id) in acts)
            && (c.phase.Returning? || c.phase.Done? ==>
                  match c.phase.result
                  case Answered(Reply(body)) => Claim(id, body) in acts
                  case Answered(Lost) => Fail(id) in acts
                  case SendFailed => Write(id, true) in acts || Write(id, false) in acts
                  case TimedOut => Expire(id) in acts)
  {
    TraceSourced(acts);
    hide Trace;
  }

  /** An entry that is failed leaves its caller the word that the connection is lost. */
  lemma FailedHearsLost(w: World, id: nat)
    requires Inv(w) && w.reader.Failing? && id in w.pending && id !in w.reader.seen
    ensures var w' := Step(Step(w, Fail(id)), Hand);
            id in w'.calls && w'.calls[id].channel == Some(Lost) && id !in w'.pending && w'.calls[id].phase == w.calls[id].phase
  {
    assert Promised(w, id, w.calls[id]);
  }

  /** A call that nothing disturbs: registered, written on the open connection, its reply
      read and handed over, it returns that reply and leaves nothing behind. */
  lemma RoundTrip(w: World, id: nat, body: nat)
    requires Inv(w) && w.reader.Reading? && id !in w.calls
    ensures var w3 := Step(Step(Step(w, Register(id)), Pick(id)), Write(id, true));
            Step(Step(Step(Step(w3, Claim(id, body)), Hand), Receive(id)), Leave(id))
            == w.(calls := w.calls[id := Call(Done(Answered(Reply(body))), None, 1)])
  {
    Written(w, id);
    var sent := Call(Waiting(w.reader.epoch), None, 0);
    Served(w, w.(calls := w.calls[id := sent], pending := w.pending + {id}), id, body);
    hide Step, Inv;
  }

  lemma Written(w: World, id: nat)
    requires Inv(w) && w.reader.Reading? && id !in w.calls
    ensures Step(Step(Step(w, Register(id)), Pick(id)), Write(id, true))
            == w.(calls := w.calls[id := Call(Waiting(w.reader.epoch), None, 0)], pending := w.pending + {id})
  {
    hide Promised, Reached;
  }

  lemma Served(w: World, w3: World, id: nat, body: nat)
    requires Inv(w) && w.reader.Reading? && id !in w.calls
    requires w3 == w.(calls := w.calls[id := Call(Waiting(w.reader.epoch), None, 0)], pending := w.pending + {id})
    ensures Step(Step(Step(Step(w3, Claim(id, body)), Hand), Receive(id)), Leave(id))
            == w.(calls := w.calls[id := Call(Done(Answered(Reply(body))), None, 1)])
  {
    hide Promised, Reached;
    var w5 := Step(Step(w3, Claim(id, body)), Hand);
    assert id !in w.pending && w.pending + {id} - {id} == w.pending;
    assert w5 == w.(calls := w.calls[id := Call(Waiting(w.reader.epoch), Some(Reply(body)), 1)]);
    assert w.pending - {id} == w.pending;
  }

  /** A write that fails, or that finds no connection, takes the entry away again. */
  lemma FailedWrite(w: World, id: nat, ok: bool)
    requires Inv(w) && id !in w.calls && !(ok && w.conn.Some?)
    ensures Step(Step(Step(Step(w, Register(id)), Pick(id)), Write(id, ok)), Leave(id))
            == w.(calls := w.calls[id := Call(Done(SendFailed), None, 0)])
  {
    hide Promised, Reached;
    assert id !in w.pending && w.pending + {id} - {id} == w.pending;
  }

  /** So does a caller that gives up. */
  lemma GivesUp(w: World, id: nat)
    requires Inv(w) && id in w.calls && w.calls[id].phase.Waiting?
    ensures Step(Step(w, Expire(id)), Leave(id))
            == w.(calls := w.calls[id := w.calls[id].(phase := Done(TimedOut))], pending := w.pending - {id})
  {
    hide Promised, Reached;
  }
}
