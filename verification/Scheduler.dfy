/**
 The gateway's turn scheduler as a step system on values.

 A user message passes through up to four places: the list parked behind its
 thread, the waiting list of its runner, the persisted offline rows and the map
 of live turns. The state below is what the gateway keeps, followed by history
 that the gateway does not keep but the claims are about.

 A turn is named after the message it was opened for. The gateway draws a fresh
 name instead; the invariant shows that a message opens at most one turn, so the
 two namings tell the same turns apart.
 */
module Scheduler {

  const MAX_QUEUE_DEPTH := 25
  const DRAIN_LIMIT := 1000

  /** An inbound message with the routing decided on arrival. `cap` is the
      runner's concurrency limit as configured then; zero or less is unlimited. */
  datatype Msg = Msg(id: nat, thread: string, runner: string, cap: int)

  datatype RunnerQueue = RunnerQueue(active: int, waiting: seq<Msg>)

  datatype Turn = Turn(msg: Msg, queued: bool)

  datatype Row = Row(id: nat, msg: Msg)

  datatype Outcome = Completed | RunnerFailed | Swept | Abandoned | Refused | NotStarted

  /** Where a message is. `InHand` only occurs inside a handler. */
  datatype Place = InHand | Parking | Waitlisted | Running | Stored | Gone(outcome: Outcome)

  /** What the world answers during one dispatch attempt: hub membership at the
      concurrency gate, the turn row's insert, reachability and the send itself,
      then the offline queue's depth query, its limit, the encoding and the insert. */
  datatype Answer = Answer(
    online: bool, started: bool, reachable: bool, sent: bool,
    counted: bool, limit: int, encoded: bool, enqueued: bool)

  /** The answers, by attempt number and runner: any behaviour of hub and store. */
  type Env = (nat, string) -> Answer

  datatype State = State(
    queues: map<string, RunnerQueue>,
    active: set<string>,
    parked: map<string, seq<Msg>>,
    turns: map<nat, Turn>,
    rows: seq<Row>,
    nextRow: nat,
    calls: nat,
    // history
    arrivals: seq<Msg>,
    place: seq<Place>,
    occupant: map<string, nat>,
    sent: seq<Msg>,
    leaked: map<string, nat>)

  const INITIAL := State(map[], {}, map[], map[], [], 0, 0, [], [], map[], [], map[])

  /** Records where a message went; history only. */
  function Placed(place: seq<Place>, id: nat, p: Place): seq<Place> {
    if id < |place| then place[id := p] else place
  }

  function Put(s: State, id: nat, p: Place): State {
    s.(place := Placed(s.place, id, p))
  }

  function Parked(s: State, t: string): seq<Msg> {
    if t in s.parked then s.parked[t] else []
  }

  function Queue(s: State, r: string): RunnerQueue {
    if r in s.queues then s.queues[r] else RunnerQueue(0, [])
  }

  function Waiting(s: State, r: string): seq<Msg> {
    Queue(s, r).waiting
  }

  // ------------------------------------------------------------------
  // Moves: each places, takes or ends one message
  // ------------------------------------------------------------------

  function Claim(s: State, m: Msg): State {
    s.(active := s.active + {m.thread}, arrivals := s.arrivals + [m], place := s.place + [InHand],
      occupant := s.occupant[m.thread := m.id])
  }

  function Park(s: State, m: Msg): State {
    s.(parked := s.parked[m.thread := Parked(s, m.thread) + [m]],
       arrivals := s.arrivals + [m], place := s.place + [Parking])
  }

  function Unpark(s: State, t: string): State
    requires Parked(s, t) != []
  {
    Put(s, s.parked[t][0].id, InHand).(parked := s.parked[t := s.parked[t][1..]],
      occupant := s.occupant[t := s.parked[t][0].id])
  }

  function Release(s: State, t: string): State {
    s.(active := s.active - {t}, parked := s.parked - {t})
  }

  function TakeSlot(s: State, m: Msg): State {
    var q := Queue(s, m.runner);
    s.(queues := s.queues[m.runner := RunnerQueue(q.active + 1, q.waiting)])
  }

  function Wait(s: State, m: Msg): State {
    var q := Queue(s, m.runner);
    Put(s, m.id, Waitlisted).(queues := s.queues[m.runner := RunnerQueue(q.active, q.waiting + [m])])
  }

  function Refuse(s: State, m: Msg): State {
    Put(s, m.id, Gone(Refused)).(queues := s.queues[m.runner := Queue(s, m.runner)], leaked := s.leaked[m.thread := m.id],
      occupant := s.occupant - {m.thread})
  }

  function FailStart(s: State, m: Msg): State {
    Put(s, m.id, Gone(NotStarted)).(leaked := s.leaked[m.thread := m.id],
      occupant := s.occupant - {m.thread})
  }

  function Send(s: State, m: Msg): State {
    Put(s, m.id, Running).(turns := s.turns[m.id := Turn(m, false)], sent := s.sent + [m])
  }

  function Hold(s: State, m: Msg): State {
    Put(s, m.id, Stored).(turns := s.turns[m.id := Turn(m, true)],
      rows := s.rows + [Row(s.nextRow, m)], nextRow := s.nextRow + 1)
  }

  function Drop(s: State, m: Msg): State {
    Put(s, m.id, Gone(Abandoned)).(turns := s.turns - {m.id}, occupant := s.occupant - {m.thread})
  }

  function EndTurn(s: State, id: nat, o: Outcome): State
    requires id in s.turns
  {
    Put(s, id, Gone(o)).(turns := s.turns - {id}, occupant := s.occupant - {s.turns[id].msg.thread})
  }

  /** Gives a slot back and, if somebody waits, hands it to the head at once. */
  function FreeSlot(s: State, r: string): State {
    if r !in s.queues then s else
    var q := s.queues[r];
    var left := if q.active > 0 then q.active - 1 else q.active;
    if q.waiting == [] then s.(queues := s.queues[r := RunnerQueue(left, [])])
    else Put(s, q.waiting[0].id, InHand).(queues := s.queues[r := RunnerQueue(left + 1, q.waiting[1..])])
  }

  // ------------------------------------------------------------------
  // Handlers
  // ------------------------------------------------------------------

  /** The rows stored for a runner, oldest first. */
  function RowsOf(rows: seq<Row>, r: string): (q: seq<Row>)
    ensures forall k | 0 <= k < |q| :: q[k] in rows && q[k].msg.runner == r
  {
    if rows == [] then []
    else RowsOf(rows[..|rows| - 1], r) + if rows[|rows| - 1].msg.runner == r then [rows[|rows| - 1]] else []
  }

  predicate Queueable(s: State, r: string, a: Answer) {
    var depth := if a.counted then |RowsOf(s.rows, r)| else 0;
    !(a.limit > 0 && depth >= a.limit) && a.encoded && a.enqueued
  }

  /** One attempt to open a turn; the flag says that the message was abandoned
      and its thread still has to be ended. */
  function TryTurn(s: State, m: Msg, env: Env): (r: (State, bool))
    ensures r.0.parked == s.parked
  {
    var a := env(s.calls, m.runner);
    var s1 := s.(calls := s.calls + 1);
    if !a.started then (FailStart(s1, m), false)
    else if a.reachable && a.sent then (Send(s1, m), false)
    else if Queueable(s1, m.runner, a) then (Hold(s1, m), false)
    else (Drop(s1, m), true)
  }

  /** The same behind the runner's concurrency gate, which an offline or
      unlimited runner does not have. */
  function TryAdmitted(s: State, m: Msg, env: Env): (r: (State, bool))
    ensures r.0.parked == s.parked
  {
    var q := Queue(s, m.runner);
    if !(env(s.calls, m.runner).online && m.cap > 0) then TryTurn(s, m, env)
    else if q.active < m.cap && q.waiting == [] then TryTurn(TakeSlot(s, m), m, env)
    else if |q.waiting| >= MAX_QUEUE_DEPTH then (Refuse(s, m).(calls := s.calls + 1), false)
    else (Wait(s, m).(calls := s.calls + 1), false)
  }

  /** Frees the thread, or dispatches the head of its parked list; an abandoned
      head ends the thread again, so the cascade consumes the parked list. */
  function EndThread(s: State, t: string, env: Env): State
    decreases |Parked(s, t)|
  {
    if Parked(s, t) == [] then Release(s, t)
    else
      var (s1, dropped) := TryAdmitted(Unpark(s, t), s.parked[t][0], env);
      if dropped then EndThread(s1, t, env) else s1
  }

  function DispatchTurn(s: State, m: Msg, env: Env): State {
    var (s1, dropped) := TryTurn(s, m, env);
    if dropped then EndThread(s1, m.thread, env) else s1
  }

  function DispatchAdmitted(s: State, m: Msg, env: Env): State {
    var (s1, dropped) := TryAdmitted(s, m, env);
    if dropped then EndThread(s1, m.thread, env) else s1
  }

  function SlotFreed(s: State, r: string, env: Env): State {
    if Waiting(s, r) == [] then FreeSlot(s, r)
    else DispatchTurn(FreeSlot(s, r), Waiting(s, r)[0], env)
  }

  function Finish(s: State, id: nat, o: Outcome, env: Env): State
    requires id in s.turns
  {
    var m := s.turns[id].msg;
    EndThread(SlotFreed(EndTurn(s, id, o), m.runner, env), m.thread, env)
  }

  function Arrive(s: State, t: string, r: string, cap: int, env: Env): State {
    var m := Msg(|s.arrivals|, t, r, cap);
    if t in s.active then Park(s, m) else DispatchAdmitted(Claim(s, m), m, env)
  }

  function RowAt(rows: seq<Row>, row: nat): (i: nat)
    ensures i <= |rows|
    ensures i < |rows| ==> rows[i].id == row
    ensures i == |rows| ==> forall j | 0 <= j < |rows| :: rows[j].id != row
    ensures forall j | 0 <= j < i :: rows[j].id != row
  {
    if rows == [] then 0 else if rows[0].id == row then 0 else 1 + RowAt(rows[1..], row)
  }

  /** One row of a drain whose send was accepted; `deleted` is the store's answer. */
  function Ship(s: State, row: nat, deleted: bool): State {
    var i := RowAt(s.rows, row);
    if i == |s.rows| then s else
    var m := s.rows[i].msg;
    s.(sent := s.sent + [m],
       place := if m.id in s.turns then Placed(s.place, m.id, Running) else s.place,
       turns := if m.id in s.turns then s.turns[m.id := Turn(s.turns[m.id].msg, false)] else s.turns,
       rows := if deleted then s.rows[..i] + s.rows[i + 1..] else s.rows)
  }

  /** `Report` is a Done or Error frame from a runner. `Visit` is one stop of the
      stranded sweep or of the disconnect reconcile, which passes the runner. */
  datatype Event =
    | Message(thread: string, runner: string, cap: int)
    | Report(turn: nat, failed: bool)
    | Visit(turn: nat, only: set<string>, every: bool)
    | Shipment(row: nat, deleted: bool)

  predicate Visits(s: State, ev: Event)
    requires ev.Visit?
  {
    ev.turn in s.turns && !s.turns[ev.turn].queued
    && (ev.every || s.turns[ev.turn].msg.runner in ev.only)
  }

  function Apply(s: State, ev: Event, env: Env): State {
    match ev
    case Message(t, r, cap) => Arrive(s, t, r, cap, env)
    case Report(id, failed) =>
      if id in s.turns then Finish(s, id, if failed then RunnerFailed else Completed, env) else s
    case Visit(id, _, _) => if Visits(s, ev) then Finish(s, id, Swept, env) else s
    case Shipment(row, deleted) => Ship(s, row, deleted)
  }

  function Run(s: State, evs: seq<Event>, env: Env): State
    decreases |evs|
  {
    if evs == [] then s
    else Apply(Run(s, evs[..|evs| - 1], env), evs[|evs| - 1], env)
  }
}
