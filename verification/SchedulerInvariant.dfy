/** What every handler of the scheduler keeps. */
module SchedulerInvariant {
  import opened Scheduler

  /** The places that make a message the occupant of its thread. */
  predicate Busy(p: Place) {
    p.Waitlisted? || p.Running? || p.Stored?
  }

  /** Sent to a runner, or never to be. */
  predicate Past(p: Place) {
    p.Running? || p.Gone?
  }

  /** Given up without ending the thread. */
  predicate Wasted(p: Place) {
    p == Gone(Refused) || p == Gone(NotStarted)
  }

  predicate Known(arrivals: seq<Msg>, m: Msg) {
    m.id < |arrivals| && arrivals[m.id] == m
  }

  ghost predicate Named(place: seq<Place>, arrivals: seq<Msg>) {
    |place| == |arrivals| && forall i | 0 <= i < |arrivals| :: arrivals[i].id == i
  }

  /** The parked lists hold exactly the messages placed there, in order of arrival. */
  ghost predicate ParkedFiled(place: seq<Place>, arrivals: seq<Msg>, parked: map<string, seq<Msg>>)
    requires |place| == |arrivals|
  {
    && (forall t, k | t in parked && 0 <= k < |parked[t]| ::
          parked[t][k].thread == t && Known(arrivals, parked[t][k]) && place[parked[t][k].id].Parking?)
    && (forall t, j, k | t in parked && 0 <= j < k < |parked[t]| :: parked[t][j].id < parked[t][k].id)
    && (forall i | 0 <= i < |place| && place[i].Parking? ::
          arrivals[i].thread in parked && arrivals[i] in parked[arrivals[i].thread])
  }

  /** So do the runners' waiting lists, which repeat nothing. */
  ghost predicate WaitingFiled(place: seq<Place>, arrivals: seq<Msg>, queues: map<string, RunnerQueue>)
    requires |place| == |arrivals|
  {
    && (forall r, k | r in queues && 0 <= k < |queues[r].waiting| ::
          queues[r].waiting[k].runner == r && Known(arrivals, queues[r].waiting[k])
          && place[queues[r].waiting[k].id].Waitlisted?)
    && (forall r, j, k | r in queues && 0 <= j < k < |queues[r].waiting| ::
          queues[r].waiting[j].id != queues[r].waiting[k].id)
    && (forall i | 0 <= i < |place| && place[i].Waitlisted? ::
          arrivals[i].runner in queues && arrivals[i] in queues[arrivals[i].runner].waiting)
  }

  /** And so does the turn map, whose flag tells the two kinds of turn apart. */
  ghost predicate TurnsFiled(place: seq<Place>, arrivals: seq<Msg>, turns: map<nat, Turn>)
    requires |place| == |arrivals|
  {
    && (forall id | id in turns :: id < |place| && turns[id].msg == arrivals[id]
          && place[id] == if turns[id].queued then Stored else Running)
    && (forall i | 0 <= i < |place| && (place[i].Running? || place[i].Stored?) :: i in turns)
  }

  /** A turn is queued exactly when one offline row carries it. */
  ghost predicate Backed(turns: map<nat, Turn>, rows: seq<Row>, nextRow: nat) {
    && (forall i | 0 <= i < |rows| :: rows[i].id < nextRow
          && rows[i].msg.id in turns && turns[rows[i].msg.id] == Turn(rows[i].msg, true))
    && (forall i, j | 0 <= i < j < |rows| :: rows[i].id < rows[j].id && rows[i].msg.id != rows[j].msg.id)
    && (forall id | id in turns && turns[id].queued :: exists i :: 0 <= i < |rows| && rows[i].msg.id == id)
  }

  /** Who is noted as a thread's occupant is one: held by the handler that settles
      the thread if it is one of `holes`, filed otherwise. */
  ghost predicate Seated(place: seq<Place>, arrivals: seq<Msg>, occupant: map<string, nat>, holes: set<string>)
    requires |place| == |arrivals|
  {
    forall t | t in occupant :: occupant[t] < |place| && arrivals[occupant[t]].thread == t
      && if t in holes then place[occupant[t]].InHand? else Busy(place[occupant[t]])
  }

  /** Nobody else is. */
  ghost predicate NoOther(place: seq<Place>, arrivals: seq<Msg>, occupant: map<string, nat>)
    requires |place| == |arrivals|
  {
    forall i | 0 <= i < |place| && (Busy(place[i]) || place[i].InHand?) ::
      arrivals[i].thread in occupant && occupant[arrivals[i].thread] == i
  }

  ghost predicate Activated(active: set<string>, occupant: map<string, nat>, holes: set<string>, leaked: map<string, nat>) {
    active == occupant.Keys + holes + leaked.Keys && occupant.Keys + holes !! leaked.Keys
  }

  ghost predicate ParkedBehind(place: seq<Place>, arrivals: seq<Msg>, active: set<string>)
    requires |place| == |arrivals|
  {
    forall i | 0 <= i < |place| && place[i].Parking? :: arrivals[i].thread in active
  }

  /** A thread has at most one occupant, and it is marked active exactly when it
      is occupied, was leaked, or is in `holes`: ended but not yet settled. */
  ghost predicate OneOccupant(s: State, holes: set<string>)
    requires |s.place| == |s.arrivals|
  {
    && Seated(s.place, s.arrivals, s.occupant, holes)
    && NoOther(s.place, s.arrivals, s.occupant)
    && Activated(s.active, s.occupant, holes, s.leaked)
    && ParkedBehind(s.place, s.arrivals, s.active)
  }

  /** A thread is leaked exactly when one of its messages was given up on. */
  ghost predicate Blamed(place: seq<Place>, arrivals: seq<Msg>, leaked: map<string, nat>)
    requires |place| == |arrivals|
  {
    && (forall t | t in leaked :: leaked[t] < |place| && arrivals[leaked[t]].thread == t && Wasted(place[leaked[t]]))
    && (forall i | 0 <= i < |place| && Wasted(place[i]) :: arrivals[i].thread in leaked)
  }

  /** Whatever stands behind a message that was not sent yet is parked, and what
      was sent for a thread was sent in order of arrival, once. */
  ghost predicate Ordered(place: seq<Place>, arrivals: seq<Msg>, sent: seq<Msg>)
    requires |place| == |arrivals|
  {
    && (forall i, j | 0 <= i < j < |place| && arrivals[i].thread == arrivals[j].thread && !Past(place[i]) ::
          place[j].Parking?)
    && (forall k | 0 <= k < |sent| :: Known(arrivals, sent[k]) && Past(place[sent[k].id]))
    && (forall j, k | 0 <= j < k < |sent| && sent[j].thread == sent[k].thread :: sent[j].id < sent[k].id)
  }

  ghost predicate Inv(s: State, holes: set<string>) {
    && Named(s.place, s.arrivals)
    && ParkedFiled(s.place, s.arrivals, s.parked)
    && WaitingFiled(s.place, s.arrivals, s.queues)
    && TurnsFiled(s.place, s.arrivals, s.turns)
    && Backed(s.turns, s.rows, s.nextRow)
    && OneOccupant(s, holes)
    && Blamed(s.place, s.arrivals, s.leaked)
    && Ordered(s.place, s.arrivals, s.sent)
  }

  predicate Holds(s: State, m: Msg) {
    Known(s.arrivals, m) && m.id < |s.place| && s.place[m.id].InHand?
  }

  // ------------------------------------------------------------------
  // A change of place leaves alone what does not list either place
  // ------------------------------------------------------------------

  lemma ParkedFrame(place: seq<Place>, arrivals: seq<Msg>, parked: map<string, seq<Msg>>, id: nat, p: Place)
    requires |place| == |arrivals| && ParkedFiled(place, arrivals, parked)
    requires id < |place| && !place[id].Parking? && !p.Parking?
    ensures ParkedFiled(place[id := p], arrivals, parked)
  {
  }

  lemma WaitingFrame(place: seq<Place>, arrivals: seq<Msg>, queues: map<string, RunnerQueue>, id: nat, p: Place)
    requires |place| == |arrivals| && WaitingFiled(place, arrivals, queues)
    requires id < |place| && !place[id].Waitlisted? && !p.Waitlisted?
    ensures WaitingFiled(place[id := p], arrivals, queues)
  {
  }

  lemma TurnsFrame(place: seq<Place>, arrivals: seq<Msg>, turns: map<nat, Turn>, id: nat, p: Place)
    requires |place| == |arrivals| && TurnsFiled(place, arrivals, turns)
    requires id < |place| && id !in turns && !p.Running? && !p.Stored?
    ensures TurnsFiled(place[id := p], arrivals, turns)
  {
  }

  lemma OrderFrame(place: seq<Place>, arrivals: seq<Msg>, sent: seq<Msg>, id: nat, p: Place)
    requires |place| == |arrivals| && Ordered(place, arrivals, sent)
    requires id < |place| && !place[id].Parking? && !p.Parking? && (Past(place[id]) ==> Past(p))
    ensures Ordered(place[id := p], arrivals, sent)
  {
  }

  lemma SendFrame(place: seq<Place>, arrivals: seq<Msg>, sent: seq<Msg>, id: nat)
    requires Named(place, arrivals) && Ordered(place, arrivals, sent)
    requires id < |place| && !place[id].Parking? && !Past(place[id])
    ensures Ordered(place[id := Running], arrivals, sent + [arrivals[id]])
  {
  }

  lemma BlameFrame(place: seq<Place>, arrivals: seq<Msg>, leaked: map<string, nat>, id: nat, p: Place)
    requires |place| == |arrivals| && Blamed(place, arrivals, leaked)
    requires id < |place| && !Wasted(place[id]) && !Wasted(p)
    ensures Blamed(place[id := p], arrivals, leaked)
  {
  }

  lemma BlameLeak(place: seq<Place>, arrivals: seq<Msg>, leaked: map<string, nat>, id: nat, p: Place)
    requires |place| == |arrivals| && Blamed(place, arrivals, leaked)
    requires id < |place| && Wasted(p)
    ensures Blamed(place[id := p], arrivals, leaked[arrivals[id].thread := id])
  {
  }

  lemma Grow(s: State, m: Msg, p: Place)
    requires Named(s.place, s.arrivals) && m.id == |s.arrivals| && (p.InHand? || p.Parking?)
    requires WaitingFiled(s.place, s.arrivals, s.queues) && TurnsFiled(s.place, s.arrivals, s.turns)
    requires Blamed(s.place, s.arrivals, s.leaked)
    ensures Named(s.place + [p], s.arrivals + [m])
    ensures Blamed(s.place + [p], s.arrivals + [m], s.leaked)
    ensures WaitingFiled(s.place + [p], s.arrivals + [m], s.queues)
    ensures TurnsFiled(s.place + [p], s.arrivals + [m], s.turns)
  {
  }

  // ------------------------------------------------------------------
  // Parked lists
  // ------------------------------------------------------------------

  lemma ClaimParked(s: State, m: Msg)
    requires Named(s.place, s.arrivals) && m.id == |s.arrivals| && ParkedFiled(s.place, s.arrivals, s.parked)
    ensures ParkedFiled(s.place + [InHand], s.arrivals + [m], s.parked)
  {
  }

  lemma ParkParked(s: State, m: Msg)
    requires Named(s.place, s.arrivals) && m.id == |s.arrivals| && ParkedFiled(s.place, s.arrivals, s.parked)
    ensures ParkedFiled(s.place + [Parking], s.arrivals + [m], Park(s, m).parked)
  {
    var now := Park(s, m).parked;
    assert forall x | x in Parked(s, m.thread) :: x in now[m.thread];
    assert now[m.thread][|now[m.thread]| - 1] == m;
  }

  lemma UnparkParked(s: State, t: string)
    requires Named(s.place, s.arrivals) && ParkedFiled(s.place, s.arrivals, s.parked) && Parked(s, t) != []
    ensures ParkedFiled(Unpark(s, t).place, s.arrivals, Unpark(s, t).parked)
  {
    var q := s.parked[t];
    var now: map<string, seq<Msg>> := Unpark(s, t).parked;
    TailOf(q);
    assert now == s.parked[t := q[1..]];
    forall u: string, k | u in now && 0 <= k < |now[u]|
      ensures now[u][k].thread == u && Known(s.arrivals, now[u][k]) && now[u][k].id != q[0].id
      ensures s.place[now[u][k].id].Parking?
    {
      assert now[u][k] == if u == t then q[k + 1] else s.parked[u][k];
      assert q[0].thread == t;
    }
    hide Unpark;
  }

  lemma TailOf(q: seq<Msg>)
    requires q != []
    ensures forall k | 0 <= k < |q| - 1 :: q[1..][k] == q[k + 1]
    ensures forall m | m in q :: m == q[0] || m in q[1..]
  {
    assert q == [q[0]] + q[1..];
  }

  lemma ReleaseParked(s: State, t: string)
    requires |s.place| == |s.arrivals| && ParkedFiled(s.place, s.arrivals, s.parked) && Parked(s, t) == []
    ensures ParkedFiled(s.place, s.arrivals, Release(s, t).parked)
  {
  }

  // ------------------------------------------------------------------
  // Waiting lists
  // ------------------------------------------------------------------

  lemma WaitWaiting(s: State, m: Msg)
    requires Named(s.place, s.arrivals) && WaitingFiled(s.place, s.arrivals, s.queues) && Holds(s, m)
    ensures WaitingFiled(Wait(s, m).place, s.arrivals, Wait(s, m).queues)
  {
    var now := Wait(s, m).queues[m.runner].waiting;
    assert forall x | x in Waiting(s, m.runner) :: x in now;
    assert now[|now| - 1] == m;
  }

  lemma SameWaiting(s: State, r: string, n: int)
    requires |s.place| == |s.arrivals| && WaitingFiled(s.place, s.arrivals, s.queues)
    ensures WaitingFiled(s.place, s.arrivals, s.queues[r := RunnerQueue(n, Waiting(s, r))])
  {
  }

  lemma FreeWaiting(s: State, r: string)
    requires Named(s.place, s.arrivals) && WaitingFiled(s.place, s.arrivals, s.queues) && Waiting(s, r) != []
    ensures WaitingFiled(FreeSlot(s, r).place, s.arrivals, FreeSlot(s, r).queues)
  {
    var head := Waiting(s, r)[0];
    var now: map<string, RunnerQueue> := FreeSlot(s, r).queues;
    assert now == s.queues[r := RunnerQueue(now[r].active, Waiting(s, r)[1..])];
    assert FreeSlot(s, r).place == Placed(s.place, head.id, InHand);
    hide FreeSlot;
    assert Waiting(s, r) == [head] + now[r].waiting;
    forall q, k | q in now && 0 <= k < |now[q].waiting|
      ensures now[q].waiting[k].id != head.id && now[q].waiting[k] in s.queues[q].waiting
    {
      assert now[q].waiting[k] == if q == r then s.queues[q].waiting[k + 1] else s.queues[q].waiting[k];
    }
  }

  // ------------------------------------------------------------------
  // Turns and rows
  // ------------------------------------------------------------------

  lemma OpenTurn(s: State, m: Msg, queued: bool)
    requires Named(s.place, s.arrivals) && TurnsFiled(s.place, s.arrivals, s.turns) && Holds(s, m)
    ensures TurnsFiled(s.place[m.id := if queued then Stored else Running], s.arrivals,
              s.turns[m.id := Turn(m, queued)])
    ensures m.id !in s.turns
  {
  }

  lemma CloseTurn(s: State, id: nat, p: Place)
    requires |s.place| == |s.arrivals| && TurnsFiled(s.place, s.arrivals, s.turns) && p.Gone? && id in s.turns
    ensures TurnsFiled(s.place[id := p], s.arrivals, s.turns - {id})
  {
  }

  lemma SendBacked(s: State, m: Msg)
    requires Backed(s.turns, s.rows, s.nextRow) && m.id !in s.turns
    ensures Backed(s.turns[m.id := Turn(m, false)], s.rows, s.nextRow)
  {
  }

  lemma HoldBacked(s: State, m: Msg)
    requires Backed(s.turns, s.rows, s.nextRow) && m.id !in s.turns
    ensures Backed(Hold(s, m).turns, Hold(s, m).rows, Hold(s, m).nextRow)
  {
    var now := Hold(s, m).rows;
    assert now[|now| - 1].msg == m;
    assert forall i | 0 <= i < |s.rows| :: now[i] == s.rows[i];
  }

  lemma CloseBacked(s: State, id: nat)
    requires Backed(s.turns, s.rows, s.nextRow) && id in s.turns && !s.turns[id].queued
    ensures Backed(s.turns - {id}, s.rows, s.nextRow)
  {
  }

  // ------------------------------------------------------------------
  // Threads
  // ------------------------------------------------------------------

  lemma OccupantFrame(s: State, s': State, holes: set<string>)
    requires |s.place| == |s.arrivals| && OneOccupant(s, holes)
    requires s'.place == s.place && s'.arrivals == s.arrivals
    requires s'.active == s.active && s'.occupant == s.occupant && s'.leaked == s.leaked
    ensures OneOccupant(s', holes)
  {
  }

  lemma SeatTaken(place: seq<Place>, arrivals: seq<Msg>, occupant: map<string, nat>, holes: set<string>, id: nat)
    requires |place| == |arrivals| && Seated(place, arrivals, occupant, holes) && NoOther(place, arrivals, occupant)
    requires id < |place| && arrivals[id].thread !in occupant && arrivals[id].thread in holes
    ensures Seated(place[id := InHand], arrivals, occupant[arrivals[id].thread := id], holes)
    ensures NoOther(place[id := InHand], arrivals, occupant[arrivals[id].thread := id])
  {
  }

  lemma SeatLeft(place: seq<Place>, arrivals: seq<Msg>, occupant: map<string, nat>, holes: set<string>, id: nat, p: Place)
    requires |place| == |arrivals| && Seated(place, arrivals, occupant, holes) && NoOther(place, arrivals, occupant)
    requires id < |place| && (place[id].InHand? || Busy(place[id])) && p.Gone?
    ensures var t, left := arrivals[id].thread, occupant - {arrivals[id].thread};
            && t in occupant && occupant[t] == id && (place[id].InHand? ==> t in holes)
            && (forall other | holes - {t} <= other <= holes + {t} :: Seated(place[id := p], arrivals, left, other))
            && NoOther(place[id := p], arrivals, left)
  {
  }

  lemma ClaimSerial(s: State, holes: set<string>, m: Msg)
    requires Named(s.place, s.arrivals) && OneOccupant(s, holes) && m.id == |s.arrivals| && m.thread !in s.active
    ensures OneOccupant(Claim(s, m), holes + {m.thread})
  {
  }

  lemma ParkSerial(s: State, holes: set<string>, m: Msg)
    requires Named(s.place, s.arrivals) && OneOccupant(s, holes) && m.id == |s.arrivals| && m.thread in s.active
    ensures OneOccupant(Park(s, m), holes)
  {
  }

  lemma UnparkSerial(s: State, holes: set<string>, t: string)
    requires Named(s.place, s.arrivals) && ParkedFiled(s.place, s.arrivals, s.parked) && OneOccupant(s, holes)
    requires t in holes && t !in s.occupant && Parked(s, t) != []
    ensures OneOccupant(Unpark(s, t), holes)
  {
    SeatTaken(s.place, s.arrivals, s.occupant, holes, s.parked[t][0].id);
    hide Seated, NoOther;
  }

  lemma ReleaseSerial(s: State, holes: set<string>, t: string)
    requires |s.place| == |s.arrivals| && ParkedFiled(s.place, s.arrivals, s.parked) && OneOccupant(s, holes)
    requires t in holes && t !in s.occupant && Parked(s, t) == []
    ensures OneOccupant(Release(s, t), holes - {t})
  {
  }

  /** An in-hand message settles: as the occupant, ... */
  lemma FillSerial(s: State, s': State, holes: set<string>, m: Msg, p: Place)
    requires |s.place| == |s.arrivals| && OneOccupant(s, holes) && Holds(s, m) && Busy(p)
    requires s'.place == s.place[m.id := p] && s'.arrivals == s.arrivals
    requires s'.active == s.active && s'.occupant == s.occupant && s'.leaked == s.leaked
    ensures OneOccupant(s', holes - {m.thread})
  {
  }

  /** ... by leaking its thread, ... */
  lemma LeakSerial(s: State, s': State, holes: set<string>, m: Msg, p: Place)
    requires |s.place| == |s.arrivals| && OneOccupant(s, holes) && Holds(s, m) && Wasted(p)
    requires s'.place == s.place[m.id := p] && s'.arrivals == s.arrivals && s'.active == s.active
    requires s'.occupant == s.occupant - {m.thread} && s'.leaked == s.leaked[m.thread := m.id]
    ensures OneOccupant(s', holes - {m.thread})
  {
    SeatLeft(s.place, s.arrivals, s.occupant, holes, m.id, p);
    hide Seated, NoOther;
    assert s'.occupant.Keys == s.occupant.Keys - {m.thread};
    assert s'.leaked.Keys == s.leaked.Keys + {m.thread};
  }

  /** ... or by giving up, which leaves the thread to be ended. */
  lemma DropSerial(s: State, holes: set<string>, m: Msg)
    requires |s.place| == |s.arrivals| && OneOccupant(s, holes) && Holds(s, m)
    ensures OneOccupant(Drop(s, m), holes) && m.thread !in Drop(s, m).occupant
  {
    SeatLeft(s.place, s.arrivals, s.occupant, holes, m.id, Gone(Abandoned));
    hide Seated, NoOther;
    assert Drop(s, m).occupant.Keys == s.occupant.Keys - {m.thread};
  }

  lemma EndSerial(s: State, s': State, holes: set<string>, id: nat, p: Place)
    requires |s.place| == |s.arrivals| && OneOccupant(s, holes) && id < |s.place| && Busy(s.place[id]) && p.Gone?
    requires s'.place == s.place[id := p] && s'.arrivals == s.arrivals && s'.active == s.active
    requires s'.occupant == s.occupant - {s.arrivals[id].thread} && s'.leaked == s.leaked
    ensures OneOccupant(s', holes + {s.arrivals[id].thread})
  {
    SeatLeft(s.place, s.arrivals, s.occupant, holes, id, p);
    hide Seated, NoOther;
    assert s'.occupant.Keys == s.occupant.Keys - {s.arrivals[id].thread};
  }

  lemma FreeSerial(s: State, holes: set<string>, r: string)
    requires Named(s.place, s.arrivals) && WaitingFiled(s.place, s.arrivals, s.queues) && OneOccupant(s, holes)
    requires Waiting(s, r) != []
    ensures OneOccupant(FreeSlot(s, r), holes + {Waiting(s, r)[0].thread})
  {
  }

  // ------------------------------------------------------------------
  // Order
  // ------------------------------------------------------------------

  lemma ClaimOrder(s: State, holes: set<string>, m: Msg)
    requires Named(s.place, s.arrivals) && OneOccupant(s, holes) && Ordered(s.place, s.arrivals, s.sent)
    requires m.id == |s.arrivals| && m.thread !in s.active
    ensures Ordered(s.place + [InHand], s.arrivals + [m], s.sent)
  {
  }

  lemma ParkOrder(s: State, m: Msg)
    requires Named(s.place, s.arrivals) && Ordered(s.place, s.arrivals, s.sent) && m.id == |s.arrivals|
    ensures Ordered(s.place + [Parking], s.arrivals + [m], s.sent)
  {
  }

  lemma UnparkOrder(s: State, holes: set<string>, t: string)
    requires Named(s.place, s.arrivals) && ParkedFiled(s.place, s.arrivals, s.parked)
    requires OneOccupant(s, holes) && Ordered(s.place, s.arrivals, s.sent)
    requires t !in s.occupant && Parked(s, t) != []
    ensures Ordered(Unpark(s, t).place, s.arrivals, s.sent)
  {
    forall m | m in s.parked[t]
      ensures s.parked[t][0].id <= m.id
    {
      var k :| 0 <= k < |s.parked[t]| && s.parked[t][k] == m;
    }
  }

  // ------------------------------------------------------------------
  // Each move keeps the whole of it
  // ------------------------------------------------------------------

  lemma AskKeeps(s: State, holes: set<string>, n: nat)
    requires Inv(s, holes)
    ensures Inv(s.(calls := n), holes)
  {
    hide ParkedFiled, WaitingFiled, TurnsFiled, Backed, OneOccupant, Blamed, Ordered;
    OccupantFrame(s, s.(calls := n), holes);
  }

  lemma ClaimKeeps(s: State, holes: set<string>, m: Msg)
    requires Inv(s, holes) && m.id == |s.arrivals| && m.thread !in s.active
    ensures Inv(Claim(s, m), holes + {m.thread}) && Holds(Claim(s, m), m)
  {
    hide ParkedFiled, WaitingFiled, TurnsFiled, Backed, OneOccupant, Blamed, Ordered;
    Grow(s, m, InHand);
    ClaimParked(s, m);
    ClaimSerial(s, holes, m);
    ClaimOrder(s, holes, m);
  }

  lemma ParkKeeps(s: State, holes: set<string>, m: Msg)
    requires Inv(s, holes) && m.id == |s.arrivals| && m.thread in s.active
    ensures Inv(Park(s, m), holes)
  {
    hide ParkedFiled, WaitingFiled, TurnsFiled, Backed, OneOccupant, Blamed, Ordered;
    Grow(s, m, Parking);
    ParkParked(s, m);
    ParkSerial(s, holes, m);
    ParkOrder(s, m);
  }

  lemma ParkedHead(s: State, holes: set<string>, t: string)
    requires Inv(s, holes) && Parked(s, t) != []
    ensures var m := s.parked[t][0];
            && m.thread == t && Known(s.arrivals, m) && m.id < |s.place| && s.place[m.id].Parking? && m.id !in s.turns
  {
    hide WaitingFiled, Backed, OneOccupant, Blamed, Ordered;
  }

  lemma UnparkKeeps(s: State, holes: set<string>, t: string)
    requires Inv(s, holes) && t in holes && t !in s.occupant && Parked(s, t) != []
    ensures var m := s.parked[t][0]; m.thread == t && Inv(Unpark(s, t), holes) && Holds(Unpark(s, t), m)
  {
    hide ParkedFiled, WaitingFiled, TurnsFiled, Backed, OneOccupant, Blamed, Ordered;
    ParkedHead(s, holes, t);
    var id := s.parked[t][0].id;
    UnparkParked(s, t);
    WaitingFrame(s.place, s.arrivals, s.queues, id, InHand);
    TurnsFrame(s.place, s.arrivals, s.turns, id, InHand);
    UnparkSerial(s, holes, t);
    UnparkOrder(s, holes, t);
    BlameFrame(s.place, s.arrivals, s.leaked, id, InHand);
  }

  lemma ReleaseKeeps(s: State, holes: set<string>, t: string)
    requires Inv(s, holes) && t in holes && t !in s.occupant && Parked(s, t) == []
    ensures Inv(Release(s, t), holes - {t})
  {
    hide ParkedFiled, WaitingFiled, TurnsFiled, Backed, OneOccupant, Blamed, Ordered;
    ReleaseParked(s, t);
    ReleaseSerial(s, holes, t);
  }

  lemma TakeSlotKeeps(s: State, holes: set<string>, m: Msg)
    requires Inv(s, holes) && Holds(s, m)
    ensures Inv(TakeSlot(s, m), holes) && Holds(TakeSlot(s, m), m)
  {
    hide ParkedFiled, WaitingFiled, TurnsFiled, Backed, OneOccupant, Blamed, Ordered;
    SameWaiting(s, m.runner, Queue(s, m.runner).active + 1);
    OccupantFrame(s, TakeSlot(s, m), holes);
  }

  lemma HeldIsElsewhere(s: State, holes: set<string>, m: Msg)
    requires Inv(s, holes) && Holds(s, m)
    ensures m.id !in s.turns
  {
    hide ParkedFiled, WaitingFiled, Backed, OneOccupant, Blamed, Ordered;
  }

  lemma WaitKeeps(s: State, holes: set<string>, m: Msg)
    requires Inv(s, holes) && Holds(s, m)
    ensures Inv(Wait(s, m), holes - {m.thread})
  {
    hide ParkedFiled, WaitingFiled, TurnsFiled, Backed, OneOccupant, Blamed, Ordered;
    HeldIsElsewhere(s, holes, m);
    ParkedFrame(s.place, s.arrivals, s.parked, m.id, Waitlisted);
    WaitWaiting(s, m);
    TurnsFrame(s.place, s.arrivals, s.turns, m.id, Waitlisted);
    FillSerial(s, Wait(s, m), holes, m, Waitlisted);
    OrderFrame(s.place, s.arrivals, s.sent, m.id, Waitlisted);
    BlameFrame(s.place, s.arrivals, s.leaked, m.id, Waitlisted);
  }

  lemma FailStartKeeps(s: State, holes: set<string>, m: Msg)
    requires Inv(s, holes) && Holds(s, m)
    ensures Inv(FailStart(s, m), holes - {m.thread})
  {
    hide ParkedFiled, WaitingFiled, TurnsFiled, Backed, OneOccupant, Blamed, Ordered;
    HeldIsElsewhere(s, holes, m);
    ParkedFrame(s.place, s.arrivals, s.parked, m.id, Gone(NotStarted));
    WaitingFrame(s.place, s.arrivals, s.queues, m.id, Gone(NotStarted));
    TurnsFrame(s.place, s.arrivals, s.turns, m.id, Gone(NotStarted));
    LeakSerial(s, FailStart(s, m), holes, m, Gone(NotStarted));
    OrderFrame(s.place, s.arrivals, s.sent, m.id, Gone(NotStarted));
    BlameLeak(s.place, s.arrivals, s.leaked, m.id, Gone(NotStarted));
  }

  lemma RefuseKeeps(s: State, holes: set<string>, m: Msg)
    requires Inv(s, holes) && Holds(s, m)
    ensures Inv(Refuse(s, m), holes - {m.thread})
  {
    hide ParkedFiled, WaitingFiled, TurnsFiled, Backed, OneOccupant, Blamed, Ordered;
    HeldIsElsewhere(s, holes, m);
    ParkedFrame(s.place, s.arrivals, s.parked, m.id, Gone(Refused));
    WaitingFrame(s.place, s.arrivals, s.queues, m.id, Gone(Refused));
    SameWaiting(s.(place := s.place[m.id := Gone(Refused)]), m.runner, Queue(s, m.runner).active);
    TurnsFrame(s.place, s.arrivals, s.turns, m.id, Gone(Refused));
    LeakSerial(s, Refuse(s, m), holes, m, Gone(Refused));
    OrderFrame(s.place, s.arrivals, s.sent, m.id, Gone(Refused));
    BlameLeak(s.place, s.arrivals, s.leaked, m.id, Gone(Refused));
  }

  lemma SendKeeps(s: State, holes: set<string>, m: Msg)
    requires Inv(s, holes) && Holds(s, m)
    ensures Inv(Send(s, m), holes - {m.thread})
  {
    hide ParkedFiled, WaitingFiled, TurnsFiled, Backed, OneOccupant, Blamed, Ordered;
    HeldIsElsewhere(s, holes, m);
    ParkedFrame(s.place, s.arrivals, s.parked, m.id, Running);
    WaitingFrame(s.place, s.arrivals, s.queues, m.id, Running);
    OpenTurn(s, m, false);
    SendBacked(s, m);
    FillSerial(s, Send(s, m), holes, m, Running);
    SendFrame(s.place, s.arrivals, s.sent, m.id);
    BlameFrame(s.place, s.arrivals, s.leaked, m.id, Running);
  }

  lemma HoldKeeps(s: State, holes: set<string>, m: Msg)
    requires Inv(s, holes) && Holds(s, m)
    ensures Inv(Hold(s, m), holes - {m.thread})
  {
    hide ParkedFiled, WaitingFiled, TurnsFiled, Backed, OneOccupant, Blamed, Ordered;
    HeldIsElsewhere(s, holes, m);
    ParkedFrame(s.place, s.arrivals, s.parked, m.id, Stored);
    WaitingFrame(s.place, s.arrivals, s.queues, m.id, Stored);
    OpenTurn(s, m, true);
    HoldBacked(s, m);
    FillSerial(s, Hold(s, m), holes, m, Stored);
    OrderFrame(s.place, s.arrivals, s.sent, m.id, Stored);
    BlameFrame(s.place, s.arrivals, s.leaked, m.id, Stored);
  }

  lemma DropKeeps(s: State, holes: set<string>, m: Msg)
    requires Inv(s, holes) && Holds(s, m)
    ensures Inv(Drop(s, m), holes) && m.thread !in Drop(s, m).occupant
  {
    hide ParkedFiled, WaitingFiled, TurnsFiled, Backed, OneOccupant, Blamed, Ordered;
    HeldIsElsewhere(s, holes, m);
    ParkedFrame(s.place, s.arrivals, s.parked, m.id, Gone(Abandoned));
    WaitingFrame(s.place, s.arrivals, s.queues, m.id, Gone(Abandoned));
    TurnsFrame(s.place, s.arrivals, s.turns, m.id, Gone(Abandoned));
    OrderFrame(s.place, s.arrivals, s.sent, m.id, Gone(Abandoned));
    BlameFrame(s.place, s.arrivals, s.leaked, m.id, Gone(Abandoned));
    assert s.turns - {m.id} == s.turns;
    DropSerial(s, holes, m);
  }

  lemma LiveTurn(s: State, holes: set<string>, id: nat)
    requires Inv(s, holes) && id in s.turns
    ensures id < |s.place| && s.place[id] == (if s.turns[id].queued then Stored else Running)
    ensures s.turns[id].msg == s.arrivals[id]
  {
    hide ParkedFiled, WaitingFiled, Backed, OneOccupant, Blamed, Ordered;
  }

  lemma EndKeeps(s: State, holes: set<string>, id: nat, o: Outcome)
    requires Inv(s, holes) && id in s.turns && !s.turns[id].queued && !Wasted(Gone(o))
    ensures Inv(EndTurn(s, id, o), holes + {s.turns[id].msg.thread})
    ensures s.turns[id].msg.thread !in EndTurn(s, id, o).occupant
  {
    hide ParkedFiled, WaitingFiled, TurnsFiled, Backed, OneOccupant, Blamed, Ordered;
    LiveTurn(s, holes, id);
    ParkedFrame(s.place, s.arrivals, s.parked, id, Gone(o));
    WaitingFrame(s.place, s.arrivals, s.queues, id, Gone(o));
    CloseTurn(s, id, Gone(o));
    CloseBacked(s, id);
    EndSerial(s, EndTurn(s, id, o), holes, id, Gone(o));
    OrderFrame(s.place, s.arrivals, s.sent, id, Gone(o));
    BlameFrame(s.place, s.arrivals, s.leaked, id, Gone(o));
  }

  lemma WaitingHead(s: State, holes: set<string>, r: string)
    requires Inv(s, holes) && Waiting(s, r) != []
    ensures var m := Waiting(s, r)[0];
            && m.runner == r && Known(s.arrivals, m) && m.id < |s.place| && s.place[m.id].Waitlisted?
            && m.id !in s.turns && m.thread !in holes
  {
    hide ParkedFiled, Backed, Blamed, Ordered;
  }

  lemma FreeKeeps(s: State, holes: set<string>, r: string)
    requires Inv(s, holes)
    ensures Waiting(s, r) == [] ==> Inv(FreeSlot(s, r), holes)
    ensures Waiting(s, r) != [] ==>
              var m := Waiting(s, r)[0];
              m.thread !in holes && Inv(FreeSlot(s, r), holes + {m.thread}) && Holds(FreeSlot(s, r), m)
  {
    hide ParkedFiled, WaitingFiled, TurnsFiled, Backed, OneOccupant, Blamed, Ordered;
    if Waiting(s, r) == [] {
      if r in s.queues {
        SameWaiting(s, r, FreeSlot(s, r).queues[r].active);
        OccupantFrame(s, FreeSlot(s, r), holes);
      }
    } else {
      var m := Waiting(s, r)[0];
      WaitingHead(s, holes, r);
      ParkedFrame(s.place, s.arrivals, s.parked, m.id, InHand);
      FreeWaiting(s, r);
      TurnsFrame(s.place, s.arrivals, s.turns, m.id, InHand);
      FreeSerial(s, holes, r);
      OrderFrame(s.place, s.arrivals, s.sent, m.id, InHand);
      BlameFrame(s.place, s.arrivals, s.leaked, m.id, InHand);
    }
  }

  // ------------------------------------------------------------------
  // So does every handler
  // ------------------------------------------------------------------

  lemma TryTurnKeeps(s: State, holes: set<string>, m: Msg, env: Env)
    requires Inv(s, holes) && Holds(s, m)
    ensures var (s1, dropped) := TryTurn(s, m, env);
            if dropped then Inv(s1, holes) && m.thread !in s1.occupant else Inv(s1, holes - {m.thread})
  {
    hide Inv, Send, Hold, Drop, FailStart, Queueable;
    var s1 := s.(calls := s.calls + 1);
    AskKeeps(s, holes, s.calls + 1);
    FailStartKeeps(s1, holes, m);
    SendKeeps(s1, holes, m);
    HoldKeeps(s1, holes, m);
    DropKeeps(s1, holes, m);
  }

  lemma TryAdmittedKeeps(s: State, holes: set<string>, m: Msg, env: Env)
    requires Inv(s, holes) && Holds(s, m)
    ensures var (s1, dropped) := TryAdmitted(s, m, env);
            if dropped then Inv(s1, holes) && m.thread !in s1.occupant else Inv(s1, holes - {m.thread})
  {
    hide Inv, TryTurn, TakeSlot, Wait, Refuse;
    TryTurnKeeps(s, holes, m, env);
    TakeSlotKeeps(s, holes, m);
    TryTurnKeeps(TakeSlot(s, m), holes, m, env);
    RefuseKeeps(s, holes, m);
    AskKeeps(Refuse(s, m), holes - {m.thread}, s.calls + 1);
    WaitKeeps(s, holes, m);
    AskKeeps(Wait(s, m), holes - {m.thread}, s.calls + 1);
  }

  lemma {:induction false} EndThreadKeeps(s: State, holes: set<string>, t: string, env: Env)
    requires Inv(s, holes) && t in holes && t !in s.occupant
    ensures Inv(EndThread(s, t, env), holes - {t})
    decreases |Parked(s, t)|
  {
    hide Inv, TryAdmitted;
    if Parked(s, t) == [] {
      ReleaseKeeps(s, holes, t);
    } else {
      var m := s.parked[t][0];
      UnparkKeeps(s, holes, t);
      TryAdmittedKeeps(Unpark(s, t), holes, m, env);
      var (s1, dropped) := TryAdmitted(Unpark(s, t), m, env);
      if dropped {
        EndThreadKeeps(s1, holes, t, env);
      }
    }
  }

  lemma DispatchKeeps(s: State, holes: set<string>, m: Msg, env: Env)
    requires Inv(s, holes) && Holds(s, m) && m.thread in holes
    ensures Inv(DispatchTurn(s, m, env), holes - {m.thread})
    ensures Inv(DispatchAdmitted(s, m, env), holes - {m.thread})
  {
    hide Inv, TryTurn, TryAdmitted;
    TryTurnKeeps(s, holes, m, env);
    var (s1, dropped1) := TryTurn(s, m, env);
    if dropped1 {
      EndThreadKeeps(s1, holes, m.thread, env);
    }
    TryAdmittedKeeps(s, holes, m, env);
    var (s2, dropped2) := TryAdmitted(s, m, env);
    if dropped2 {
      EndThreadKeeps(s2, holes, m.thread, env);
    }
  }

  // ------------------------------------------------------------------
  // Settling one thread does not touch the others
  // ------------------------------------------------------------------

  function SentTo(sent: seq<Msg>, t: string): seq<Msg> {
    if sent == [] then []
    else SentTo(sent[..|sent| - 1], t) + if sent[|sent| - 1].thread == t then [sent[|sent| - 1]] else []
  }

  predicate Untouched(s: State, s': State, u: string) {
    && (u in s.active <==> u in s'.active)
    && Parked(s, u) == Parked(s', u)
    && (u in s.occupant <==> u in s'.occupant)
    && (u in s.leaked <==> u in s'.leaked)
    && SentTo(s.sent, u) == SentTo(s'.sent, u)
  }

  lemma SentToAppend(sent: seq<Msg>, m: Msg, t: string)
    ensures SentTo(sent + [m], t) == SentTo(sent, t) + if m.thread == t then [m] else []
  {
    assert (sent + [m])[..|sent|] == sent;
  }

  lemma SendElsewhere(s: State, m: Msg, u: string)
    requires u != m.thread
    ensures Untouched(s, Send(s, m), u)
  {
    SentToAppend(s.sent, m, u);
  }

  lemma HoldElsewhere(s: State, m: Msg, u: string)
    requires u != m.thread
    ensures Untouched(s, Hold(s, m), u)
  {
  }

  lemma GiveUpElsewhere(s: State, m: Msg, u: string)
    requires u != m.thread
    ensures Untouched(s, Drop(s, m), u)
    ensures Untouched(s, FailStart(s, m), u)
  {
  }

  lemma TryTurnElsewhere(s: State, m: Msg, env: Env, u: string)
    requires u != m.thread
    ensures Untouched(s, TryTurn(s, m, env).0, u)
  {
    hide SentTo, Send, Hold, Drop, FailStart;
    SendElsewhere(s.(calls := s.calls + 1), m, u);
    HoldElsewhere(s.(calls := s.calls + 1), m, u);
    GiveUpElsewhere(s.(calls := s.calls + 1), m, u);
  }

  lemma TryElsewhere(s: State, m: Msg, env: Env, u: string)
    requires u != m.thread
    ensures Untouched(s, TryAdmitted(s, m, env).0, u)
  {
    hide TryTurn, SentTo;
    TryTurnElsewhere(s, m, env, u);
    TryTurnElsewhere(TakeSlot(s, m), m, env, u);
  }

  lemma {:induction false} EndThreadElsewhere(s: State, t: string, env: Env, u: string)
    requires u != t && forall k | 0 <= k < |Parked(s, t)| :: Parked(s, t)[k].thread == t
    ensures Untouched(s, EndThread(s, t, env), u)
    decreases |Parked(s, t)|
  {
    if Parked(s, t) != [] {
      hide TryAdmitted;
      var m := s.parked[t][0];
      TryElsewhere(Unpark(s, t), m, env, u);
      var (s1, dropped) := TryAdmitted(Unpark(s, t), m, env);
      assert s1.parked[t] == s.parked[t][1..];
      if dropped {
        EndThreadElsewhere(s1, t, env, u);
      }
    }
  }

  lemma DispatchElsewhere(s: State, m: Msg, env: Env, u: string)
    requires u != m.thread && forall k | 0 <= k < |Parked(s, m.thread)| :: Parked(s, m.thread)[k].thread == m.thread
    ensures Untouched(s, DispatchTurn(s, m, env), u)
    ensures Untouched(s, DispatchAdmitted(s, m, env), u)
  {
    hide TryTurn, TryAdmitted, SentTo;
    TryTurnElsewhere(s, m, env, u);
    TryElsewhere(s, m, env, u);
    var (s1, dropped1) := TryTurn(s, m, env);
    assert Parked(s1, m.thread) == Parked(s, m.thread);
    if dropped1 {
      EndThreadElsewhere(s1, m.thread, env, u);
    }
    var (s2, dropped2) := TryAdmitted(s, m, env);
    assert Parked(s2, m.thread) == Parked(s, m.thread);
    if dropped2 {
      EndThreadElsewhere(s2, m.thread, env, u);
    }
  }

  lemma ParkedAreNamed(s: State, holes: set<string>, t: string)
    requires Inv(s, holes)
    ensures forall k | 0 <= k < |Parked(s, t)| :: Parked(s, t)[k].thread == t
  {
    hide WaitingFiled, TurnsFiled, Backed, OneOccupant, Blamed, Ordered;
  }

  lemma SlotFreedKeeps(s: State, holes: set<string>, r: string, env: Env)
    requires Inv(s, holes)
    ensures Inv(SlotFreed(s, r, env), holes)
    ensures forall t | t in holes :: t in s.occupant <==> t in SlotFreed(s, r, env).occupant
  {
    hide Inv, DispatchTurn;
    FreeKeeps(s, holes, r);
    if Waiting(s, r) != [] {
      var m := Waiting(s, r)[0];
      DispatchKeeps(FreeSlot(s, r), holes + {m.thread}, m, env);
      assert holes + {m.thread} - {m.thread} == holes;
      ParkedAreNamed(s, holes, m.thread);
      assert Parked(FreeSlot(s, r), m.thread) == Parked(s, m.thread);
      forall t | t in holes
        ensures t in s.occupant <==> t in SlotFreed(s, r, env).occupant
      {
        DispatchElsewhere(FreeSlot(s, r), m, env, t);
      }
    }
  }

  lemma FinishKeeps(s: State, holes: set<string>, id: nat, o: Outcome, env: Env)
    requires Inv(s, holes) && id in s.turns && !s.turns[id].queued && !Wasted(Gone(o))
    ensures Inv(Finish(s, id, o, env), holes)
  {
    hide Inv, EndTurn, SlotFreed;
    var m := s.turns[id].msg;
    LiveIsSettled(s, holes, id);
    EndKeeps(s, holes, id, o);
    SlotFreedKeeps(EndTurn(s, id, o), holes + {m.thread}, m.runner, env);
    EndThreadKeeps(SlotFreed(EndTurn(s, id, o), m.runner, env), holes + {m.thread}, m.thread, env);
    assert holes + {m.thread} - {m.thread} == holes;
  }

  /** Nobody is settling the thread of a live turn. */
  lemma LiveIsSettled(s: State, holes: set<string>, id: nat)
    requires Inv(s, holes) && id in s.turns
    ensures s.turns[id].msg.thread !in holes
  {
    hide ParkedFiled, WaitingFiled, Backed, Blamed, Ordered;
  }

  lemma ArriveKeeps(s: State, holes: set<string>, t: string, r: string, cap: int, env: Env)
    requires Inv(s, holes)
    ensures Inv(Arrive(s, t, r, cap, env), holes)
  {
    hide Inv, DispatchAdmitted;
    var m := Msg(|s.arrivals|, t, r, cap);
    if t in s.active {
      ParkKeeps(s, holes, m);
    } else {
      ClaimKeeps(s, holes, m);
      DispatchKeeps(Claim(s, m), holes + {t}, m, env);
      HolesAreActive(s, holes);
      assert holes + {t} - {t} == holes;
    }
  }

  lemma HolesAreActive(s: State, holes: set<string>)
    requires Inv(s, holes)
    ensures holes <= s.active
  {
    hide ParkedFiled, WaitingFiled, TurnsFiled, Backed, Blamed, Ordered;
  }

  lemma ShipTurn(s: State, holes: set<string>, i: nat)
    requires Inv(s, holes) && i < |s.rows|
    ensures var m := s.rows[i].msg;
            && m.id in s.turns && s.turns[m.id].msg == m
            && m.id < |s.place| && s.place[m.id].Stored? && s.arrivals[m.id] == m
    ensures var m := s.rows[i].msg;
            TurnsFiled(s.place[m.id := Running], s.arrivals, s.turns[m.id := Turn(m, false)])
  {
    hide ParkedFiled, WaitingFiled, OneOccupant, Blamed, Ordered;
  }

  lemma ShipBacked(turns: map<nat, Turn>, rows: seq<Row>, nextRow: nat, i: nat)
    requires Backed(turns, rows, nextRow) && i < |rows|
    ensures Backed(turns[rows[i].msg.id := Turn(rows[i].msg, false)], rows[..i] + rows[i + 1..], nextRow)
  {
    var gone, now := rows[i].msg, rows[..i] + rows[i + 1..];
    forall k | 0 <= k < |now|
      ensures now[k] == rows[if k < i then k else k + 1]
      ensures now[k].msg.id != gone.id
    {
      var j := if k < i then k else k + 1;
      assert if j < i then rows[j].msg.id != rows[i].msg.id else rows[i].msg.id != rows[j].msg.id;
    }
    forall id | id in turns && id != gone.id && turns[id].queued
      ensures exists k :: 0 <= k < |now| && now[k].msg.id == id
    {
      StillListed(turns, rows, nextRow, i, id);
    }
  }

  lemma StillListed(turns: map<nat, Turn>, rows: seq<Row>, nextRow: nat, i: nat, id: nat)
    requires Backed(turns, rows, nextRow) && i < |rows| && id in turns && turns[id].queued && rows[i].msg.id != id
    ensures var now := rows[..i] + rows[i + 1..]; exists k :: 0 <= k < |now| && now[k].msg.id == id
  {
    var now := rows[..i] + rows[i + 1..];
    var k :| 0 <= k < |rows| && rows[k].msg.id == id;
    assert now[if k < i then k else k - 1] == rows[k];
  }

  lemma ShipSerial(s: State, s': State, holes: set<string>, id: nat)
    requires |s.place| == |s.arrivals| && OneOccupant(s, holes) && id < |s.place| && s.place[id].Stored?
    requires s'.place == s.place[id := Running] && s'.arrivals == s.arrivals
    requires s'.active == s.active && s'.occupant == s.occupant && s'.leaked == s.leaked
    ensures OneOccupant(s', holes)
  {
  }

  lemma ShipKeeps(s: State, holes: set<string>, row: nat)
    requires Inv(s, holes)
    ensures Inv(Ship(s, row, true), holes)
  {
    hide ParkedFiled, WaitingFiled, TurnsFiled, Backed, OneOccupant, Blamed, Ordered;
    var i := RowAt(s.rows, row);
    if i < |s.rows| {
      var m := s.rows[i].msg;
      ShipTurn(s, holes, i);
      ParkedFrame(s.place, s.arrivals, s.parked, m.id, Running);
      WaitingFrame(s.place, s.arrivals, s.queues, m.id, Running);
      ShipBacked(s.turns, s.rows, s.nextRow, i);
      ShipSerial(s, Ship(s, row, true), holes, m.id);
      SendFrame(s.place, s.arrivals, s.sent, m.id);
      BlameFrame(s.place, s.arrivals, s.leaked, m.id, Running);
    }
  }
}
