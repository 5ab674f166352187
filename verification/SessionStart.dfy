/** What a start comes to when nobody else is starting: it is granted exactly if it can be. */
module SessionStart {
  import opened SessionCap

  /** Nobody else has a start under way. */
  predicate Alone(w: World, key: string) {
    key in w.sessions && forall k | k in w.sessions && k != key :: w.sessions[k].phase.Idle?
  }

  function Others(w: World, key: string): set<string> {
    set k | k in w.sessions && k != key && w.sessions[k].alive
  }

  function Quiet(w: World, key: string): set<string> {
    set k | k in w.sessions && k != key && w.sessions[k].alive && !w.sessions[k].busy
  }

  predicate Distinct(order: seq<string>) {
    forall i, j | 0 <= i < j < |order| :: order[i] != order[j]
  }

  function Looks(key: string, order: seq<string>): seq<Act> {
    if order == [] then [] else Looks(key, order[..|order| - 1]) + [Look(key, order[|order| - 1], false)]
  }

  function Evictions(key: string, order: seq<string>): seq<Act> {
    if order == [] then [] else Evictions(key, order[..|order| - 1]) + [Evict(key, order[|order| - 1], false)]
  }

  lemma TraceNext(w: World, acts: seq<Act>, a: Act, max: nat)
    ensures Trace(w, acts + [a], max) == Step(Trace(w, acts, max), a, max)
  {
    hide Step;
    assert (acts + [a])[..|acts|] == acts;
  }

  /** What a scan has seen by now: the living are counted, and the quiet among them noted. */
  predicate Scanned(w: World, key: string, seen: set<string>, w': World) {
    key in w.sessions && w'.clock == w.clock && w'.sessions.Keys == w.sessions.Keys
    && (forall k | k in w.sessions && k != key :: w'.sessions[k] == w.sessions[k])
    && w'.sessions[key] == w.sessions[key].(
         phase := Scanning(w.sessions.Keys - {key}, seen, seen * Quiet(w, key)), counted := seen * Others(w, key))
  }

  lemma LookOnce(w: World, w': World, key: string, seen: set<string>, other: string, max: nat)
    requires Alone(w, key) && Scanned(w, key, seen, w') && other in w.sessions && other != key && other !in seen
    ensures Scanned(w, key, seen + {other}, Step(w', Look(key, other, false), max))
  {
    var q, o := Quiet(w, key), Others(w, key);
    assert (seen + {other}) * o == seen * o + if w.sessions[other].alive then {other} else {};
    assert (seen + {other}) * q == seen * q + if w.sessions[other].alive && !w.sessions[other].busy then {other} else {};
    assert w'.sessions[other] == w.sessions[other];
    assert seen * o + {} == seen * o && seen * q + {} == seen * q;
    hide Quiet, Others;
  }

  lemma {:induction false} LooksScan(w: World, w0: World, key: string, order: seq<string>, max: nat)
    requires Alone(w, key) && Scanned(w, key, {}, w0) && Distinct(order)
    requires forall k | k in order :: k in w.sessions && k != key
    ensures Scanned(w, key, (set k | k in order), Trace(w0, Looks(key, order), max))
  {
    hide Scanned, Step;
    if order == [] {
      assert (set k: string | k in []) == {};
    } else {
      var front, other := order[..|order| - 1], order[|order| - 1];
      LooksScan(w, w0, key, front, max);
      assert (set k | k in order) == (set k | k in front) + {other};
      LookOnce(w, Trace(w0, Looks(key, front), max), key, (set k | k in front), other, max);
      TraceNext(w0, Looks(key, front), Look(key, other, false), max);
    }
  }

  /** The sessions in `gone` were closed by the start, which still needs this many. */
  predicate Closed(w: World, key: string, victims: set<string>, gone: set<string>, need: nat, w': World) {
    key in w.sessions && w'.clock == w.clock && w'.sessions.Keys == w.sessions.Keys
    && (forall k | k in w.sessions && k != key :: w'.sessions[k] == if k in gone then w.sessions[k].(alive := false) else w.sessions[k])
    && w'.sessions[key] == w.sessions[key].(phase := Evicting(victims - gone, need), counted := w.sessions[key].counted - gone)
  }

  lemma EvictOnce(w: World, w': World, key: string, victims: set<string>, gone: set<string>, need: nat, other: string, max: nat)
    requires Alone(w, key) && Closed(w, key, victims, gone, need, w') && victims <= Quiet(w, key)
    requires other in victims && other !in gone && need > 0
    ensures Closed(w, key, victims, gone + {other}, need - 1, Step(w', Evict(key, other, false), max))
  {
    assert victims - (gone + {other}) == victims - gone - {other};
    assert w.sessions[key].counted - (gone + {other}) == w.sessions[key].counted - gone - {other};
    assert other in Quiet(w, key);
    assert w'.sessions[other] == w.sessions[other];
  }

  lemma {:induction false} EvictionsClose(w: World, w0: World, key: string, victims: set<string>, order: seq<string>, need: nat, max: nat)
    requires Alone(w, key) && Closed(w, key, victims, {}, need, w0) && victims <= Quiet(w, key) && Distinct(order) && |order| <= need
    requires forall k | k in order :: k in victims
    ensures Closed(w, key, victims, (set k | k in order), need - |order|, Trace(w0, Evictions(key, order), max))
  {
    hide Closed, Step, Quiet;
    if order == [] {
      assert (set k: string | k in []) == {};
    } else {
      var front, other := order[..|order| - 1], order[|order| - 1];
      EvictionsClose(w, w0, key, victims, front, need, max);
      assert (set k | k in order) == (set k | k in front) + {other};
      EvictOnce(w, Trace(w0, Evictions(key, front), max), key, victims, (set k | k in front), need - |front|, other, max);
      TraceNext(w0, Evictions(key, front), Evict(key, other, false), max);
    }
  }

  lemma LockScans(w: World, key: string, max: nat)
    requires Alone(w, key) && w.sessions[key].phase.Idle? && !w.sessions[key].alive
    ensures var w1 := Step(w, Lock(key), max);
            Alone(w1, key) && Scanned(w1, key, {}, w1) && Others(w1, key) == Others(w, key) && Quiet(w1, key) == Quiet(w, key)
            && w1.sessions.Keys == w.sessions.Keys && w1.sessions[key].busy == w.sessions[key].busy && !w1.sessions[key].alive
            && (forall k | k in w.sessions && k != key :: w1.sessions[k] == w.sessions[k])
  {
    var w1 := Step(w, Lock(key), max);
    assert w1.sessions.Keys == w.sessions.Keys;
    assert {} * Quiet(w1, key) == {} && {} * Others(w1, key) == {};
  }

  /** A scan of everybody. */
  lemma ScanEnds(w: World, key: string, order: seq<string>, max: nat)
    requires Alone(w, key) && w.sessions[key].phase.Idle? && !w.sessions[key].alive
    requires Distinct(order) && forall k :: k in order <==> k in w.sessions && k != key
    ensures var w1 := Trace(Step(w, Lock(key), max), Looks(key, order), max);
            && key in w1.sessions && Alone(w1, key) && w1.sessions.Keys == w.sessions.Keys
            && (forall k | k in w.sessions && k != key :: w1.sessions[k] == w.sessions[k])
            && Others(w1, key) == Others(w, key) && Quiet(w1, key) == Quiet(w, key)
            && w1.sessions[key].counted == Others(w, key) && !w1.sessions[key].alive && w1.sessions[key].busy == w.sessions[key].busy
            && w1.sessions[key].phase == Scanning(w1.sessions.Keys - {key}, w1.sessions.Keys - {key}, Quiet(w, key))
  {
    hide Step, Trace, Looks;
    var w0 := Step(w, Lock(key), max);
    LockScans(w, key, max);
    LooksScan(w0, w0, key, order, max);
    assert (set k | k in order) == w0.sessions.Keys - {key};
    assert (w0.sessions.Keys - {key}) * Others(w0, key) == Others(w, key);
    assert (w0.sessions.Keys - {key}) * Quiet(w0, key) == Quiet(w, key);
    var w1 := Trace(w0, Looks(key, order), max);
    assert forall k | k in w.sessions && k != key :: w1.sessions[k] == w0.sessions[k];
  }

  /** A start with nobody else starting, when there is room: it is granted, no session is
      touched, and its process runs if it can be started. */
  lemma StartsWithRoom(w: World, key: string, order: seq<string>, started: bool, max: nat)
    requires Alone(w, key) && w.sessions[key].phase.Idle? && !w.sessions[key].alive
    requires Distinct(order) && forall k :: k in order <==> k in w.sessions && k != key
    requires max == 0 || |Others(w, key)| < max
    ensures var w1 := Trace(Step(w, Lock(key), max), Looks(key, order), max);
            var w' := Step(Step(w1, Decide(key), max), Start(key, started), max);
            && w'.sessions.Keys == w.sessions.Keys && w'.sessions[key].alive == started && w'.sessions[key].phase.Idle?
            && w'.sessions[key].busy == w.sessions[key].busy
            && forall k | k in w.sessions && k != key :: w'.sessions[k] == w.sessions[k]
  {
    ScanEnds(w, key, order, max);
    hide Trace, Looks, Others, Quiet;
  }

  /** And when there is none: it closes exactly as many of the quiet sessions as are needed,
      and is granted if there are enough of them; if not, it closes them all and starts
      nothing. A session in a turn is never touched. */
  lemma StartsByEviction(w: World, key: string, order: seq<string>, closed: seq<string>, started: bool, max: nat)
    requires Alone(w, key) && w.sessions[key].phase.Idle? && !w.sessions[key].alive
    requires Distinct(order) && forall k :: k in order <==> k in w.sessions && k != key
    requires 0 < max <= |Others(w, key)|
    requires Distinct(closed) && (forall k | k in closed :: k in Quiet(w, key))
    requires var need := |Others(w, key)| - max + 1;
             |closed| == need || (|closed| < need && forall k | k in Quiet(w, key) :: k in closed)
    ensures var w1 := Trace(Step(w, Lock(key), max), Looks(key, order), max);
            var w2 := Trace(Step(w1, Decide(key), max), Evictions(key, closed), max);
            var w' := Step(Step(w2, Settle(key), max), Start(key, started), max);
            && w'.sessions.Keys == w.sessions.Keys && w'.sessions[key].phase.Idle?
            && w'.sessions[key].alive == (started && |closed| == |Others(w, key)| - max + 1)
            && forall k | k in w.sessions && k != key :: w'.sessions[k] == if k in closed then w.sessions[k].(alive := false) else w.sessions[k]
  {
    hide Step, Trace, Looks, Others, Quiet, Closed;
    ScanEnds(w, key, order, max);
    var w1 := Trace(Step(w, Lock(key), max), Looks(key, order), max);
    Deciding(w1, key, Others(w, key), Quiet(w, key), max);
    var d := Step(w1, Decide(key), max);
    var need := |Others(w, key)| - max + 1;
    EvictionsClose(d, d, key, Quiet(w, key), closed, need, max);
    Settled(Trace(d, Evictions(key, closed), max), d, key, Quiet(w, key), closed, need, started, max);
  }

  lemma Deciding(w1: World, key: string, others: set<string>, quiet: set<string>, max: nat)
    requires Alone(w1, key) && quiet == Quiet(w1, key) && w1.sessions[key].counted == others && 0 < max <= |others|
    requires w1.sessions[key].phase == Scanning(w1.sessions.Keys - {key}, w1.sessions.Keys - {key}, quiet)
    ensures var d := Step(w1, Decide(key), max); var need := |others| - max + 1;
            && Alone(d, key) && Quiet(d, key) == quiet && Closed(d, key, quiet, {}, need, d)
            && (forall k | k in w1.sessions && k != key :: d.sessions[k] == w1.sessions[k]) && d.sessions.Keys == w1.sessions.Keys
            && d.sessions[key].alive == w1.sessions[key].alive
  {
    assert quiet - {} == quiet && others - {} == others;
  }

  lemma Settled(w2: World, d: World, key: string, quiet: set<string>, closed: seq<string>, need: nat, started: bool, max: nat)
    requires |closed| <= need && Closed(d, key, quiet, (set k | k in closed), need - |closed|, w2)
    requires key in d.sessions && !d.sessions[key].alive
    requires |closed| == need || forall k | k in quiet :: k in closed
    ensures var w' := Step(Step(w2, Settle(key), max), Start(key, started), max);
            && w'.sessions.Keys == d.sessions.Keys && w'.sessions[key].phase.Idle?
            && w'.sessions[key].alive == (started && |closed| == need)
            && forall k | k in d.sessions && k != key :: w'.sessions[k] == if k in closed then d.sessions[k].(alive := false) else d.sessions[k]
  {
    if |closed| < need {
      assert quiet - (set k | k in closed) == {};
    }
  }
}
