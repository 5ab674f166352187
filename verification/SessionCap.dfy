/**
 The runner's cap on resident harness processes, step by step.

 Nobody holds a lock over all sessions: a start locks its own session, looks at
 the others one by one without waiting for their locks, and may close idle ones.
 Any number of starts interleave with turns, crashes and closes.
 */
module SessionCap {
  import opened Wrappers

  /** Where a start stands: it still has to look at `must` and looked at `seen`;
      it counted `counted` as resident and may close `victims`. */
  datatype Phase =
    | Idle
    | Scanning(must: set<string>, seen: set<string>, victims: set<string>)
    | Evicting(victims: set<string>, need: nat)
    | Granted

  /** A session of one thread. Its lock is held exactly while a start is under
      way; `stamp` and `counted` are those of the latest start. */
  datatype Session = Session(phase: Phase, alive: bool, busy: bool, stamp: nat, counted: set<string>)

  datatype World = World(sessions: map<string, Session>, clock: nat)

  /** `missed` says that the lock was taken by somebody passing. */
  datatype Act =
    | Meet(key: string)
    | Lock(key: string)
    | Look(key: string, other: string, missed: bool)
    | Decide(key: string)
    | Evict(key: string, other: string, missed: bool)
    | Settle(key: string)
    | Start(key: string, ok: bool)
    | Die(key: string)
    | Turn(key: string, busy: bool)

  predicate Locked(s: Session) {
    !s.phase.Idle?
  }

  function Put(w: World, key: string, s: Session): World {
    w.(sessions := w.sessions[key := s])
  }

  /** `max` 0 stands for every configured value that means no cap. */
  function Step(w: World, a: Act, max: nat): World {
    if a.Meet? then
      if a.key in w.sessions then w else Put(w, a.key, Session(Idle, false, false, 0, {}))
    else if a.key !in w.sessions then w else
    var s := w.sessions[a.key];
    match a
    case Lock(key) =>
      if Locked(s) || s.alive then w
      else Put(w, key, s.(phase := Scanning(w.sessions.Keys - {key}, {}, {}), stamp := w.clock, counted := {})).(clock := w.clock + 1)
    case Look(key, other, missed) =>
      if !(s.phase.Scanning? && other in w.sessions && other != key && other !in s.phase.seen) then w else
      var o := w.sessions[other];
      var seen := s.phase.seen + {other};
      if missed || Locked(o) then Put(w, key, s.(phase := s.phase.(seen := seen), counted := s.counted + {other}))
      else if !o.alive then Put(w, key, s.(phase := s.phase.(seen := seen)))
      else
        var victims := if o.busy then s.phase.victims else s.phase.victims + {other};
        Put(w, key, s.(phase := s.phase.(seen := seen, victims := victims), counted := s.counted + {other}))
    case Decide(key) =>
      if !(s.phase.Scanning? && (max == 0 || s.phase.must <= s.phase.seen)) then w
      else if max == 0 || |s.counted| < max then Put(w, key, s.(phase := Granted))
      else Put(w, key, s.(phase := Evicting(s.phase.victims, |s.counted| - max + 1)))
    case Evict(key, other, missed) =>
      if !(s.phase.Evicting? && s.phase.need > 0 && other in s.phase.victims) then w else
      var left := s.phase.victims - {other};
      if other !in w.sessions || missed || Locked(w.sessions[other]) || w.sessions[other].busy || !w.sessions[other].alive then
        Put(w, key, s.(phase := Evicting(left, s.phase.need)))
      else
        Put(Put(w, other, w.sessions[other].(alive := false)), key,
            s.(phase := Evicting(left, s.phase.need - 1), counted := s.counted - {other}))
    case Settle(key) =>
      if !s.phase.Evicting? then w
      else if s.phase.need == 0 then Put(w, key, s.(phase := Granted))
      else if s.phase.victims == {} then Put(w, key, s.(phase := Idle))
      else w
    case Start(key, ok) =>
      if s.phase.Granted? then Put(w, key, s.(phase := Idle, alive := ok)) else w
    case Die(key) => if Locked(s) then w else Put(w, key, s.(alive := false))
    case Turn(key, busy) => Put(w, key, s.(busy := busy))
  }

  function Trace(w: World, acts: seq<Act>, max: nat): World
    decreases |acts|
  {
    if acts == [] then w else Step(Trace(w, acts[..|acts| - 1], max), acts[|acts| - 1], max)
  }

  // ------------------------------------------------------------------
  // The latest start counted every earlier one
  // ------------------------------------------------------------------

  predicate Active(s: Session) {
    Locked(s) || s.alive
  }

  /** What a start has counted or is still going to look at. */
  function Cover(s: Session): set<string> {
    if s.phase.Scanning? then s.counted + (s.phase.must - s.phase.seen) else s.counted
  }

  /** The arithmetic of one start. */
  predicate Sound(s: Session, max: nat) {
    match s.phase
    case Idle => s.alive ==> |s.counted| < max
    case Scanning(must, seen, victims) => !s.alive && s.counted <= seen && victims <= s.counted
    case Evicting(victims, need) => !s.alive && victims <= s.counted && |s.counted| < max + need
    case Granted => !s.alive && |s.counted| < max
  }

  ghost predicate Inv(w: World, max: nat) {
    && (forall k | k in w.sessions :: Sound(w.sessions[k], max))
    && (forall k | k in w.sessions && Active(w.sessions[k]) :: w.sessions[k].stamp < w.clock)
    && (forall j, k | j in w.sessions && k in w.sessions && j != k && Active(w.sessions[j]) && Active(w.sessions[k]) ::
          w.sessions[j].stamp != w.sessions[k].stamp
          && (w.sessions[j].stamp < w.sessions[k].stamp ==> j in Cover(w.sessions[k])))
  }

  /** One session changes without becoming active or losing sight of another. */
  lemma Narrowed(w: World, key: string, s: Session, max: nat)
    requires Inv(w, max) && key in w.sessions && Sound(s, max) && s.stamp == w.sessions[key].stamp
    requires Active(s) ==> Active(w.sessions[key])
    requires Active(s) ==> forall j | j in w.sessions && j != key && Active(w.sessions[j]) && j in Cover(w.sessions[key]) :: j in Cover(s)
    ensures Inv(Put(w, key, s), max)
  {
    hide Sound, Cover, Active;
  }

  lemma Locks(w: World, key: string, max: nat)
    requires Inv(w, max) && key in w.sessions && !Active(w.sessions[key])
    ensures Inv(Step(w, Lock(key), max), max)
  {
  }

  lemma LookKeeps(w: World, a: Act, max: nat)
    requires Inv(w, max) && a.Look?
    ensures Inv(Step(w, a, max), max)
  {
    var w' := Step(w, a, max);
    if w' != w {
      var s' := w'.sessions[a.key];
      hide Inv;
      assert Sound(w.sessions[a.key], max) by { SoundAt(w, a.key, max); }
      assert w' == Put(w, a.key, s');
      Narrowed(w, a.key, s', max);
    }
  }

  lemma SoundAt(w: World, k: string, max: nat)
    requires Inv(w, max) && k in w.sessions
    ensures Sound(w.sessions[k], max)
  {
  }

  lemma EvictKeeps(w: World, key: string, other: string, missed: bool, max: nat)
    requires Inv(w, max)
    ensures Inv(Step(w, Evict(key, other, missed), max), max)
  {
    var w' := Step(w, Evict(key, other, missed), max);
    if w' != w {
      var s, s' := w.sessions[key], w'.sessions[key];
      SoundAt(w, key, max);
      hide Inv;
      if other !in w.sessions || missed || Locked(w.sessions[other]) || w.sessions[other].busy || !w.sessions[other].alive {
        Narrowed(w, key, s', max);
      } else {
        Narrowed(w, other, w.sessions[other].(alive := false), max);
        Narrowed(Put(w, other, w.sessions[other].(alive := false)), key, s', max);
      }
    }
  }

  lemma StepKeeps(w: World, a: Act, max: nat)
    requires Inv(w, max) && max > 0
    ensures Inv(Step(w, a, max), max)
  {
    if a.Meet? {
      Met(w, a.key, max);
    } else if a.key in w.sessions {
      var s := w.sessions[a.key];
      SoundAt(w, a.key, max);
      hide Inv;
      if a.Lock? {
        if !Active(s) {
          Locks(w, a.key, max);
        }
      } else if a.Look? {
        LookKeeps(w, a, max);
      } else if a.Evict? {
        EvictKeeps(w, a.key, a.other, a.missed, max);
      } else {
        Narrowed(w, a.key, Step(w, a, max).sessions[a.key], max);
      }
    }
  }

  lemma Met(w: World, key: string, max: nat)
    requires Inv(w, max)
    ensures Inv(Step(w, Meet(key), max), max)
  {
  }

  // ------------------------------------------------------------------
  // The cap
  // ------------------------------------------------------------------

  /** A resident process, or one that a granted start is about to create. */
  predicate Resident(s: Session) {
    s.alive || s.phase.Granted?
  }

  function Residents(w: World): set<string> {
    set k | k in w.sessions && Resident(w.sessions[k])
  }

  lemma Latest(w: World, ks: set<string>) returns (k: string)
    requires ks != {} && ks <= w.sessions.Keys
    ensures k in ks && forall j | j in ks :: w.sessions[j].stamp <= w.sessions[k].stamp
    decreases |ks|
  {
    k :| k in ks;
    var rest := ks - {k};
    if rest != {} {
      var j := Latest(w, rest);
      var first := k;
      assert forall x | x in ks :: x == first || x in rest;
      if w.sessions[k].stamp < w.sessions[j].stamp {
        k := j;
      }
    }
  }

  lemma WithinCap(w: World, max: nat)
    requires Inv(w, max) && max > 0
    ensures |Residents(w)| <= max
  {
    var all := Residents(w);
    if all != {} {
      var k := Latest(w, all);
      assert all - {k} <= w.sessions[k].counted;
      SubsetSize(all - {k}, w.sessions[k].counted);
    }
  }

  const NOBODY := World(map[], 0)

  /** Under any interleaving there are never more resident processes than the cap. */
  lemma {:induction false} NeverOverCap(acts: seq<Act>, max: nat)
    requires max > 0
    ensures Inv(Trace(NOBODY, acts, max), max)
    ensures |Residents(Trace(NOBODY, acts, max))| <= max
    decreases |acts|
  {
    hide Step;
    if acts != [] {
      NeverOverCap(acts[..|acts| - 1], max);
      StepKeeps(Trace(NOBODY, acts[..|acts| - 1], max), acts[|acts| - 1], max);
    }
    WithinCap(Trace(NOBODY, acts, max), max);
  }
}
