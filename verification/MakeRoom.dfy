/** One start making room for itself: counting, sorting and closing in place. */
module MakeRoom {

  /** `taken` says that a passing attempt does not get the session's lock. */
  datatype Slot = Slot(alive: bool, busy: bool, idle: int, taken: bool)

  datatype Candidate = Candidate(key: string, idle: int)

  function Counted(sessions: map<string, Slot>, keys: set<string>): set<string> {
    set k | k in keys && k in sessions && (sessions[k].taken || sessions[k].alive)
  }

  predicate Evictable(s: Slot) {
    s.alive && !s.busy && !s.taken
  }

  function Victims(sessions: map<string, Slot>, keys: set<string>): set<string> {
    set k | k in keys && k in sessions && Evictable(sessions[k])
  }

  function Gone(before: map<string, Slot>, after: map<string, Slot>): set<string> {
    set k | k in before && k in after && before[k].alive && !after[k].alive
  }

  /** Only victims were closed, the longest idle first, and nothing else changed. */
  predicate ClosedLongestIdle(before: map<string, Slot>, after: map<string, Slot>, keys: set<string>) {
    var gone := Gone(before, after);
    && gone <= Victims(before, keys)
    && after.Keys == before.Keys
    && (forall k | k in before :: after[k] == if k in gone then before[k].(alive := false) else before[k])
    && (forall g, v | g in gone && v in Victims(before, keys) && v !in gone :: before[v].idle <= before[g].idle)
  }

  function Insert(c: Candidate, cs: seq<Candidate>): seq<Candidate> {
    if cs == [] || c.idle > cs[0].idle then [c] + cs else [cs[0]] + Insert(c, cs[1..])
  }

  function Sorted(cs: seq<Candidate>): seq<Candidate> {
    if cs == [] then [] else Insert(cs[0], Sorted(cs[1..]))
  }

  predicate LongestFirst(cs: seq<Candidate>) {
    forall i, j | 0 <= i < j < |cs| :: cs[i].idle >= cs[j].idle
  }

  lemma {:induction false} InsertKeeps(c: Candidate, cs: seq<Candidate>)
    ensures multiset(Insert(c, cs)) == multiset(cs) + multiset{c} && |Insert(c, cs)| == |cs| + 1
  {
    if cs == [] || c.idle > cs[0].idle {
    } else {
      InsertKeeps(c, cs[1..]);
      assert cs == [cs[0]] + cs[1..];
    }
  }

  lemma {:induction false} InsertSorts(c: Candidate, cs: seq<Candidate>)
    requires LongestFirst(cs)
    ensures LongestFirst(Insert(c, cs))
  {
    if cs == [] || c.idle > cs[0].idle {
    } else {
      var rest := Insert(c, cs[1..]);
      InsertSorts(c, cs[1..]);
      InsertKeeps(c, cs[1..]);
      forall j | 0 <= j < |rest|
        ensures rest[j].idle <= cs[0].idle
      {
        assert rest[j] in multiset(rest);
        assert rest[j] == c || rest[j] in cs[1..];
      }
    }
  }

  lemma {:induction false} SortSorts(cs: seq<Candidate>)
    ensures LongestFirst(Sorted(cs)) && multiset(Sorted(cs)) == multiset(cs) && |Sorted(cs)| == |cs|
  {
    hide Insert;
    if cs != [] {
      SortSorts(cs[1..]);
      InsertSorts(cs[0], Sorted(cs[1..]));
      InsertKeeps(cs[0], Sorted(cs[1..]));
      assert cs == [cs[0]] + cs[1..];
    }
  }

  function Keys(cs: seq<Candidate>): set<string> {
    set c | c in cs :: c.key
  }

  /** The list names each victim once, with its idle time. */
  predicate Lists(cs: seq<Candidate>, sessions: map<string, Slot>, victims: set<string>) {
    && (forall c | c in cs :: c.key in victims && c.key in sessions && c.idle == sessions[c.key].idle)
    && (forall k | k in victims :: k in sessions && Candidate(k, sessions[k].idle) in cs)
    && forall i, j | 0 <= i < j < |cs| :: cs[i] != cs[j]
  }

  lemma Permuted(cs: seq<Candidate>, ds: seq<Candidate>, sessions: map<string, Slot>, victims: set<string>)
    requires Lists(cs, sessions, victims) && multiset(cs) == multiset(ds) && |cs| == |ds|
    ensures Lists(ds, sessions, victims)
  {
    assert forall c :: c in cs <==> c in multiset(cs);
    assert forall c :: c in ds <==> c in multiset(ds);
    if i, j :| 0 <= i < j < |ds| && ds[i] == ds[j] {
      assert ds == ds[..j] + ds[j..];
      assert ds[i] in ds[..j] && ds[j] in ds[j..];
      assert multiset(ds)[ds[i]] >= 2;
      Once(cs, ds[i]);
    }
  }

  lemma {:induction false} Once(cs: seq<Candidate>, c: Candidate)
    requires forall i, j | 0 <= i < j < |cs| :: cs[i] != cs[j]
    ensures multiset(cs)[c] <= 1
  {
    if cs != [] {
      assert cs == [cs[0]] + cs[1..];
      Once(cs[1..], c);
    }
  }

  /** The candidates that can be closed now. */
  function StillOpen(sessions: map<string, Slot>, cs: seq<Candidate>): seq<Candidate> {
    if cs == [] then []
    else
      var last := cs[|cs| - 1];
      StillOpen(sessions, cs[..|cs| - 1]) + if last.key in sessions && Evictable(sessions[last.key]) then [last] else []
  }

  /** They are those that are alive, out of turn and unlocked, in the order of the list. */
  lemma {:induction false} OpenAre(sessions: map<string, Slot>, cs: seq<Candidate>) returns (at: seq<nat>)
    ensures (forall k | 0 <= k < |at| :: at[k] < |cs|) && (forall j, k | 0 <= j < k < |at| :: at[j] < at[k])
    ensures |StillOpen(sessions, cs)| == |at| && forall k | 0 <= k < |at| :: StillOpen(sessions, cs)[k] == cs[at[k]]
    ensures forall i | 0 <= i < |cs| ::
              i in at <==> cs[i].key in sessions
                           && var s := sessions[cs[i].key]; s.alive && !s.busy && !s.taken
  {
    if cs == [] {
      at := [];
    } else {
      at := OpenAre(sessions, cs[..|cs| - 1]);
      var last := cs[|cs| - 1];
      if last.key in sessions && Evictable(sessions[last.key]) {
        at := at + [|cs| - 1];
      }
    }
  }

  lemma OpenStart(sessions: map<string, Slot>, cs: seq<Candidate>)
    ensures StillOpen(sessions, cs[..0]) == []
  {
  }

  lemma OpenNext(sessions: map<string, Slot>, cs: seq<Candidate>, i: nat)
    requires i < |cs|
    ensures StillOpen(sessions, cs[..i + 1])
         == StillOpen(sessions, cs[..i]) + if cs[i].key in sessions && Evictable(sessions[cs[i].key]) then [cs[i]] else []
  {
    assert cs[..i + 1][..i] == cs[..i];
  }

  lemma {:induction false} OpenFront(sessions: map<string, Slot>, cs: seq<Candidate>, i: nat)
    requires i <= |cs|
    ensures StillOpen(sessions, cs[..i]) <= StillOpen(sessions, cs)
    decreases |cs| - i
  {
    if i < |cs| {
      OpenNext(sessions, cs, i);
      OpenFront(sessions, cs, i + 1);
    } else {
      assert cs[..i] == cs;
    }
  }

  lemma {:induction false} AllOpen(sessions: map<string, Slot>, cs: seq<Candidate>)
    requires forall i | 0 <= i < |cs| :: cs[i].key in sessions && Evictable(sessions[cs[i].key])
    ensures StillOpen(sessions, cs) == cs
  {
    hide Evictable;
    if cs != [] {
      AllOpen(sessions, cs[..|cs| - 1]);
    }
  }

  lemma KeysDiffer(cs: seq<Candidate>, sessions: map<string, Slot>, victims: set<string>)
    requires Lists(cs, sessions, victims)
    ensures forall i, j | 0 <= i < j < |cs| :: cs[i].key != cs[j].key
  {
    forall i, j | 0 <= i < j < |cs|
      ensures cs[i].key != cs[j].key
    {
      assert cs[i] in cs && cs[j] in cs;
    }
  }

  /** The first `n` candidates closed. */
  ghost predicate FirstClosed(before: map<string, Slot>, after: map<string, Slot>, cs: seq<Candidate>, n: nat)
    requires n <= |cs|
  {
    && after.Keys == before.Keys
    && forall k | k in before :: after[k] == if k in Keys(cs[..n]) then before[k].(alive := false) else before[k]
  }

  lemma NoneClosed(before: map<string, Slot>)
    ensures FirstClosed(before, before, [], 0)
  {
    var none: seq<Candidate> := [];
    assert none[..0] == none;
    NoKeys();
  }

  /** One more closed. */
  lemma ClosedOne(before: map<string, Slot>, after: map<string, Slot>, cs: seq<Candidate>, c: Candidate)
    requires FirstClosed(before, after, cs, |cs|) && c.key in before
    ensures c.key in after
    ensures FirstClosed(before, after[c.key := before[c.key].(alive := false)], cs + [c], |cs| + 1)
  {
    assert cs[..|cs|] == cs && (cs + [c])[..|cs| + 1] == cs + [c];
    assert Keys(cs + [c]) == Keys(cs) + {c.key};
    hide Keys;
  }

  /** The list may go on behind them. */
  lemma ClosedPrefix(before: map<string, Slot>, after: map<string, Slot>, front: seq<Candidate>, cs: seq<Candidate>)
    requires FirstClosed(before, after, front, |front|) && front <= cs
    ensures FirstClosed(before, after, cs, |front|)
  {
    assert front[..|front|] == cs[..|front|];
  }

  lemma {:induction false} KeyCount(cs: seq<Candidate>, sessions: map<string, Slot>, victims: set<string>, n: nat)
    requires Lists(cs, sessions, victims) && n <= |cs|
    ensures |Keys(cs[..n])| == n && Keys(cs[..n]) <= victims
    ensures n == |cs| ==> Keys(cs[..n]) == victims
  {
    hide Lists, Keys;
    if n > 0 {
      KeyCount(cs, sessions, victims, n - 1);
      KeysNext(cs, sessions, victims, n - 1);
    } else {
      assert Keys([]) == {} by { NoKeys(); }
      assert cs[..0] == [];
    }
    if n == |cs| {
      assert cs[..n] == cs;
      AllKeys(cs, sessions, victims);
    }
  }

  lemma NoKeys()
    ensures Keys([]) == {}
  {
  }

  lemma KeysNext(cs: seq<Candidate>, sessions: map<string, Slot>, victims: set<string>, n: nat)
    requires Lists(cs, sessions, victims) && n < |cs|
    ensures Keys(cs[..n + 1]) == Keys(cs[..n]) + {cs[n].key} && cs[n].key in victims && cs[n].key !in Keys(cs[..n])
  {
    assert cs[..n + 1] == cs[..n] + [cs[n]];
    forall i | 0 <= i < n
      ensures cs[i].key != cs[n].key
    {
      assert cs[i] in cs && cs[n] in cs && cs[i] != cs[n];
    }
  }

  lemma AllKeys(cs: seq<Candidate>, sessions: map<string, Slot>, victims: set<string>)
    requires Lists(cs, sessions, victims)
    ensures Keys(cs) == victims
  {
    forall k | k in victims
      ensures k in Keys(cs)
    {
      assert Candidate(k, sessions[k].idle).key in Keys(cs);
    }
  }

  lemma ClosedFirst(before: map<string, Slot>, after: map<string, Slot>, cs: seq<Candidate>, n: nat, keys: set<string>)
    requires Lists(cs, before, Victims(before, keys)) && LongestFirst(cs) && n <= |cs| && FirstClosed(before, after, cs, n)
    ensures ClosedLongestIdle(before, after, keys) && Gone(before, after) == Keys(cs[..n])
  {
    KeyCount(cs, before, Victims(before, keys), n);
    assert Gone(before, after) == Keys(cs[..n]);
    forall g, v | g in Keys(cs[..n]) && v in Victims(before, keys) && v !in Keys(cs[..n])
      ensures before[v].idle <= before[g].idle
    {
      var i :| 0 <= i < n && cs[i].key == g;
      var j :| 0 <= j < |cs| && cs[j] == Candidate(v, before[v].idle);
      assert j >= n;
    }
  }

  /** The keys a scan has passed. */
  function Passed(order: seq<string>, exclude: string): set<string> {
    set k | k in order && k != exclude
  }

  class Runner {
    const max: int
    var sessions: map<string, Slot>

    constructor (max: int)
      ensures this.max == max && sessions == map[]
    {
      this.max := max;
      sessions := map[];
    }

    method Scan(exclude: string, order: seq<string>) returns (running: nat, victims: seq<Candidate>)
      requires forall i, j | 0 <= i < j < |order| :: order[i] != order[j]
      requires forall k | k in order :: k in sessions
      ensures running == |Counted(sessions, Passed(order, exclude))|
      ensures Lists(victims, sessions, Victims(sessions, Passed(order, exclude)))
      ensures |victims| == |Victims(sessions, Passed(order, exclude))|
    {
      hide Lists, Counted, Victims, Passed;
      running, victims := 0, [];
      ScanStart(sessions, order, exclude);
      for i := 0 to |order|
        invariant running == |Counted(sessions, Passed(order[..i], exclude))|
        invariant Lists(victims, sessions, Victims(sessions, Passed(order[..i], exclude)))
      {
        var key := order[i];
        Passing(sessions, order, i, exclude, victims);
        if key == exclude {
          continue;
        }
        if sessions[key].taken {
          running := running + 1;
          continue;
        }
        if !sessions[key].alive {
          continue;
        }
        running := running + 1;
        if !sessions[key].busy {
          victims := victims + [Candidate(key, sessions[key].idle)];
        }
      }
      assert order[..|order|] == order;
      KeyCount(victims, sessions, Victims(sessions, Passed(order, exclude)), |victims|);
    }

    /** The sessions may have changed since the scan: candidates that are locked, in a
        turn or gone by now are passed over. */
    method CloseLongestIdle(victims: seq<Candidate>, start: nat) returns (need: nat)
      requires forall i, j | 0 <= i < j < |victims| :: victims[i].key != victims[j].key
      requires forall c | c in victims :: c.key in sessions
      modifies this`sessions
      ensures var open := StillOpen(old(sessions), victims);
              var n := if start <= |open| then start else |open|;
              need == start - n && FirstClosed(old(sessions), sessions, open, n)
    {
      hide FirstClosed, StillOpen;
      need := start;
      ghost var before, open := sessions, [];
      NoneClosed(before);
      OpenStart(before, victims);
      for i := 0 to |victims|
        invariant open == StillOpen(before, victims[..i]) && need == start - |open|
        invariant FirstClosed(before, sessions, open, |open|)
        invariant forall j | i <= j < |victims| :: victims[j].key in sessions && sessions[victims[j].key] == before[victims[j].key]
      {
        OpenNext(before, victims, i);
        if need == 0 {
          OpenFront(before, victims, i);
          ClosedPrefix(before, sessions, open, StillOpen(before, victims));
          return;
        }
        var key := victims[i].key;
        if sessions[key].taken {
          continue;
        }
        if sessions[key].busy || !sessions[key].alive {
          continue;
        }
        ClosedOne(before, sessions, open, victims[i]);
        open := open + [victims[i]];
        sessions := sessions[key := sessions[key].(alive := false)];
        need := need - 1;
      }
      assert victims[..|victims|] == victims;
    }

    /** `order` is the order in which the session map yields its keys. */
    method MakeRoom(exclude: string, order: seq<string>) returns (ok: bool)
      requires forall i, j | 0 <= i < j < |order| :: order[i] != order[j]
      requires forall k :: k in order <==> k in sessions
      modifies this`sessions
      ensures var was := old(sessions);
              var running := |set k | k in was && k != exclude && (was[k].alive || was[k].taken)|;
              var idle := |set k | k in was && k != exclude && was[k].alive && !was[k].busy && !was[k].taken|;
              var closed := set k | k in was && k in sessions && was[k].alive && !sessions[k].alive;
              && sessions.Keys == was.Keys
              && (if max <= 0 || running < max then ok && sessions == was
                  else ok == (running - max < idle) && |closed| == if ok then running - max + 1 else idle)
              && (forall k | k in closed :: k != exclude && !was[k].busy && !was[k].taken && sessions[k] == was[k].(alive := false))
              && (forall k | k in was && k !in closed :: sessions[k] == was[k])
              && (forall g, v | g in closed && v in was && v !in closed && v != exclude && was[v].alive && !was[v].busy && !was[v].taken ::
                    was[v].idle <= was[g].idle)
      ensures ok && max > 0 ==> |set k | k in sessions && k != exclude && (sessions[k].alive || sessions[k].taken)| < max
    {
      if max <= 0 {
        return true;
      }
      ghost var before, others := sessions, sessions.Keys - {exclude};
      assert Passed(order, exclude) == others;
      var running, victims := Scan(exclude, order);
      CountsAre(before, exclude);
      if running < max {
        return true;
      }
      SortSorts(victims);
      Permuted(victims, Sorted(victims), sessions, Victims(sessions, others));
      victims := Sorted(victims);
      KeysDiffer(victims, sessions, Victims(sessions, others));
      assert forall i | 0 <= i < |victims| :: victims[i] in victims;
      AllOpen(sessions, victims);
      var left := CloseLongestIdle(victims, running - max + 1);
      ghost var n := if running - max < |victims| then running - max + 1 else |victims|;
      ClosedFirst(before, sessions, victims, n, others);
      KeyCount(victims, before, Victims(before, others), n);
      ClosedAre(before, sessions, exclude);
      if left == 0 {
        RoomIsMade(before, sessions, exclude, max);
        CountsAre(sessions, exclude);
      }
      hide Lists, LongestFirst, FirstClosed, ClosedLongestIdle;
      return left == 0;
    }
  }

  lemma CountsAre(sessions: map<string, Slot>, exclude: string)
    ensures Counted(sessions, sessions.Keys - {exclude})
            == set k | k in sessions && k != exclude && (sessions[k].alive || sessions[k].taken)
    ensures Victims(sessions, sessions.Keys - {exclude})
            == set k | k in sessions && k != exclude && sessions[k].alive && !sessions[k].busy && !sessions[k].taken
  {
  }

  lemma ClosedAre(before: map<string, Slot>, after: map<string, Slot>, exclude: string)
    requires ClosedLongestIdle(before, after, before.Keys - {exclude})
    ensures after.Keys == before.Keys
    ensures var closed := set k | k in before && k in after && before[k].alive && !after[k].alive;
            && Gone(before, after) == closed
            && (forall k | k in closed :: k != exclude && !before[k].busy && !before[k].taken && after[k] == before[k].(alive := false))
            && (forall k | k in before && k !in closed :: after[k] == before[k])
            && (forall g, v | g in closed && v in before && v !in closed && v != exclude
                              && before[v].alive && !before[v].busy && !before[v].taken :: before[v].idle <= before[g].idle)
  {
  }

  lemma ScanStart(sessions: map<string, Slot>, order: seq<string>, exclude: string)
    ensures var none := Passed(order[..0], exclude);
            Counted(sessions, none) == {} && Lists([], sessions, Victims(sessions, none))
  {
  }

  lemma PassedNext(order: seq<string>, i: nat, exclude: string)
    requires i < |order| && (forall i, j | 0 <= i < j < |order| :: order[i] != order[j])
    ensures var seen, now, key := Passed(order[..i], exclude), Passed(order[..i + 1], exclude), order[i];
            now == (if key == exclude then seen else seen + {key}) && key !in seen
  {
    assert order[..i + 1] == order[..i] + [order[i]];
  }

  lemma CountedNext(sessions: map<string, Slot>, seen: set<string>, key: string)
    requires key in sessions && key !in seen
    ensures |Counted(sessions, seen + {key})| == |Counted(sessions, seen)| + if sessions[key].taken || sessions[key].alive then 1 else 0
  {
    assert Counted(sessions, seen + {key}) == Counted(sessions, seen) + if sessions[key].taken || sessions[key].alive then {key} else {};
  }

  lemma VictimsNext(sessions: map<string, Slot>, seen: set<string>, key: string, victims: seq<Candidate>)
    requires key in sessions && key !in seen && Lists(victims, sessions, Victims(sessions, seen))
    ensures var now := Victims(sessions, seen + {key});
            if Evictable(sessions[key]) then Lists(victims + [Candidate(key, sessions[key].idle)], sessions, now)
            else Lists(victims, sessions, now)
  {
    assert Victims(sessions, seen + {key}) == Victims(sessions, seen) + if Evictable(sessions[key]) then {key} else {};
  }

  /** What one more key adds to the count and to the candidates. */
  lemma Passing(sessions: map<string, Slot>, order: seq<string>, i: nat, exclude: string, victims: seq<Candidate>)
    requires i < |order| && (forall i, j | 0 <= i < j < |order| :: order[i] != order[j])
    requires order[i] in sessions && Lists(victims, sessions, Victims(sessions, Passed(order[..i], exclude)))
    ensures var seen, now, key := Passed(order[..i], exclude), Passed(order[..i + 1], exclude), order[i];
            if key == exclude then now == seen
            else
              && |Counted(sessions, now)| == |Counted(sessions, seen)| + (if sessions[key].taken || sessions[key].alive then 1 else 0)
              && (if Evictable(sessions[key])
                  then Lists(victims + [Candidate(key, sessions[key].idle)], sessions, Victims(sessions, now))
                  else Lists(victims, sessions, Victims(sessions, now)))
  {
    hide Lists, Counted, Victims, Passed;
    PassedNext(order, i, exclude);
    CountedNext(sessions, Passed(order[..i], exclude), order[i]);
    VictimsNext(sessions, Passed(order[..i], exclude), order[i], victims);
  }

  /** A granted start leaves room for its process, and no turn is ever cut short. */
  lemma RoomIsMade(before: map<string, Slot>, after: map<string, Slot>, exclude: string, max: int)
    requires 0 < max <= |Counted(before, before.Keys - {exclude})|
    requires ClosedLongestIdle(before, after, before.Keys - {exclude})
    requires |Gone(before, after)| == |Counted(before, before.Keys - {exclude})| - max + 1
    ensures |Counted(after, after.Keys - {exclude})| == max - 1
    ensures forall k | k in before && (before[k].busy || before[k].taken) :: after[k] == before[k]
  {
    var others, gone := before.Keys - {exclude}, Gone(before, after);
    assert Counted(after, others) == Counted(before, others) - gone;
    assert gone <= Counted(before, others);
    assert Counted(before, others) == (Counted(before, others) - gone) + gone;
  }
}
