/** How a turn's steps become the task cards of one Slack plan. */
module SlackPlan {
  import opened Wrappers
  import Stream

  const MAX_PLAN_TASKS := 50
  const OVERFLOW := "overflow"

  datatype Report = Report(id: string, title: string, status: Stream.Status)

  datatype CardStatus = Complete | InProgress | Error

  datatype Chunk =
    | Prose(text: string)
    | PlanTitle(title: string)
    | Card(id: string, title: string, status: CardStatus)

  // ------------------------------------------------------------------
  // What the cards should be, from the whole history of reports
  // ------------------------------------------------------------------

  /** The step ids in order of their first report. */
  function Firsts(h: seq<Report>): (ids: seq<string>)
    ensures forall i, j | 0 <= i < j < |ids| :: ids[i] != ids[j]
  {
    if h == [] then [] else
    var ids := Firsts(h[..|h| - 1]);
    if h[|h| - 1].id in ids then ids else ids + [h[|h| - 1].id]
  }

  /** The ids with a card of their own: the first to be reported. */
  function Own(h: seq<Report>): set<string> {
    set i | 0 <= i < |Firsts(h)| && i < MAX_PLAN_TASKS - 1 :: Firsts(h)[i]
  }

  /** The last status reported for each id. */
  function Last(h: seq<Report>): map<string, Stream.Status> {
    if h == [] then map[] else Last(h[..|h| - 1])[h[|h| - 1].id := h[|h| - 1].status]
  }

  /** The same for the steps that share the overflow card. */
  function Over(h: seq<Report>): map<string, Stream.Status> {
    map id | id in Last(h) && id !in Own(h) :: Last(h)[id]
  }

  function CardOf(h: seq<Report>, id: string): string {
    if id in Own(h) then id else OVERFLOW
  }

  /** The card ids sent for a history, report by report. */
  function Sent(h: seq<Report>): (cards: seq<string>)
    ensures |cards| == |h|
  {
    if h == [] then [] else Sent(h[..|h| - 1]) + [CardOf(h, h[|h| - 1].id)]
  }

  function With(m: map<string, Stream.Status>, s: Stream.Status): set<string> {
    set id | id in m && m[id] == s
  }

  function Aggregate(m: map<string, Stream.Status>): CardStatus {
    if With(m, Stream.Failed) != {} then Error
    else if With(m, Stream.Running) != {} then InProgress
    else Complete
  }

  function StatusOf(s: Stream.Status): CardStatus {
    match s
    case Finished => Complete
    case Failed => Error
    case Running => InProgress
  }

  function CardFor(h: seq<Report>, r: Report): Chunk {
    if r.id in Own(h) then Card(r.id, r.title, StatusOf(r.status))
    else Card(OVERFLOW, "…and " + Stream.Decimal(|Over(h)|) + " more steps", Aggregate(Over(h)))
  }

  /** The cards of an update that arrives after `h`. */
  function CardsFor(h: seq<Report>, steps: seq<Report>): (cards: seq<Chunk>)
    ensures |cards| == |steps|
  {
    if steps == [] then []
    else CardsFor(h, steps[..|steps| - 1]) + [CardFor(h + steps, steps[|steps| - 1])]
  }

  function ChunksFor(h: seq<Report>, text: string, steps: seq<Report>): seq<Chunk> {
    (if text != "" then [Prose(text)] else [])
    + (if steps != [] && h == [] then [PlanTitle("Working…")] else [])
    + CardsFor(h, steps)
  }

  function FinalTitle(h: seq<Report>, took: string): string {
    if h == [] then "" else
    var n, failed := |Last(h)|, |With(Last(h), Stream.Failed)|;
    (if n == 1 then "1 step" else Stream.Decimal(n) + " steps")
    + (if failed > 0 then " · " + Stream.Decimal(failed) + " failed" else "")
    + (if took != "" then " · " + took else "")
  }

  // ------------------------------------------------------------------
  // What follows for every history
  // ------------------------------------------------------------------

  lemma {:induction false} FirstsAreReported(h: seq<Report>)
    ensures forall id :: id in Firsts(h) <==> id in Last(h)
    ensures forall id :: id in Firsts(h) <==> exists k :: 0 <= k < |h| && h[k].id == id
  {
    if h != [] {
      FirstsAreReported(h[..|h| - 1]);
      assert h == h[..|h| - 1] + [h[|h| - 1]];
      forall id
        ensures id in Firsts(h) <==> exists k :: 0 <= k < |h| && h[k].id == id
      {
        if k :| 0 <= k < |h| && h[k].id == id {
          assert k == |h| - 1 || h[..|h| - 1][k].id == id;
        }
        if id in Firsts(h[..|h| - 1]) {
          var k :| 0 <= k < |h| - 1 && h[..|h| - 1][k].id == id;
          assert h[k].id == id;
        }
      }
    }
  }

  lemma {:induction false} FirstsGrow(h: seq<Report>, g: seq<Report>)
    ensures Firsts(h) <= Firsts(h + g)
    decreases |g|
  {
    if g == [] {
      assert h + g == h;
    } else {
      FirstsGrow(h, g[..|g| - 1]);
      assert (h + g)[..|h + g| - 1] == h + g[..|g| - 1];
    }
  }

  /** A step never changes card, however many reports follow. */
  lemma CardIsForLife(h: seq<Report>, g: seq<Report>, id: string)
    requires id in Last(h)
    ensures CardOf(h + g, id) == CardOf(h, id)
  {
    FirstsAreReported(h);
    FirstsGrow(h, g);
    var i :| 0 <= i < |Firsts(h)| && Firsts(h)[i] == id;
    assert Firsts(h + g)[i] == id;
    if id in Own(h + g) {
      var j :| 0 <= j < |Firsts(h + g)| && j < MAX_PLAN_TASKS - 1 && Firsts(h + g)[j] == id;
      assert i == j;
    }
  }

  lemma {:induction false} OwnSize(ids: seq<string>, n: nat)
    requires n <= |ids| && forall i, j | 0 <= i < j < |ids| :: ids[i] != ids[j]
    ensures |set i | 0 <= i < |ids| && i < n :: ids[i]| == n
  {
    var own := set i | 0 <= i < |ids| && i < n :: ids[i];
    if n == 0 {
      assert own == {};
    } else {
      OwnSize(ids, n - 1);
      var rest := set i | 0 <= i < |ids| && i < n - 1 :: ids[i];
      assert ids[n - 1] !in rest;
      assert own == rest + {ids[n - 1]};
    }
  }

  lemma OwnCount(h: seq<Report>)
    ensures |Own(h)| == if |Firsts(h)| < MAX_PLAN_TASKS - 1 then |Firsts(h)| else MAX_PLAN_TASKS - 1
    ensures |Firsts(h)| < MAX_PLAN_TASKS - 1 ==> forall id | id in Firsts(h) :: id in Own(h)
  {
    var ids := Firsts(h);
    var n := if |ids| < MAX_PLAN_TASKS - 1 then |ids| else MAX_PLAN_TASKS - 1;
    hide Firsts;
    OwnSize(ids, n);
    assert Own(h) == set i | 0 <= i < |ids| && i < n :: ids[i];
  }

  lemma LastCount(h: seq<Report>)
    ensures |Last(h)| == |Firsts(h)|
  {
    FirstsAreReported(h);
    var ids := Firsts(h);
    hide Firsts, Last;
    OwnSize(ids, |ids|);
    assert Last(h).Keys == set i | 0 <= i < |ids| && i < |ids| :: ids[i];
  }

  /** Own cards and the overflow card divide all steps between them, and a step
      overflows only once every own card is taken. */
  lemma Partition(h: seq<Report>)
    ensures Own(h) + Over(h).Keys == Last(h).Keys && Own(h) !! Over(h).Keys
    ensures |Own(h)| <= MAX_PLAN_TASKS - 1
    ensures Over(h) != map[] ==> |Own(h)| == MAX_PLAN_TASKS - 1
    ensures |Last(h)| == |Firsts(h)|
  {
    OwnCount(h);
    LastCount(h);
    OwnIsReported(h);
    hide Firsts, Last, Own;
    assert Over(h).Keys == Last(h).Keys - Own(h);
  }

  lemma OwnIsReported(h: seq<Report>)
    ensures Own(h) <= Last(h).Keys
    ensures |Firsts(h)| < MAX_PLAN_TASKS - 1 ==> Own(h) == Last(h).Keys
  {
    FirstsAreReported(h);
    OwnCount(h);
    hide Firsts, Last;
  }

  lemma {:induction false} SentCards(h: seq<Report>)
    ensures forall k | 0 <= k < |h| :: Sent(h)[k] == CardOf(h, h[k].id)
  {
    if h != [] {
      var front, last := h[..|h| - 1], h[|h| - 1..];
      SentCards(front);
      assert h == front + last;
      forall k | 0 <= k < |h| - 1
        ensures Sent(h)[k] == CardOf(h, h[k].id)
      {
        FirstsAreReported(front);
        assert front[k].id in Last(front);
        CardIsForLife(front, last, h[k].id);
      }
    }
  }

  /** However long the turn, a plan never has more cards than Slack allows. */
  lemma AtMostFifty(h: seq<Report>)
    ensures |set k | 0 <= k < |h| :: Sent(h)[k]| <= MAX_PLAN_TASKS
  {
    SentCards(h);
    Partition(h);
    var cards := set k | 0 <= k < |h| :: Sent(h)[k];
    assert cards <= Own(h) + {OVERFLOW};
    SubsetSize(cards, Own(h) + {OVERFLOW});
  }

  /** `Last` is the status of the last report. */
  lemma {:induction false} LastIsLast(h: seq<Report>, k: nat)
    requires k < |h| && forall j | k < j < |h| :: h[j].id != h[k].id
    ensures h[k].id in Last(h) && Last(h)[h[k].id] == h[k].status
  {
    if k < |h| - 1 {
      LastIsLast(h[..|h| - 1], k);
    }
  }

  /** The overflow card is an error exactly if some step in it last failed. */
  lemma OverflowError(h: seq<Report>, r: Report)
    requires r.id !in Own(h)
    ensures CardFor(h, r).status == Error <==> exists id :: id in Over(h) && Over(h)[id] == Stream.Failed
  {
    assert forall id :: id in With(Over(h), Stream.Failed) <==> id in Over(h) && Over(h)[id] == Stream.Failed;
  }

  /** An own card is never confused with the overflow card, except that of a step
      which is itself called "overflow". */
  lemma OwnCardsAreOwn(h: seq<Report>, a: string, b: string)
    requires a in Own(h) && b in Last(h) && a != b
    ensures CardOf(h, a) == CardOf(h, b) <==> a == OVERFLOW && b !in Own(h)
  {
  }

  // ------------------------------------------------------------------
  // The stream that sends them
  // ------------------------------------------------------------------

  class Plan {
    var closed: bool
    var slots: set<string>
    var status: map<string, Stream.Status>
    var overflow: map<string, Stream.Status>
    var titled: bool
    /** Every report converted so far, and the calls made to the API. */
    ghost var history: seq<Report>
    var calls: seq<seq<Chunk>>

    constructor ()
      ensures Valid() && !closed && history == [] && calls == []
    {
      closed, slots, status, overflow, titled := false, {}, map[], map[], false;
      history, calls := [], [];
    }

    ghost predicate Valid()
      reads this
    {
      && slots == Own(history)
      && status == Last(history)
      && overflow == Over(history)
      && titled == (history != [])
    }

    /** The report is in `status` already; here it gets its card. */
    method TaskChunkLocked(step: Report, ghost before: seq<Report>) returns (chunk: Chunk)
      requires slots == Own(before) && overflow == Over(before) && status == Last(before + [step])
      modifies this`slots, this`overflow
      ensures slots == Own(before + [step]) && overflow == Over(before + [step])
      ensures chunk == CardFor(before + [step], step)
    {
      hide Own, Firsts, Last;
      Reported(before, step);
      if step.id !in slots && |slots| < MAX_PLAN_TASKS - 1 {
        slots := slots + {step.id};
      }
      if step.id in slots {
        return Card(step.id, step.title, StatusOf(step.status));
      }
      overflow := overflow[step.id := step.status];
      var running, failed := CountOverflow();
      var aggregate := Complete;
      if failed > 0 {
        aggregate := Error;
      } else if running > 0 {
        aggregate := InProgress;
      }
      chunk := Card(OVERFLOW, "…and " + Stream.Decimal(|overflow|) + " more steps", aggregate);
    }

    method CountOverflow() returns (running: nat, failed: nat)
      ensures running == |With(overflow, Stream.Running)| && failed == |With(overflow, Stream.Failed)|
    {
      running := CountIn(overflow, Stream.Running);
      failed := CountIn(overflow, Stream.Failed);
    }

    method ChunksLocked(text: string, steps: seq<Report>) returns (chunks: seq<Chunk>)
      requires Valid()
      modifies this`slots, this`status, this`overflow, this`titled, this`history
      ensures Valid() && history == old(history) + steps
      ensures chunks == ChunksFor(old(history), text, steps)
    {
      hide Own, Last, Over, CardFor, CardsFor;
      NoCards(history);
      chunks := [];
      if text != "" {
        chunks := chunks + [Prose(text)];
      }
      if |steps| > 0 && !titled {
        titled := true;
        chunks := chunks + [PlanTitle("Working…")];
      }
      ghost var above, before := chunks, history;
      assert steps[..0] == [] && before + steps[..0] == before && above + [] == above;
      assert titled == (before + steps != []);
      assert above == (if text != "" then [Prose(text)] else [])
                      + (if steps != [] && before == [] then [PlanTitle("Working…")] else []);
      for i := 0 to |steps|
        invariant slots == Own(before + steps[..i]) && status == Last(before + steps[..i]) && overflow == Over(before + steps[..i])
        invariant chunks == above + CardsFor(before, steps[..i])
        invariant history == before && titled == (before + steps != [])
      {
        NextCard(before, steps, i);
        status := status[steps[i].id := steps[i].status];
        var chunk := TaskChunkLocked(steps[i], before + steps[..i]);
        chunks := chunks + [chunk];
      }
      assert steps[..|steps|] == steps;
      history := before + steps;
    }

    method FinalTitleLocked(took: string) returns (title: string)
      requires Valid()
      ensures title == FinalTitle(history, took)
    {
      hide Own, Last, Over, Stream.Decimal, With;
      if !titled {
        return "";
      }
      var failed := CountIn(status, Stream.Failed);
      title := Stream.Decimal(|status|) + " steps";
      if |status| == 1 {
        title := "1 step";
      }
      if failed > 0 {
        title := title + (" · " + Stream.Decimal(failed) + " failed");
      }
      if took != "" {
        title := title + (" · " + took);
      }
    }

    /** `accepted` is the API's answer. */
    method Append(text: string, steps: seq<Report>, accepted: bool) returns (ok: bool)
      requires Valid()
      modifies this
      ensures Valid() && closed == old(closed)
      ensures history == if old(closed) then old(history) else old(history) + steps
      ensures var chunks := ChunksFor(old(history), text, steps);
              if old(closed) then !ok && calls == old(calls)
              else if chunks == [] then ok && calls == old(calls)
              else ok == accepted && calls == old(calls) + [chunks]
    {
      hide Own, Last, Over, ChunksFor;
      if closed {
        return false;
      }
      var chunks := ChunksLocked(text, steps);
      if |chunks| == 0 {
        return true;
      }
      calls := calls + [chunks];
      return accepted;
    }

    /** When the full close is refused the plan still gets its title, and the
        caller still gets the error. */
    method Close(text: string, steps: seq<Report>, took: string, accepted: bool) returns (ok: bool)
      requires Valid()
      modifies this
      ensures Valid() && closed
      ensures if old(closed) then ok && calls == old(calls) && history == old(history)
              else
                && history == old(history) + steps && ok == accepted
                && var title := FinalTitle(history, took);
                   var last := if title != "" then [PlanTitle(title)] else [];
                   calls == old(calls) + [ChunksFor(old(history), text, steps) + last] + if accepted then [] else [last]
    {
      hide Own, Last, Over, ChunksFor, FinalTitle;
      if closed {
        return true;
      }
      closed := true;
      var chunks := ChunksLocked(text, steps);
      var title := FinalTitleLocked(took);
      if title != "" {
        chunks := chunks + [PlanTitle(title)];
      }
      assert title == "" ==> chunks + [] == chunks;
      calls := calls + [chunks];
      if accepted {
        assert calls + [] == calls;
        return true;
      }
      var fin: seq<Chunk> := [];
      if title != "" {
        fin := fin + [PlanTitle(title)];
      }
      assert fin == if title != "" then [PlanTitle(title)] else [];
      calls := calls + [fin];
      return false;
    }
  }

  method CountIn(m: map<string, Stream.Status>, s: Stream.Status) returns (n: nat)
    ensures n == |With(m, s)|
  {
    n := 0;
    var left := m.Keys;
    while left != {}
      invariant left <= m.Keys
      invariant n == |With(m, s) - left|
      decreases |left|
    {
      var id :| id in left;
      OneMore(With(m, s), left, id);
      if m[id] == s {
        n := n + 1;
      }
      left := left - {id};
    }
    assert With(m, s) - {} == With(m, s);
  }

  lemma OneMore(all: set<string>, left: set<string>, id: string)
    requires id in left
    ensures |all - (left - {id})| == |all - left| + if id in all then 1 else 0
  {
    assert all - (left - {id}) == (all - left) + if id in all then {id} else {};
  }

  /** What one more report does to the sets the stream keeps. */
  lemma Reported(h: seq<Report>, r: Report)
    ensures var g := h + [r];
            && Own(g) == (if r.id !in Own(h) && |Own(h)| < MAX_PLAN_TASKS - 1 then Own(h) + {r.id} else Own(h))
            && Over(g) == if r.id in Own(g) then Over(h) else Over(h)[r.id := r.status]
  {
    var g := h + [r];
    assert g[..|h|] == h;
    FirstsAreReported(h);
    OwnCount(h);
    OwnNext(h, r);
    assert Last(g) == Last(h)[r.id := r.status];
    hide Firsts, Last;
  }

  lemma OwnNext(h: seq<Report>, r: Report)
    ensures Own(h + [r]) == if r.id !in Firsts(h) && |Firsts(h)| < MAX_PLAN_TASKS - 1 then Own(h) + {r.id} else Own(h)
  {
    var ids, now := Firsts(h), Firsts(h + [r]);
    assert (h + [r])[..|h|] == h;
    assert now == if r.id in ids then ids else ids + [r.id];
    hide Firsts;
    if r.id !in ids {
      assert forall i | 0 <= i < |ids| :: now[i] == ids[i];
      forall id
        ensures id in Own(h + [r]) <==> id in Own(h) || (id == r.id && |ids| < MAX_PLAN_TASKS - 1)
      {
        if id in Own(h) {
          var i :| 0 <= i < |ids| && i < MAX_PLAN_TASKS - 1 && ids[i] == id;
          assert now[i] == id;
        }
        if id == r.id && |ids| < MAX_PLAN_TASKS - 1 {
          assert now[|ids|] == id;
        }
      }
    }
  }

  /** The cards of an update are the ones its reports were due. */
  lemma {:induction false} CardsAreSent(h: seq<Report>, steps: seq<Report>, k: nat)
    requires k < |steps|
    ensures CardsFor(h, steps)[k].Card? && CardsFor(h, steps)[k].id == Sent(h + steps)[|h| + k]
  {
    assert (h + steps)[..|h + steps| - 1] == h + steps[..|steps| - 1];
    if k < |steps| - 1 {
      CardsAreSent(h, steps[..|steps| - 1], k);
    }
  }

  lemma NoCards(h: seq<Report>)
    ensures CardsFor(h, []) == []
  {
  }

  lemma NextCard(h: seq<Report>, steps: seq<Report>, i: nat)
    requires i < |steps|
    ensures h + steps[..i + 1] == h + steps[..i] + [steps[i]]
    ensures Last(h + steps[..i + 1]) == Last(h + steps[..i])[steps[i].id := steps[i].status]
    ensures CardsFor(h, steps[..i + 1]) == CardsFor(h, steps[..i]) + [CardFor(h + steps[..i + 1], steps[i])]
  {
    assert h + steps[..i + 1] == (h + steps[..i]) + [steps[i]];
    assert (h + steps[..i + 1])[..|h| + i] == h + steps[..i];
    assert steps[..i + 1][..i] == steps[..i];
  }
}
