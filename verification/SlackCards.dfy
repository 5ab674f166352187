/** What the cards of a plan say, read off the reports themselves. */
module SlackCards {
  import opened SlackPlan
  import Stream

  /** The ids reported before the `k`-th report. */
  function Before(h: seq<Report>, k: nat): set<string> {
    set j | 0 <= j < k && j < |h| :: h[j].id
  }

  /** The report is the last one for its id. */
  predicate Final(h: seq<Report>, k: nat)
    requires k < |h|
  {
    forall j | k < j < |h| :: h[j].id != h[k].id
  }

  predicate First(h: seq<Report>, k: nat)
    requires k < |h|
  {
    forall j | 0 <= j < k :: h[j].id != h[k].id
  }

  lemma {:induction false} FirstsAt(h: seq<Report>, k: nat)
    requires k < |h| && First(h, k)
    ensures |Firsts(h)| > |Before(h, k)| && Firsts(h)[|Before(h, k)|] == h[k].id
  {
    var front, last := h[..|h| - 1], |h| - 1;
    assert Before(h, k) == Before(front, k);
    if k < last {
      FirstsAt(front, k);
    } else {
      FirstsAreReported(front);
      FirstsAre(front);
      assert forall j | 0 <= j < last :: h[j] == front[j];
      assert Before(h, k) == Before(front, |front|);
      hide Before;
    }
  }

  lemma {:induction false} FirstsAre(h: seq<Report>)
    ensures |Before(h, |h|)| == |Firsts(h)| && forall id :: id in Firsts(h) <==> id in Before(h, |h|)
  {
    if h != [] {
      var front, last := h[..|h| - 1], |h| - 1;
      FirstsAre(front);
      BeforeNext(h);
      hide Before;
      var ids, b, id := Firsts(front), Before(front, |front|), h[last].id;
      assert Before(h, |h|) == b + {id} && (id in ids <==> id in b);
      assert Firsts(h) == if id in ids then ids else ids + [id];
      hide Firsts;
      if id in ids {
        assert b + {id} == b;
      }
    } else {
      assert Before(h, |h|) == {};
    }
  }

  lemma BeforeNext(h: seq<Report>)
    requires h != []
    ensures Before(h, |h|) == Before(h[..|h| - 1], |h| - 1) + {h[|h| - 1].id}
  {
  }

  /** The first 49 steps of a turn, and no others, have a card of their own. */
  lemma FirstsHaveCards(h: seq<Report>, k: nat)
    requires k < |h| && First(h, k)
    ensures CardOf(h, h[k].id) == (if |Before(h, k)| < 49 then h[k].id else "overflow")
  {
    FirstsAt(h, k);
    var n, ids := |Before(h, k)|, Firsts(h);
    hide Firsts, Before;
    assert h[k].id in Own(h) <==> n < 49 by {
      if i :| 0 <= i < |ids| && i < MAX_PLAN_TASKS - 1 && ids[i] == h[k].id {
        assert i == n;
      }
    }
  }

  /** The color of a card with one step. */
  predicate Colored(c: CardStatus, s: Stream.Status) {
    (c == Complete <==> s == Stream.Finished) && (c == Error <==> s == Stream.Failed) && (c == InProgress <==> s == Stream.Running)
  }

  /** Some step without a card of its own was last reported like this. */
  ghost predicate LastSaid(h: seq<Report>, s: Stream.Status) {
    exists k :: 0 <= k < |h| && Final(h, k) && CardOf(h, h[k].id) == "overflow" && h[k].id !in Own(h) && h[k].status == s
  }

  lemma {:induction false} LastFrom(h: seq<Report>, id: string) returns (k: nat)
    requires id in Last(h)
    ensures k < |h| && Final(h, k) && h[k].id == id && Last(h)[id] == h[k].status
  {
    var last := |h| - 1;
    if h[last].id == id {
      k := last;
    } else {
      k := LastFrom(h[..last], id);
    }
  }

  lemma OverSaid(h: seq<Report>, s: Stream.Status)
    ensures With(Over(h), s) != {} <==> LastSaid(h, s)
  {
    hide Own;
    if id :| id in With(Over(h), s) {
      var k := LastFrom(h, id);
    }
    if LastSaid(h, s) {
      var k :| 0 <= k < |h| && Final(h, k) && CardOf(h, h[k].id) == "overflow" && h[k].id !in Own(h) && h[k].status == s;
      LastIsLast(h, k);
      assert h[k].id in With(Over(h), s);
    }
    hide Last;
  }

  /** The card that a report brings: the step's own with its status, or the shared one,
      which counts the steps beyond the first 49 and is in error if one of them failed, in
      progress if none did but one is running, and complete otherwise. */
  lemma CardSays(h: seq<Report>, r: Report)
    requires h != [] && h[|h| - 1] == r
    ensures var c := CardFor(h, r);
            && c.Card? && c.id == CardOf(h, r.id)
            && (r.id in Own(h) ==> c.title == r.title && Colored(c.status, r.status))
            && (r.id !in Own(h) ==>
                  && |Before(h, |h|)| >= 49 && c.title == "…and " + Stream.Decimal(|Before(h, |h|)| - 49) + " more steps"
                  && (c.status == Error <==> LastSaid(h, Stream.Failed))
                  && (c.status == InProgress <==> !LastSaid(h, Stream.Failed) && LastSaid(h, Stream.Running))
                  && (c.status == Complete <==> !LastSaid(h, Stream.Failed) && !LastSaid(h, Stream.Running)))
  {
    OverSaid(h, Stream.Failed);
    OverSaid(h, Stream.Running);
    OverCount(h, r);
    hide LastSaid, Own, Over, With, Before, Stream.Decimal;
  }

  lemma OverCount(h: seq<Report>, r: Report)
    requires h != [] && h[|h| - 1] == r
    ensures r.id !in Own(h) ==> |Before(h, |h|)| >= 49 && |Over(h)| == |Before(h, |h|)| - 49
  {
    Partition(h);
    FirstsAre(h);
    LastIsLast(h, |h| - 1);
    hide Firsts, Own, Before, Last;
    assert r.id !in Own(h) ==> r.id in Over(h);
    assert Over(h).Keys == Last(h).Keys - Own(h);
    assert |Last(h).Keys - Own(h)| == |Last(h).Keys| - |Own(h)|;
  }

  lemma {:induction false} CardsInOrder(h: seq<Report>, steps: seq<Report>, k: nat)
    requires k < |steps|
    ensures CardsFor(h, steps)[k] == CardFor(h + steps[..k + 1], steps[k])
  {
    hide CardFor;
    if k < |steps| - 1 {
      CardsInOrder(h, steps[..|steps| - 1], k);
      assert steps[..|steps| - 1][..k + 1] == steps[..k + 1];
    } else {
      assert steps[..k + 1] == steps;
    }
  }

  /** An update is sent as its prose, if there is any, the plan's first title with the first
      steps of the turn, and one card for every report, made when that report came in. */
  lemma UpdateSays(h: seq<Report>, text: string, steps: seq<Report>)
    ensures var chunks := ChunksFor(h, text, steps);
            var prose, titles := if text == "" then 0 else 1, if steps == [] || h != [] then 0 else 1;
            && |chunks| == prose + titles + |steps|
            && (text != "" ==> chunks[0] == Prose(text))
            && (steps != [] && h == [] ==> chunks[prose] == PlanTitle("Working…"))
            && (forall k | 0 <= k < |steps| :: chunks[prose + titles + k] == CardFor(h + steps[..k + 1], steps[k]))
  {
    forall k | 0 <= k < |steps|
      ensures CardsFor(h, steps)[k] == CardFor(h + steps[..k + 1], steps[k])
    {
      CardsInOrder(h, steps, k);
    }
    hide CardsFor, CardFor;
  }

  /** The steps whose last report is a failure. */
  function FailedIds(h: seq<Report>): set<string> {
    set k | 0 <= k < |h| && Final(h, k) && h[k].status == Stream.Failed :: h[k].id
  }

  lemma FailedAre(h: seq<Report>)
    ensures With(Last(h), Stream.Failed) == FailedIds(h)
  {
    forall id
      ensures id in With(Last(h), Stream.Failed) <==> id in FailedIds(h)
    {
      if id in With(Last(h), Stream.Failed) {
        var k := LastFrom(h, id);
      }
      if id in FailedIds(h) {
        var k :| 0 <= k < |h| && Final(h, k) && h[k].status == Stream.Failed && h[k].id == id;
        LastIsLast(h, k);
      }
    }
  }

  /** The closing title counts the steps of the turn, each once, and among them those that
      last failed; a plan that never showed a step gets none. */
  lemma TitleSays(h: seq<Report>, took: string)
    ensures var n, failed := |Before(h, |h|)|, |FailedIds(h)|;
            FinalTitle(h, took) ==
              if h == [] then ""
              else (if n == 1 then "1 step" else Stream.Decimal(n) + " steps")
                   + (if failed == 0 then "" else " · " + Stream.Decimal(failed) + " failed")
                   + (if took == "" then "" else " · " + took)
  {
    FailedAre(h);
    FirstsAre(h);
    Partition(h);
    hide Firsts, Own, Before, Last, Over, FailedIds, With, Stream.Decimal;
  }

  /** A number, read back from its digits. */
  function Value(s: string): int {
    if s == "" then 0 else Value(s[..|s| - 1]) * 10 + (s[|s| - 1] as int - '0' as int)
  }

  lemma {:induction false} DecimalReads(n: nat)
    ensures Value(Stream.Decimal(n)) == n
    ensures forall k | 0 <= k < |Stream.Decimal(n)| :: '0' <= Stream.Decimal(n)[k] <= '9'
  {
    var s := Stream.Decimal(n);
    if n >= 10 {
      DecimalReads(n / 10);
      assert s[..|s| - 1] == Stream.Decimal(n / 10);
    } else {
      assert s[..|s| - 1] == "";
    }
    DigitReads(n % 10);
  }

  lemma DigitReads(d: nat)
    requires d < 10
    ensures "0123456789"[d] as int == '0' as int + d
  {
  }
}
