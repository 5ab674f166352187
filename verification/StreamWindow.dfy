/** A flush is not atomic: what events heard while the surface is called do. */
module StreamWindow {
  import opened Wrappers
  import opened Stream
  import opened StreamTheorems

  /** The lock is released while the surface is called: events are heard between
      taking the update and committing it. */
  function PushAround(t: Turn, s: State, evs: seq<Event>): State
    requires Shaped(s) && s.native.Some?
  {
    var late := HearAll(t, s.(dirty := false), evs);
    Commit(late.(log := late.log + [Append(s.native.value, Take(s), true)]))
  }

  function HearAll(t: Turn, s: State, evs: seq<Event>): (r: State)
    requires Shaped(s)
    ensures Shaped(r) && r.log == s.log
    decreases |evs|
  {
    if evs == [] then s
    else
      HearLog(t, HearAll(t, s, evs[..|evs| - 1]), evs[|evs| - 1]);
      Hear(t, HearAll(t, s, evs[..|evs| - 1]), evs[|evs| - 1])
  }

  lemma HearLog(t: Turn, s: State, ev: Event)
    requires Shaped(s)
    ensures Hear(t, s, ev).log == s.log
  {
    DemoteLog(t, s);
    hide TrimSpace, Decimal, Demote;
  }

  lemma DemoteLog(t: Turn, s: State)
    requires Shaped(s)
    ensures Demote(t, s).log == s.log
  {
    hide TrimSpace, Decimal;
  }

  /** The step that pending prose becomes, unless it is blank. */
  function Narration(t: Turn, s: State): seq<Step> {
    var text := TrimSpace(s.pending);
    if text == "" then [] else [Synthetic(t, "prose-", s.synth + 1, text)]
  }

  function Synthetic(t: Turn, prefix: string, n: nat, text: string): Step {
    Step(prefix + Decimal(n), t.split(text).0, t.split(text).1, Finished, "", 0)
  }

  /** How an end leaves its step. */
  function EndedStep(s: State, ev: Event): Step
    requires ev.EndStep?
  {
    var was := if ev.id in s.steps then s.steps[ev.id] else Step(ev.id, "tool", "", Running, "", 0);
    was.(status := if ev.ok then Finished else Failed, output := if ev.ok then was.output else ev.error, elapsed := ev.elapsed)
  }

  /** The steps an event files, in order. */
  function Writes(t: Turn, s: State, ev: Event): seq<Step> {
    if t.activity.Hidden? then [] else
    match ev
    case Text(_) => []
    case Thought(text) =>
      if TrimSpace(text) == "" then []
      else Narration(t, s) + [Synthetic(t, "thought-", s.synth + |Narration(t, s)| + 1, TrimSpace(text))]
    case StartStep(id, title, detail) => if id == "" then [] else Narration(t, s) + [Step(id, title, detail, Running, "", 0)]
    case EndStep(id, _, _, _) => if id == "" then [] else [EndedStep(s, ev)]
    case NoteStep(id, title, failed) => Narration(t, s) + [Step(id, title, "", if failed then Failed else Finished, "", 0)]
  }

  function AllWrites(t: Turn, s: State, evs: seq<Event>): seq<Step>
    requires Shaped(s)
    decreases |evs|
  {
    if evs == [] then []
    else
      var front := evs[..|evs| - 1];
      AllWrites(t, s, front) + Writes(t, HearAll(t, s, front), evs[|evs| - 1])
  }

  lemma DemoteWrites(t: Turn, s: State)
    requires Shaped(s)
    ensures Demote(t, s).steps == Overlay(s.steps, Narration(t, s))
    ensures Demote(t, s).synth == s.synth + |Narration(t, s)|
  {
    hide TrimSpace, Decimal;
    OverlayNone(s.steps);
    if TrimSpace(s.pending) != "" {
      OverlayOne(s.steps, [], Narration(t, s)[0]);
      assert [] + [Narration(t, s)[0]] == Narration(t, s);
    }
    hide Overlay;
  }

  lemma OverlayNone(m: map<string, Step>)
    ensures Overlay(m, []) == m
  {
  }

  lemma SynthesizeWrites(t: Turn, s: State, prefix: string, text: string)
    requires Shaped(s)
    ensures var step := Synthetic(t, prefix, s.synth + 1, text); Synthesize(t, s, prefix, text).steps == s.steps[step.id := step]
  {
    hide Decimal;
  }

  /** Hearing an event files exactly those steps. */
  lemma HearWrites(t: Turn, s: State, ev: Event)
    requires Good(s)
    ensures Hear(t, s, ev).steps == Overlay(s.steps, Writes(t, s, ev))
  {
    hide TrimSpace, Decimal, Demote, Synthesize, Narration, Proper, Staged, Unfinished, Synthetic, Overlay;
    DemoteWrites(t, s);
    var s1 := Demote(t, s);
    OverlayNone(s.steps);
    match ev
    case Text(_) =>
    case Thought(text) =>
      SynthesizeWrites(t, s1, "thought-", TrimSpace(text));
      OverlayOne(s.steps, Narration(t, s), Synthetic(t, "thought-", s1.synth + 1, TrimSpace(text)));
    case StartStep(id, title, detail) => OverlayOne(s.steps, Narration(t, s), Step(id, title, detail, Running, "", 0));
    case EndStep(id, ok, error, elapsed) =>
      OverlayOne(s.steps, [], EndedStep(s, ev));
      assert [] + [EndedStep(s, ev)] == [EndedStep(s, ev)];
    case NoteStep(id, title, failed) =>
      OverlayOne(s.steps, Narration(t, s), Step(id, title, "", if failed then Failed else Finished, "", 0));
  }

  lemma {:induction false} OverlayJoin(m: map<string, Step>, a: seq<Step>, b: seq<Step>)
    ensures Overlay(m, a + b) == Overlay(Overlay(m, a), b)
    decreases |b|
  {
    if b == [] {
      assert a + b == a;
    } else {
      OverlayJoin(m, a, b[..|b| - 1]);
      assert (a + b)[..|a + b| - 1] == a + b[..|b| - 1];
    }
  }

  lemma {:induction false} HearAllWrites(t: Turn, s: State, evs: seq<Event>)
    requires Good(s)
    ensures Good(HearAll(t, s, evs)) && HearAll(t, s, evs).steps == Overlay(s.steps, AllWrites(t, s, evs))
    decreases |evs|
  {
    hide Good, Hear, Writes, Overlay;
    assert Shaped(s) by { Unfold(s); }
    if evs == [] {
      OverlayNone(s.steps);
    } else {
      var front, ev := evs[..|evs| - 1], evs[|evs| - 1];
      HearAllWrites(t, s, front);
      var before := HearAll(t, s, front);
      HearWrites(t, before, ev);
      HearKeeps(t, before, ev);
      OverlayJoin(s.steps, AllWrites(t, s, front), Writes(t, before, ev));
    }
  }

  /** No later filing replaces this one. */
  predicate Latest(steps: seq<Step>, k: nat)
    requires k < |steps|
  {
    forall j | k < j < |steps| :: steps[j].id != steps[k].id
  }

  /** Every step was last filed as it had been before. */
  predicate NothingNew(m: map<string, Step>, steps: seq<Step>) {
    forall k | 0 <= k < |steps| && Latest(steps, k) :: steps[k].id in m && m[steps[k].id] == steps[k]
  }

  lemma {:induction false} OverlayLast(m: map<string, Step>, steps: seq<Step>, k: nat)
    requires k < |steps| && Latest(steps, k)
    ensures steps[k].id in Overlay(m, steps) && Overlay(m, steps)[steps[k].id] == steps[k]
  {
    if k < |steps| - 1 {
      OverlayLast(m, steps[..|steps| - 1], k);
    }
  }

  lemma {:induction false} OverlayAt(m: map<string, Step>, steps: seq<Step>, id: string)
    ensures (exists k :: 0 <= k < |steps| && Latest(steps, k) && steps[k].id == id)
            || ((id in Overlay(m, steps) <==> id in m) && (id in m ==> Overlay(m, steps)[id] == m[id]))
  {
    if steps != [] {
      var front, last := steps[..|steps| - 1], |steps| - 1;
      assert Latest(steps, last);
      OverlayAt(m, front, id);
      if steps[last].id != id && exists k :: 0 <= k < |front| && Latest(front, k) && front[k].id == id {
        var k :| 0 <= k < |front| && Latest(front, k) && front[k].id == id;
        assert Latest(steps, k);
      }
    }
  }

  lemma OverlaySame(m: map<string, Step>, steps: seq<Step>)
    ensures Overlay(m, steps) == m <==> NothingNew(m, steps)
  {
    hide Overlay, Latest;
    if NothingNew(m, steps) {
      forall id: string
        ensures id in Overlay(m, steps) <==> id in m
        ensures id in m ==> Overlay(m, steps)[id] == m[id]
      {
        OverlayAt(m, steps, id);
        if k :| 0 <= k < |steps| && Latest(steps, k) && steps[k].id == id {
          OverlayLast(m, steps, k);
        }
      }
    } else {
      var k :| 0 <= k < |steps| && Latest(steps, k) && !(steps[k].id in m && m[steps[k].id] == steps[k]);
      OverlayLast(m, steps, k);
    }
  }

  /** After such a push, whatever the events in between, nothing is marked for sending
      and the surface shows the steps as they are exactly if those events filed nothing
      new: each step that they started, noted, thought, narrated or ended was in the
      end filed as it had been when the update was taken. */
  lemma LostBetween(t: Turn, s: State, evs: seq<Event>)
    requires Good(s) && s.native.Some?
    ensures var after := PushAround(t, s, evs);
            && Shown(after.log) == s.steps && after.changed == {}
            && (Shown(after.log) == after.steps <==> NothingNew(s.steps, AllWrites(t, s.(dirty := false), evs)))
  {
    assert s.native.value == 0 by { hide Proper, Streamed, InStep, Filed; }
    var c := Append(0, Take(s), true);
    Accepted(s, c);
    ShowsAll(s.(log := s.log + [c], changed := {}));
    PlainKeeps(s, s.(dirty := false));
    HearAllWrites(t, s.(dirty := false), evs);
    OverlaySame(s.steps, AllWrites(t, s.(dirty := false), evs));
    hide Good, Shown, HearAll, Take, Overlay, AllWrites, NothingNew;
  }

  /** Filing this step changes something. */
  predicate Novel(s: State, step: Step) {
    !(step.id in s.steps && s.steps[step.id] == step)
  }

  /** What a single event must be for its step to be lost: a start, a note or a
      non-blank thought that files a step, or demotes prose that is not blank to
      another step, or an end that leaves its step changed. */
  predicate Alters(t: Turn, s: State, ev: Event) {
    !t.activity.Hidden?
    && match ev
       case Text(_) => false
       case Thought(text) =>
         TrimSpace(text) != ""
         && (Demoted(t, s, "") || Novel(s, Synthetic(t, "thought-", s.synth + |Narration(t, s)| + 1, TrimSpace(text))))
       case StartStep(id, title, detail) => id != "" && (Demoted(t, s, id) || Novel(s, Step(id, title, detail, Running, "", 0)))
       case EndStep(id, ok, error, elapsed) =>
         id != "" && (id !in s.steps || s.steps[id].status != (if ok then Finished else Failed)
                      || (!ok && s.steps[id].output != error) || s.steps[id].elapsed != elapsed)
       case NoteStep(id, title, failed) =>
         Demoted(t, s, id) || Novel(s, Step(id, title, "", if failed then Failed else Finished, "", 0))
  }

  /** Pending prose becomes a step of its own. */
  predicate Demoted(t: Turn, s: State, unless: string) {
    var text := TrimSpace(s.pending);
    text != "" && Synthetic(t, "prose-", s.synth + 1, text).id != unless && Novel(s, Synthetic(t, "prose-", s.synth + 1, text))
  }

  lemma LatestOf(w: seq<Step>)
    ensures |w| == 1 ==> Latest(w, 0)
    ensures |w| == 2 ==> Latest(w, 1) && (Latest(w, 0) <==> w[0].id != w[1].id)
  {
  }

  lemma AltersExactly(t: Turn, s: State, ev: Event)
    requires Good(s)
    ensures NothingNew(s.steps, Writes(t, s, ev)) <==> !Alters(t, s, ev)
  {
    hide TrimSpace, Decimal, Proper, Staged, Unfinished, Latest;
    var w := Writes(t, s, ev);
    if |w| == 1 {
      LatestOf(w);
    } else if |w| == 2 {
      LatestOf(w);
      assert w[0].id[0] == 'p' && w[0].id != "";
      assert ev.Thought? ==> w[1].id[0] == 't';
    }
  }

  /** A single event, exactly. */
  lemma OneIsLost(t: Turn, s: State, ev: Event)
    requires Good(s) && s.native.Some?
    ensures var after := PushAround(t, s, [ev]);
            Shown(after.log) != after.steps <==> Alters(t, s.(dirty := false), ev)
  {
    LostBetween(t, s, [ev]);
    PlainKeeps(s, s.(dirty := false));
    AltersExactly(t, s.(dirty := false), ev);
    assert [ev][..0] == [] && [] + Writes(t, s.(dirty := false), ev) == Writes(t, s.(dirty := false), ev);
    hide Good, Shown, Alters, Writes, NothingNew;
  }

  predicate Ignored(t: Turn, ev: Event) {
    || t.activity.Hidden? || ev.Text? || (ev.Thought? && TrimSpace(ev.text) == "")
    || ((ev.StartStep? || ev.EndStep?) && ev.id == "")
  }

  lemma {:induction false} IgnoredWrites(t: Turn, s: State, evs: seq<Event>)
    requires Shaped(s) && forall ev | ev in evs :: Ignored(t, ev)
    ensures AllWrites(t, s, evs) == []
    decreases |evs|
  {
    if evs != [] {
      IgnoredWrites(t, s, evs[..|evs| - 1]);
      assert Ignored(t, evs[|evs| - 1]);
    }
  }

  /** Text and what is ignored may come between at will; with hidden activity anything. */
  lemma TextIsNotLost(t: Turn, s: State, evs: seq<Event>)
    requires Good(s) && s.native.Some? && forall ev | ev in evs :: Ignored(t, ev)
    ensures var after := PushAround(t, s, evs); Shown(after.log) == after.steps
  {
    LostBetween(t, s, evs);
    assert Shaped(s) by { Unfold(s); }
    IgnoredWrites(t, s.(dirty := false), evs);
    hide Good, Shown, HearAll;
  }

  /** A tool that ends while its start is being sent stays running on the surface. */
  lemma EndIsLost(t: Turn, s: State, id: string)
    requires Good(s) && s.native.Some? && !t.activity.Hidden? && id != "" && id in s.steps && s.steps[id].status.Running?
    ensures var after := PushAround(t, s, [EndStep(id, true, "", 1)]);
            && Shown(after.log) != after.steps
            && id in Shown(after.log) && Shown(after.log)[id].status.Running?
            && id in after.steps && after.steps[id].status.Finished? && id !in after.changed
  {
    OneIsLost(t, s, EndStep(id, true, "", 1));
    LostBetween(t, s, [EndStep(id, true, "", 1)]);
    EndHeard(t, s.(dirty := false), id);
    hide Good, Shown, HearAll, Take;
  }

  lemma EndHeard(t: Turn, s: State, id: string)
    requires Shaped(s) && !t.activity.Hidden? && id != "" && id in s.steps
    ensures var after := HearAll(t, s, [EndStep(id, true, "", 1)]); id in after.steps && after.steps[id].status.Finished?
  {
    assert [EndStep(id, true, "", 1)][..0] == [];
  }

  lemma DemoteOrder(t: Turn, s: State)
    requires Shaped(s)
    ensures Demote(t, s).order == s.order + if Narration(t, s) == [] then [] else [Narration(t, s)[0].id]
  {
    hide TrimSpace, Decimal;
  }

  predicate FiledAfter(before: seq<string>, after: seq<string>, w: seq<Step>) {
    && before <= after && |after| <= |before| + |w|
    && (forall k | |before| <= k < |after| :: after[k] == w[k - |before|].id)
    && (forall j | 0 <= j < |w| :: w[j].id in after)
  }

  lemma OneMore(before: seq<string>, w: seq<Step>, step: Step, anew: bool)
    requires |w| <= 1
    ensures var now := before + if w == [] then [] else [w[0].id];
            (anew || step.id in now) ==> FiledAfter(before, now + if anew then [step.id] else [], w + [step])
  {
  }

  lemma ThoughtOrder(t: Turn, s: State, ev: Event)
    requires Good(s) && Shaped(s) && (ev.Thought? || ev.Text?)
    ensures FiledAfter(s.order, Hear(t, s, ev).order, Writes(t, s, ev))
  {
    DemoteOrder(t, s);
    DemoteWrites(t, s);
    NarrationIsOne(t, s);
    NoneFiled(s.order);
    hide TrimSpace, Decimal, Demote, Good, Overlay, Narration, FiledAfter;
    if ev.Thought? {
      OneMore(s.order, Narration(t, s), Synthetic(t, "thought-", Demote(t, s).synth + 1, TrimSpace(ev.text)), true);
    }
  }

  lemma StepOrder(t: Turn, s: State, ev: Event, step: Step)
    requires Good(s) && Shaped(s) && !t.activity.Hidden? && Writes(t, s, ev) == Narration(t, s) + [step]
    requires Hear(t, s, ev) == Record(Demote(t, s), step.id, step, step.id !in Demote(t, s).steps)
    ensures FiledAfter(s.order, Hear(t, s, ev).order, Writes(t, s, ev))
  {
    hide Demote, Good, Narration, FiledAfter, Hear, Writes, Shaped, Filed;
    DemoteShaped(t, s);
    DemoteOrder(t, s);
    NarrationIsOne(t, s);
    InOrder(Demote(t, s), step.id);
    OneMore(s.order, Narration(t, s), step, step.id !in Demote(t, s).steps);
    assert Demote(t, s).order + [] == Demote(t, s).order;
  }

  lemma EndOrder(t: Turn, s: State, ev: Event)
    requires Good(s) && Shaped(s) && ev.EndStep?
    ensures FiledAfter(s.order, Hear(t, s, ev).order, Writes(t, s, ev))
  {
    DemoteShaped(t, s);
    NoneFiled(s.order);
    InOrder(s, ev.id);
    OneMore(s.order, [], EndedStep(s, ev), ev.id !in s.steps);
    assert [] + [EndedStep(s, ev)] == [EndedStep(s, ev)];
    hide Good, FiledAfter;
  }

  /** The steps an event files stand after those filed before, in the order of filing; only
      a step that is filed again keeps its old place. */
  lemma HearOrder(t: Turn, s: State, ev: Event)
    requires Good(s)
    ensures Shaped(s) && FiledAfter(s.order, Hear(t, s, ev).order, Writes(t, s, ev))
  {
    Unfold(s);
    NoneFiled(s.order);
    hide Demote, Good, Narration, FiledAfter, Record;
    match ev
    case Text(_) => ThoughtOrder(t, s, ev);
    case Thought(_) => ThoughtOrder(t, s, ev);
    case EndStep(_, _, _, _) => EndOrder(t, s, ev);
    case StartStep(id, title, detail) =>
      if !t.activity.Hidden? && id != "" {
        StepOrder(t, s, ev, Step(id, title, detail, Running, "", 0));
      }
    case NoteStep(id, title, failed) =>
      if !t.activity.Hidden? {
        StepOrder(t, s, ev, Step(id, title, "", if failed then Failed else Finished, "", 0));
      }
  }

  lemma NoneFiled(order: seq<string>)
    ensures FiledAfter(order, order, [])
  {
  }

  lemma NarrationIsOne(t: Turn, s: State)
    ensures |Narration(t, s)| <= 1
  {
    hide TrimSpace;
  }

  lemma InOrder(s: State, id: string)
    requires Filed(s)
    ensures id in s.steps ==> id in s.order
  {
  }

  lemma DemoteShaped(t: Turn, s: State)
    requires Good(s)
    ensures Shaped(s) && Filed(s) && Shaped(Demote(t, s)) && Filed(Demote(t, s))
  {
    Unfold(s);
    DemoteKeeps(t, s);
    hide Proper, Staged, Demote;
  }
}
