/** What reaches the surface does not depend on when the flushes happened. */
module StreamTheorems {
  import opened Wrappers
  import opened Stream

  // ------------------------------------------------------------------
  // The story: what the events say, whatever was flushed
  // ------------------------------------------------------------------

  predicate SameStory(a: State, b: State) {
    a.pending == b.pending && a.order == b.order && a.steps == b.steps && a.synth == b.synth
  }

  function Heard(ops: seq<Op>): seq<Event> {
    if ops == [] then []
    else Heard(ops[..|ops| - 1]) + if ops[|ops| - 1].Heard? then [ops[|ops| - 1].event] else []
  }

  function Story(t: Turn, evs: seq<Event>): (s: State)
    ensures Shaped(s)
  {
    if evs == [] then NEW else Hear(t, Story(t, evs[..|evs| - 1]), evs[|evs| - 1])
  }

  lemma RecordStory(a: State, b: State, id: string, step: Step, anew: bool)
    requires Shaped(a) && Shaped(b) && SameStory(a, b)
    ensures SameStory(Record(a, id, step, anew), Record(b, id, step, anew))
  {
  }

  lemma SynthesizeStory(t: Turn, a: State, b: State, prefix: string, text: string)
    requires Shaped(a) && Shaped(b) && SameStory(a, b)
    ensures SameStory(Synthesize(t, a, prefix, text), Synthesize(t, b, prefix, text))
  {
    hide Decimal;
    var (title, detail) := t.split(text);
    var id := prefix + Decimal(a.synth + 1);
    RecordStory(a, b, id, Step(id, title, detail, Finished, "", 0), true);
    hide Record;
  }

  lemma DemoteStory(t: Turn, a: State, b: State)
    requires Shaped(a) && Shaped(b) && SameStory(a, b)
    ensures SameStory(Demote(t, a), Demote(t, b)) && Demote(t, a).pending == ""
  {
    hide TrimSpace;
    SynthesizeStory(t, a.(pending := ""), b.(pending := ""), "prose-", TrimSpace(a.pending));
    hide Decimal;
  }

  lemma HearStory(t: Turn, a: State, b: State, ev: Event)
    requires Shaped(a) && Shaped(b) && SameStory(a, b)
    ensures SameStory(Hear(t, a, ev), Hear(t, b, ev))
  {
    hide Demote, Synthesize, TrimSpace;
    DemoteStory(t, a, b);
    var a1, b1 := Demote(t, a), Demote(t, b);
    match ev
    case Text(text) =>
    case Thought(text) => SynthesizeStory(t, a1, b1, "thought-", TrimSpace(text));
    case StartStep(id, title, detail) =>
      RecordStory(a1, b1, id, Step(id, title, detail, Running, "", 0), id !in a1.steps);
    case EndStep(id, ok, error, elapsed) =>
    case NoteStep(id, title, failed) =>
      RecordStory(a1, b1, id, Step(id, title, "", if failed then Failed else Finished, "", 0), id !in a1.steps);
  }

  lemma PushEditStory(t: Turn, s: State, final: bool)
    requires Shaped(s)
    ensures SameStory(PushEdit(t, s, final), s) && PushEdit(t, s, final).body == s.body
  {
    hide Render;
  }

  lemma PushNativeStory(t: Turn, s: State, final: bool)
    requires Shaped(s) && s.native.Some?
    ensures SameStory(PushNative(t, s, final).0, s) && PushNative(t, s, final).0.body == s.body
  {
    hide Take;
  }

  lemma PushStory(t: Turn, s: State, final: bool)
    requires Shaped(s)
    ensures SameStory(PushEdit(t, s, final), s) && PushEdit(t, s, final).body == s.body
    ensures SameStory(OpenStream(t, s), s) && OpenStream(t, s).body == s.body
    ensures s.native.Some? ==> SameStory(PushNative(t, s, final).0, s) && PushNative(t, s, final).0.body == s.body
  {
    PushEditStory(t, s, final);
    if s.native.Some? {
      PushNativeStory(t, s, final);
    }
    hide PushEdit, PushNative;
  }

  lemma TickStory(t: Turn, s: State, here: bool)
    requires Shaped(s)
    ensures SameStory(Flush(t, s, false, here), s) && Flush(t, s, false, here).body == s.body
  {
    hide PushEdit, PushNative, OpenStream;
    PushStory(t, s, false);
    var s1 := if s.native.None? then OpenStream(t, s) else s;
    assert Shaped(s1) by { PushStory(t, s, false); OpenShaped(t, s); }
    PushStory(t, s1, false);
    if s1.native.Some? {
      PushStory(t, PushNative(t, s1, false).0, false);
    }
  }

  lemma OpenShaped(t: Turn, s: State)
    requires Shaped(s)
    ensures Shaped(OpenStream(t, s))
  {
  }

  lemma {:induction false} PlayStory(t: Turn, ops: seq<Op>)
    ensures SameStory(Play(t, ops), Story(t, Heard(ops)))
    decreases |ops|
  {
    hide Hear, Flush;
    if ops != [] {
      var before := ops[..|ops| - 1];
      PlayStory(t, before);
      var s := Play(t, before);
      match ops[|ops| - 1]
      case Heard(ev) =>
        HearStory(t, s, Story(t, Heard(before)), ev);
        assert Heard(ops)[..|Heard(before)|] == Heard(before);
      case Tick(here) =>
        TickStory(t, s, here);
        assert Heard(ops) == Heard(before);
    }
  }

  /** The events after which earlier prose counts as narration. */
  predicate Demotes(t: Turn, ev: Event) {
    !t.activity.Hidden?
    && match ev
       case Thought(text) => TrimSpace(text) != ""
       case StartStep(id, _, _) => id != ""
       case NoteStep(_, _, _) => true
       case _ => false
  }

  /** The text since the last demoting event. */
  function AnswerOf(t: Turn, evs: seq<Event>): string {
    if evs == [] then "" else
    var ev := evs[|evs| - 1];
    if Demotes(t, ev) then ""
    else AnswerOf(t, evs[..|evs| - 1]) + if ev.Text? then ev.text else ""
  }

  lemma {:induction false} PendingIsTheAnswer(t: Turn, evs: seq<Event>)
    ensures Story(t, evs).pending == AnswerOf(t, evs)
  {
    hide Hear, Demotes;
    if evs != [] {
      PendingIsTheAnswer(t, evs[..|evs| - 1]);
      HearPending(t, Story(t, evs[..|evs| - 1]), evs[|evs| - 1]);
    }
  }

  lemma HearPending(t: Turn, s: State, ev: Event)
    requires Shaped(s)
    ensures Hear(t, s, ev).pending == if Demotes(t, ev) then "" else s.pending + if ev.Text? then ev.text else ""
  {
    hide TrimSpace, Demote, Decimal;
    DemoteStory(t, s, s);
  }

  // ------------------------------------------------------------------
  // What the surface shows
  // ------------------------------------------------------------------

  function Overlay(m: map<string, Step>, steps: seq<Step>): map<string, Step> {
    if steps == [] then m
    else Overlay(m, steps[..|steps| - 1])[steps[|steps| - 1].id := steps[|steps| - 1]]
  }

  function Streamed(log: seq<Call>): string {
    if log == [] then "" else
    var c := log[|log| - 1];
    Streamed(log[..|log| - 1]) + if (c.Append? || c.Finish?) && c.ok then c.update.text else ""
  }

  function Shown(log: seq<Call>): map<string, Step> {
    if log == [] then map[] else
    var c := log[|log| - 1];
    if (c.Append? || c.Finish?) && c.ok then Overlay(Shown(log[..|log| - 1]), c.update.steps)
    else Shown(log[..|log| - 1])
  }

  lemma {:induction false} OverlayChanged(s: State, m: map<string, Step>, order: seq<string>)
    requires (forall id | id in order :: id in s.steps) && forall id | id in s.steps :: s.steps[id].id == id
    ensures var o := Overlay(m, ChangedSteps(s, order));
            && (forall id :: id in o <==> id in m || (id in order && id in s.changed))
            && (forall id | id in o :: o[id] == if id in order && id in s.changed then s.steps[id] else m[id])
  {
    if order != [] {
      var front, id := order[..|order| - 1], order[|order| - 1];
      OverlayChanged(s, m, front);
      assert forall x :: x in order <==> x in front || x == id;
      var before := ChangedSteps(s, front);
      if id in s.changed {
        OverlayOne(m, before, s.steps[id]);
        assert ChangedSteps(s, order) == before + [s.steps[id]];
        assert s.steps[id].id == id;
        assert Overlay(m, ChangedSteps(s, order)) == Overlay(m, before)[id := s.steps[id]];
      } else {
        var none: seq<Step> := [];
        assert ChangedSteps(s, order) == before + none == before;
        assert Overlay(m, ChangedSteps(s, order)) == Overlay(m, before);
      }
      hide Overlay, ChangedSteps;
    }
  }

  lemma OverlayOne(m: map<string, Step>, steps: seq<Step>, step: Step)
    ensures Overlay(m, steps + [step]) == Overlay(m, steps)[step.id := step]
  {
    assert (steps + [step])[..|steps|] == steps;
  }

  /** The surface shows every step that is not marked changed as it is. */
  predicate InStep(s: State) {
    && (forall id | id in s.steps && id !in s.changed :: id in Shown(s.log) && Shown(s.log)[id] == s.steps[id])
    && (forall id | id in Shown(s.log) :: id in s.steps)
  }

  // ------------------------------------------------------------------
  // What every run keeps, whatever fails
  // ------------------------------------------------------------------

  /** One stream at most, never written again once it refused, and edits only of
      messages that were posted. */
  predicate Proper(log: seq<Call>) {
    && (forall i | 0 <= i < |log| && log[i].Open? :: i == 0)
    && (forall i | 0 <= i < |log| && (log[i].Append? || log[i].Finish?) :: log[i].stream == 0 && log[0] == Open(true))
    && (forall i, j | 0 <= i < j < |log| && (log[i].Append? || log[i].Finish?) && (log[j].Append? || log[j].Finish?) :: log[i].ok)
    && (forall i | 0 <= i < |log| && log[i].Edit? :: log[i].ref < i && log[log[i].ref].Post? && log[log[i].ref].ok)
  }

  predicate Filed(s: State) {
    && (forall id | id in s.steps :: id in s.order && s.steps[id].id == id)
    && s.changed <= s.steps.Keys
  }

  /** The three stages of a turn: nothing sent, streaming, fallen back. */
  predicate Staged(s: State) {
    && (s.native.Some? ==>
          && s.native.value == 0 && !s.fellBack && |s.log| > 0 && s.log[0] == Open(true)
          && (forall i | 1 <= i < |s.log| :: s.log[i].Append? && s.log[i].stream == 0 && s.log[i].ok)
          && s.sent <= |s.body| && Streamed(s.log) == s.body[..s.sent] && InStep(s))
    && (s.native.None? && !s.fellBack ==> s.log == [] && !s.posted && s.sent == 0 && s.changed == s.steps.Keys)
    && (s.fellBack && s.posted ==> s.ref < |s.log| && s.log[s.ref].Post? && s.log[s.ref].ok)
  }

  predicate Unfinished(log: seq<Call>) {
    forall i | 0 <= i < |log| :: !log[i].Finish?
  }

  predicate Good(s: State) {
    Shaped(s) && !s.closed && Filed(s) && Proper(s.log) && Unfinished(s.log) && Staged(s)
  }

  lemma RecordKeeps(s: State, id: string, step: Step, anew: bool)
    requires Good(s) && step.id == id && (anew || id in s.steps)
    ensures Good(Record(s, id, step, anew))
  {
    hide Shown, Streamed;
  }

  lemma DemoteKeeps(t: Turn, s: State)
    requires Good(s)
    ensures Good(Demote(t, s))
  {
    hide Shown, Streamed, Proper, TrimSpace;
    var s1 := s.(pending := "");
    if TrimSpace(s.pending) != "" {
      SynthesizeKeeps(t, s1, "prose-", TrimSpace(s.pending));
    }
  }

  lemma SynthesizeKeeps(t: Turn, s: State, prefix: string, text: string)
    requires Good(s)
    ensures Good(Synthesize(t, s, prefix, text))
  {
    hide Decimal, Good;
    var (title, detail) := t.split(text);
    var id := prefix + Decimal(s.synth + 1);
    assert Shaped(s) by { Unfold(s); }
    RecordKeeps(s, id, Step(id, title, detail, Finished, "", 0), true);
    SynthKeeps(Record(s, id, Step(id, title, detail, Finished, "", 0), true), s.synth + 1);
    hide Record;
  }

  lemma SynthKeeps(s: State, n: nat)
    requires Good(s)
    ensures Good(s.(synth := n))
  {
    hide Proper, Shown, Streamed;
  }

  lemma EndKeeps(t: Turn, s: State, ev: Event)
    requires Good(s) && ev.EndStep?
    ensures Good(Hear(t, s, ev))
  {
    hide Proper, Staged, Unfinished;
    var was := if ev.id in s.steps then s.steps[ev.id] else Step(ev.id, "tool", "", Running, "", 0);
    assert was.id == ev.id;
    RecordKeeps(s, ev.id, was.(status := if ev.ok then Finished else Failed,
                               output := if ev.ok then was.output else ev.error, elapsed := ev.elapsed), ev.id !in s.steps);
    hide Good, Record;
  }

  lemma HearKeeps(t: Turn, s: State, ev: Event)
    requires Good(s)
    ensures Good(Hear(t, s, ev))
  {
    hide Good, Demote, Synthesize, TrimSpace, Record;
    assert Shaped(s) by { Unfold(s); }
    DemoteKeeps(t, s);
    var s1 := Demote(t, s);
    match ev
    case Text(text) => PlainKeeps(s, Hear(t, s, ev));
    case Thought(text) =>
      if !t.activity.Hidden? && TrimSpace(text) != "" {
        SynthesizeKeeps(t, s1, "thought-", TrimSpace(text));
      }
    case StartStep(id, title, detail) => RecordKeeps(s1, id, Step(id, title, detail, Running, "", 0), id !in s1.steps);
    case EndStep(_, _, _, _) => EndKeeps(t, s, ev);
    case NoteStep(id, title, failed) =>
      RecordKeeps(s1, id, Step(id, title, "", if failed then Failed else Finished, "", 0), id !in s1.steps);
  }

  lemma PlainKeeps(s: State, s': State)
    requires Good(s) && s' == s.(pending := s'.pending, dirty := s'.dirty)
    ensures Good(s')
  {
    hide Proper, Shown, Streamed;
  }

  // ------------------------------------------------------------------
  // Flushes keep it
  // ------------------------------------------------------------------

  lemma OpenKeeps(t: Turn, s: State)
    requires Good(s) && s.native.None? && !s.fellBack
    ensures Good(OpenStream(t, s)) && OpenStream(t, s).native.Some? == (t.streams && t.accepts(0))
    ensures OpenStream(t, s).fellBack == !(t.streams && t.accepts(0))
  {
    Unfold(s);
    if t.streams {
      assert [] + [Open(t.accepts(0))] == [Open(t.accepts(0))];
      if t.accepts(0) {
        Opened(s, OpenStream(t, s));
      } else {
        FallenBack(s, OpenStream(t, s));
      }
    } else {
      FallenBack(s, OpenStream(t, s));
    }
    hide Good;
  }

  lemma Opened(s: State, s': State)
    requires Good(s) && s.native.None? && !s.fellBack
    requires s' == s.(log := [Open(true)], native := Some(0), ref := 0, posted := true)
    ensures Good(s')
  {
    FirstCall(true);
    hide Shown, Streamed;
  }

  lemma FallenBack(s: State, s': State)
    requires Good(s) && s.native.None? && !s.fellBack
    requires s' == s.(log := s'.log, fellBack := true) && (s'.log == [] || s'.log == [Open(false)])
    ensures Good(s')
  {
    hide Shown, Streamed;
  }

  lemma FirstCall(ok: bool)
    ensures Shown([Open(ok)]) == map[] && Streamed([Open(ok)]) == ""
  {
    var log := [Open(ok)];
    assert log[..|log| - 1] == [];
  }

  lemma ProperGrows(log: seq<Call>, c: Call)
    requires Proper(log) && !c.Open?
    requires c.Append? || c.Finish? ==>
               && c.stream == 0 && |log| > 0 && log[0] == Open(true)
               && forall i | 1 <= i < |log| :: log[i].Append? && log[i].ok
    requires c.Edit? ==> c.ref < |log| && log[c.ref].Post? && log[c.ref].ok
    ensures Proper(log + [c])
  {
  }

  lemma Accepted(s: State, c: Call)
    requires Good(s) && s.native.Some? && (c.Append? || c.Finish?) && c.ok && c.update == Take(s)
    ensures var log := s.log + [c];
            Streamed(log) == s.body && InStep(s.(log := log, changed := {}))
  {
    hide Proper;
    var log := s.log + [c];
    assert log[..|s.log|] == s.log;
    assert s.body == s.body[..s.sent] + s.body[s.sent..];
    ShownAfter(s, c);
    hide Shown;
  }

  lemma ShownAfter(s: State, c: Call)
    requires Shaped(s) && Filed(s) && InStep(s) && (c.Append? || c.Finish?) && c.ok && c.update == Take(s)
    ensures InStep(s.(log := s.log + [c], changed := {}))
  {
    OverlayChanged(s, Shown(s.log), s.order);
    ShownNext(s.log, c);
    hide Overlay, ChangedSteps, Shown;
  }

  lemma ShownNext(log: seq<Call>, c: Call)
    requires (c.Append? || c.Finish?) && c.ok
    ensures Shown(log + [c]) == Overlay(Shown(log), c.update.steps)
  {
    hide Overlay;
    assert (log + [c])[..|log|] == log;
  }

  lemma Refused(s: State, s': State, c: Call)
    requires Good(s) && s.native.Some? && c.Append? && c.stream == 0
    requires s' == s.(log := s.log + [c], dirty := true, fellBack := true, native := None, posted := false, ref := 0, sent := 0)
    ensures Good(s')
  {
    ProperGrows(s.log, c);
    hide Proper, Shown, Streamed;
  }

  lemma Appended(s: State, s': State, c: Call)
    requires Good(s) && s.native.Some? && c.Append? && c.stream == 0 && c.ok && c.update == Take(s)
    requires s' == s.(log := s.log + [c], dirty := false, sent := |s.body|, changed := {})
    ensures Good(s')
  {
    ProperGrows(s.log, c);
    Accepted(s, c);
    assert s.body[..|s.body|] == s.body;
    hide Proper, Shown, Streamed, Take;
  }

  lemma PushNativeKeeps(t: Turn, s: State)
    requires Good(s) && s.native.Some?
    ensures var (s', done) := PushNative(t, s, false); Good(s') && (done ==> s'.native == s.native) && (!done ==> s'.fellBack)
    ensures PushNative(t, s, false).1 || !t.accepts(|s.log|)
  {
    assert s.native.value == 0 by { hide Proper, Streamed, InStep, Filed; }
    var u := Take(s);
    var c := Append(0, u, t.accepts(|s.log|));
    if u.text == "" && u.steps == [] {
      PlainKeeps(s, s.(dirty := false));
    } else if c.ok {
      Appended(s, s.(log := s.log + [c], dirty := false, sent := |s.body|, changed := {}), c);
    } else {
      Refused(s, s.(log := s.log + [c], dirty := true, fellBack := true, native := None, posted := false, ref := 0, sent := 0), c);
    }
    hide Good, Take;
  }

  lemma PushEditKeeps(t: Turn, s: State, final: bool)
    requires Good(s) && s.fellBack
    ensures Good(PushEdit(t, s, final)) && PushEdit(t, s, final).fellBack
  {
    hide Render, Shown, Streamed, InStep;
    var text := Render(t, s, final);
    if text != "" {
      var ok := t.accepts(|s.log|);
      ProperGrows(s.log, if s.posted then Edit(s.ref, text, ok) else Post(text, ok));
    }
    hide Proper;
  }

  lemma TickKeeps(t: Turn, s: State, here: bool)
    requires Good(s)
    ensures Good(Flush(t, s, false, here))
    ensures t.streams && (forall k :: t.accepts(k)) && !s.fellBack ==> !Flush(t, s, false, here).fellBack
  {
    hide Good, PushEdit, PushNative, OpenStream;
    assert Shaped(s) && (s.fellBack ==> s.native.None?) by { Unfold(s); }
    if s.fellBack {
      PushEditKeeps(t, s, false);
    } else {
      var s2 := s;
      if s.native.None? {
        OpenKeeps(t, s);
        s2 := OpenStream(t, s);
        Unfold(s2);
      }
      if s2.native.None? {
        PushEditKeeps(t, s2, false);
      } else {
        PushNativeKeeps(t, s2);
        var (s3, done) := PushNative(t, s2, false);
        Unfold(s3);
        if !done {
          PushEditKeeps(t, s3, false);
        }
      }
    }
  }

  lemma Unfold(s: State)
    requires Good(s)
    ensures Shaped(s) && !s.closed && (s.native.Some? ==> !s.fellBack && |s.log| > 0)
    ensures s.native.None? && !s.fellBack ==> s.log == []
  {
    hide Proper, Filed, InStep, Streamed;
  }

  lemma {:induction false} PlayKeeps(t: Turn, ops: seq<Op>)
    ensures Good(Play(t, ops)) && Play(t, ops).body == ""
    ensures t.streams && (forall k :: t.accepts(k)) ==> !Play(t, ops).fellBack
    decreases |ops|
  {
    hide Hear, Flush, Good;
    if ops == [] {
      assert Good(NEW) by { NewIsGood(); }
    } else {
      var s := Play(t, ops[..|ops| - 1]);
      PlayKeeps(t, ops[..|ops| - 1]);
      match ops[|ops| - 1]
      case Heard(ev) =>
        HearKeeps(t, s, ev);
        HearBody(t, s, ev);
      case Tick(here) =>
        TickKeeps(t, s, here);
        TickStory(t, s, here);
    }
  }

  lemma NewIsGood()
    ensures Good(NEW)
  {
  }

  lemma HearBody(t: Turn, s: State, ev: Event)
    requires Shaped(s)
    ensures Hear(t, s, ev).body == s.body && Hear(t, s, ev).fellBack == s.fellBack
  {
    hide Demote, Synthesize, TrimSpace;
    SynthesizeBody(t, Demote(t, s), "thought-", TrimSpace(if ev.Thought? then ev.text else ""));
    DemoteBody(t, s);
  }

  lemma SynthesizeBody(t: Turn, s: State, prefix: string, text: string)
    requires Shaped(s)
    ensures Synthesize(t, s, prefix, text).body == s.body && Synthesize(t, s, prefix, text).fellBack == s.fellBack
  {
    hide Decimal;
  }

  lemma DemoteBody(t: Turn, s: State)
    requires Shaped(s)
    ensures Demote(t, s).body == s.body && Demote(t, s).fellBack == s.fellBack
  {
    hide TrimSpace, Synthesize;
    SynthesizeBody(t, s.(pending := ""), "prose-", TrimSpace(s.pending));
  }

  // ------------------------------------------------------------------
  // The answer
  // ------------------------------------------------------------------

  lemma {:induction false} TrimLeftPrefix(b: string, x: string)
    requires TrimLeft(b) != ""
    ensures TrimLeft(b + x) == TrimLeft(b) + x
  {
    if IsSpace(b[0]) {
      TrimLeftPrefix(b[1..], x);
      assert (b + x)[1..] == b[1..] + x;
    }
  }

  lemma {:induction false} TrimRightPrefix(b: string, x: string)
    ensures TrimRight(b) <= TrimRight(b + x)
    decreases |x|
  {
    if x == "" {
      assert b + x == b;
    } else if IsSpace(x[|x| - 1]) {
      TrimRightPrefix(b, x[..|x| - 1]);
      assert (b + x)[..|b + x| - 1] == b + x[..|x| - 1];
    } else {
      TrimRightShorter(b);
    }
  }

  lemma {:induction false} TrimRightShorter(b: string)
    ensures TrimRight(b) <= b
  {
    if b != "" && IsSpace(b[|b| - 1]) {
      TrimRightShorter(b[..|b| - 1]);
    }
  }

  lemma TrimPrefix(b: string, x: string)
    requires TrimSpace(b) != ""
    ensures TrimSpace(b) <= TrimSpace(b + x)
  {
    TrimLeftPrefix(b, x);
    TrimRightPrefix(TrimLeft(b), x);
  }

  /** A posted answer is the trimmed answer, followed by the steps if they are kept. */
  predicate Carries(t: Turn, text: string, answer: string) {
    if t.activity.Full? then TrimSpace(answer) <= text else text == TrimSpace(answer)
  }

  predicate Lands(t: Turn, c: Call, answer: string) {
    match c
    case Finish(_, u, _) => u.text == answer
    case Post(text, _) => Carries(t, text, answer)
    case Edit(_, text, _) => Carries(t, text, answer)
    case _ => false
  }

  lemma EditLands(t: Turn, s: State)
    requires Shaped(s) && TrimSpace(s.body) != ""
    ensures var log := PushEdit(t, s, true).log;
            |log| == |s.log| + 1 && Lands(t, log[|s.log|], s.body)
  {
    hide TrimSpace, Lines, Tail;
    assert s.body + "" == s.body;
    TrimPrefix(s.body, (if s.body != "" then "\n" else "") + Lines(s, Tail(s.order)));
  }

  /** The native close carries the whole answer, and with it everything the turn's
      surface was still missing. */
  lemma FinishLands(t: Turn, s: State)
    requires Good(s) && s.native.Some? && s.sent == 0
    ensures var (s', done) := PushNative(t, s, true);
            && done == t.accepts(|s.log|) && s'.body == s.body && s'.steps == s.steps
            && s'.log == s.log + [Finish(0, Take(s), done)] && Take(s).text == s.body && Proper(s'.log)
            && (done ==> Streamed(s'.log) == s.body && Shown(s'.log) == s.steps)
            && (!done ==> !s'.posted)
  {
    assert s.native.value == 0 by { hide Proper, Streamed, InStep, Filed; }
    var c := Finish(0, Take(s), t.accepts(|s.log|));
    ProperGrows(s.log, c);
    if c.ok {
      Accepted(s, c);
      ShowsAll(s.(log := s.log + [c], changed := {}));
    }
    hide Good, Shown, Streamed, Proper, ChangedSteps, InStep;
  }

  lemma ShowsAll(s: State)
    requires InStep(s) && s.changed == {}
    ensures Shown(s.log) == s.steps
  {
    hide Shown;
  }

  /** Answer and steps are on the surface, because the native close was accepted. */
  predicate Complete(log: seq<Call>, answer: string, steps: map<string, Step>) {
    |log| > 0 && log[|log| - 1].Finish? && log[|log| - 1].ok && Streamed(log) == answer && Shown(log) == steps
  }

  /** If there is an answer, the final flush ends with the call that carries it; an
      accepted native close leaves the surface complete. */
  predicate Final(t: Turn, before: seq<Call>, log: seq<Call>, answer: string, steps: map<string, Step>) {
    && Proper(log)
    && (TrimSpace(answer) != "" ==> |log| > |before| && Lands(t, log[|log| - 1], answer))
    && (|log| > 0 && log[|log| - 1].Finish? && log[|log| - 1].ok ==> Complete(log, answer, steps))
  }

  lemma EditFinal(t: Turn, s: State)
    requires Shaped(s) && Proper(s.log) && (s.posted ==> s.ref < |s.log| && s.log[s.ref].Post? && s.log[s.ref].ok)
    requires |s.log| > 0 ==> !(s.log[|s.log| - 1].Finish? && s.log[|s.log| - 1].ok)
    ensures Final(t, s.log, PushEdit(t, s, true).log, s.body, s.steps) && PushEdit(t, s, true).body == s.body
  {
    hide Render, TrimSpace, Complete, Carries;
    if TrimSpace(s.body) != "" {
      EditLands(t, s);
    }
    var text, ok := Render(t, s, true), t.accepts(|s.log|);
    if text != "" {
      ProperGrows(s.log, if s.posted then Edit(s.ref, text, ok) else Post(text, ok));
    }
    hide Proper;
  }

  lemma EditGood(s: State)
    requires Good(s) && (s.fellBack || !s.posted)
    ensures Shaped(s) && Proper(s.log) && (s.posted ==> s.ref < |s.log| && s.log[s.ref].Post? && s.log[s.ref].ok)
    ensures |s.log| > 0 ==> !s.log[|s.log| - 1].Finish?
  {
    hide InStep, Streamed, Filed, Proper;
  }

  /** Closing the native stream, and falling back to a post when it refuses. */
  function CloseNative(t: Turn, s: State): State
    requires Shaped(s) && s.native.Some?
  {
    var (s1, done) := PushNative(t, s, true);
    if done then s1 else PushEdit(t, s1, true)
  }

  lemma NativeFinal(t: Turn, s: State)
    requires Good(s) && s.native.Some? && s.sent == 0
    ensures Final(t, s.log, CloseNative(t, s).log, s.body, s.steps) && CloseNative(t, s).body == s.body
    ensures t.accepts(|s.log|) ==> Complete(CloseNative(t, s).log, s.body, s.steps)
  {
    FinishLands(t, s);
    hide Good, PushNative, Proper, Shown, Streamed, Take, PushEdit, TrimSpace, Carries;
    var (s1, done) := PushNative(t, s, true);
    if !done {
      EditFinal(t, s1);
    }
  }

  /** The final flush proper, after the pending prose became the body. */
  function LastFlush(t: Turn, s: State): State
    requires Shaped(s)
  {
    if s.fellBack then PushEdit(t, s, true)
    else
      var s1 := if s.native.None? then OpenStream(t, s) else s;
      if s1.native.None? then PushEdit(t, s1, true) else CloseNative(t, s1)
  }

  lemma LastFlushLands(t: Turn, s: State)
    requires Good(s) && s.sent == 0
    ensures Final(t, s.log, LastFlush(t, s).log, s.body, s.steps) && LastFlush(t, s).body == s.body
    ensures t.streams && (forall k :: t.accepts(k)) && !s.fellBack ==> Complete(LastFlush(t, s).log, s.body, s.steps)
  {
    hide Good, Final, Complete, PushEdit, CloseNative, OpenStream;
    Unfold(s);
    if s.fellBack {
      EditGood(s);
      EditFinal(t, s);
    } else if s.native.Some? {
      NativeFinal(t, s);
    } else {
      FirstFlushLands(t, s);
    }
  }

  /** Nothing was sent before: the final flush opens the stream itself. */
  lemma FirstFlushLands(t: Turn, s: State)
    requires Good(s) && s.native.None? && !s.fellBack && s.sent == 0
    ensures Final(t, s.log, LastFlush(t, s).log, s.body, s.steps) && LastFlush(t, s).body == s.body
    ensures t.streams && (forall k :: t.accepts(k)) ==> Complete(LastFlush(t, s).log, s.body, s.steps)
  {
    hide Good, Complete, PushEdit, CloseNative, OpenStream, TrimSpace, Lands, Proper;
    Unfold(s);
    OpenKeeps(t, s);
    var s1 := OpenStream(t, s);
    OpenFields(t, s);
    if s1.native.None? {
      EditGood(s1);
      EditFinal(t, s1);
    } else {
      NativeFinal(t, s1);
    }
  }

  lemma OpenFields(t: Turn, s: State)
    ensures var s1 := OpenStream(t, s);
            s1.body == s.body && s1.steps == s.steps && s1.sent == s.sent && |s1.log| >= |s.log|
            && (s1.native.None? ==> !s1.posted || s1.posted == s.posted)
  {
  }

  lemma ShutIsLastFlush(t: Turn, s: State)
    requires Good(s)
    ensures var s1 := s.(body := s.body + s.pending, pending := "");
            Shut(t, s, true).log == if s.native.None? && |s1.body| <= s.sent && s.order == [] then s.log else LastFlush(t, s1).log
  {
    hide Good, PushEdit, PushNative, OpenStream;
    Unfold(s);
  }

  lemma ShutAway(t: Turn, s: State)
    requires Shaped(s)
    ensures Shut(t, s, false).log == s.log
  {
    assert Flush(t, s, true, false).log == s.log;
  }

  lemma AnswerKeeps(s: State)
    requires Good(s) && s.body == ""
    ensures Good(s.(body := "" + s.pending, pending := "")) && s.sent == 0
  {
    hide Proper, Shown, Streamed;
    assert ("" + s.pending)[..0] == s.body[..0];
  }

  /** Whatever fails, and wherever the ticks fell: if the surface is there and the
      answer is not blank, the last call made is the one that carries the whole
      answer, so the answer arrived exactly if that call was accepted. At most one
      stream was opened, a stream that refused was left alone, only posted messages
      were edited, and an accepted native close leaves the surface showing the text
      since the last demoting event and the final steps. */
  lemma AnswerArrives(t: Turn, ops: seq<Op>, here: bool)
    ensures var before, log := Play(t, ops).log, Shut(t, Play(t, ops), here).log;
            if here then Final(t, before, log, AnswerOf(t, Heard(ops)), Story(t, Heard(ops)).steps)
            else log == before && Proper(log)
  {
    hide Play, Shut, Final, Proper, Good, Story, AnswerOf, LastFlush, Heard;
    Ended(t, ops);
    var s := Play(t, ops);
    if here {
      if s.native.None? && s.pending == "" && s.order == [] {
        NothingFinal(t, s.log, Story(t, Heard(ops)).steps);
      } else {
        ArrivesHere(t, ops);
      }
    }
  }

  lemma NothingFinal(t: Turn, log: seq<Call>, steps: map<string, Step>)
    requires Proper(log) && (|log| > 0 ==> !log[|log| - 1].Finish?)
    ensures Final(t, log, log, "", steps)
  {
    assert TrimSpace("") == "";
    hide Proper;
  }

  lemma ArrivesHere(t: Turn, ops: seq<Op>)
    ensures var s := Play(t, ops);
            !(s.native.None? && s.pending == "" && s.order == []) ==>
              Final(t, s.log, Shut(t, s, true).log, AnswerOf(t, Heard(ops)), Story(t, Heard(ops)).steps)
  {
    Ended(t, ops);
    var s := Play(t, ops);
    hide Play, Shut, Final, Good, Story, AnswerOf, LastFlush, Proper, TrimSpace;
    assert "" + s.pending == s.pending;
    if !(s.native.None? && s.pending == "" && s.order == []) {
      LastFlushLands(t, s.(body := "" + s.pending, pending := ""));
    }
  }

  lemma Ended(t: Turn, ops: seq<Op>)
    ensures var s := Play(t, ops);
            && s.pending == AnswerOf(t, Heard(ops)) && s.steps == Story(t, Heard(ops)).steps
            && s.order == Story(t, Heard(ops)).order
            && s.body == "" && s.sent == 0 && Good(s.(body := "" + s.pending, pending := ""))
            && Proper(s.log) && (|s.log| > 0 ==> !s.log[|s.log| - 1].Finish?)
            && Shut(t, s, false).log == s.log
            && Shut(t, s, true).log == if s.native.None? && s.pending == "" && s.order == [] then s.log
                                       else LastFlush(t, s.(body := "" + s.pending, pending := "")).log
    ensures t.streams && (forall k :: t.accepts(k)) ==> !Play(t, ops).fellBack
  {
    hide Play, Shut, Story, LastFlush;
    var s := Play(t, ops);
    PlayKeeps(t, ops);
    PlayStory(t, ops);
    PendingIsTheAnswer(t, Heard(ops));
    AnswerKeeps(s);
    ShutIsLastFlush(t, s);
    ShutAway(t, s);
    hide Proper, InStep, Streamed, AnswerOf;
  }

  /** When a streaming surface accepts every call, what it shows after the close is
      a function of the events alone, the same for every placement of the ticks. */
  lemma TicksDoNotMatter(t: Turn, ops: seq<Op>)
    requires t.streams && forall k :: t.accepts(k)
    ensures var log := Shut(t, Play(t, ops), true).log;
            Streamed(log) == AnswerOf(t, Heard(ops)) && Shown(log) == Story(t, Heard(ops)).steps
  {
    Ended(t, ops);
    StoryFiled(t, Heard(ops));
    hide Play, Shut, Proper, TrimSpace;
    var s := Play(t, ops);
    if s.native.None? && s.pending == "" && s.order == [] {
      NothingSent(t, ops);
    } else {
      LastFlushLands(t, s.(body := "" + s.pending, pending := ""));
    }
  }

  lemma NothingSent(t: Turn, ops: seq<Op>)
    requires Play(t, ops).native.None? && !Play(t, ops).fellBack
    ensures Play(t, ops).log == [] && Streamed([]) == "" && Shown([]) == map[]
  {
    PlayKeeps(t, ops);
    Unfold(Play(t, ops));
  }

  lemma StoryFiled(t: Turn, evs: seq<Event>)
    ensures Story(t, evs).order == [] ==> Story(t, evs).steps == map[]
  {
    hide Hear;
    if evs != [] {
      StoryFiled(t, evs[..|evs| - 1]);
      HearFiled(t, Story(t, evs[..|evs| - 1]), evs[|evs| - 1]);
    }
  }

  lemma HearFiled(t: Turn, s: State, ev: Event)
    requires Shaped(s) && (s.order == [] ==> s.steps == map[])
    ensures Hear(t, s, ev).order == [] ==> Hear(t, s, ev).steps == map[]
  {
    hide TrimSpace, Decimal, Synthesize, Demote;
    DemoteFiled(t, s);
    SynthesizeFiled(t, Demote(t, s), "thought-", TrimSpace(if ev.Thought? then ev.text else ""));
  }

  lemma SynthesizeFiled(t: Turn, s: State, prefix: string, text: string)
    requires Shaped(s)
    ensures Synthesize(t, s, prefix, text).order != []
  {
    hide Decimal;
  }

  lemma DemoteFiled(t: Turn, s: State)
    requires Shaped(s) && (s.order == [] ==> s.steps == map[])
    ensures Demote(t, s).order == [] ==> Demote(t, s).steps == map[]
  {
    hide TrimSpace, Synthesize;
    SynthesizeFiled(t, s.(pending := ""), "prose-", TrimSpace(s.pending));
  }
}
