/** What a flush between two events puts on the surface. */
module StreamTicks {
  import opened Wrappers
  import opened Stream
  import opened StreamTheorems

  // ------------------------------------------------------------------
  // Which steps an update carries, and which a rendering lists
  // ------------------------------------------------------------------

  predicate Rising(at: seq<nat>, n: nat) {
    && (forall k | 0 <= k < |at| :: at[k] < n)
    && (forall j, k | 0 <= j < k < |at| :: at[j] < at[k])
  }

  lemma {:induction false} ChangedAt(s: State, order: seq<string>) returns (at: seq<nat>)
    requires forall id | id in order :: id in s.steps
    ensures Rising(at, |order|) && forall i | 0 <= i < |order| :: i in at <==> order[i] in s.changed
    ensures |ChangedSteps(s, order)| == |at| && forall k | 0 <= k < |at| :: ChangedSteps(s, order)[k] == s.steps[order[at[k]]]
  {
    if order == [] {
      at := [];
    } else {
      at := ChangedAt(s, order[..|order| - 1]);
      if order[|order| - 1] in s.changed {
        at := at + [|order| - 1];
      }
    }
  }

  /** An update carries the body from where the last one ended, and the steps changed
      since, in the order in which they were first filed. */
  lemma UpdateCarries(s: State) returns (at: seq<nat>)
    requires Shaped(s)
    ensures s.body == s.body[..s.sent] + Take(s).text
    ensures Rising(at, |s.order|) && forall i | 0 <= i < |s.order| :: i in at <==> s.order[i] in s.changed
    ensures |Take(s).steps| == |at| && forall k | 0 <= k < |at| :: Take(s).steps[k] == s.steps[s.order[at[k]]]
  {
    at := ChangedAt(s, s.order);
    hide ChangedSteps;
  }

  function Joined(parts: seq<string>): string {
    if parts == [] then "" else Joined(parts[..|parts| - 1]) + parts[|parts| - 1]
  }

  /** How a step is listed. */
  predicate ListsStep(part: string, step: Step) {
    && (step.status != Failed ==> part == "\n_" + step.title + (if step.detail == "" then "" else ": " + step.detail) + "_")
    && (step.status == Failed ==>
          part == "\n_failed — " + step.title + (if step.detail == "" then "" else ": " + step.detail)
                  + (if step.output == "" then "" else " (" + step.output + ")") + "_")
  }

  lemma ListedLine(step: Step)
    ensures ListsStep("\n_" + ActivityLine(step) + "_", step)
  {
    var rest := if step.detail == "" then "" else ": " + step.detail;
    var tail := if step.output == "" then "" else " (" + step.output + ")";
    assert "\n_" + ("failed — " + (step.title + rest) + tail) + "_" == "\n_failed — " + step.title + rest + tail + "_";
    assert "\n_" + (step.title + rest) + "_" == "\n_" + step.title + rest + "_";
  }

  lemma {:induction false} LinesAre(s: State, order: seq<string>) returns (parts: seq<string>)
    requires forall id | id in order :: id in s.steps
    ensures |parts| == |order| && Lines(s, order) == Joined(parts)
    ensures forall k | 0 <= k < |parts| :: ListsStep(parts[k], s.steps[order[k]])
  {
    hide ListsStep, ActivityLine;
    if order == [] {
      parts := [];
    } else {
      var n := |order| - 1;
      var front := LinesAre(s, order[..n]);
      var last := "\n_" + ActivityLine(s.steps[order[n]]) + "_";
      ListedLine(s.steps[order[n]]);
      parts := front + [last];
      assert parts[..n] == front;
      assert Joined(front) + "\n_" + ActivityLine(s.steps[order[n]]) + "_" == Joined(front) + last;
    }
  }

  lemma TailAre(s: State) returns (parts: seq<string>)
    requires Shaped(s)
    ensures |parts| == |Tail(s.order)| == (if |s.order| < 12 then |s.order| else 12) && Lines(s, Tail(s.order)) == Joined(parts)
    ensures forall k | 0 <= k < |parts| :: ListsStep(parts[k], s.steps[s.order[|s.order| - |parts| + k]])
  {
    hide ListsStep, Lines, Joined, Tail;
    var tail := Tail(s.order);
    parts := LinesAre(s, tail);
    forall k | 0 <= k < |tail|
      ensures |tail| <= |s.order| && ListsStep(parts[k], s.steps[s.order[|s.order| - |tail| + k]])
    {
      TailAt(s.order, k);
    }
    TailLength(s.order);
  }

  lemma TailLength(order: seq<string>)
    ensures |Tail(order)| == if |order| < 12 then |order| else 12
  {
  }

  lemma TailAt(order: seq<string>, k: nat)
    requires k < |Tail(order)|
    ensures |Tail(order)| <= |order| && Tail(order)[k] == order[|order| - |Tail(order)| + k]
  {
  }

  /** A rendering is the body, and below it the last twelve steps, or all if there are
      fewer: unless activity is hidden, and at the close only if it is kept in full. */
  lemma RenderLists(t: Turn, s: State, final: bool) returns (parts: seq<string>)
    requires Shaped(s)
    ensures |parts| == if t.activity.Hidden? || (final && !t.activity.Full?) then 0 else if |s.order| < 12 then |s.order| else 12
    ensures forall k | 0 <= k < |parts| :: ListsStep(parts[k], s.steps[s.order[|s.order| - |parts| + k]])
    ensures Trimmed(Below(s.body, parts), Render(t, s, final))
  {
    hide ListsStep, TrimSpace, Trimmed, Below, Render, Lines;
    if t.activity.Hidden? || (final && !t.activity.Full?) {
      parts := [];
      RenderBody(t, s, final);
    } else {
      parts := TailAre(s);
      RenderBelow(t, s, final, parts);
    }
    TrimIs(Below(s.body, parts));
  }

  /** The parts stand below the body, if there is one. */
  function Below(body: string, parts: seq<string>): string {
    if parts == [] then body else if body == "" then Joined(parts) else body + "\n" + Joined(parts)
  }

  lemma RenderBody(t: Turn, s: State, final: bool)
    requires Shaped(s) && (t.activity.Hidden? || (final && !t.activity.Full?))
    ensures Render(t, s, final) == TrimSpace(Below(s.body, []))
  {
    hide TrimSpace;
    assert s.body + "" == s.body;
  }

  lemma RenderBelow(t: Turn, s: State, final: bool, parts: seq<string>)
    requires Shaped(s) && !t.activity.Hidden? && (final ==> t.activity.Full?)
    requires |parts| == |Tail(s.order)| && Lines(s, Tail(s.order)) == Joined(parts)
    ensures Render(t, s, final) == TrimSpace(Below(s.body, parts))
  {
    hide TrimSpace, Lines, Joined;
    assert s.body + "" == s.body;
    assert s.body + ("\n" + Joined(parts)) == s.body + "\n" + Joined(parts);
    assert s.body == "" ==> s.body + ("" + Joined(parts)) == Joined(parts);
  }

  /** All space is taken off both ends, and nothing else. */
  predicate Trimmed(text: string, r: string) {
    && (r != "" ==> !IsSpace(r[0]) && !IsSpace(r[|r| - 1]))
    && exists i, j :: 0 <= i <= j <= |text| && text[i..j] == r && Blank(text[..i]) && Blank(text[j..])
  }

  predicate Blank(text: string) {
    forall k | 0 <= k < |text| :: IsSpace(text[k])
  }

  lemma {:induction false} TrimLeftIs(s: string) returns (i: nat)
    ensures i <= |s| && TrimLeft(s) == s[i..] && Blank(s[..i]) && (i < |s| ==> !IsSpace(s[i]))
  {
    hide IsSpace;
    i := 0;
    if s != "" && IsSpace(s[0]) {
      var k := TrimLeftIs(s[1..]);
      i := k + 1;
      assert s[..i] == [s[0]] + s[1..][..k];
    }
  }

  lemma {:induction false} TrimRightIs(s: string) returns (j: nat)
    ensures j <= |s| && TrimRight(s) == s[..j] && Blank(s[j..]) && (j > 0 ==> !IsSpace(s[j - 1]))
  {
    hide IsSpace;
    j := |s|;
    if s != "" && IsSpace(s[|s| - 1]) {
      j := TrimRightIs(s[..|s| - 1]);
      assert s[j..] == s[..|s| - 1][j..] + [s[|s| - 1]];
    }
  }

  lemma TrimIs(text: string)
    ensures Trimmed(text, TrimSpace(text))
  {
    hide IsSpace, TrimLeft, TrimRight;
    var i := TrimLeftIs(text);
    var j := TrimRightIs(text[i..]);
    assert text[i..][..j] == text[i..i + j] && text[i..][j..] == text[i + j..];
    assert text[i..i + j] == TrimSpace(text);
    if j > 0 {
      assert text[i..i + j][0] == text[i] && text[i..i + j][j - 1] == text[i..][j - 1];
    }
  }

  /** Only spaces are trimmed to nothing. */
  lemma TrimmedAway(text: string)
    requires TrimSpace(text) == ""
    ensures Blank(text)
  {
    hide IsSpace, TrimSpace;
    TrimIs(text);
    var i, j :| 0 <= i <= j <= |text| && text[i..j] == "" && Blank(text[..i]) && Blank(text[j..]);
    forall k | 0 <= k < |text|
      ensures IsSpace(text[k])
    {
      assert text[k] == if k < i then text[..i][k] else text[j..][k - j];
    }
  }

  lemma {:induction false} LinesShow(s: State, order: seq<string>)
    requires (forall id | id in order :: id in s.steps) && order != []
    ensures exists k :: 0 <= k < |Lines(s, order)| && Lines(s, order)[k] == '_'
  {
    hide ActivityLine;
    var text := Lines(s, order);
    assert text[|text| - 1] == '_';
  }

  /** There is something to show as soon as there is a step, unless activity is hidden. */
  lemma RenderShows(t: Turn, s: State)
    requires Shaped(s) && s.body == ""
    ensures Render(t, s, false) != "" <==> s.order != [] && !t.activity.Hidden?
  {
    hide IsSpace, TrimSpace, Lines;
    if s.order != [] && !t.activity.Hidden? {
      LinesShow(s, Tail(s.order));
      var text := Lines(s, Tail(s.order));
      var k :| 0 <= k < |text| && text[k] == '_';
      Underscore();
      assert s.body + ("" + text) == text;
      if TrimSpace(text) == "" {
        TrimmedAway(text);
      }
    } else {
      TrimIs("");
      assert s.body + "" == "";
    }
  }

  lemma Underscore()
    ensures !IsSpace('_')
  {
  }

  // ------------------------------------------------------------------
  // One tick
  // ------------------------------------------------------------------

  /** The call that carries the turn's state as it is, to the stream that is open or to
      the message that was posted. */
  predicate Delivers(t: Turn, s: State, s': State)
    requires Shaped(s)
  {
    && |s'.log| > |s.log| && s.log <= s'.log
    && var c := s'.log[|s'.log| - 1];
       && c.ok == t.accepts(|s'.log| - 1) && s'.dirty == !c.ok && (c.ok ==> s'.changed == {})
       && (c.Append? || c.Post? || c.Edit?)
       && (c.Append? ==> c.ok && Shown(s'.log) == s.steps)
       && (c.Post? || c.Edit? ==> s'.fellBack && c.text == Render(t, s, false))
       && (c.Edit? <==> s.fellBack && s.posted) && (c.Edit? ==> c.ref == s.ref)
  }

  lemma SomeChanged(s: State)
    requires Shaped(s) && Filed(s)
    ensures Take(s).steps == [] <==> s.changed == {}
  {
    var at := UpdateCarries(s);
    hide ChangedSteps;
    if s.changed != {} {
      var id :| id in s.changed;
      var i :| 0 <= i < |s.order| && s.order[i] == id;
      assert i in at;
    }
    if at != [] {
      assert at[0] in at;
    }
  }

  lemma EditDelivers(t: Turn, s: State, s1: State)
    requires Shaped(s) && Shaped(s1) && Render(t, s, false) != "" && s.log <= s1.log && s1.fellBack
    requires s1.body == s.body && s1.order == s.order && s1.steps == s.steps && s1.posted == (s.fellBack && s.posted)
    requires s1.posted ==> s1.ref == s.ref
    ensures Delivers(t, s, PushEdit(t, s1, false))
  {
    RenderSame(t, s, s1);
    hide Render, Shown;
  }

  lemma RenderSame(t: Turn, s: State, s1: State)
    requires Shaped(s) && Shaped(s1) && s1.body == s.body && s1.order == s.order && s1.steps == s.steps
    ensures Render(t, s1, false) == Render(t, s, false)
  {
    hide TrimSpace, ActivityLine;
    LinesSame(s, s1, Tail(s.order));
  }

  lemma {:induction false} LinesSame(s: State, s1: State, order: seq<string>)
    requires (forall id | id in order :: id in s.steps) && s1.steps == s.steps
    ensures Lines(s1, order) == Lines(s, order)
  {
    hide ActivityLine;
    if order != [] {
      LinesSame(s, s1, order[..|order| - 1]);
    }
  }

  /** The stream takes it, or is given up and everything is posted anew. */
  lemma NativeDelivers(t: Turn, s: State, s1: State)
    requires Good(s) && Shaped(s) && Good(s1) && Shaped(s1) && s1.native.Some? && s1.changed != {} && Render(t, s, false) != ""
    requires !s.fellBack && s.log <= s1.log && s1.body == s.body && s1.order == s.order && s1.steps == s.steps
    ensures var (s2, done) := PushNative(t, s1, false); Shaped(s2) && Delivers(t, s, if done then s2 else PushEdit(t, s2, false))
  {
    assert Filed(s1) by { hide Proper, Streamed, InStep; }
    SomeChanged(s1);
    hide Good, Take, PushEdit, PushNative, Delivers, Shown, Render;
    IncrementMade(t, s1);
    var (s2, done) := PushNative(t, s1, false);
    if done {
      assert Delivers(t, s, s2) by { IncrementDelivers(t, s, s1, s2); }
    } else {
      EditDelivers(t, s, s2);
    }
  }

  lemma IncrementDelivers(t: Turn, s: State, s1: State, s2: State)
    requires Shaped(s) && !s.fellBack && s.log <= s1.log && |s2.log| == |s1.log| + 1 && s1.log <= s2.log
    requires var c := s2.log[|s1.log|]; c.Append? && c.ok && t.accepts(|s1.log|)
    requires Shown(s2.log) == s.steps && !s2.dirty && s2.changed == {}
    ensures Delivers(t, s, s2)
  {
    hide Shown, Render;
  }

  lemma IncrementMade(t: Turn, s: State)
    requires Good(s) && Shaped(s) && s.native.Some? && Take(s).steps != []
    ensures var (s', done) := PushNative(t, s, false);
            && Shaped(s') && done == t.accepts(|s.log|) && s'.log == s.log + [Append(0, Take(s), done)]
            && s'.body == s.body && s'.order == s.order && s'.steps == s.steps
            && (done ==> Shown(s'.log) == s.steps && !s'.dirty && s'.changed == {})
            && (!done ==> s'.fellBack && !s'.posted)
  {
    assert s.native.value == 0 by { hide Proper, Streamed, InStep, Filed; }
    var c := Append(0, Take(s), t.accepts(|s.log|));
    if c.ok {
      Accepted(s, c);
      ShowsAll(s.(log := s.log + [c], changed := {}));
    }
    hide Good, Shown, Streamed, Proper, Take, InStep;
  }

  /** A tick that finds the surface, and something new to show on it, makes the call that
      shows it: an increment of the open stream, after which the surface shows every step
      as it is; or, once streaming is given up, a post or an edit with the rendering.
      If the call is refused the next tick will try again. */
  lemma TickReaches(t: Turn, s: State)
    requires Good(s) && s.body == "" && s.dirty && s.order != [] && !t.activity.Hidden? && (s.fellBack || s.changed != {})
    ensures Delivers(t, s, Flush(t, s, false, true))
  {
    assert Shaped(s) by { Unfold(s); }
    RenderShows(t, s);
    hide Render, Delivers, PushEdit, PushNative, OpenStream;
    Unfold(s);
    if s.fellBack {
      EditDelivers(t, s, s);
      hide Good;
    } else if s.native.Some? {
      hide Good;
      NativeDelivers(t, s, s);
    } else {
      OpenKeeps(t, s);
      var s1 := OpenStream(t, s);
      Unfold(s1);
      OpenSame(t, s);
      hide Good;
      if s1.native.Some? {
        NativeDelivers(t, s, s1);
      } else {
        EditDelivers(t, s, s1);
      }
    }
  }

  lemma OpenSame(t: Turn, s: State)
    requires Good(s) && s.native.None? && !s.fellBack
    ensures var s1 := OpenStream(t, s);
            && s1.body == s.body && s1.order == s.order && s1.steps == s.steps && s1.changed == s.changed
            && s.log <= s1.log && (s1.native.None? ==> !s1.posted)
  {
    hide Proper, InStep, Filed, Streamed;
  }

  // ------------------------------------------------------------------
  // Ticks over whole turns
  // ------------------------------------------------------------------

  /** What has changed will be sent. */
  predicate Due(s: State) {
    !s.fellBack && s.changed != {} ==> s.dirty
  }

  /** Hearing touches neither the surface nor what is known of it. */
  predicate Untold(s: State, s': State) {
    s'.native == s.native && s'.fellBack == s.fellBack && s'.posted == s.posted && s'.ref == s.ref && s'.log == s.log
    && s'.closed == s.closed && s'.body == s.body && s.order <= s'.order
  }

  lemma SynthesizeDue(t: Turn, s: State, prefix: string, text: string)
    requires Shaped(s)
    ensures Synthesize(t, s, prefix, text).dirty && Untold(s, Synthesize(t, s, prefix, text))
  {
    hide Decimal;
  }

  lemma DemoteDue(t: Turn, s: State)
    requires Shaped(s) && Due(s)
    ensures Due(Demote(t, s)) && Untold(s, Demote(t, s))
  {
    SynthesizeDue(t, s.(pending := ""), "prose-", TrimSpace(s.pending));
    hide TrimSpace, Synthesize;
  }

  lemma HearDue(t: Turn, s: State, ev: Event)
    requires Shaped(s) && Due(s)
    ensures Due(Hear(t, s, ev)) && (Hear(t, s, ev).dirty || Hear(t, s, ev) == s)
    ensures Untold(s, Hear(t, s, ev)) && (t.activity.Hidden? ==> Hear(t, s, ev).order == s.order)
  {
    DemoteDue(t, s);
    if ev.Thought? {
      SynthesizeDue(t, Demote(t, s), "thought-", TrimSpace(ev.text));
    }
    hide TrimSpace, Demote, Synthesize;
  }

  lemma NativeDue(t: Turn, s: State)
    requires Shaped(s) && Filed(s) && s.native.Some?
    ensures var (s', done) := PushNative(t, s, false); if done then s'.changed == {} else s'.fellBack
  {
    SomeChanged(s);
    hide Take, Filed;
  }

  lemma EditDue(t: Turn, s: State)
    requires Shaped(s) && s.fellBack
    ensures PushEdit(t, s, false).fellBack
  {
    hide Render;
  }

  lemma TickDue(t: Turn, s: State, here: bool)
    requires Good(s) && Due(s)
    ensures Due(Flush(t, s, false, here))
  {
    assert Shaped(s) && Filed(s) by { hide Proper, Staged; }
    Unfold(s);
    hide PushEdit, PushNative, OpenStream;
    if s.fellBack {
      EditDue(t, s);
      hide Good;
    } else if s.native.Some? {
      NativeDue(t, s);
      hide Good;
      EditAfter(t, PushNative(t, s, false).0);
    } else {
      OpenKeeps(t, s);
      var s1 := OpenStream(t, s);
      Unfold(s1);
      assert Filed(s1) by { hide Proper, Staged; }
      hide Good;
      EditAfter(t, s1);
      if s1.native.Some? {
        NativeDue(t, s1);
        EditAfter(t, PushNative(t, s1, false).0);
      }
    }
  }

  lemma EditAfter(t: Turn, s: State)
    requires Shaped(s)
    ensures s.fellBack ==> PushEdit(t, s, false).fellBack
  {
    if s.fellBack {
      EditDue(t, s);
    }
  }

  lemma {:induction false} PlayDue(t: Turn, ops: seq<Op>)
    ensures Due(Play(t, ops)) && (t.activity.Hidden? ==> Play(t, ops).order == [])
    decreases |ops|
  {
    hide Hear, Flush, Due;
    if ops == [] {
      assert Due(NEW) by { NewIsDue(); }
    } else {
      var s := Play(t, ops[..|ops| - 1]);
      PlayDue(t, ops[..|ops| - 1]);
      PlayKeeps(t, ops[..|ops| - 1]);
      match ops[|ops| - 1]
      case Heard(ev) => HearDue(t, s, ev);
      case Tick(here) =>
        TickDue(t, s, here);
        TickStory(t, s, here);
    }
  }

  lemma NewIsDue()
    ensures Due(NEW)
  {
  }

  lemma PlayTick(t: Turn, ops: seq<Op>)
    ensures Play(t, ops + [Tick(true)]) == Flush(t, Play(t, ops), false, true)
  {
    hide Flush;
    assert (ops + [Tick(true)])[..|ops|] == ops;
  }

  lemma HasSteps(s: State)
    requires Shaped(s)
    ensures s.order != [] ==> s.steps != map[]
  {
    if s.order != [] {
      assert s.order[0] in s.steps;
    }
  }

  lemma NothingNew(t: Turn, s: State)
    requires Good(s) && s.body == "" && !s.fellBack && s.changed == {}
    ensures Shown(Flush(t, s, false, true).log) == s.steps
  {
    if s.native.Some? {
      assert InStep(s) && Shaped(s) && Filed(s) by { hide Proper; }
      ShowsAll(s);
      SomeChanged(s);
      hide Good, Shown, PushEdit, ChangedSteps;
    } else {
      assert s.log == [] && s.steps == map[] && Shaped(s) by { hide Proper; }
      HasSteps(s);
      hide Good, PushEdit, PushNative, OpenStream;
    }
  }

  /** When a streaming surface accepts every call, then after every tick that finds it the
      surface shows the turn's steps as they are. */
  lemma TickShows(t: Turn, ops: seq<Op>)
    requires t.streams && forall k :: t.accepts(k)
    ensures Shown(Play(t, ops + [Tick(true)]).log) == Story(t, StreamTheorems.Heard(ops)).steps
  {
    var s := Play(t, ops);
    PlayTick(t, ops);
    PlayKeeps(t, ops);
    PlayDue(t, ops);
    PlayStory(t, ops);
    hide Play, Flush, Shown, Story;
    if s.changed == {} {
      NothingNew(t, s);
    } else {
      assert s.order != [] by {
        var id :| id in s.changed;
        assert id in s.order by { hide Proper, Staged; }
      }
      hide Good;
      TickReaches(t, s);
      TickKeeps(t, s, true);
    }
  }

  /** The text on a surface that edits one message. */
  function Displayed(log: seq<Call>): string {
    if log == [] then "" else
    var c := log[|log| - 1];
    if (c.Post? || c.Edit?) && c.ok then c.text else Displayed(log[..|log| - 1])
  }

  /** One message, posted once and then edited. */
  predicate OneMessage(log: seq<Call>) {
    && (|log| > 0 ==> log[0].Post?)
    && forall i | 1 <= i < |log| :: log[i].Edit? && log[i].ref == 0
  }

  predicate Plain(t: Turn, s: State) {
    && Shaped(s) && s.body == "" && !s.closed && s.native.None?
    && (s.order == [] || t.activity.Hidden? ==> s.log == [])
    && (s.dirty || s.order == [] || Displayed(s.log) == Render(t, s, false))
    && (s.fellBack || s.log == [])
    && (s.posted <==> s.log != []) && (s.posted ==> s.ref == 0) && OneMessage(s.log)
  }

  lemma EditPlain(t: Turn, s: State)
    requires Plain(t, s) && s.fellBack && t.accepts(|s.log|)
    ensures Plain(t, PushEdit(t, s, false)) && !PushEdit(t, s, false).dirty
  {
    RenderShows(t, s);
    hide Render;
    var s' := PushEdit(t, s, false);
    RenderSame(t, s, s');
    var c := if s.posted then Edit(s.ref, Render(t, s, false), true) else Post(Render(t, s, false), true);
    DisplaysNext(s.log, c);
    hide Displayed;
  }

  lemma DisplaysNext(log: seq<Call>, c: Call)
    requires (c.Post? || c.Edit?) && c.ok
    ensures Displayed(log + [c]) == c.text
  {
  }

  lemma TickPlain(t: Turn, s: State, here: bool)
    requires Plain(t, s) && !t.streams && forall k :: t.accepts(k)
    ensures var s' := Flush(t, s, false, here); Plain(t, s') && (here ==> !s'.dirty || s'.order == [])
  {
    var s1 := OpenStream(t, s);
    RenderSame(t, s, s1);
    hide Render, PushEdit;
    if s.fellBack {
      EditPlain(t, s);
    } else {
      EditPlain(t, s1);
    }
  }

  lemma HearPlain(t: Turn, s: State, ev: Event)
    requires Plain(t, s) && Due(s)
    ensures Plain(t, Hear(t, s, ev))
  {
    HearDue(t, s, ev);
    hide Hear, Render;
  }

  lemma {:induction false} PlayPlain(t: Turn, ops: seq<Op>)
    requires !t.streams && forall k :: t.accepts(k)
    ensures Plain(t, Play(t, ops))
    decreases |ops|
  {
    hide Hear, Flush, Plain;
    if ops == [] {
      assert Plain(t, NEW) by { NewIsPlain(t); }
    } else {
      var s := Play(t, ops[..|ops| - 1]);
      PlayPlain(t, ops[..|ops| - 1]);
      PlayDue(t, ops[..|ops| - 1]);
      match ops[|ops| - 1]
      case Heard(ev) => HearPlain(t, s, ev);
      case Tick(here) => TickPlain(t, s, here);
    }
  }

  lemma NewIsPlain(t: Turn)
    ensures Plain(t, NEW)
  {
    hide Render;
  }

  /** When a surface that cannot stream accepts every call, then after every tick that
      finds it, it shows the rendering of the turn as it is, in one message that was posted
      once and edited since. */
  lemma TickDisplays(t: Turn, ops: seq<Op>)
    requires !t.streams && forall k :: t.accepts(k)
    ensures var log := Play(t, ops + [Tick(true)]).log;
            Displayed(log) == Render(t, Story(t, StreamTheorems.Heard(ops)), false) && OneMessage(log)
  {
    var s := Play(t, ops);
    PlayTick(t, ops);
    PlayPlain(t, ops);
    TickPlain(t, s, true);
    TickStory(t, s, true);
    PlayStory(t, ops);
    var s' := Flush(t, s, false, true);
    StoryBody(t, StreamTheorems.Heard(ops));
    RenderShows(t, s');
    RenderSame(t, s', Story(t, StreamTheorems.Heard(ops)));
    hide Play, Flush, Render, Story;
  }

  lemma {:induction false} StoryBody(t: Turn, evs: seq<Event>)
    ensures Story(t, evs).body == ""
  {
    hide Hear;
    if evs != [] {
      StoryBody(t, evs[..|evs| - 1]);
      HearBody(t, Story(t, evs[..|evs| - 1]), evs[|evs| - 1]);
    }
  }
}
