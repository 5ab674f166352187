/** The output stream as the gateway runs it: in place, one step at a time. */
module GatewayStream {
  import opened Wrappers
  import opened Stream

  class Output {
    ghost const turn: Turn
    const activity: Activity
    const streams: bool
    const split: string -> (string, string)
    const accepts: nat -> bool

    var body: string
    var sent: nat
    var pending: string
    var synth: nat
    var order: seq<string>
    var steps: map<string, Step>
    var changed: set<string>
    var native: Option<nat>
    var fellBack: bool
    var posted: bool
    var ref: nat
    var dirty: bool
    var closed: bool
    var log: seq<Call>

    constructor (t: Turn)
      ensures turn == t && Abs() == NEW && Valid()
    {
      turn, activity, streams, split, accepts := t, t.activity, t.streams, t.split, t.accepts;
      body, sent, pending, synth := "", 0, "", 0;
      order, steps, changed := [], map[], {};
      native, fellBack, posted, ref := None, false, false, 0;
      dirty, closed, log := false, false, [];
    }

    ghost function Abs(): State
      reads this
    {
      State(body, sent, pending, synth, order, steps, changed, native, fellBack, posted, ref, dirty, closed, log)
    }

    ghost predicate Valid()
      reads this
    {
      turn == Turn(activity, streams, split, accepts) && Shaped(Abs())
    }

    method AppendText(text: string)
      requires Valid()
      modifies this
      ensures Valid() && Abs() == Hear(turn, old(Abs()), Text(text))
    {
      if text == "" {
        return;
      }
      pending := pending + text;
      dirty := true;
    }

    method Synthetic(prefix: string, text: string)
      requires Valid()
      modifies this
      ensures Valid() && Abs() == Synthesize(turn, old(Abs()), prefix, text)
    {
      hide Decimal;
      synth := synth + 1;
      var id := prefix + Decimal(synth);
      var (title, detail) := split(text);
      FileStep(id, Step(id, title, detail, Finished, "", 0), true);
    }

    method DemoteLocked()
      requires Valid()
      modifies this
      ensures Valid() && Abs() == Demote(turn, old(Abs()))
    {
      hide Synthesize, TrimSpace;
      var text := TrimSpace(pending);
      pending := "";
      if text == "" {
        return;
      }
      Synthetic("prose-", text);
    }

    method Think(text: string)
      requires Valid()
      modifies this
      ensures Valid() && Abs() == Hear(turn, old(Abs()), Thought(text))
    {
      hide Demote, Synthesize, TrimSpace;
      if activity.Hidden? {
        return;
      }
      var trimmed := TrimSpace(text);
      if trimmed == "" {
        return;
      }
      DemoteLocked();
      Synthetic("thought-", trimmed);
    }

    /** Files a step under its id and marks it for the next flush. */
    method FileStep(id: string, step: Step, anew: bool)
      requires Valid()
      modifies this
      ensures Valid() && Abs() == Record(old(Abs()), id, step, anew)
    {
      if anew {
        order := order + [id];
      }
      steps := steps[id := step];
      changed := changed + {id};
      dirty := true;
    }

    method Begin(id: string, title: string, detail: string)
      requires Valid()
      modifies this
      ensures Valid() && Abs() == Hear(turn, old(Abs()), StartStep(id, title, detail))
    {
      hide Demote, Record;
      if activity.Hidden? || id == "" {
        return;
      }
      DemoteLocked();
      FileStep(id, Step(id, title, detail, Running, "", 0), id !in steps);
    }

    method End(id: string, ok: bool, error: string, elapsed: int)
      requires Valid()
      modifies this
      ensures Valid() && Abs() == Hear(turn, old(Abs()), EndStep(id, ok, error, elapsed))
    {
      hide Record;
      if activity.Hidden? || id == "" {
        return;
      }
      var step := if id in steps then steps[id] else Step(id, "tool", "", Running, "", 0);
      if ok {
        step := step.(status := Finished);
      } else {
        step := step.(status := Failed, output := error);
      }
      FileStep(id, step.(elapsed := elapsed), id !in steps);
    }

    method Note(id: string, title: string, failed: bool)
      requires Valid()
      modifies this
      ensures Valid() && Abs() == Hear(turn, old(Abs()), NoteStep(id, title, failed))
    {
      hide Demote, Record;
      if activity.Hidden? {
        return;
      }
      DemoteLocked();
      var status := Finished;
      if failed {
        status := Failed;
      }
      FileStep(id, Step(id, title, "", status, "", 0), id !in steps);
    }

    method Collect() returns (u: Update)
      requires Valid()
      ensures u == Take(Abs())
    {
      var taken: seq<Step> := [];
      for i := 0 to |order|
        invariant taken == ChangedSteps(Abs(), order[..i])
      {
        assert order[..i + 1][..i] == order[..i];
        if order[i] in changed {
          taken := taken + [steps[order[i]]];
        }
      }
      assert order[..|order|] == order;
      u := Update(body[sent..], taken);
    }

    method ListLines(lines: seq<string>, above: string) returns (text: string)
      requires Valid() && forall id | id in lines :: id in steps
      ensures text == above + Lines(Abs(), lines)
    {
      hide ActivityLine;
      text := above;
      for i := 0 to |lines|
        invariant text == above + Lines(Abs(), lines[..i])
      {
        assert lines[..i + 1][..i] == lines[..i];
        text := text + "\n_";
        text := text + ActivityLine(steps[lines[i]]);
        text := text + "_";
      }
      assert lines[..|lines|] == lines;
    }

    method Compose(final: bool) returns (text: string)
      requires Valid()
      ensures text == Render(turn, Abs(), final)
    {
      hide TrimSpace, Lines;
      text := body;
      var showActivity := !final || activity.Full?;
      if |order| > 0 && showActivity && !activity.Hidden? {
        if |text| > 0 {
          text := text + "\n";
        }
        var lines := order;
        if |lines| > 12 {
          lines := lines[|lines| - 12..];
        }
        text := ListLines(lines, text);
        assert text == body + ((if body != "" then "\n" else "") + Lines(Abs(), lines));
      } else {
        assert body + "" == body;
      }
      text := TrimSpace(text);
    }

    method OpenNative()
      requires Valid()
      modifies this
      ensures Valid() && Abs() == OpenStream(turn, old(Abs()))
    {
      if !streams {
        fellBack := true;
        return;
      }
      var ok := accepts(|log|);
      log := log + [Open(ok)];
      if !ok {
        fellBack := true;
        return;
      }
      native, ref, posted := Some(|log| - 1), |log| - 1, true;
    }

    /** Records a call that was made of the surface. */
    method Called(c: Call)
      modifies this`log, this`dirty
      ensures Abs() == old(Abs()).(log := old(log) + [c], dirty := !c.ok)
    {
      log := log + [c];
      dirty := !c.ok;
    }

    method Push(final: bool) returns (done: bool)
      requires Valid() && native.Some?
      modifies this
      ensures Valid() && (Abs(), done) == PushNative(turn, old(Abs()), final)
    {
      hide Take, ChangedSteps, PushNative;
      PushCases(turn, Abs(), final);
      var u := Collect();
      if !final && u.text == "" && |u.steps| == 0 {
        dirty := false;
        return true;
      }
      var ok := accepts(|log|);
      done := Settle(if final then Finish(native.value, u, ok) else Append(native.value, u, ok));
      hide Abs;
    }

    /** Commits what was sent, or gives the stream up. */
    method Settle(c: Call) returns (done: bool)
      modifies this`log, this`dirty, this`sent, this`changed, this`fellBack, this`native, this`posted, this`ref
      ensures done == c.ok
      ensures var tried := old(Abs()).(log := old(log) + [c], dirty := !c.ok);
              Abs() == if done then tried.(sent := |old(body)|, changed := {})
                       else tried.(fellBack := true, native := None, posted := false, ref := 0, sent := 0)
    {
      Called(c);
      if !c.ok {
        GiveUpStream();
        return false;
      }
      MarkSent();
      return true;
    }

    method MarkSent()
      modifies this`sent, this`changed
      ensures Abs() == Commit(old(Abs()))
    {
      sent, changed := |body|, {};
    }

    /** A stream that refused once is left where it is. */
    method GiveUpStream()
      modifies this`dirty, this`fellBack, this`native, this`posted, this`ref, this`sent
      ensures Abs() == old(Abs()).(dirty := true, fellBack := true, native := None, posted := false, ref := 0, sent := 0)
    {
      dirty, fellBack, native := true, true, None;
      posted, ref, sent := false, 0, 0;
    }

    method Posted(n: nat)
      modifies this`posted, this`ref
      ensures Abs() == old(Abs()).(posted := true, ref := n)
    {
      posted, ref := true, n;
    }

    method PushPost(final: bool)
      requires Valid()
      modifies this
      ensures Valid() && Abs() == PushEdit(turn, old(Abs()), final)
    {
      hide Render, PushEdit;
      EditCases(turn, Abs(), final);
      var text := Compose(final);
      if text == "" {
        dirty := false;
        return;
      }
      var ok, n, first := accepts(|log|), |log|, !posted;
      Called(if first then Post(text, ok) else Edit(ref, text, ok));
      hide Abs;
      if !ok {
        return;
      }
      if first {
        Posted(n);
      }
      MarkSent();
    }

    method FlushWith(final: bool, here: bool)
      requires Valid()
      modifies this
      ensures Valid() && Abs() == Flush(turn, old(Abs()), final, here)
    {
      hide PushNative, PushEdit, OpenStream;
      if (!dirty && !final) || closed {
        return;
      }
      if final {
        body := body + pending;
        pending := "";
      }
      var nothingToSend := |body| <= sent && |order| == 0;
      if native.None? && nothingToSend {
        return;
      }
      if !here {
        return;
      }
      if !fellBack {
        if native.None? {
          OpenNative();
        }
        if native.Some? {
          var done := Push(final);
          if done {
            return;
          }
        }
      }
      PushPost(final);
    }

    /** The ticker has stopped when the last flush starts. */
    method Close(here: bool)
      requires Valid()
      modifies this
      ensures Valid() && Abs() == Shut(turn, old(Abs()), here)
    {
      hide Flush;
      if closed {
        return;
      }
      FlushWith(true, here);
      closed := true;
    }
  }

  lemma EditCases(t: Turn, s: State, final: bool)
    requires Shaped(s)
    ensures var text, ok := Render(t, s, final), t.accepts(|s.log|);
            var tried := s.(log := s.log + [if s.posted then Edit(s.ref, text, ok) else Post(text, ok)], dirty := !ok);
            PushEdit(t, s, final) ==
              if text == "" then s.(dirty := false)
              else if !ok then tried
              else tried.(posted := true, ref := if s.posted then s.ref else |s.log|, sent := |s.body|, changed := {})
  {
    hide Render;
  }

  lemma PushCases(t: Turn, s: State, final: bool)
    requires Shaped(s) && s.native.Some?
    ensures var u, ok := Take(s), t.accepts(|s.log|);
            var tried := s.(log := s.log + [if final then Finish(s.native.value, u, ok) else Append(s.native.value, u, ok)]);
            PushNative(t, s, final) ==
              if !final && u.text == "" && u.steps == [] then (s.(dirty := false), true)
              else if ok then (tried.(dirty := false, sent := |s.body|, changed := {}), true)
              else (tried.(dirty := true, fellBack := true, native := None, posted := false, ref := 0, sent := 0), false)
  {
    hide Take;
  }
}
