/**
 A turn's output: events build up prose and steps, flushes send them to a surface
 that may fail at any call, natively as deltas or as one message edited in place.
 */
module Stream {
  import opened Wrappers

  datatype Activity = Hidden | Transient | Full

  datatype Status = Running | Finished | Failed

  datatype Step = Step(id: string, title: string, detail: string, status: Status, output: string, elapsed: int)

  datatype Event =
    | Text(text: string)
    | Thought(text: string)
    | StartStep(id: string, title: string, detail: string)
    | EndStep(id: string, ok: bool, error: string, elapsed: int)
    | NoteStep(id: string, title: string, failed: bool)

  datatype Update = Update(text: string, steps: seq<Step>)

  /** The calls made to the surface; a message is named after the call that made it. */
  datatype Call =
    | Open(ok: bool)
    | Append(stream: nat, update: Update, ok: bool)
    | Finish(stream: nat, update: Update, ok: bool)
    | Post(text: string, ok: bool)
    | Edit(ref: nat, text: string, ok: bool)

  /** What does not change during a turn: the display mode, whether the surface
      streams, how free text becomes title and detail, and the fate of each call. */
  datatype Turn = Turn(activity: Activity, streams: bool, split: string -> (string, string), accepts: nat -> bool)

  datatype State = State(
    body: string,
    sent: nat,
    pending: string,
    synth: nat,
    order: seq<string>,
    steps: map<string, Step>,
    changed: set<string>,
    native: Option<nat>,
    fellBack: bool,
    posted: bool,
    ref: nat,
    dirty: bool,
    closed: bool,
    log: seq<Call>)

  const NEW := State("", 0, "", 0, [], map[], {}, None, false, false, 0, false, false, [])

  // ------------------------------------------------------------------
  // Text
  // ------------------------------------------------------------------

  predicate IsSpace(c: char) {
    c in " \t\n\r" || c as int in {0x0b, 0x0c, 0x85, 0xa0, 0x1680, 0x2028, 0x2029, 0x202f, 0x205f, 0x3000}
    || 0x2000 <= c as int <= 0x200a
  }

  function TrimLeft(s: string): string {
    if s != "" && IsSpace(s[0]) then TrimLeft(s[1..]) else s
  }

  function TrimRight(s: string): string {
    if s != "" && IsSpace(s[|s| - 1]) then TrimRight(s[..|s| - 1]) else s
  }

  function TrimSpace(s: string): string {
    TrimRight(TrimLeft(s))
  }

  function Decimal(n: nat): string {
    (if n < 10 then "" else Decimal(n / 10)) + ["0123456789"[n % 10]]
  }

  // ------------------------------------------------------------------
  // Events
  // ------------------------------------------------------------------

  predicate Shaped(s: State) {
    s.sent <= |s.body| && forall id | id in s.order :: id in s.steps
  }

  function Record(s: State, id: string, step: Step, anew: bool): (r: State)
    requires Shaped(s)
    ensures Shaped(r)
  {
    s.(order := if anew then s.order + [id] else s.order,
       steps := s.steps[id := step], changed := s.changed + {id}, dirty := true)
  }

  /** A step the gateway makes itself, from a thought or from narration. */
  function Synthesize(t: Turn, s: State, prefix: string, text: string): (r: State)
    requires Shaped(s)
    ensures Shaped(r)
  {
    var (title, detail) := t.split(text);
    var id := prefix + Decimal(s.synth + 1);
    Record(s, id, Step(id, title, detail, Finished, "", 0), true).(synth := s.synth + 1)
  }

  function Demote(t: Turn, s: State): (r: State)
    requires Shaped(s)
    ensures Shaped(r)
  {
    var text := TrimSpace(s.pending);
    var s1 := s.(pending := "");
    if text == "" then s1 else Synthesize(t, s1, "prose-", text)
  }

  function Hear(t: Turn, s: State, ev: Event): (r: State)
    requires Shaped(s)
    ensures Shaped(r)
  {
    match ev
    case Text(text) => if text == "" then s else s.(pending := s.pending + text, dirty := true)
    case Thought(text) =>
      if t.activity.Hidden? || TrimSpace(text) == "" then s
      else Synthesize(t, Demote(t, s), "thought-", TrimSpace(text))
    case StartStep(id, title, detail) =>
      if t.activity.Hidden? || id == "" then s else
      var s1 := Demote(t, s);
      Record(s1, id, Step(id, title, detail, Running, "", 0), id !in s1.steps)
    case EndStep(id, ok, error, elapsed) =>
      if t.activity.Hidden? || id == "" then s else
      var was := if id in s.steps then s.steps[id] else Step(id, "tool", "", Running, "", 0);
      Record(s, id, was.(status := if ok then Finished else Failed,
                         output := if ok then was.output else error, elapsed := elapsed), id !in s.steps)
    case NoteStep(id, title, failed) =>
      if t.activity.Hidden? then s else
      var s1 := Demote(t, s);
      Record(s1, id, Step(id, title, "", if failed then Failed else Finished, "", 0), id !in s1.steps)
  }

  // ------------------------------------------------------------------
  // Flushes
  // ------------------------------------------------------------------

  function ChangedSteps(s: State, order: seq<string>): (u: seq<Step>)
    requires forall id | id in order :: id in s.steps
  {
    if order == [] then []
    else
      var id := order[|order| - 1];
      ChangedSteps(s, order[..|order| - 1]) + if id in s.changed then [s.steps[id]] else []
  }

  function Take(s: State): Update
    requires Shaped(s)
  {
    Update(s.body[s.sent..], ChangedSteps(s, s.order))
  }

  function Commit(s: State): State {
    s.(sent := |s.body|, changed := {})
  }

  function ActivityLine(step: Step): string {
    var line := step.title + if step.detail != "" then ": " + step.detail else "";
    if step.status != Failed then line
    else "failed — " + line + if step.output != "" then " (" + step.output + ")" else ""
  }

  function Lines(s: State, order: seq<string>): string
    requires forall id | id in order :: id in s.steps
  {
    if order == [] then ""
    else Lines(s, order[..|order| - 1]) + "\n_" + ActivityLine(s.steps[order[|order| - 1]]) + "_"
  }

  function Tail(order: seq<string>): (last: seq<string>)
    ensures forall id | id in last :: id in order
  {
    if |order| > 12 then order[|order| - 12..] else order
  }

  function Render(t: Turn, s: State, final: bool): string
    requires Shaped(s)
  {
    TrimSpace(s.body + if s.order != [] && (!final || t.activity.Full?) && !t.activity.Hidden?
                       then (if s.body != "" then "\n" else "") + Lines(s, Tail(s.order))
                       else "")
  }

  function OpenStream(t: Turn, s: State): State {
    if !t.streams then s.(fellBack := true)
    else
      var ok := t.accepts(|s.log|);
      var s1 := s.(log := s.log + [Open(ok)]);
      if ok then s1.(native := Some(|s.log|), ref := |s.log|, posted := true) else s1.(fellBack := true)
  }

  /** The flag says that the increment was accepted, or that there was none. */
  function PushNative(t: Turn, s: State, final: bool): (r: (State, bool))
    requires Shaped(s) && s.native.Some?
    ensures Shaped(r.0)
  {
    var u := Take(s);
    var s1 := s.(dirty := false);
    if !final && u.text == "" && u.steps == [] then (s1, true) else
    var ok := t.accepts(|s.log|);
    var call := if final then Finish(s.native.value, u, ok) else Append(s.native.value, u, ok);
    var s2 := s1.(log := s.log + [call]);
    if ok then (Commit(s2), true)
    else (s2.(dirty := true, fellBack := true, native := None, posted := false, ref := 0, sent := 0), false)
  }

  function PushEdit(t: Turn, s: State, final: bool): (r: State)
    requires Shaped(s)
    ensures Shaped(r)
  {
    var text := Render(t, s, final);
    var s1 := s.(dirty := false);
    if text == "" then s1 else
    var ok := t.accepts(|s.log|);
    var s2 := s1.(log := s.log + [if s.posted then Edit(s.ref, text, ok) else Post(text, ok)]);
    if !ok then s2.(dirty := true)
    else Commit(s2.(posted := true, ref := if s.posted then s.ref else |s.log|))
  }

  /** `here` says that the surface of the turn is found. */
  function Flush(t: Turn, s: State, final: bool, here: bool): (r: State)
    requires Shaped(s)
    ensures Shaped(r)
  {
    if (!s.dirty && !final) || s.closed then s else
    var s1 := if final then s.(body := s.body + s.pending, pending := "") else s;
    if s1.native.None? && |s1.body| <= s1.sent && s1.order == [] then s1
    else if !here then s1
    else if s1.fellBack then PushEdit(t, s1, final)
    else
      var s2 := if s1.native.None? then OpenStream(t, s1) else s1;
      if s2.native.None? then PushEdit(t, s2, final)
      else
        var (s3, done) := PushNative(t, s2, final);
        if done then s3 else PushEdit(t, s3, final)
  }

  function Shut(t: Turn, s: State, here: bool): (r: State)
    requires Shaped(s)
    ensures Shaped(r)
  {
    if s.closed then s else Flush(t, s, true, here).(closed := true)
  }

  /** A turn: events with ticks placed anywhere between them. */
  datatype Op = Heard(event: Event) | Tick(here: bool)

  function Play(t: Turn, ops: seq<Op>): (s: State)
    ensures Shaped(s)
    decreases |ops|
  {
    if ops == [] then NEW
    else
      var s := Play(t, ops[..|ops| - 1]);
      match ops[|ops| - 1]
      case Heard(ev) => Hear(t, s, ev)
      case Tick(here) => Flush(t, s, false, here)
  }
}
