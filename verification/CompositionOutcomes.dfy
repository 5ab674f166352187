/** What becomes of an input: how it gets to the harness, and what its turn ends as. */
module CompositionOutcomes {
  import opened Wrappers
  import opened Scheduler
  import opened SchedulerInvariant
  import opened SchedulerTheorems
  import opened SchedulerSends
  import opened Composition
  import opened CompositionTheorems

  /** Nothing was added to the uplink but one frame. */
  predicate Reported(w: World, w': World, m: Msg, failed: bool) {
    w'.up == w.up + multiset{Frame(m, failed)} && w'.gw == w.gw
  }

  ghost predicate Nowhere(w: World, m: Msg) {
    forall h :: Held(w, Item(m, h)) == 0
  }

  /** The turn is over, and it ended like this. */
  predicate EndedWith(g: State, m: Msg, o: Outcome) {
    m.id !in g.turns && m.id < |g.place| && g.place[m.id] == Gone(o)
  }

  lemma HeldIsLive(w: World, m: Msg, h: Hop)
    requires Safe(w) && Held(w, Item(m, h)) > 0
    ensures Inv(w.gw, {}) && Live(w.gw, m) && Ups(w, m) == 0
  {
    hide Inv, Live, Keyed, Pointed, Sent, Held, Ups;
    assert Item(m, h).msg == m;
  }

  lemma HeldOnce(w: World, m: Msg, h: Hop)
    requires Safe(w) && Held(w, Item(m, h)) > 0
    ensures Keyed(w) && Held(w, Item(m, h)) == 1
    ensures forall k | k != h :: Held(w, Item(m, k)) == 0
  {
    hide Inv, Live, Keyed, Pointed, Sent, Held, Ups;
    assert forall k :: Item(m, k).at == k;
  }

  lemma NowNowhere(w: World, w': World, m: Msg, h: Hop)
    requires Left(w, w', m, h) && forall k | k != h :: Held(w, Item(m, k)) == 0
    ensures Nowhere(w', m)
  {
    hide Held;
    assert forall k :: Item(m, k).at == k;
  }

  /** Whatever else is in flight, delivering the frame ends the turn as it says. */
  lemma DeliveredEnds(w: World, w': World, m: Msg, failed: bool, env: Env)
    requires Inv(w.gw, {}) && Live(w.gw, m) && Reported(w, w', m, failed)
    ensures EndedWith(Step(w', Deliver(Frame(m, failed)), env).gw, m, if failed then RunnerFailed else Completed)
  {
    hide Inv, Live, Apply, Downlinks;
    ReportEnds(w.gw, m, failed, env);
  }

  /** A send that the harness refuses, or that finds no process, reports the turn as
      failed, once, and the gateway then ends it as failed. */
  lemma RefusedSendFails(w: World, m: Msg, accepted: bool, env: Env)
    requires Safe(w) && w.soup[Item(m, Sending)] > 0 && !(accepted && At(w, KeyOf(m)).process.Some?)
    ensures var w' := Step(w, Submit(m, accepted), env);
            && Reported(w, w', m, true) && Nowhere(w', m)
            && EndedWith(Step(w', Deliver(Frame(m, true)), env).gw, m, RunnerFailed)
  {
    assert Held(w, Item(m, Sending)) > 0;
    HeldIsLive(w, m, Sending);
    RefusedSend(w, m, accepted, env);
    FailedSendBreaks(w, m, accepted, env);
    DeliveredEnds(w, Step(w, Submit(m, accepted), env), m, true, env);
    hide Safe, Held, Step, Inv;
  }

  lemma RefusedSend(w: World, m: Msg, accepted: bool, env: Env)
    requires w.soup[Item(m, Sending)] > 0 && !(accepted && At(w, KeyOf(m)).process.Some?)
    ensures Reported(w, Step(w, Submit(m, accepted), env), m, true)
  {
  }

  /** So does a process that cannot be started. */
  lemma NoProcessFails(w: World, m: Msg, env: Env)
    requires Safe(w) && w.soup[Item(m, Fetching)] > 0 && At(w, KeyOf(m)).process.None?
    ensures var w' := Step(w, Fetch(m, false), env);
            && Reported(w, w', m, true) && Nowhere(w', m) && At(w', KeyOf(m)) == At(w, KeyOf(m))
            && EndedWith(Step(w', Deliver(Frame(m, true)), env).gw, m, RunnerFailed)
  {
    assert Held(w, Item(m, Fetching)) > 0;
    hide Safe, Held, Step, Inv, Nowhere, At, Left, Live, Keyed;
    HeldIsLive(w, m, Fetching);
    HeldOnce(w, m, Fetching);
    NoStart(w, m, env);
    NoStartEffect(w, m, env);
    NowNowhere(w, Step(w, Fetch(m, false), env), m, Fetching);
    DeliveredEnds(w, Step(w, Fetch(m, false), env), m, true, env);
  }

  lemma NoStart(w: World, m: Msg, env: Env)
    requires w.soup[Item(m, Fetching)] > 0 && At(w, KeyOf(m)).process.None?
    ensures var w' := Step(w, Fetch(m, false), env); Reported(w, w', m, true) && At(w', KeyOf(m)) == At(w, KeyOf(m))
  {
  }

  /** A terminal event of the process that has the input is reported for its turn, once,
      as what it is, and the gateway ends the turn so. */
  lemma AnswerEnds(w: World, m: Msg, p: nat, failed: bool, env: Env)
    requires Safe(w) && Held(w, Item(m, Given(p))) > 0
    ensures var w' := Step(w, Act.Answer(m, p, failed), env);
            && Reported(w, w', m, failed) && Nowhere(w', m) && !At(w', KeyOf(m)).busy
            && EndedWith(Step(w', Deliver(Frame(m, failed)), env).gw, m, if failed then RunnerFailed else Completed)
  {
    hide Safe, Held, Step, Inv, Told, Nowhere, At, Left, Live, Keyed;
    HeldIsLive(w, m, Given(p));
    HeldOnce(w, m, Given(p));
    RightlyAttributed(w, m, p, failed);
    Answered(w, m, p, failed, env);
    AnswerEffect(w, m, p, failed, env);
    NowNowhere(w, Step(w, Act.Answer(m, p, failed), env), m, Given(p));
    DeliveredEnds(w, Step(w, Act.Answer(m, p, failed), env), m, failed, env);
  }

  lemma Answered(w: World, m: Msg, p: nat, failed: bool, env: Env)
    requires Held(w, Item(m, Given(p))) > 0
    ensures var w' := Step(w, Act.Answer(m, p, failed), env);
            w'.up == w.up + Told(At(w, KeyOf(m)), failed) && w'.gw == w.gw && !At(w', KeyOf(m)).busy
    ensures p in At(w, KeyOf(m)).pumps && m in At(w, KeyOf(m)).pumps[p]
  {
    hide Told;
  }

  /** The reader of a process that ended with the running turn's input reports that
      turn as failed, once. */
  lemma ExitFails(w: World, key: Key, p: nat, env: Env)
    requires Safe(w) && Lingers(At(w, key), p) && At(w, key).busy && Allowed(w, Exit(key, p))
    ensures At(w, key).turn.Some?
    ensures var m := At(w, key).turn.value; var w' := Step(w, Exit(key, p), env);
            && Reported(w, w', m, true) && !At(w', key).busy
            && EndedWith(Step(w', Deliver(Frame(m, true)), env).gw, m, RunnerFailed)
  {
    hide Safe, Held, Step, Inv, At, Live;
    BusyTurn(w, key);
    var m := At(w, key).turn.value;
    HeldIsLive(w, m, Given(p));
    Exited(w, key, p, env);
    DeliveredEnds(w, Step(w, Exit(key, p), env), m, true, env);
  }

  lemma BusyTurn(w: World, key: Key)
    requires Safe(w) && At(w, key).busy
    ensures At(w, key).turn.Some?
  {
    hide Inv, Keyed, Single, Sent, Held, At;
  }

  lemma Exited(w: World, key: Key, p: nat, env: Env)
    requires Lingers(At(w, key), p) && At(w, key).busy && At(w, key).turn.Some?
    ensures var w' := Step(w, Exit(key, p), env); Reported(w, w', At(w, key).turn.value, true) && !At(w', key).busy
  {
  }

  /** The way down: a message that arrives is with its session's process once the
      handler has got a process, set the turn and sent the input. */
  lemma DownTheLine(w: World, m: Msg, env: Env)
    requires Safe(w) && w.soup[Item(m, Downlink)] > 0
    ensures var w4 := Step(Step(Step(Step(w, Receive(m), env), Fetch(m, true), env), Begin(m), env), Submit(m, true), env);
            var s := At(w4, KeyOf(m));
            && Safe(w4) && w4.gw == w.gw && w4.up == w.up
            && s.busy && s.turn == Some(m) && s.process.Some? && Held(w4, Item(m, Given(s.process.value))) == 1
            && (At(w, KeyOf(m)).process.Some? ==> s.process == At(w, KeyOf(m)).process)
  {
    hide Safe, Step, Held, At;
    var w1 := Step(w, Receive(m), env);
    var w2 := Step(w1, Fetch(m, true), env);
    var w3 := Step(w2, Begin(m), env);
    var w4 := Step(w3, Submit(m, true), env);
    ReceiveKeeps(w, m, env);
    Arrived(w, m, env);
    FetchKeeps(w1, m, true, env);
    Fetched(w1, m, env);
    BeginKeeps(w2, m, env);
    Begun(w2, m, env);
    SameUp(w2, m, env);
    InPumps(w3, KeyOf(m));
    SubmitKeeps(w3, m, env);
    Handed(w3, m, At(w3, KeyOf(m)).process.value, env);
    SameUpSubmit(w3, m, env);
    AtMostOne(w4, m, m, Given(At(w3, KeyOf(m)).process.value), Given(At(w3, KeyOf(m)).process.value), true, true);
  }

  lemma Arrived(w: World, m: Msg, env: Env)
    requires w.soup[Item(m, Downlink)] > 0
    ensures var w' := Step(w, Receive(m), env);
            w'.soup[Item(m, Fetching)] > 0 && w'.gw == w.gw && w'.up == w.up && At(w', KeyOf(m)) == At(w, KeyOf(m))
  {
  }

  lemma Fetched(w: World, m: Msg, env: Env)
    requires w.soup[Item(m, Fetching)] > 0
    ensures var w' := Step(w, Fetch(m, true), env);
            && w'.soup[Item(m, Ready)] > 0 && w'.gw == w.gw && w'.up == w.up && At(w', KeyOf(m)).process.Some?
            && (At(w, KeyOf(m)).process.Some? ==> At(w', KeyOf(m)).process == At(w, KeyOf(m)).process)
  {
  }

  lemma SameUp(w: World, m: Msg, env: Env)
    ensures Step(w, Begin(m), env).up == w.up && Step(w, Begin(m), env).gw == w.gw
  {
  }

  lemma SameUpSubmit(w: World, m: Msg, env: Env)
    requires w.soup[Item(m, Sending)] > 0 && At(w, KeyOf(m)).process.Some? && At(w, KeyOf(m)).process.value in At(w, KeyOf(m)).pumps
    ensures Step(w, Submit(m, true), env).up == w.up && Step(w, Submit(m, true), env).gw == w.gw
  {
  }

  lemma InPumps(w: World, key: Key)
    requires Safe(w)
    ensures At(w, key).process.Some? ==> At(w, key).process.value in At(w, key).pumps
  {
    hide Inv, Single, Pointed, Sent, Held;
  }
}
