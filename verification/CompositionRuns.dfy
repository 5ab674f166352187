/** A run of gateway and runner from the start to the outlived reader. */
module CompositionRuns {
  import opened Wrappers
  import opened Scheduler
  import opened SchedulerInvariant
  import opened SchedulerTheorems
  import opened SchedulerSends
  import opened Composition
  import opened CompositionTheorems

  const ANSWER := Scheduler.Answer.Answer(true, true, true, true, true, 0, true, true)
  const M := Msg(0, "a", "r", 0)
  const N := Msg(1, "a", "r", 0)
  const KEY: Key := ("r", "a")

  /** Hub and store never fail. */
  function Fine(n: nat, r: string): Scheduler.Answer {
    ANSWER
  }

  // ------------------------------------------------------------------
  // The gateway's part
  // ------------------------------------------------------------------

  /** An idle thread's message is sent at once. */
  lemma SentAtOnce(s: State, m: Msg)
    requires m.thread !in s.active && m.id == |s.arrivals| == |s.place| && m.cap == 0
    ensures Arrive(s, m.thread, m.runner, m.cap, Fine) == Send(Claim(s, m).(calls := s.calls + 1), m)
  {
    var s1 := Claim(s, m);
    assert s1.calls == s.calls && m == Msg(|s.arrivals|, m.thread, m.runner, m.cap);
    hide Send, Claim, Queueable, EndThread;
  }

  /** The gateway after the first message, after its turn, after the second message. */
  function Gateways(k: nat): State {
    if k == 0 then Send(Claim(INITIAL, M).(calls := 1), M)
    else if k == 1 then Finish(Gateways(0), 0, Completed, Fine)
    else Send(Claim(Gateways(1), N).(calls := 2), N)
  }

  lemma FirstSent()
    ensures Apply(INITIAL, Message("a", "r", 0), Fine) == Gateways(0)
    ensures Gateways(0).sent == [M] && Gateways(0).turns == map[0 := Turn(M, false)]
    ensures Gateways(0).arrivals == [M] && Gateways(0).queues == map[] && Gateways(0).parked == map[] && Gateways(0).calls == 1
    ensures Gateways(0).active == {"a"} && |Gateways(0).place| == 1
  {
    SentAtOnce(INITIAL, M);
  }

  lemma FirstEnded()
    ensures 0 in Gateways(0).turns && Gateways(0).turns[0].msg == M
    ensures var s := Gateways(1);
            s.sent == [M] && s.arrivals == [M] && s.active == {} && |s.place| == 1 && s.calls == 1
  {
    FirstSent();
    var s0 := EndTurn(Gateways(0), 0, Completed);
    assert SlotFreed(s0, "r", Fine) == s0;
    assert Gateways(1) == Release(s0, "a");
  }

  lemma SecondSent()
    ensures Apply(Gateways(1), Message("a", "r", 0), Fine) == Gateways(2)
    ensures Gateways(2).sent == [M, N]
  {
    FirstEnded();
    SentAtOnce(Gateways(1), N);
    assert [M] + [N] == [M, N];
  }

  // ------------------------------------------------------------------
  // The runner's part
  // ------------------------------------------------------------------

  function Busied(busy: bool, work: multiset<Msg>): Session {
    Session(Some(M), busy, Some(0), map[0 := work])
  }

  function During(soup: multiset<Item>, sessions: map<Key, Session>, processes: nat): World {
    World(Gateways(0), soup, sessions, multiset{}, processes)
  }

  function Idle(g: State, soup: multiset<Item>, up: multiset<Frame>): World {
    World(g, soup, map[KEY := Busied(false, multiset{})], up, 1)
  }

  lemma Received()
    ensures Step(During(multiset{Item(M, Downlink)}, map[], 0), Receive(M), Fine) == During(multiset{Item(M, Fetching)}, map[], 0)
    ensures Step(During(multiset{Item(M, Fetching)}, map[], 0), Fetch(M, true), Fine)
         == During(multiset{Item(M, Ready)}, map[KEY := Session(None, false, Some(0), map[0 := multiset{}])], 1)
  {
    hide Gateways;
  }

  lemma Begun1()
    ensures var fresh1 := Session(None, false, Some(0), map[0 := multiset{}]);
            Step(During(multiset{Item(M, Ready)}, map[KEY := fresh1], 1), Begin(M), Fine)
            == During(multiset{Item(M, Sending)}, map[KEY := Busied(true, multiset{})], 1)
  {
    hide Gateways;
  }

  lemma Submitted()
    ensures Step(During(multiset{Item(M, Sending)}, map[KEY := Busied(true, multiset{})], 1), Submit(M, true), Fine)
         == During(multiset{}, map[KEY := Busied(true, multiset{M})], 1)
    ensures Allowed(During(multiset{Item(M, Sending)}, map[KEY := Busied(true, multiset{})], 1), Submit(M, true))
  {
    hide Gateways;
    assert multiset{} + multiset{M} == multiset{M};
    assert map[0 := multiset{}][0 := multiset{M}] == map[0 := multiset{M}];
    assert map[KEY := Busied(true, multiset{})][KEY := Busied(true, multiset{M})] == map[KEY := Busied(true, multiset{M})];
  }

  lemma Answered()
    ensures Step(During(multiset{}, map[KEY := Busied(true, multiset{M})], 1), Act.Answer(M, 0, false), Fine)
         == Idle(Gateways(0), multiset{}, multiset{Frame(M, false)})
  {
    hide Gateways;
    assert multiset{M} - multiset{M} == multiset{};
    assert map[0 := multiset{M}][0 := multiset{}] == map[0 := multiset{}];
    assert map[KEY := Busied(true, multiset{M})][KEY := Busied(false, multiset{})] == map[KEY := Busied(false, multiset{})];
    assert multiset{} + multiset{Frame(M, false)} == multiset{Frame(M, false)};
  }

  lemma OneDown(m: Msg)
    ensures Downlinks([m]) == multiset{Item(m, Downlink)} && Downlinks([]) == multiset{}
  {
    assert [m][..0] == [];
  }

  lemma FirstGate()
    ensures Step(EMPTY, Gate(Message("a", "r", 0)), Fine) == During(multiset{Item(M, Downlink)}, map[], 0)
  {
    FirstSent();
    OneDown(M);
    assert Gateways(0).sent[0..] == [M];
    hide Gateways, Apply, Downlinks;
  }

  lemma Delivered()
    ensures Step(Idle(Gateways(0), multiset{}, multiset{Frame(M, false)}), Deliver(Frame(M, false)), Fine)
         == Idle(Gateways(1), multiset{}, multiset{})
  {
    FirstSent();
    FirstEnded();
    OneDown(M);
    assert Apply(Gateways(0), Report(0, false), Fine) == Gateways(1);
    assert [M][1..] == [];
    hide Gateways, Apply, Downlinks;
  }

  lemma SecondGate()
    ensures Step(Idle(Gateways(1), multiset{}, multiset{}), Gate(Message("a", "r", 0)), Fine)
         == Idle(Gateways(2), multiset{Item(N, Downlink)}, multiset{})
    ensures Step(Idle(Gateways(2), multiset{Item(N, Downlink)}, multiset{}), Receive(N), Fine)
         == Idle(Gateways(2), multiset{Item(N, Fetching)}, multiset{})
  {
    FirstEnded();
    SecondSent();
    OneDown(N);
    assert [M, N][1..] == [N];
    hide Gateways, Apply, Downlinks;
  }

  // ------------------------------------------------------------------
  // The run
  // ------------------------------------------------------------------

  function OneTurn(): seq<Act> {
    [] + [Gate(Message("a", "r", 0))] + [Receive(M)] + [Fetch(M, true)] + [Begin(M)] + [Submit(M, true)]
  }

  function NextTurn(): seq<Act> {
    OneTurn() + [Act.Answer(M, 0, false)] + [Deliver(Frame(M, false))] + [Gate(Message("a", "r", 0))] + [Receive(N)]
  }

  lemma NoTrace()
    ensures Trace(EMPTY, [], Fine) == EMPTY && AllowedTrace(EMPTY, [], Fine)
  {
  }

  lemma FirstTurn()
    ensures AllowedTrace(EMPTY, OneTurn(), Fine)
    ensures Trace(EMPTY, OneTurn(), Fine) == During(multiset{}, map[KEY := Busied(true, multiset{M})], 1)
  {
    hide Step, Trace, AllowedTrace, During, Busied;
    FirstGate();
    Received();
    Begun1();
    Submitted();
    NoTrace();
    var e1 := [] + [Gate(Message("a", "r", 0))];
    var e2 := e1 + [Receive(M)];
    var e3 := e2 + [Fetch(M, true)];
    TraceSnoc(EMPTY, [], Gate(Message("a", "r", 0)), Fine);
    TraceSnoc(EMPTY, e1, Receive(M), Fine);
    TraceSnoc(EMPTY, e2, Fetch(M, true), Fine);
    TraceSnoc(EMPTY, e3, Begin(M), Fine);
    TraceSnoc(EMPTY, e3 + [Begin(M)], Submit(M, true), Fine);
  }

  lemma SecondTurn()
    ensures AllowedTrace(EMPTY, NextTurn(), Fine)
    ensures Trace(EMPTY, NextTurn(), Fine) == Idle(Gateways(2), multiset{Item(N, Fetching)}, multiset{})
  {
    hide Step, Trace, AllowedTrace, During, Busied, Idle, OneTurn;
    FirstTurn();
    Answered();
    Delivered();
    SecondGate();
    var e1 := OneTurn() + [Act.Answer(M, 0, false)];
    var e2 := e1 + [Deliver(Frame(M, false))];
    TraceSnoc(EMPTY, OneTurn(), Act.Answer(M, 0, false), Fine);
    TraceSnoc(EMPTY, e1, Deliver(Frame(M, false)), Fine);
    TraceSnoc(EMPTY, e2, Gate(Message("a", "r", 0)), Fine);
    TraceSnoc(EMPTY, e2 + [Gate(Message("a", "r", 0))], Receive(N), Fine);
  }

  lemma {:induction false} TraceJoin(w: World, acts: seq<Act>, more: seq<Act>, env: Env)
    ensures Trace(w, acts + more, env) == Trace(Trace(w, acts, env), more, env)
    ensures AllowedTrace(w, acts, env) && AllowedTrace(Trace(w, acts, env), more, env) ==> AllowedTrace(w, acts + more, env)
    decreases |more|
  {
    hide Step, Allowed;
    if more == [] {
      assert acts + more == acts;
    } else {
      var front, last := more[..|more| - 1], more[|more| - 1];
      TraceJoin(w, acts, front, env);
      assert acts + more == acts + front + [last];
      TraceSnoc(w, acts + front, last, env);
    }
  }

  function Restarting(): seq<Act> {
    [Close(KEY), Fetch(N, true), Begin(N), Submit(N, true)]
  }

  /** One turn, the next message, and the process closed just before it is handled:
      every step is allowed, and then the closed process' reader reports the running
      turn as failed. */
  lemma LateExitHappens()
    ensures AllowedTrace(EMPTY, NextTurn() + Restarting(), Fine)
    ensures var w := Trace(EMPTY, NextTurn() + Restarting(), Fine);
            var w' := Step(w, Exit(KEY, 0), Fine);
            && Safe(w) && Live(w'.gw, N) && w'.up[Frame(N, true)] > 0
            && (exists h :: InTurn(h) && Held(w', Item(N, h)) > 0) && !Safe(w')
  {
    var w := Idle(Gateways(2), multiset{Item(N, Fetching)}, multiset{});
    SecondTurn();
    StartsSafe();
    assert w.soup[Item(N, Fetching)] > 0 && At(w, KeyOf(N)).process == Some(0) && KeyOf(N) == KEY;
    hide Step, Trace, AllowedTrace, Safe, Held, At, Live, NextTurn, Idle;
    TraceKeeps(EMPTY, NextTurn(), Fine);
    LingeringReader(w, N, 0, Fine);
    TraceJoin(EMPTY, NextTurn(), Restarting(), Fine);
    TraceKeeps(EMPTY, NextTurn() + Restarting(), Fine);
    LateExitBreaks(Trace(EMPTY, NextTurn() + Restarting(), Fine), KEY, 0, Fine);
  }
}
