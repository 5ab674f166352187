/** The runner's session handlers on its own table, in place. */
module RunnerSessions {
  import opened Scheduler
  import opened Composition
  import opened Wrappers

  class Runner {
    var sessions: map<Key, Session>
    /** Messages on the way down or with a handler, and frames on the way up. */
    var soup: multiset<Item>
    var up: multiset<Frame>
    var processes: nat

    constructor ()
      ensures forall gw :: View(gw) == World(gw, multiset{}, map[], multiset{}, 0)
    {
      sessions, soup, up, processes := map[], multiset{}, multiset{}, 0;
    }

    ghost function View(gw: State): World
      reads this
    {
      World(gw, soup, sessions, up, processes)
    }

    function Get(key: Key): Session
      reads this
    {
      if key in sessions then sessions[key] else FRESH
    }

    method Send(f: Frame)
      modifies this`up
      ensures up == old(up) + multiset{f}
    {
      up := up + multiset{f};
    }

    /** A frame under the turn the session is set to, if any. */
    method Tell(s: Session, failed: bool)
      modifies this`up
      ensures up == old(up) + Told(s, failed)
    {
      if s.turn.Some? {
        Send(Frame(s.turn.value, failed));
      }
    }

    /** Finds the thread's running process or starts one; a failed start is reported. */
    method SessionFor(m: Msg, started: bool, ghost gw: State, ghost env: Env)
      requires soup[Item(m, Fetching)] > 0
      modifies this
      ensures View(gw) == Step(old(View(gw)), Fetch(m, started), env)
    {
      FetchCases(View(gw), m, started, env);
      hide Step;
      var key := KeyOf(m);
      soup := soup - multiset{Item(m, Fetching)};
      var s := Get(key);
      if s.process.Some? {
        soup := soup + multiset{Item(m, Ready)};
        return;
      }
      if !started {
        Send(Frame(m, true));
        return;
      }
      StartProcess(key);
      soup := soup + multiset{Item(m, Ready)};
    }

    method StartProcess(key: Key)
      modifies this`sessions, this`processes
      ensures var s := old(Get(key));
              sessions == old(sessions)[key := s.(process := Some(old(processes)), pumps := s.pumps[old(processes) := multiset{}])]
      ensures processes == old(processes) + 1
    {
      var s := Get(key);
      sessions := sessions[key := s.(process := Some(processes), pumps := s.pumps[processes := multiset{}])];
      processes := processes + 1;
    }

    method SetTurn(m: Msg, ghost gw: State, ghost env: Env)
      requires soup[Item(m, Ready)] > 0
      modifies this`sessions, this`soup
      ensures View(gw) == Step(old(View(gw)), Begin(m), env)
    {
      soup := soup - multiset{Item(m, Ready)} + multiset{Item(m, Sending)};
      sessions := sessions[KeyOf(m) := Get(KeyOf(m)).(turn := Some(m), busy := true)];
    }

    /** Hands the input to the session's process; a failed send is reported, and the
        session stays marked busy. */
    method SendInput(m: Msg, accepted: bool, ghost gw: State, ghost env: Env)
      requires soup[Item(m, Sending)] > 0
      modifies this
      ensures View(gw) == Step(old(View(gw)), Submit(m, accepted), env)
    {
      var key := KeyOf(m);
      soup := soup - multiset{Item(m, Sending)};
      var s := Get(key);
      if s.process.None? || s.process.value !in s.pumps || !accepted {
        Send(Frame(m, true));
        return;
      }
      var p := s.process.value;
      sessions := sessions[key := s.(pumps := s.pumps[p := s.pumps[p] + multiset{m}])];
    }

    /** A Done or Error event of a process, which answers one of its inputs. */
    method OnTerminal(m: Msg, p: nat, failed: bool, ghost gw: State, ghost env: Env)
      requires p in Get(KeyOf(m)).pumps && m in Get(KeyOf(m)).pumps[p]
      modifies this`sessions, this`up
      ensures View(gw) == Step(old(View(gw)), Act.Answer(m, p, failed), env)
    {
      hide Told;
      var s := Get(KeyOf(m));
      sessions := sessions[KeyOf(m) := s.(busy := false, pumps := s.pumps[p := s.pumps[p] - multiset{m}])];
      Tell(s, failed);
    }

    method CloseSession(key: Key, ghost gw: State, ghost env: Env)
      modifies this`sessions
      ensures View(gw) == Step(old(View(gw)), Close(key), env)
    {
      sessions := sessions[key := Get(key).(process := None)];
    }

    /** The event stream of a closed process has ended; the check is of the session's
        flag, whatever process its turn is with. */
    method PumpEnds(key: Key, p: nat, ghost gw: State, ghost env: Env)
      requires Lingers(Get(key), p)
      modifies this`sessions, this`up
      ensures View(gw) == Step(old(View(gw)), Exit(key, p), env)
    {
      hide Told;
      var s := Get(key);
      var left := s.(pumps := s.pumps - {p});
      if s.busy {
        left := left.(busy := false);
        Tell(s, true);
      }
      sessions := sessions[key := left];
    }
  }

  lemma FetchCases(w: World, m: Msg, started: bool, env: Env)
    requires w.soup[Item(m, Fetching)] > 0
    ensures var s, left := At(w, KeyOf(m)), w.soup - multiset{Item(m, Fetching)};
            Step(w, Fetch(m, started), env) ==
              if s.process.Some? then w.(soup := left + multiset{Item(m, Ready)})
              else if started then
                w.(soup := left + multiset{Item(m, Ready)}, processes := w.processes + 1,
                   sessions := w.sessions[KeyOf(m) := s.(process := Some(w.processes), pumps := s.pumps[w.processes := multiset{}])])
              else w.(soup := left, up := w.up + multiset{Frame(m, true)})
  {
  }
}
