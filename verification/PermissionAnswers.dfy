/** Which answer a request gets, and when. */
module PermissionAnswers {
  import opened Wrappers
  import opened Permissions

  // ------------------------------------------------------------------
  // Grants in force are those of the journal
  // ------------------------------------------------------------------

  /** An approver granted the tool for the thread, which was not cleared since. */
  ghost predicate GrantStands(journal: seq<Fact>, thread: string, tool: string) {
    thread != "" && tool != "" && exists k: nat :: GrantedAt(journal, thread, tool, k, |journal|)
  }

  ghost predicate HeldExactly(s: State) {
    forall thread, tool :: Held(s, thread, tool).Some? <==> GrantStands(s.journal, thread, tool)
  }

  lemma GrantHeld(s: State, c: Click)
    requires HeldExactly(s) && ApproverAllowed(c.policy, c.user) && (c.decision.AllowSession? || c.decision.AllowAlways?)
    ensures HeldExactly(GrantTo(s, c))
  {
    hide ApproverAllowed;
    var f := Given(c.prompt.thread, c.prompt.tool, c);
    var s' := GrantTo(s, c);
    NewlyGranted(s.journal, c);
    forall thread, tool
      ensures Held(s', thread, tool).Some? <==> GrantStands(s'.journal, thread, tool)
    {
      if GrantStands(s.journal, thread, tool) {
        var k: nat :| GrantedAt(s.journal, thread, tool, k, |s.journal|);
        StillGranted(s.journal, f, thread, tool, k);
      } else if GrantStands(s'.journal, thread, tool) {
        var k: nat :| GrantedAt(s'.journal, thread, tool, k, |s'.journal|);
        if k < |s.journal| {
          WasGranted(s.journal, f, thread, tool, k);
        }
      }
    }
    hide GrantedAt;
  }

  lemma WasGranted(journal: seq<Fact>, f: Fact, thread: string, tool: string, k: nat)
    requires k < |journal| && GrantedAt(journal + [f], thread, tool, k, |journal| + 1)
    ensures GrantedAt(journal, thread, tool, k, |journal|) && f != Cleared(thread)
  {
    hide ApproverAllowed;
    assert (journal + [f])[|journal|] == f;
    assert forall j | 0 <= j < |journal| :: (journal + [f])[j] == journal[j];
  }

  lemma ClearHeld(s: State, thread: string)
    requires HeldExactly(s)
    ensures HeldExactly(Clear(s, thread))
  {
    hide ApproverAllowed;
    var f := Cleared(thread);
    var s' := Clear(s, thread);
    forall u, v
      ensures Held(s', u, v).Some? <==> GrantStands(s'.journal, u, v)
    {
      if u != thread && GrantStands(s.journal, u, v) {
        var k: nat :| GrantedAt(s.journal, u, v, k, |s.journal|);
        StillGranted(s.journal, f, u, v, k);
      } else if GrantStands(s'.journal, u, v) {
        var k: nat :| GrantedAt(s'.journal, u, v, k, |s'.journal|);
        assert s'.journal[k] != f;
        WasGranted(s.journal, f, u, v, k);
      }
    }
    hide GrantedAt;
  }

  lemma AskHolds(s: State, covers: Matcher, id: nat, runner: string, live: Option<string>, tool: string, input: string,
                 surface: bool, accepted: bool)
    ensures var s' := Ask(s, covers, id, runner, live, tool, input, surface, accepted);
            s'.grants == s.grants && s'.journal == s.journal
  {
    hide MatchRules, Held, Respond, Answered;
    var s1 := s.(requests := s.requests[id := Request(runner, if live.Some? then live.value else "", tool, input, PolicyOf(s, runner))]);
    RespondIs(s1, id, Deny, Automatic, accepted);
    RespondIs(s1, id, Allow, Automatic, accepted);
  }

  lemma RespondIs(s: State, id: nat, decision: Decision, source: Source, accepted: bool)
    ensures var s' := Respond(s, id, decision, source, accepted);
            s' == s.(responses := s'.responses) && Answered(s, s', Response(id, decision, source, |s.journal|), accepted)
  {
  }

  lemma OthersHold(s: State, covers: Matcher, ev: Event)
    requires !ev.Claimed? && !ev.Renewed?
    ensures Apply(s, covers, ev).grants == s.grants && Apply(s, covers, ev).journal == s.journal
  {
    hide ApproverAllowed, Ask, Claim, Clear;
    if ev.Asked? {
      AskHolds(s, covers, ev.id, ev.runner, ev.live, ev.tool, ev.input, ev.surface, ev.accepted);
    }
  }

  lemma StepHeld(s: State, covers: Matcher, ev: Event)
    requires Inv(s, covers) && HeldExactly(s)
    ensures HeldExactly(Apply(s, covers, ev))
  {
    hide Inv, GrantStands, GrantTo, GrantedAt;
    match ev
    case Claimed(n, accepted) =>
      if n in s.clicks {
        var c := s.clicks[n];
        ClickIsSound(s, covers, n);
        var s2 := s.(clicks := s.clicks - {n}).(prompts := s.prompts - {c.id});
        assert forall thread, tool :: Held(s2, thread, tool) == Held(s, thread, tool);
        if c.decision.AllowSession? || c.decision.AllowAlways? {
          GrantHeld(s2, c);
          RespondHeld(GrantTo(s2, c), c.id, c.decision, ByClick(c), accepted);
        }
      }
    case Renewed(thread) => ClearHeld(s, thread);
    case _ =>
      OthersHold(s, covers, ev);
      hide Apply;
  }

  lemma RespondHeld(s: State, id: nat, decision: Decision, source: Source, accepted: bool)
    requires HeldExactly(s)
    ensures HeldExactly(Respond(s, id, decision, source, accepted))
  {
    hide GrantStands;
    assert forall thread, tool :: Held(Respond(s, id, decision, source, accepted), thread, tool) == Held(s, thread, tool);
  }

  lemma {:induction false} RunHeld(covers: Matcher, evs: seq<Event>)
    ensures HeldExactly(Run(covers, evs))
    decreases |evs|
  {
    hide Apply, HeldExactly, Inv;
    if evs == [] {
      assert HeldExactly(NEW) by { NewHeld(); }
    } else {
      RunHeld(covers, evs[..|evs| - 1]);
      RunKeeps(covers, evs[..|evs| - 1]);
      StepHeld(Run(covers, evs[..|evs| - 1]), covers, evs[|evs| - 1]);
    }
  }

  lemma NewHeld()
    ensures HeldExactly(NEW)
  {
  }

  // ------------------------------------------------------------------
  // A request
  // ------------------------------------------------------------------

  predicate DenyRule(covers: Matcher, config: map<string, Policy>, runner: string, tool: string, input: string) {
    runner in config && exists rule | rule in config[runner].deny :: covers(rule, tool, input)
  }

  predicate AllowRule(covers: Matcher, config: map<string, Policy>, runner: string, tool: string, input: string) {
    runner in config && (config[runner].autoApprove || exists rule | rule in config[runner].allow :: covers(rule, tool, input))
  }

  /** One response more, unless the connection refuses the frame. */
  predicate Answered(s: State, s': State, r: Response, accepted: bool) {
    s'.responses == s.responses + if accepted then [r] else []
  }

  lemma RulesCover(covers: Matcher, rules: seq<string>, tool: string, input: string)
    ensures MatchRules(covers, rules, tool, input) <==> exists rule | rule in rules :: covers(rule, tool, input)
  {
    if rule :| rule in rules && covers(rule, tool, input) {
      var i :| 0 <= i < |rules| && rules[i] == rule;
      assert covers(rules[i], tool, input);
    }
    if MatchRules(covers, rules, tool, input) {
      var i :| 0 <= i < |rules| && covers(rules[i], tool, input);
      assert rules[i] in rules;
    }
  }

  lemma AskExactly(s: State, covers: Matcher, id: nat, runner: string, live: Option<string>, tool: string, input: string,
                   surface: bool, accepted: bool)
    requires id !in s.requests && HeldExactly(s)
    ensures var s' := Ask(s, covers, id, runner, live, tool, input, surface, accepted);
            var allow, deny := Response(id, Allow, Automatic, |s.journal|), Response(id, Deny, Automatic, |s.journal|);
            var policy := if runner in s.config then Some(s.config[runner]) else None;
            && s' == s.(requests := s.requests[id := Request(runner, if live.Some? then live.value else "", tool, input, policy)],
                        responses := s'.responses, asking := s'.asking)
            && (if live.None? || DenyRule(covers, s.config, runner, tool, input) then
                  Answered(s, s', deny, accepted) && s'.asking == s.asking
                else if GrantStands(s.journal, live.value, tool) || AllowRule(covers, s.config, runner, tool, input) then
                  Answered(s, s', allow, accepted) && s'.asking == s.asking
                else if !surface then Answered(s, s', deny, accepted) && s'.asking == s.asking
                else s'.responses == s.responses && s'.asking == s.asking[id := Prompt(runner, live.value, tool)])
  {
    hide MatchRules, GrantStands, Held, Respond;
    var s1 := s.(requests := s.requests[id := Request(runner, if live.Some? then live.value else "", tool, input, PolicyOf(s, runner))]);
    RespondIs(s1, id, Deny, Automatic, accepted);
    RespondIs(s1, id, Allow, Automatic, accepted);
    assert live.Some? ==> (Held(s, live.value, tool).Some? <==> GrantStands(s.journal, live.value, tool));
    if runner in s.config {
      RulesCover(covers, s.config[runner].deny, tool, input);
      RulesCover(covers, s.config[runner].allow, tool, input);
    }
    hide HeldExactly;
  }

  /** What happens to a new request, after any run. Without a live turn, or if a deny rule
      covers it, it is denied. Otherwise it is allowed if an allow rule covers it, if the
      runner runs unattended, or if an approver granted the tool for the thread and the
      thread was not cleared since. Otherwise a human is asked, if there is a surface to ask
      on, and if not it is denied. The rules are those of the last reload. */
  lemma AnsweredExactly(covers: Matcher, evs: seq<Event>, id: nat, runner: string, live: Option<string>, tool: string, input: string,
                        surface: bool, accepted: bool)
    requires id !in Run(covers, evs).requests
    ensures var s, s' := Run(covers, evs), Run(covers, evs + [Asked(id, runner, live, tool, input, surface, accepted)]);
            var allow, deny := Response(id, Allow, Automatic, |s.journal|), Response(id, Deny, Automatic, |s.journal|);
            && s'.prompts == s.prompts && s'.grants == s.grants && s'.journal == s.journal && s'.clicks == s.clicks
            && (if live.None? || DenyRule(covers, LastConfig(evs), runner, tool, input) then
                  Answered(s, s', deny, accepted) && s'.asking == s.asking
                else if GrantStands(s.journal, live.value, tool) || AllowRule(covers, LastConfig(evs), runner, tool, input) then
                  Answered(s, s', allow, accepted) && s'.asking == s.asking
                else if !surface then Answered(s, s', deny, accepted) && s'.asking == s.asking
                else s'.responses == s.responses && s'.asking == s.asking[id := Prompt(runner, live.value, tool)])
  {
    var s := Run(covers, evs);
    var ev := Asked(id, runner, live, tool, input, surface, accepted);
    RunHeld(covers, evs);
    RunDated(covers, evs);
    assert (evs + [ev])[..|evs|] == evs;
    AskExactly(s, covers, id, runner, live, tool, input, surface, accepted);
    hide Ask, HeldExactly, GrantStands, DenyRule, AllowRule, LastConfig, CameIn, CameFrom;
    assert Run(covers, evs + [ev]) == Apply(s, covers, ev);
    hide Run;
  }

  // ------------------------------------------------------------------
  // A prompt and the clicks on it
  // ------------------------------------------------------------------

  /** A prompt that is up can be clicked; one that could not be put up is a denial. */
  lemma PostedExactly(s: State, id: nat, ok: bool, accepted: bool)
    requires id in s.asking
    ensures var s' := Posted(s, id, ok, accepted);
            && s' == s.(asking := s.asking - {id}, prompts := s'.prompts, responses := s'.responses)
            && (if ok then s'.prompts == s.prompts[id := s.asking[id]] && s'.responses == s.responses
                else s'.prompts == s.prompts && Answered(s, s', Response(id, Deny, Automatic, |s.journal|), accepted))
  {
  }

  /** Anybody may click who is listed as approver of the prompt's runner; where nobody is
      listed, or the runner is not configured, anybody at all. */
  predicate MayClick(s: State, id: nat, user: string)
    requires id in s.prompts
  {
    var runner := s.prompts[id].runner;
    runner !in s.config || |s.config[runner].approvers| == 0 || user in s.config[runner].approvers
  }

  /** A click on a prompt that is still up decides it: with the answer clicked, once, and
      the prompt is gone. The tool is granted exactly if the answer was for the session. A
      click by anybody else changes nothing, and a click on a prompt that is not up neither. */
  lemma ClickDecides(s: State, covers: Matcher, n: nat, id: nat, user: string, decision: Decision, accepted: bool)
    requires n !in s.clicks
    ensures var s' := Apply(Apply(s, covers, Looked(n, id, user, decision)), covers, Claimed(n, accepted));
            if id in s.prompts && MayClick(s, id, user) then
              var p := s.prompts[id];
              var c := Click(id, p, user, decision, if p.runner in s.config then Some(s.config[p.runner]) else None);
              && s' == s.(prompts := s.prompts - {id}, responses := s'.responses, journal := s'.journal, grants := s'.grants)
              && s'.journal == (if decision == AllowSession || decision == AllowAlways then s.journal + [Given(p.thread, p.tool, c)] else s.journal)
              && Answered(s, s', Response(id, decision, ByClick(c), |s'.journal|), accepted)
              && (forall thread, tool ::
                    Held(s', thread, tool) ==
                      if (decision == AllowSession || decision == AllowAlways) && thread == p.thread && tool == p.tool && thread != "" && tool != ""
                      then Some(Grant(user, |s.journal|)) else Held(s, thread, tool))
            else s' == s
  {
    hide Granting, Held, Respond, Apply;
    if id in s.prompts && MayClick(s, id, user) {
      var p := s.prompts[id];
      Decided(s, covers, n, id, user, decision, accepted);
      var c := Click(id, p, user, decision, if p.runner in s.config then Some(s.config[p.runner]) else None);
      var s2 := s.(prompts := s.prompts - {id});
      RespondIs(s2, id, decision, ByClick(c), accepted);
      RespondIs(GrantTo(s2, c), id, decision, ByClick(c), accepted);
      GrantingExactly(s, p.thread, p.tool, Grant(user, |s.journal|));
      HeldSame(s);
    } else {
      Ignored(s, covers, n, id, user, decision, accepted);
    }
    hide MayClick, Answered;
  }

  lemma Decided(s: State, covers: Matcher, n: nat, id: nat, user: string, decision: Decision, accepted: bool)
    requires n !in s.clicks && id in s.prompts && MayClick(s, id, user)
    ensures var p := s.prompts[id];
            var c := Click(id, p, user, decision, if p.runner in s.config then Some(s.config[p.runner]) else None);
            var s2 := s.(prompts := s.prompts - {id});
            Apply(Apply(s, covers, Looked(n, id, user, decision)), covers, Claimed(n, accepted))
            == Respond(if decision == AllowSession || decision == AllowAlways then GrantTo(s2, c) else s2, id, decision, ByClick(c), accepted)
  {
    hide GrantTo, Respond;
    assert Look(s, n, id, user, decision).clicks - {n} == s.clicks;
  }

  lemma Ignored(s: State, covers: Matcher, n: nat, id: nat, user: string, decision: Decision, accepted: bool)
    requires n !in s.clicks && !(id in s.prompts && MayClick(s, id, user))
    ensures Apply(Apply(s, covers, Looked(n, id, user, decision)), covers, Claimed(n, accepted)) == s
  {
  }

  lemma HeldSame(s: State)
    ensures forall s': State, thread, tool | s'.grants == s.grants :: Held(s', thread, tool) == Held(s, thread, tool)
  {
  }

  lemma GrantingExactly(s: State, thread: string, tool: string, g: Grant)
    ensures forall s': State, u, v | s'.grants == Granting(s.grants, thread, tool, g) ::
              Held(s', u, v) == if u == thread && v == tool && u != "" && v != "" then Some(g) else Held(s, u, v)
  {
  }

  /** Whoever claims second finds the prompt gone. */
  lemma SecondClaimIsVoid(s: State, n: nat, m: nat, accepted: bool, again: bool)
    requires n in s.clicks && m in s.clicks && n != m && s.clicks[n].id == s.clicks[m].id
    ensures var s1 := Claim(s, n, accepted); Claim(s1, m, again) == s1.(clicks := s1.clicks - {m})
  {
    hide GrantTo, Respond;
    RespondLeaves(s, n, accepted);
    hide Claim;
    var s1 := Claim(s, n, accepted);
    ClaimVoid(s1, m, again);
  }

  lemma RespondLeaves(s: State, n: nat, accepted: bool)
    requires n in s.clicks
    ensures var s1 := Claim(s, n, accepted); s1.clicks == s.clicks - {n} && s.clicks[n].id !in s1.prompts
  {
    hide Granting, Respond, Answered;
    var c := s.clicks[n];
    var s2 := s.(clicks := s.clicks - {n}).(prompts := s.prompts - {c.id});
    RespondIs(s2, c.id, c.decision, ByClick(c), accepted);
    RespondIs(GrantTo(s2, c), c.id, c.decision, ByClick(c), accepted);
  }

  lemma ClaimVoid(s: State, n: nat, accepted: bool)
    requires n in s.clicks && s.clicks[n].id !in s.prompts
    ensures Claim(s, n, accepted) == s.(clicks := s.clicks - {n})
  {
  }

  /** A runner that drops takes its own prompts with it, and nothing else. */
  lemma DropWithdraws(s: State, covers: Matcher, runner: string)
    ensures var s' := Apply(s, covers, Dropped(runner));
            && s' == s.(prompts := s'.prompts)
            && (forall id :: id in s'.prompts <==> id in s.prompts && s.prompts[id].runner != runner)
            && (forall id | id in s'.prompts :: s'.prompts[id] == s.prompts[id])
  {
  }

  /** After an answer for the session the same tool is waved through on that thread, by any
      runner's request, unless a deny rule covers it. */
  lemma GrantWavesThrough(s: State, covers: Matcher, n: nat, id: nat, user: string, decision: Decision, accepted: bool,
                          next: nat, runner: string, input: string, surface: bool)
    requires Inv(s, covers) && HeldExactly(s) && n !in s.clicks && id in s.prompts && MayClick(s, id, user)
    requires (decision.AllowSession? || decision.AllowAlways?) && s.prompts[id].thread != "" && s.prompts[id].tool != ""
    requires next !in s.requests && !DenyRule(covers, s.config, runner, s.prompts[id].tool, input)
    ensures var p := s.prompts[id];
            var s1 := Apply(Apply(s, covers, Looked(n, id, user, decision)), covers, Claimed(n, accepted));
            var s2 := Apply(s1, covers, Asked(next, runner, Some(p.thread), p.tool, input, surface, true));
            s2.responses == s1.responses + [Response(next, Allow, Automatic, |s1.journal|)] && s2.asking == s1.asking
  {
    hide DenyRule, MayClick, Inv, GrantedAt;
    var p := s.prompts[id];
    var s0 := Apply(s, covers, Looked(n, id, user, decision));
    var s1 := Apply(s0, covers, Claimed(n, accepted));
    ClickDecides(s, covers, n, id, user, decision, accepted);
    ApplyKeeps(s, covers, Looked(n, id, user, decision));
    StepHeld(s, covers, Looked(n, id, user, decision));
    StepHeld(s0, covers, Claimed(n, accepted));
    assert Held(s1, p.thread, p.tool).Some?;
    assert GrantStands(s1.journal, p.thread, p.tool);
    hide GrantStands, HeldExactly, Held, Answered;
    AskExactly(s1, covers, next, runner, Some(p.thread), p.tool, input, surface, true);
    AskApplied(s1, covers, next, runner, Some(p.thread), p.tool, input, surface);
    hide Apply, Ask;
  }

  lemma AskApplied(s: State, covers: Matcher, id: nat, runner: string, live: Option<string>, tool: string, input: string, surface: bool)
    ensures Apply(s, covers, Asked(id, runner, live, tool, input, surface, true)) == Ask(s, covers, id, runner, live, tool, input, surface, true)
  {
  }
}
