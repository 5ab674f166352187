/** The permission handlers as the gateway runs them, on its own maps. */
module GatewayPermissions {
  import opened Wrappers
  import opened Permissions

  class Permits {
    const covers: Matcher
    var config: map<string, Policy>
    var grants: map<string, map<string, Grant>>
    var asking: map<nat, Prompt>
    var prompts: map<nat, Prompt>
    var clicks: map<nat, Click>
    var requests: map<nat, Request>
    var journal: seq<Fact>
    var responses: seq<Response>

    constructor (covers: Matcher)
      ensures this.covers == covers && Abs() == NEW
    {
      this.covers := covers;
      config, grants, asking, prompts, clicks := map[], map[], map[], map[], map[];
      requests, journal, responses := map[], [], [];
    }

    ghost function Abs(): State
      reads this
    {
      State(config, grants, asking, prompts, clicks, requests, journal, responses)
    }

    method MatchDeny(rules: seq<string>, tool: string, input: string) returns (matched: bool)
      ensures matched == MatchRules(covers, rules, tool, input)
    {
      for i := 0 to |rules|
        invariant forall j | 0 <= j < i :: !covers(rules[j], tool, input)
      {
        if covers(rules[i], tool, input) {
          return true;
        }
      }
      return false;
    }

    method IsApprover(policy: Option<Policy>, user: string) returns (allowed: bool)
      ensures allowed == ApproverAllowed(policy, user)
    {
      if policy.None? || |policy.value.approvers| == 0 {
        return true;
      }
      for i := 0 to |policy.value.approvers|
        invariant user !in policy.value.approvers[..i]
      {
        if policy.value.approvers[i] == user {
          return true;
        }
      }
      return false;
    }

    method SendResponse(id: nat, decision: Decision, source: Source, accepted: bool)
      modifies this`responses
      ensures Abs() == Respond(old(Abs()), id, decision, source, accepted)
    {
      if accepted {
        responses := responses + [Response(id, decision, source, |journal|)];
      }
    }

    /** Deny rules come first, so that neither a grant nor a click reaches past them. */
    method OnPermissionRequest(id: nat, runner: string, live: Option<string>, tool: string, input: string,
                               surface: bool, accepted: bool)
      requires id !in requests
      modifies this`requests, this`responses, this`asking
      ensures Abs() == Ask(old(Abs()), covers, id, runner, live, tool, input, surface, accepted)
    {
      hide MatchRules, Respond;
      var policy := if runner in config then Some(config[runner]) else None;
      if live.None? {
        requests := requests[id := Request(runner, "", tool, input, policy)];
        SendResponse(id, Deny, Automatic, accepted);
        return;
      }
      requests := requests[id := Request(runner, live.value, tool, input, policy)];
      if policy.Some? {
        var denied := MatchDeny(policy.value.deny, tool, input);
        if denied {
          SendResponse(id, Deny, Automatic, accepted);
          return;
        }
      }
      if live.value in grants && tool in grants[live.value] {
        SendResponse(id, Allow, Automatic, accepted);
        return;
      }
      if policy.Some? {
        var allowed := MatchDeny(policy.value.allow, tool, input);
        if allowed || policy.value.autoApprove {
          SendResponse(id, Allow, Automatic, accepted);
          return;
        }
      }
      if !surface {
        SendResponse(id, Deny, Automatic, accepted);
        return;
      }
      asking := asking[id := Prompt(runner, live.value, tool)];
    }

    method OnPrompted(id: nat, ok: bool, accepted: bool)
      modifies this`asking, this`prompts, this`responses
      ensures Abs() == Posted(old(Abs()), id, ok, accepted)
    {
      hide Respond;
      if id !in asking {
        return;
      }
      var p := asking[id];
      asking := asking - {id};
      if !ok {
        SendResponse(id, Deny, Automatic, accepted);
        return;
      }
      prompts := prompts[id := p];
    }

    /** A decision up to the approver check. */
    method BeginDecision(n: nat, id: nat, user: string, decision: Decision)
      requires n !in clicks
      modifies this`clicks
      ensures Abs() == Look(old(Abs()), n, id, user, decision)
    {
      hide ApproverAllowed;
      if id !in prompts {
        return;
      }
      var p := prompts[id];
      var policy := if p.runner in config then Some(config[p.runner]) else None;
      var allowed := IsApprover(policy, user);
      if !allowed {
        return;
      }
      clicks := clicks[n := Click(id, p, user, decision, policy)];
    }

    /** And from the claim on. */
    method EndDecision(n: nat, accepted: bool)
      requires n in clicks
      modifies this`clicks, this`prompts, this`grants, this`journal, this`responses
      ensures Abs() == Claim(old(Abs()), n, accepted)
    {
      hide Respond, GrantTo;
      var c := clicks[n];
      clicks := clicks - {n};
      if c.id !in prompts {
        return;
      }
      prompts := prompts - {c.id};
      if c.decision.AllowSession? || c.decision.AllowAlways? {
        AddGrant(c);
      }
      SendResponse(c.id, c.decision, ByClick(c), accepted);
    }

    method AddGrant(c: Click)
      modifies this`grants, this`journal
      ensures Abs() == GrantTo(old(Abs()), c)
    {
      var thread, tool := c.prompt.thread, c.prompt.tool;
      journal := journal + [Given(thread, tool, c)];
      if thread == "" || tool == "" {
        return;
      }
      if thread !in grants {
        grants := grants[thread := map[]];
      }
      grants := grants[thread := grants[thread][tool := Grant(c.user, |journal| - 1)]];
    }

    method ClearGrants(thread: string) returns (n: nat)
      modifies this`grants, this`journal
      ensures Abs() == Clear(old(Abs()), thread)
      ensures n == if thread in old(grants) then |old(grants)[thread]| else 0
    {
      n := if thread in grants then |grants[thread]| else 0;
      grants := grants - {thread};
      journal := journal + [Cleared(thread)];
    }

    /** `order` is the order in which the prompts are visited. */
    method FailPending(runner: string, order: seq<nat>)
      requires forall id | id in prompts :: id in order
      modifies this`prompts
      ensures Abs() == FailPendingFor(old(Abs()), runner)
    {
      for i := 0 to |order|
        invariant prompts == map id | id in old(prompts) && !(old(prompts)[id].runner == runner && id in order[..i]) :: old(prompts)[id]
      {
        assert order[..i + 1] == order[..i] + [order[i]];
        if order[i] in prompts {
          if prompts[order[i]].runner != runner {
            continue;
          }
          prompts := prompts - {order[i]};
        }
      }
      assert order[..|order|] == order;
    }
  }
}
