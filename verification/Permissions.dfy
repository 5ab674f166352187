/**
 Permission requests: policy first, then session grants, then a human.

 Requests, prompts, clicks, clears, disconnects and reloads interleave; a click
 first looks the prompt up and only later claims it.
 */
module Permissions {
  import opened Wrappers

  datatype Policy = Policy(deny: seq<string>, allow: seq<string>, autoApprove: bool, approvers: seq<string>)

  datatype Decision = Deny | Allow | AllowSession | AllowAlways

  /** A request as it arrived, with its runner's policy then. */
  datatype Request = Request(runner: string, thread: string, tool: string, input: string, policy: Option<Policy>)

  datatype Prompt = Prompt(runner: string, thread: string, tool: string)

  /** A human answered, after being found to be an approver. */
  datatype Click = Click(id: nat, prompt: Prompt, user: string, decision: Decision, policy: Option<Policy>)

  /** `granted` is when: an index into the journal. */
  datatype Grant = Grant(user: string, granted: nat)

  datatype Fact = Given(thread: string, tool: string, click: Click) | Cleared(thread: string)

  datatype Source = Automatic | ByClick(click: Click)

  /** A response that was handed to a connection; `at` is the journal's length. */
  datatype Response = Response(id: nat, decision: Decision, source: Source, at: nat)

  datatype State = State(
    config: map<string, Policy>,
    grants: map<string, map<string, Grant>>,
    asking: map<nat, Prompt>,
    prompts: map<nat, Prompt>,
    clicks: map<nat, Click>,
    // history
    requests: map<nat, Request>,
    journal: seq<Fact>,
    responses: seq<Response>)

  /** Whether a rule covers a tool call. */
  type Matcher = (string, string, string) -> bool

  predicate MatchRules(covers: Matcher, rules: seq<string>, tool: string, input: string) {
    exists i :: 0 <= i < |rules| && covers(rules[i], tool, input)
  }

  predicate ApproverAllowed(policy: Option<Policy>, user: string) {
    policy.None? || policy.value.approvers == [] || user in policy.value.approvers
  }

  function PolicyOf(s: State, runner: string): Option<Policy> {
    if runner in s.config then Some(s.config[runner]) else None
  }

  function Held(s: State, thread: string, tool: string): Option<Grant> {
    if thread in s.grants && tool in s.grants[thread] then Some(s.grants[thread][tool]) else None
  }

  function Respond(s: State, id: nat, decision: Decision, source: Source, accepted: bool): State {
    if accepted then s.(responses := s.responses + [Response(id, decision, source, |s.journal|)]) else s
  }

  // ------------------------------------------------------------------
  // Handlers
  // ------------------------------------------------------------------

  /** `thread` is that of the live turn, if there is one; `accepted` is the fate of
      a frame handed to the connection. The prompt is posted in a second step. */
  function Ask(s: State, covers: Matcher, id: nat, runner: string, thread: Option<string>, tool: string, input: string,
               surface: bool, accepted: bool): State {
    if id in s.requests then s
    else if thread.None? then
      Respond(s.(requests := s.requests[id := Request(runner, "", tool, input, PolicyOf(s, runner))]), id, Deny, Automatic, accepted)
    else
      var policy := PolicyOf(s, runner);
      var s1 := s.(requests := s.requests[id := Request(runner, thread.value, tool, input, policy)]);
      if policy.Some? && MatchRules(covers, policy.value.deny, tool, input) then Respond(s1, id, Deny, Automatic, accepted)
      else if Held(s, thread.value, tool).Some? then Respond(s1, id, Allow, Automatic, accepted)
      else if policy.Some? && (MatchRules(covers, policy.value.allow, tool, input) || policy.value.autoApprove) then
        Respond(s1, id, Allow, Automatic, accepted)
      else if !surface then Respond(s1, id, Deny, Automatic, accepted)
      else s1.(asking := s1.asking[id := Prompt(runner, thread.value, tool)])
  }

  function Posted(s: State, id: nat, ok: bool, accepted: bool): State {
    if id !in s.asking then s else
    var s1 := s.(asking := s.asking - {id});
    if ok then s1.(prompts := s1.prompts[id := s.asking[id]]) else Respond(s1, id, Deny, Automatic, accepted)
  }

  /** The first half of a click: look up, and check the approver. */
  function Look(s: State, n: nat, id: nat, user: string, decision: Decision): State {
    if n in s.clicks || id !in s.prompts then s else
    var p := s.prompts[id];
    if !ApproverAllowed(PolicyOf(s, p.runner), user) then s
    else s.(clicks := s.clicks[n := Click(id, p, user, decision, PolicyOf(s, p.runner))])
  }

  /** A later grant of the same tool replaces an earlier one. */
  function Granting(grants: map<string, map<string, Grant>>, thread: string, tool: string, g: Grant): map<string, map<string, Grant>> {
    if thread == "" || tool == "" then grants
    else grants[thread := (if thread in grants then grants[thread] else map[])[tool := g]]
  }

  function GrantTo(s: State, c: Click): State {
    s.(journal := s.journal + [Given(c.prompt.thread, c.prompt.tool, c)],
       grants := Granting(s.grants, c.prompt.thread, c.prompt.tool, Grant(c.user, |s.journal|)))
  }

  /** The second half: claim the prompt, or find that somebody else has. */
  function Claim(s: State, n: nat, accepted: bool): State {
    if n !in s.clicks then s else
    var c := s.clicks[n];
    var s1 := s.(clicks := s.clicks - {n});
    if c.id !in s.prompts then s1
    else
      var s2 := s1.(prompts := s1.prompts - {c.id});
      var s3 := if c.decision.AllowSession? || c.decision.AllowAlways? then GrantTo(s2, c) else s2;
      Respond(s3, c.id, c.decision, ByClick(c), accepted)
  }

  /** A dropped runner's prompts are withdrawn without a response. */
  function FailPendingFor(s: State, runner: string): State {
    s.(prompts := map id | id in s.prompts && s.prompts[id].runner != runner :: s.prompts[id])
  }

  function Clear(s: State, thread: string): State {
    s.(grants := s.grants - {thread}, journal := s.journal + [Cleared(thread)])
  }

  datatype Event =
    | Asked(id: nat, runner: string, live: Option<string>, tool: string, input: string, surface: bool, accepted: bool)
    | Shown(id: nat, ok: bool, accepted: bool)
    | Looked(n: nat, id: nat, user: string, decision: Decision)
    | Claimed(n: nat, accepted: bool)
    | Dropped(runner: string)
    | Renewed(thread: string)
    | Reloaded(config: map<string, Policy>)

  function Apply(s: State, covers: Matcher, ev: Event): State {
    match ev
    case Asked(id, runner, live, tool, input, surface, accepted) =>
      Ask(s, covers, id, runner, live, tool, input, surface, accepted)
    case Shown(id, ok, accepted) => Posted(s, id, ok, accepted)
    case Looked(n, id, user, decision) => Look(s, n, id, user, decision)
    case Claimed(n, accepted) => Claim(s, n, accepted)
    case Dropped(runner) => FailPendingFor(s, runner)
    case Renewed(thread) => Clear(s, thread)
    case Reloaded(config) => s.(config := config)
  }

  const NEW := State(map[], map[], map[], map[], map[], map[], [], [])

  function Run(covers: Matcher, evs: seq<Event>): State
    decreases |evs|
  {
    if evs == [] then NEW else Apply(Run(covers, evs[..|evs| - 1]), covers, evs[|evs| - 1])
  }

  // ------------------------------------------------------------------
  // Why a response may be given
  // ------------------------------------------------------------------

  predicate Denied(covers: Matcher, q: Request) {
    q.policy.Some? && MatchRules(covers, q.policy.value.deny, q.tool, q.input)
  }

  /** An approver granted the tool, and the thread was not cleared up to `at`. */
  predicate GrantedAt(journal: seq<Fact>, thread: string, tool: string, k: nat, at: nat) {
    && k < at <= |journal|
    && journal[k].Given? && journal[k].thread == thread && journal[k].tool == tool
    && ApproverAllowed(journal[k].click.policy, journal[k].click.user)
    && (journal[k].click.decision.AllowSession? || journal[k].click.decision.AllowAlways?)
    && forall j | k < j < at :: journal[j] != Cleared(thread)
  }

  ghost predicate Justified(covers: Matcher, q: Request, r: Response, journal: seq<Fact>) {
    && !Denied(covers, q)
    && match r.source
       case ByClick(c) => c.id == r.id && c.decision == r.decision && ApproverAllowed(c.policy, c.user)
       case Automatic =>
         || (q.policy.Some? && (q.policy.value.autoApprove || MatchRules(covers, q.policy.value.allow, q.tool, q.input)))
         || exists k: nat :: GrantedAt(journal, q.thread, q.tool, k, r.at)
  }

  /** A prompt is offered for a request that no deny rule covered, and says so. */
  predicate Offered(requests: map<nat, Request>, covers: Matcher, id: nat, p: Prompt) {
    id in requests && !Denied(covers, requests[id])
    && p == Prompt(requests[id].runner, requests[id].thread, requests[id].tool)
  }

  ghost predicate Offers(covers: Matcher, requests: map<nat, Request>, prompts: map<nat, Prompt>) {
    forall id | id in prompts :: Offered(requests, covers, id, prompts[id])
  }

  ghost predicate Clicks(covers: Matcher, requests: map<nat, Request>, clicks: map<nat, Click>) {
    forall n | n in clicks ::
      Offered(requests, covers, clicks[n].id, clicks[n].prompt) && ApproverAllowed(clicks[n].policy, clicks[n].user)
  }

  ghost predicate Grants(grants: map<string, map<string, Grant>>, journal: seq<Fact>) {
    forall thread, tool | thread in grants && tool in grants[thread] ::
      GrantedAt(journal, thread, tool, grants[thread][tool].granted, |journal|)
  }

  ghost predicate Answers(covers: Matcher, requests: map<nat, Request>, responses: seq<Response>, journal: seq<Fact>) {
    && (forall i | 0 <= i < |responses| :: responses[i].id in requests)
    && (forall i | 0 <= i < |responses| && !responses[i].decision.Deny? ::
          Justified(covers, requests[responses[i].id], responses[i], journal))
  }

  /** Nothing that still waits has been answered, and nothing was answered twice. */
  ghost predicate Once(asking: map<nat, Prompt>, prompts: map<nat, Prompt>, responses: seq<Response>) {
    && asking.Keys !! prompts.Keys
    && (forall i | 0 <= i < |responses| :: responses[i].id !in asking && responses[i].id !in prompts)
    && (forall i, j | 0 <= i < j < |responses| :: responses[i].id != responses[j].id)
  }

  ghost predicate Inv(s: State, covers: Matcher) {
    && Offers(covers, s.requests, s.asking)
    && Offers(covers, s.requests, s.prompts)
    && Clicks(covers, s.requests, s.clicks)
    && Grants(s.grants, s.journal)
    && Answers(covers, s.requests, s.responses, s.journal)
    && Once(s.asking, s.prompts, s.responses)
  }

  predicate Unanswered(s: State, id: nat) {
    forall i | 0 <= i < |s.responses| :: s.responses[i].id != id
  }

  lemma RespondKeeps(s: State, covers: Matcher, id: nat, decision: Decision, source: Source, accepted: bool)
    requires Inv(s, covers) && id in s.requests && id !in s.asking && id !in s.prompts && Unanswered(s, id)
    requires decision.Deny? || Justified(covers, s.requests[id], Response(id, decision, source, |s.journal|), s.journal)
    ensures Inv(Respond(s, id, decision, source, accepted), covers)
  {
    hide Justified, GrantedAt, Offers, Clicks, Grants;
  }

  lemma RequestKeeps(s: State, covers: Matcher, id: nat, q: Request)
    requires Inv(s, covers) && id !in s.requests
    ensures Inv(s.(requests := s.requests[id := q]), covers) && Unanswered(s, id) && id !in s.asking && id !in s.prompts
  {
    hide Justified, GrantedAt, Denied, ApproverAllowed, Grants, Once;
  }

  lemma AskKeeps(s: State, covers: Matcher, id: nat, runner: string, live: Option<string>, tool: string, input: string,
                 surface: bool, accepted: bool)
    requires Inv(s, covers)
    ensures Inv(Ask(s, covers, id, runner, live, tool, input, surface, accepted), covers)
  {
    hide Inv, MatchRules, GrantedAt, Respond;
    if id !in s.requests {
      var policy := PolicyOf(s, runner);
      var q := Request(runner, if live.Some? then live.value else "", tool, input, policy);
      RequestKeeps(s, covers, id, q);
      var s1 := s.(requests := s.requests[id := q]);
      if live.None? || Denied(covers, q) {
        RespondKeeps(s1, covers, id, Deny, Automatic, accepted);
      } else if Held(s, q.thread, tool).Some? {
        GrantIsHeld(s, covers, q.thread, tool);
        RespondKeeps(s1, covers, id, Allow, Automatic, accepted);
      } else if policy.Some? && (MatchRules(covers, policy.value.allow, tool, input) || policy.value.autoApprove) {
        RespondKeeps(s1, covers, id, Allow, Automatic, accepted);
      } else if !surface {
        RespondKeeps(s1, covers, id, Deny, Automatic, accepted);
      } else {
        AskingKeeps(s1, covers, id);
      }
    }
  }

  lemma AskingKeeps(s: State, covers: Matcher, id: nat)
    requires Inv(s, covers) && id in s.requests && !Denied(covers, s.requests[id]) && Unanswered(s, id) && id !in s.prompts
    ensures var q := s.requests[id];
            Inv(s.(asking := s.asking[id := Prompt(q.runner, q.thread, q.tool)]), covers)
  {
    hide Justified, GrantedAt, Denied, ApproverAllowed, Clicks, Grants, Answers;
  }

  lemma GrantIsHeld(s: State, covers: Matcher, thread: string, tool: string)
    requires Inv(s, covers) && Held(s, thread, tool).Some?
    ensures GrantedAt(s.journal, thread, tool, Held(s, thread, tool).value.granted, |s.journal|)
  {
    hide GrantedAt, Offers, Clicks, Answers, Once;
  }

  lemma PostedKeeps(s: State, covers: Matcher, id: nat, ok: bool, accepted: bool)
    requires Inv(s, covers)
    ensures Inv(Posted(s, id, ok, accepted), covers)
  {
    hide Clicks, Grants, Answers, Offered;
    if id in s.asking && !ok {
      OfferedIsKnown(s.requests, covers, id, s.asking[id]);
      RespondKeeps(s.(asking := s.asking - {id}), covers, id, Deny, Automatic, accepted);
    }
  }

  lemma OfferedIsKnown(requests: map<nat, Request>, covers: Matcher, id: nat, p: Prompt)
    requires Offered(requests, covers, id, p)
    ensures id in requests && !Denied(covers, requests[id])
  {
    hide Denied;
  }

  lemma LookKeeps(s: State, covers: Matcher, n: nat, id: nat, user: string, decision: Decision)
    requires Inv(s, covers)
    ensures Inv(Look(s, n, id, user, decision), covers)
  {
    hide Grants, Answers, Offered, ApproverAllowed, Once;
  }

  /** Old entries mean the same in a longer journal. */
  lemma JournalGrows(covers: Matcher, requests: map<nat, Request>, responses: seq<Response>, journal: seq<Fact>, f: Fact)
    requires Answers(covers, requests, responses, journal)
    ensures Answers(covers, requests, responses, journal + [f])
  {
    hide ApproverAllowed, Denied, MatchRules, GrantedAt;
    forall i | 0 <= i < |responses| && !responses[i].decision.Deny?
      ensures Justified(covers, requests[responses[i].id], responses[i], journal + [f])
    {
      var q, r := requests[responses[i].id], responses[i];
      assert Justified(covers, q, r, journal);
      if k: nat :| GrantedAt(journal, q.thread, q.tool, k, r.at) {
        EntryStays(journal, f, q.thread, q.tool, k, r.at);
      }
    }
  }

  lemma EntryStays(journal: seq<Fact>, f: Fact, thread: string, tool: string, k: nat, at: nat)
    requires GrantedAt(journal, thread, tool, k, at)
    ensures GrantedAt(journal + [f], thread, tool, k, at)
  {
    hide ApproverAllowed;
  }

  lemma GrantsGrow(grants: map<string, map<string, Grant>>, journal: seq<Fact>, c: Click)
    requires Grants(grants, journal) && ApproverAllowed(c.policy, c.user)
    requires c.decision.AllowSession? || c.decision.AllowAlways?
    ensures Grants(Granting(grants, c.prompt.thread, c.prompt.tool, Grant(c.user, |journal|)),
                   journal + [Given(c.prompt.thread, c.prompt.tool, c)])
  {
    hide GrantedAt, ApproverAllowed;
    var thread, tool := c.prompt.thread, c.prompt.tool;
    var f := Given(thread, tool, c);
    NewlyGranted(journal, c);
    var now: map<string, map<string, Grant>> := Granting(grants, thread, tool, Grant(c.user, |journal|));
    forall u, v | u in now && v in now[u]
      ensures GrantedAt(journal + [f], u, v, now[u][v].granted, |journal| + 1)
    {
      if !(u == thread && v == tool && thread != "" && tool != "") {
        assert u in grants && v in grants[u] && grants[u][v] == now[u][v];
        StillGranted(journal, f, u, v, grants[u][v].granted);
      }
    }
  }

  lemma GrantKeeps(s: State, covers: Matcher, c: Click)
    requires Inv(s, covers) && ApproverAllowed(c.policy, c.user) && (c.decision.AllowSession? || c.decision.AllowAlways?)
    ensures Inv(GrantTo(s, c), covers)
  {
    hide Offers, Clicks, Answers, Once, Grants, Granting, ApproverAllowed;
    JournalGrows(covers, s.requests, s.responses, s.journal, Given(c.prompt.thread, c.prompt.tool, c));
    GrantsGrow(s.grants, s.journal, c);
  }

  lemma NewlyGranted(journal: seq<Fact>, c: Click)
    requires ApproverAllowed(c.policy, c.user) && (c.decision.AllowSession? || c.decision.AllowAlways?)
    ensures var f := Given(c.prompt.thread, c.prompt.tool, c);
            GrantedAt(journal + [f], c.prompt.thread, c.prompt.tool, |journal|, |journal| + 1)
  {
  }

  lemma StillGranted(journal: seq<Fact>, f: Fact, thread: string, tool: string, k: nat)
    requires GrantedAt(journal, thread, tool, k, |journal|) && f != Cleared(thread)
    ensures GrantedAt(journal + [f], thread, tool, k, |journal| + 1)
  {
    hide ApproverAllowed;
  }

  lemma ClickIsSound(s: State, covers: Matcher, n: nat)
    requires Inv(s, covers) && n in s.clicks
    ensures var c := s.clicks[n];
            Inv(s.(clicks := s.clicks - {n}), covers) && Offered(s.requests, covers, c.id, c.prompt) && ApproverAllowed(c.policy, c.user)
  {
    hide Offers, Offered, ApproverAllowed, Grants, Answers, Once;
  }

  lemma Withdraw(s: State, covers: Matcher, id: nat)
    requires Inv(s, covers) && id in s.prompts
    ensures Inv(s.(prompts := s.prompts - {id}), covers) && Unanswered(s, id) && id !in s.asking
  {
    hide Clicks, Offered, ApproverAllowed, Grants, Answers;
  }

  lemma ClaimKeeps(s: State, covers: Matcher, n: nat, accepted: bool)
    requires Inv(s, covers)
    ensures Inv(Claim(s, n, accepted), covers)
  {
    hide Inv, Respond, Granting, Denied, ApproverAllowed, GrantedAt;
    if n in s.clicks {
      var c := s.clicks[n];
      var s1 := s.(clicks := s.clicks - {n});
      ClickIsSound(s, covers, n);
      if c.id in s.prompts {
        var s2 := s1.(prompts := s1.prompts - {c.id});
        Withdraw(s1, covers, c.id);
        if c.decision.AllowSession? || c.decision.AllowAlways? {
          GrantKeeps(s2, covers, c);
          RespondKeeps(GrantTo(s2, c), covers, c.id, c.decision, ByClick(c), accepted);
        } else {
          RespondKeeps(s2, covers, c.id, c.decision, ByClick(c), accepted);
        }
      }
    }
  }

  lemma ClearKeeps(s: State, covers: Matcher, thread: string)
    requires Inv(s, covers)
    ensures Inv(Clear(s, thread), covers)
  {
    hide Offers, Clicks, Answers, Once, GrantedAt;
    var f := Cleared(thread);
    JournalGrows(covers, s.requests, s.responses, s.journal, f);
    forall u, v | u in s.grants && u != thread && v in s.grants[u]
      ensures GrantedAt(s.journal + [f], u, v, s.grants[u][v].granted, |s.journal| + 1)
    {
      StillGranted(s.journal, f, u, v, s.grants[u][v].granted);
    }
  }

  lemma DropKeeps(s: State, covers: Matcher, runner: string)
    requires Inv(s, covers)
    ensures Inv(FailPendingFor(s, runner), covers)
  {
    hide Clicks, Grants, Answers, Offered;
  }

  lemma ApplyKeeps(s: State, covers: Matcher, ev: Event)
    requires Inv(s, covers)
    ensures Inv(Apply(s, covers, ev), covers)
  {
    match ev
    case Asked(id, runner, live, tool, input, surface, accepted) =>
      AskKeeps(s, covers, id, runner, live, tool, input, surface, accepted);
    case Shown(id, ok, accepted) => PostedKeeps(s, covers, id, ok, accepted);
    case Looked(n, id, user, decision) => LookKeeps(s, covers, n, id, user, decision);
    case Claimed(n, accepted) => ClaimKeeps(s, covers, n, accepted);
    case Dropped(runner) => DropKeeps(s, covers, runner);
    case Renewed(thread) => ClearKeeps(s, covers, thread);
    case Reloaded(config) => ReloadKeeps(s, covers, config);
  }

  lemma ReloadKeeps(s: State, covers: Matcher, config: map<string, Policy>)
    requires Inv(s, covers)
    ensures Inv(s.(config := config), covers)
  {
    hide Offers, Clicks, Grants, Answers, Once;
  }

  lemma {:induction false} RunKeeps(covers: Matcher, evs: seq<Event>)
    ensures Inv(Run(covers, evs), covers)
    decreases |evs|
  {
    hide Inv, Apply;
    if evs == [] {
      assert Inv(NEW, covers) by { NewIsSound(covers); }
    } else {
      RunKeeps(covers, evs[..|evs| - 1]);
      ApplyKeeps(Run(covers, evs[..|evs| - 1]), covers, evs[|evs| - 1]);
    }
  }

  lemma NewIsSound(covers: Matcher)
    ensures Inv(NEW, covers)
  {
  }

  // ------------------------------------------------------------------
  // The policies that count are those in force
  // ------------------------------------------------------------------

  /** The configuration of the last reload. */
  function LastConfig(evs: seq<Event>): map<string, Policy> {
    if evs == [] then map[]
    else if evs[|evs| - 1].Reloaded? then evs[|evs| - 1].config
    else LastConfig(evs[..|evs| - 1])
  }

  function InForce(evs: seq<Event>, k: nat, runner: string): Option<Policy>
    requires k <= |evs|
  {
    var config := LastConfig(evs[..k]);
    if runner in config then Some(config[runner]) else None
  }

  /** A request came in while its recorded policy was in force. */
  ghost predicate CameIn(evs: seq<Event>, id: nat, q: Request) {
    exists k :: 0 <= k < |evs| && evs[k].Asked? && evs[k].id == id && evs[k].runner == q.runner
      && evs[k].tool == q.tool && evs[k].input == q.input && (evs[k].live.Some? ==> evs[k].live.value == q.thread)
      && q.policy == InForce(evs, k, q.runner)
  }

  /** So was a click looked at, and its approver. */
  ghost predicate CameFrom(evs: seq<Event>, c: Click) {
    exists k :: 0 <= k < |evs| && evs[k].Looked? && evs[k].id == c.id && evs[k].user == c.user
      && evs[k].decision == c.decision && c.policy == InForce(evs, k, c.prompt.runner)
  }

  ghost predicate Dated(s: State, evs: seq<Event>) {
    && s.config == LastConfig(evs)
    && (forall id | id in s.requests :: CameIn(evs, id, s.requests[id]))
    && (forall n | n in s.clicks :: CameFrom(evs, s.clicks[n]))
    && (forall k | 0 <= k < |s.journal| && s.journal[k].Given? :: CameFrom(evs, s.journal[k].click))
    && (forall i | 0 <= i < |s.responses| && s.responses[i].source.ByClick? :: CameFrom(evs, s.responses[i].source.click))
  }

  lemma StillDated(s: State, front: seq<Event>, ev: Event)
    requires Dated(s, front)
    ensures Dated(s.(config := LastConfig(front + [ev])), front + [ev])
  {
    var evs := front + [ev];
    forall k: nat, runner: string | k < |front|
      ensures evs[k] == front[k] && InForce(evs, k, runner) == InForce(front, k, runner)
    {
      assert evs[..k] == front[..k];
    }
    hide InForce;
    forall id, q | CameIn(front, id, q)
      ensures CameIn(evs, id, q)
    {
      var k :| 0 <= k < |front| && front[k].Asked? && front[k].id == id && front[k].runner == q.runner
        && front[k].tool == q.tool && front[k].input == q.input && (front[k].live.Some? ==> front[k].live.value == q.thread)
        && q.policy == InForce(front, k, q.runner);
      assert evs[k] == front[k];
    }
    forall c | CameFrom(front, c)
      ensures CameFrom(evs, c)
    {
      var k :| 0 <= k < |front| && front[k].Looked? && front[k].id == c.id && front[k].user == c.user
        && front[k].decision == c.decision && c.policy == InForce(front, k, c.prompt.runner);
      assert evs[k] == front[k];
    }
    hide CameIn, CameFrom;
  }

  predicate AddsOnly(was: seq<Response>, now: seq<Response>, source: Source) {
    was <= now && forall i | |was| <= i < |now| :: now[i].source == source
  }

  lemma RespondAdds(s: State, id: nat, decision: Decision, source: Source, accepted: bool)
    ensures AddsOnly(s.responses, Respond(s, id, decision, source, accepted).responses, source)
    ensures Respond(s, id, decision, source, accepted) == s.(responses := Respond(s, id, decision, source, accepted).responses)
  {
  }

  lemma AskAdds(s: State, covers: Matcher, id: nat, runner: string, live: Option<string>, tool: string, input: string,
                surface: bool, accepted: bool)
    ensures var s' := Ask(s, covers, id, runner, live, tool, input, surface, accepted);
            && s'.requests == (if id in s.requests then s.requests
                               else s.requests[id := Request(runner, if live.Some? then live.value else "", tool, input, PolicyOf(s, runner))])
            && s'.clicks == s.clicks && s'.config == s.config && s'.journal == s.journal
            && AddsOnly(s.responses, s'.responses, Automatic)
  {
    hide MatchRules, Held, Respond;
    var q := Request(runner, if live.Some? then live.value else "", tool, input, PolicyOf(s, runner));
    RespondAdds(s.(requests := s.requests[id := q]), id, Deny, Automatic, accepted);
    RespondAdds(s.(requests := s.requests[id := q]), id, Allow, Automatic, accepted);
  }

  lemma ClaimAdds(s: State, n: nat, accepted: bool)
    ensures var s' := Claim(s, n, accepted);
            && s'.requests == s.requests && s'.config == s.config
            && (forall x | x in s'.clicks :: x in s.clicks && s'.clicks[x] == s.clicks[x])
            && (s'.journal == s.journal
                || (n in s.clicks && s'.journal == s.journal + [Given(s.clicks[n].prompt.thread, s.clicks[n].prompt.tool, s.clicks[n])]))
            && (n in s.clicks ==> AddsOnly(s.responses, s'.responses, ByClick(s.clicks[n])))
            && (n !in s.clicks ==> s'.responses == s.responses)
  {
    hide Granting, Respond;
    if n in s.clicks {
      var c := s.clicks[n];
      var s2 := s.(clicks := s.clicks - {n}).(prompts := s.prompts - {c.id});
      RespondAdds(s2, c.id, c.decision, ByClick(c), accepted);
      RespondAdds(GrantTo(s2, c), c.id, c.decision, ByClick(c), accepted);
    }
  }

  lemma OthersAdd(s: State, covers: Matcher, ev: Event)
    requires !ev.Asked? && !ev.Claimed?
    ensures var s' := Apply(s, covers, ev);
            && s'.requests == s.requests && s'.config == (if ev.Reloaded? then ev.config else s.config)
            && (s'.clicks == s.clicks
                || (ev.Looked? && ev.id in s.prompts
                    && s'.clicks == s.clicks[ev.n := Click(ev.id, s.prompts[ev.id], ev.user, ev.decision,
                                                           PolicyOf(s, s.prompts[ev.id].runner))]))
            && (s'.journal == s.journal || (ev.Renewed? && s'.journal == s.journal + [Cleared(ev.thread)]))
            && AddsOnly(s.responses, s'.responses, Automatic)
  {
    hide ApproverAllowed, Ask, Claim, Respond;
    if ev.Shown? {
      RespondAdds(s.(asking := s.asking - {ev.id}), ev.id, Deny, Automatic, ev.accepted);
    }
  }

  lemma NewIsDated(s: State, covers: Matcher, front: seq<Event>, ev: Event)
    requires s.config == LastConfig(front)
    ensures var evs := front + [ev];
            && (ev.Asked? ==> CameIn(evs, ev.id, Request(ev.runner, if ev.live.Some? then ev.live.value else "", ev.tool, ev.input,
                                                          PolicyOf(s, ev.runner))))
            && (ev.Looked? ==> forall p: Prompt :: CameFrom(evs, Click(ev.id, p, ev.user, ev.decision, PolicyOf(s, p.runner))))
            && LastConfig(evs) == (if ev.Reloaded? then ev.config else s.config)
  {
    var evs := front + [ev];
    assert evs[|front|] == ev && evs[..|front|] == front;
    forall p: Prompt | ev.Looked?
      ensures CameFrom(evs, Click(ev.id, p, ev.user, ev.decision, PolicyOf(s, p.runner)))
    {
      var c := Click(ev.id, p, ev.user, ev.decision, PolicyOf(s, p.runner));
      assert c.policy == InForce(evs, |front|, p.runner);
    }
    if ev.Asked? {
      assert PolicyOf(s, ev.runner) == InForce(evs, |front|, ev.runner);
    }
  }

  lemma StepDated(s: State, covers: Matcher, front: seq<Event>, ev: Event)
    requires Dated(s, front)
    ensures Dated(Apply(s, covers, ev), front + [ev])
  {
    hide CameIn, CameFrom, LastConfig, Ask, Claim, Posted, Look, FailPendingFor, Clear;
    StillDated(s, front, ev);
    NewIsDated(s, covers, front, ev);
    match ev
    case Asked(id, runner, live, tool, input, surface, accepted) =>
      AskAdds(s, covers, id, runner, live, tool, input, surface, accepted);
    case Claimed(n, accepted) => ClaimAdds(s, n, accepted);
    case _ => OthersAdd(s, covers, ev); hide Apply;
  }

  lemma {:induction false} RunDated(covers: Matcher, evs: seq<Event>)
    ensures Dated(Run(covers, evs), evs)
    decreases |evs|
  {
    hide Apply, CameIn, CameFrom;
    if evs != [] {
      RunDated(covers, evs[..|evs| - 1]);
      StepDated(Run(covers, evs[..|evs| - 1]), covers, evs[..|evs| - 1], evs[|evs| - 1]);
      assert evs[..|evs| - 1] + [evs[|evs| - 1]] == evs;
    }
  }

  // ------------------------------------------------------------------
  // Over every run
  // ------------------------------------------------------------------

  /** Nothing is allowed without a reason: the request was covered by no deny rule
      when it arrived, and an allow rule, unattended mode, an approver's answer or a
      grant not cleared since stands behind the response. Rules and approvers are those
      of the last reload before the request arrived, or before the click. */
  lemma NothingUnjustified(covers: Matcher, evs: seq<Event>, i: nat)
    requires i < |Run(covers, evs).responses| && !Run(covers, evs).responses[i].decision.Deny?
    ensures var s := Run(covers, evs); var r := s.responses[i];
            && r.id in s.requests && Justified(covers, s.requests[r.id], r, s.journal)
            && CameIn(evs, r.id, s.requests[r.id])
            && (r.source.ByClick? ==> CameFrom(evs, r.source.click))
            && (forall k | 0 <= k < |s.journal| && s.journal[k].Given? :: CameFrom(evs, s.journal[k].click))
  {
    RunKeeps(covers, evs);
    RunDated(covers, evs);
    hide Run, Justified, Offers, Clicks, Grants, CameIn, CameFrom, LastConfig;
  }

  /** However many people click, and whenever, a request gets one response at most. */
  lemma OneResponse(covers: Matcher, evs: seq<Event>, i: nat, j: nat)
    requires i < |Run(covers, evs).responses| && j < |Run(covers, evs).responses|
    requires Run(covers, evs).responses[i].id == Run(covers, evs).responses[j].id
    ensures i == j
  {
    RunKeeps(covers, evs);
    hide Run, Justified, Offers, Clicks, Grants;
  }

  /** After a clear the thread's next request for a tool is not waved through by
      any earlier grant. */
  lemma ClearForgets(s: State, covers: Matcher, thread: string, id: nat, runner: string, tool: string, input: string,
                     surface: bool, accepted: bool)
    requires Inv(s, covers) && id !in s.requests && runner in s.config
    requires !s.config[runner].autoApprove && !MatchRules(covers, s.config[runner].allow, tool, input)
    ensures var s' := Ask(Clear(s, thread), covers, id, runner, Some(thread), tool, input, surface, accepted);
            forall i | 0 <= i < |s'.responses| && s'.responses[i].id == id :: s'.responses[i].decision.Deny?
  {
    assert forall i | 0 <= i < |s.responses| :: s.responses[i].id != id by {
      hide Justified, Offers, Clicks, Grants, Once;
    }
    hide Inv, MatchRules;
  }
}
