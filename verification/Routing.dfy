/**
 * Provisioning and clean-up of what a pipeline owns on shared infrastructure: a rule on the one listener, a
 * target group, an ECS service and event rules. A deploy can throw between any two of its effects, so its
 * record may never learn what it provisioned.
 */
module Routing {
  import opened Sequences

  datatype Rule = Rule(arn: nat, host: string, target: nat)

  /** A deployment record, as far as clean-up reads it. */
  datatype Record = Record(id: nat, pipelineId: string, deployUrl: Option<string>, targetGroup: Option<nat>)

  datatype EventRule = DeployRule(id: nat) | HealthRule(id: nat)

  datatype State = State(
    pipelines: map<string, Option<string>>,   // pipelines in the database and their deployUrl
    created: set<string>,                     // every pipeline id there ever was
    records: seq<Record>,                     // in creation order
    rules: seq<Rule>,
    targetGroups: map<string, nat>,           // name to ARN
    services: set<string>,
    eventRules: set<EventRule>,
    nextArn: nat,
    nextRecord: nat)

  const INITIAL := State(map[], {}, [], [], map[], {}, {}, 0, 0)

  function Prefix(pipelineId: string): string {
    Take(pipelineId, 20)
  }

  function TargetGroupName(pipelineId: string): string {
    "tg-" + Prefix(pipelineId)
  }

  function ServiceName(pipelineId: string): string {
    "otto-" + pipelineId
  }

  // ---------------------------------------------------------------- the effects of one deploy, in order

  function StartTracking(s: State, p: string): State {
    s.(records := s.records + [Record(s.nextRecord, p, None, None)], nextRecord := s.nextRecord + 1)
  }

  /** An existing URL is reused; otherwise a new one is saved on the pipeline. */
  function SaveUrl(s: State, p: string, freshUrl: string): State
    requires p in s.pipelines
  {
    if s.pipelines[p].Some? then s else s.(pipelines := s.pipelines[p := Some(freshUrl)])
  }

  function EnsureTargetGroup(s: State, p: string): State {
    if TargetGroupName(p) in s.targetGroups then s
    else s.(targetGroups := s.targetGroups[TargetGroupName(p) := s.nextArn], nextArn := s.nextArn + 1)
  }

  /** findRulesByHostHeader, first match. */
  function FindRule(rules: seq<Rule>, host: string): (r: Option<nat>)
    ensures r.Some? ==> r.value < |rules| && rules[r.value].host == host
    ensures r.None? ==> forall i :: 0 <= i < |rules| ==> rules[i].host != host
  {
    FindFirst(rules, (rule: Rule) => rule.host == host)
  }

  /** An existing rule for the host is pointed at the target group, otherwise one is created. */
  function EnsureRule(s: State, host: string, target: nat): State {
    var found := FindRule(s.rules, host);
    if found.Some? then s.(rules := s.rules[found.value := s.rules[found.value].(target := target)])
    else s.(rules := s.rules + [Rule(s.nextArn, host, target)], nextArn := s.nextArn + 1)
  }

  function EnsureService(s: State, p: string): State {
    s.(services := s.services + {ServiceName(p)})
  }

  /** The last write of deployAfterBuild: only now does the record know the URL and the target group. */
  function RecordResources(s: State, host: string, target: nat): State
    requires |s.records| > 0
  {
    var last := |s.records| - 1;
    s.(records := s.records[last := s.records[last].(deployUrl := Some(host), targetGroup := Some(target))])
  }

  /** deployAfterBuild cut off after the given number of effects. */
  function Deploy(s: State, p: string, freshUrl: string, effects: nat): State {
    if p !in s.pipelines || effects < 1 then s
    else
      var tracked := StartTracking(s, p);
      if effects < 2 then tracked else AfterNaming(SaveUrl(tracked, p, freshUrl), p, s.nextRecord, effects)
  }

  function AfterNaming(s: State, p: string, id: nat, effects: nat): State
    requires p in s.pipelines && s.pipelines[p].Some? && |s.records| > 0
  {
    if effects < 3 then s
    else
      var grouped := EnsureTargetGroup(s, p);
      if effects < 4 then grouped
      else
        var host, target := s.pipelines[p].value, grouped.targetGroups[TargetGroupName(p)];
        AfterRouting(EnsureRule(grouped, host, target), p, id, host, target, effects)
  }

  function AfterRouting(s: State, p: string, id: nat, host: string, target: nat, effects: nat): State
    requires |s.records| > 0
  {
    var served := if effects < 5 then s else EnsureService(s, p);
    var watched := served.(eventRules := served.eventRules
                             + (if effects < 6 then {} else {DeployRule(id)})
                             + (if effects < 7 then {} else {HealthRule(id)}));
    if effects < 8 then watched else RecordResources(watched, host, target)
  }

  // ---------------------------------------------------------------- clean-up

  function RecordsOf(records: seq<Record>, p: string): seq<Record> {
    if |records| == 0 then []
    else RecordsOf(records[1..], p) + if records[0].pipelineId == p then [records[0]] else []   // newest first
  }

  function RecordsOfOthers(records: seq<Record>, p: string): seq<Record> {
    if |records| == 0 then []
    else (if records[0].pipelineId != p then [records[0]] else []) + RecordsOfOthers(records[1..], p)
  }

  function WithHost(rules: seq<Rule>, host: string): seq<Rule> {
    if |rules| == 0 then []
    else (if rules[0].host == host then [rules[0]] else []) + WithHost(rules[1..], host)
  }

  function WithoutHost(rules: seq<Rule>, host: string): seq<Rule> {
    if |rules| == 0 then []
    else (if rules[0].host != host then [rules[0]] else []) + WithoutHost(rules[1..], host)
  }

  function RemoveRule(rules: seq<Rule>, rule: Rule): seq<Rule> {
    if |rules| == 0 then []
    else if rules[0] == rule then rules[1..]
    else [rules[0]] + RemoveRule(rules[1..], rule)
  }

  /** The rules left, and whether a deletion threw because the rule was gone. */
  datatype Deletion = Deletion(rules: seq<Rule>, threw: bool)

  function DeleteAll(rules: seq<Rule>, doomed: seq<Rule>): Deletion
    decreases |doomed|
  {
    if |doomed| == 0 then Deletion(rules, false)
    else if doomed[0] !in rules then Deletion(rules, true)
    else DeleteAll(RemoveRule(rules, doomed[0]), doomed[1..])
  }

  /** cleanupAlbRules: the rule list is read once, and the first failing deletion abandons the rest. */
  function DeleteRulesOf(rules: seq<Rule>, listed: seq<Rule>, records: seq<Record>): Deletion
    decreases |records|
  {
    if |records| == 0 then Deletion(rules, false)
    else if records[0].deployUrl.None? then DeleteRulesOf(rules, listed, records[1..])
    else
      var d := DeleteAll(rules, WithHost(listed, records[0].deployUrl.value));
      if d.threw then d else DeleteRulesOf(d.rules, listed, records[1..])
  }

  predicate Referenced(rules: seq<Rule>, target: nat) {
    exists i :: 0 <= i < |rules| && rules[i].target == target
  }

  /** deleteTargetGroup: refused while a rule forwards to it; a missing group is an error that is swallowed. */
  function DeleteTargetGroup(groups: map<string, nat>, rules: seq<Rule>, target: nat): map<string, nat> {
    if Referenced(rules, target) then groups else map name | name in groups && groups[name] != target :: groups[name]
  }

  function DeleteTargetGroupsOf(groups: map<string, nat>, rules: seq<Rule>, records: seq<Record>): map<string, nat> {
    if |records| == 0 then groups
    else
      var rest := if records[0].targetGroup.Some? then DeleteTargetGroup(groups, rules, records[0].targetGroup.value) else groups;
      DeleteTargetGroupsOf(rest, rules, records[1..])
  }

  function EventRulesOf(records: seq<Record>): set<EventRule> {
    if |records| == 0 then {}
    else {DeployRule(records[0].id), HealthRule(records[0].id)} + EventRulesOf(records[1..])
  }

  /** deletePipeline: cleanupPipelineResources, then the pipeline row. Failures of the ECS part are swallowed. */
  function Cleanup(s: State, p: string, serviceDeleted: bool): State {
    if p !in s.pipelines then s
    else
      var own := RecordsOf(s.records, p);
      var rules := DeleteRulesOf(s.rules, s.rules, own).rules;
      s.(services := if serviceDeleted then s.services - {ServiceName(p)} else s.services,
         rules := rules,
         targetGroups := DeleteTargetGroupsOf(s.targetGroups, rules, own),
         eventRules := s.eventRules - EventRulesOf(own),
         records := RecordsOfOthers(s.records, p),
         pipelines := s.pipelines - {p})
  }

  /** The same operations as they run: assignments in sequence, and nested loops that the first exception abandons. */
  class Cloud {
    var pipelines: map<string, Option<string>>
    var created: set<string>
    var records: seq<Record>
    var rules: seq<Rule>
    var targetGroups: map<string, nat>
    var services: set<string>
    var eventRules: set<EventRule>
    var nextArn: nat
    var nextRecord: nat

    ghost function Snapshot(): State
      reads this
    {
      State(pipelines, created, records, rules, targetGroups, services, eventRules, nextArn, nextRecord)
    }

    constructor ()
      ensures Snapshot() == INITIAL
    {
      pipelines, created, records, rules := map[], {}, [], [];
      targetGroups, services, eventRules := map[], {}, {};
      nextArn, nextRecord := 0, 0;
    }

    method SetupTargetGroup(p: string) returns (target: nat)
      modifies this`targetGroups, this`nextArn
      ensures Snapshot() == EnsureTargetGroup(old(Snapshot()), p)
      ensures TargetGroupName(p) in targetGroups && target == targetGroups[TargetGroupName(p)]
    {
      if TargetGroupName(p) !in targetGroups {
        targetGroups := targetGroups[TargetGroupName(p) := nextArn];
        nextArn := nextArn + 1;
      }
      return targetGroups[TargetGroupName(p)];
    }

    method SetupAlbRouting(host: string, target: nat)
      modifies this`rules, this`nextArn
      ensures Snapshot() == EnsureRule(old(Snapshot()), host, target)
    {
      var found := FindRule(rules, host);
      if found.Some? {
        rules := rules[found.value := rules[found.value].(target := target)];
      } else {
        rules := rules + [Rule(nextArn, host, target)];
        nextArn := nextArn + 1;
      }
    }

    /** deployAfterBuild; `effects` is how many of its effects happen before it throws, if it does. */
    method DeployAfterBuild(p: string, freshUrl: string, effects: nat)
      modifies this
      ensures Snapshot() == Deploy(old(Snapshot()), p, freshUrl, effects)
    {
      if p !in pipelines || effects < 1 { return; }
      hide AfterNaming, StartTracking, SaveUrl;
      var id := StartDeploymentTracking(p);
      if effects < 2 { return; }
      var deployUrl := ReuseOrSaveUrl(p, freshUrl);
      Provision(p, id, deployUrl, effects);
    }

    method StartDeploymentTracking(p: string) returns (id: nat)
      modifies this`records, this`nextRecord
      ensures Snapshot() == StartTracking(old(Snapshot()), p)
      ensures id == old(nextRecord) && |records| > 0
    {
      id := nextRecord;
      records := records + [Record(id, p, None, None)];
      nextRecord := nextRecord + 1;
    }

    method Provision(p: string, id: nat, deployUrl: string, effects: nat)
      requires p in pipelines && pipelines[p] == Some(deployUrl) && |records| > 0
      modifies this
      ensures Snapshot() == AfterNaming(old(Snapshot()), p, id, effects)
    {
      hide EnsureRule, EnsureTargetGroup, AfterRouting, TargetGroupName;
      if effects < 3 { return; }
      var target := SetupTargetGroup(p);
      if effects < 4 { return; }
      SetupAlbRouting(deployUrl, target);
      FinishDeploy(p, id, deployUrl, target, effects);
    }

    method ReuseOrSaveUrl(p: string, freshUrl: string) returns (deployUrl: string)
      requires p in pipelines
      modifies this`pipelines
      ensures Snapshot() == SaveUrl(old(Snapshot()), p, freshUrl)
      ensures p in pipelines && pipelines[p] == Some(deployUrl)
    {
      if pipelines[p].None? {
        pipelines := pipelines[p := Some(freshUrl)];
      }
      return pipelines[p].value;
    }

    /** Service, event rules, and the record, once the rule is in place. */
    method FinishDeploy(p: string, id: nat, host: string, target: nat, effects: nat)
      requires |records| > 0
      modifies this`services, this`eventRules, this`records
      ensures Snapshot() == AfterRouting(old(Snapshot()), p, id, host, target, effects)
    {
      if effects < 5 { return; }
      services := services + {ServiceName(p)};
      if effects < 6 { return; }
      eventRules := eventRules + {DeployRule(id)};
      if effects < 7 { return; }
      eventRules := eventRules + {HealthRule(id)};
      if effects < 8 { return; }
      var last := |records| - 1;
      records := records[last := records[last].(deployUrl := Some(host), targetGroup := Some(target))];
    }

    method DeleteRule(rule: Rule) returns (threw: bool)
      modifies this`rules
      ensures threw == (rule !in old(rules))
      ensures rules == if threw then old(rules) else RemoveRule(old(rules), rule)
    {
      if rule !in rules {
        return true;
      }
      rules := RemoveRule(rules, rule);
      return false;
    }

    method CleanupAlbRules(deployments: seq<Record>)
      modifies this`rules
      ensures rules == DeleteRulesOf(old(rules), old(rules), deployments).rules
    {
      var listed := rules;
      for k := 0 to |deployments|
        invariant DeleteRulesOf(rules, listed, deployments[k..]) == DeleteRulesOf(listed, listed, deployments)
      {
        assert deployments[k..][1..] == deployments[k + 1..];
        if deployments[k].deployUrl.Some? {
          var matching := WithHost(listed, deployments[k].deployUrl.value);
          ghost var before := rules;
          for m := 0 to |matching|
            invariant DeleteAll(rules, matching[m..]) == DeleteAll(before, matching)
          {
            assert matching[m..][1..] == matching[m + 1..];
            var threw := DeleteRule(matching[m]);
            if threw {
              return;
            }
          }
        }
      }
    }

    method CleanupTargetGroups(deployments: seq<Record>)
      modifies this`targetGroups
      ensures targetGroups == DeleteTargetGroupsOf(old(targetGroups), rules, deployments)
    {
      for k := 0 to |deployments|
        invariant DeleteTargetGroupsOf(targetGroups, rules, deployments[k..]) ==
                  DeleteTargetGroupsOf(old(targetGroups), rules, deployments)
      {
        assert deployments[k..][1..] == deployments[k + 1..];
        if deployments[k].targetGroup.Some? {
          targetGroups := DeleteTargetGroup(targetGroups, rules, deployments[k].targetGroup.value);
        }
      }
    }

    method CleanupEventBridgeRules(deployments: seq<Record>)
      modifies this`eventRules
      ensures eventRules == old(eventRules) - EventRulesOf(deployments)
    {
      for k := 0 to |deployments|
        invariant eventRules - EventRulesOf(deployments[k..]) == old(eventRules) - EventRulesOf(deployments)
      {
        assert deployments[k..][1..] == deployments[k + 1..];
        eventRules := eventRules - {DeployRule(deployments[k].id)};
        eventRules := eventRules - {HealthRule(deployments[k].id)};
      }
    }

    /** deletePipeline */
    method DeletePipeline(p: string, serviceDeleted: bool)
      modifies this
      ensures Snapshot() == Cleanup(old(Snapshot()), p, serviceDeleted)
    {
      if p !in pipelines {
        return;
      }
      var activeDeployments := RecordsOf(records, p);
      if serviceDeleted {
        services := services - {ServiceName(p)};
      }
      CleanupAlbRules(activeDeployments);
      CleanupTargetGroups(activeDeployments);
      CleanupEventBridgeRules(activeDeployments);
      records := RecordsOfOthers(records, p);
      pipelines := pipelines - {p};
    }
  }

  // ---------------------------------------------------------------- runs

  datatype Step =
    | CreatePipeline(p: string)
    | DeployPipeline(p: string, freshUrl: string, effects: nat)
    | CompleteDeployment(id: nat)                       // its event rules are removed
    | DeletePipeline(p: string, serviceDeleted: bool)

  predicate HasHost(rules: seq<Rule>, host: string) {
    exists i :: 0 <= i < |rules| && rules[i].host == host
  }

  predicate IsFresh(s: State, url: string) {
    !HasHost(s.rules, url) && forall p :: p in s.pipelines ==> s.pipelines[p] != Some(url)
  }

  /** Ids are new and differ within their first 20 characters; generated URLs are new. A step that is not so is skipped. */
  function Do(s: State, step: Step): State {
    match step
    case CreatePipeline(p) =>
      if forall q :: q in s.created ==> Prefix(q) != Prefix(p)
      then s.(pipelines := s.pipelines[p := None], created := s.created + {p}) else s
    case DeployPipeline(p, freshUrl, effects) => if IsFresh(s, freshUrl) then Deploy(s, p, freshUrl, effects) else s
    case CompleteDeployment(id) => s.(eventRules := s.eventRules - {DeployRule(id), HealthRule(id)})
    case DeletePipeline(p, serviceDeleted) => Cleanup(s, p, serviceDeleted)
  }

  function Run(steps: seq<Step>): State {
    if |steps| == 0 then INITIAL else Do(Run(steps[..|steps| - 1]), steps[|steps| - 1])
  }

  // ---------------------------------------------------------------- what holds in every state

  predicate OneRulePerHost(rules: seq<Rule>) {
    forall i, j :: 0 <= i < j < |rules| ==> rules[i].host != rules[j].host
  }

  predicate HasGroup(s: State, p: string) {
    TargetGroupName(p) in s.targetGroups
  }

  predicate Owns(s: State, p: string, target: nat) {
    HasGroup(s, p) && s.targetGroups[TargetGroupName(p)] == target
  }

  predicate IdsApart(s: State) {
    && s.pipelines.Keys <= s.created
    && (forall p, q :: p in s.created && q in s.created && p != q ==> Prefix(p) != Prefix(q))
  }

  predicate UrlsApart(s: State) {
    forall p, q :: p in s.pipelines && q in s.pipelines && p != q && s.pipelines[p].Some? ==> s.pipelines[p] != s.pipelines[q]
  }

  /** A rule carries the host of a pipeline exactly when it forwards to that pipeline's own target group. */
  predicate RulesForwardToOwners(s: State) {
    forall p, r :: p in s.pipelines && r in s.rules ==> (s.pipelines[p] == Some(r.host) <==> Owns(s, p, r.target))
  }

  predicate GroupsApart(s: State) {
    && (forall m, n :: m in s.targetGroups && n in s.targetGroups && m != n ==> s.targetGroups[m] != s.targetGroups[n])
    && (forall n :: n in s.targetGroups ==> s.targetGroups[n] < s.nextArn)
    && (forall r :: r in s.rules ==> r.target < s.nextArn)
    && (forall n :: n in s.targetGroups ==> exists p :: p in s.created && n == TargetGroupName(p))
  }

  predicate RecordTrue(s: State, r: Record) {
    && r.pipelineId in s.pipelines && r.id < s.nextRecord
    && (r.deployUrl.Some? <==> r.targetGroup.Some?)
    && (r.deployUrl.Some? ==>
          s.pipelines[r.pipelineId] == r.deployUrl && Owns(s, r.pipelineId, r.targetGroup.value)
          && HasHost(s.rules, r.deployUrl.value))
  }

  predicate RecordsTrue(s: State) {
    && (forall r :: r in s.records ==> RecordTrue(s, r))
    && IdsDiffer(s.records)
  }

  predicate IdsDiffer(records: seq<Record>) {
    forall i, j :: 0 <= i < j < |records| ==> records[i].id != records[j].id
  }

  predicate Invariant(s: State) {
    IdsApart(s) && UrlsApart(s) && OneRulePerHost(s.rules) && RulesForwardToOwners(s) && GroupsApart(s) && RecordsTrue(s)
  }

  lemma NamesApart(p: string, q: string)
    requires Prefix(p) != Prefix(q)
    ensures TargetGroupName(p) != TargetGroupName(q)
  {
    assert TargetGroupName(p)[3..] == Prefix(p) && TargetGroupName(q)[3..] == Prefix(q);
  }

  lemma CreateKeepsInvariant(s: State, p: string)
    requires Invariant(s)
    ensures Invariant(Do(s, CreatePipeline(p)))
  {
    if forall q :: q in s.created ==> Prefix(q) != Prefix(p) {
      forall q | q in s.created
        ensures TargetGroupName(q) != TargetGroupName(p)
      {
        NamesApart(q, p);
      }
      assert !HasGroup(s, p);
      var s' := Do(s, CreatePipeline(p));
      assert RecordsTrue(s') by {
        hide GroupsApart, UrlsApart, IdsApart, RulesForwardToOwners, OneRulePerHost;
        assert forall r :: r in s.records ==> RecordTrue(s, r) && RecordTrue(s', r);
      }
      assert GroupsApart(s') by {
        hide RecordsTrue, UrlsApart, IdsApart, RulesForwardToOwners, OneRulePerHost;
        assert forall q :: q in s.created ==> q in s'.created;
      }
      assert RulesForwardToOwners(s') by {
        hide RecordsTrue, UrlsApart, IdsApart, GroupsApart, OneRulePerHost;
      }
      hide GroupsApart, RulesForwardToOwners;
      hide RecordsTrue;
    }
  }

  lemma TrackingKeepsInvariant(s: State, p: string)
    requires Invariant(s) && p in s.pipelines
    ensures Invariant(StartTracking(s, p))
  {
    assert forall r :: r in s.records ==> RecordTrue(s, r);
    forall i | 0 <= i < |s.records|
      ensures s.records[i].id < s.nextRecord
    {
      assert RecordTrue(s, s.records[i]);
    }
  }

  lemma UrlKeepsInvariant(s: State, p: string, freshUrl: string)
    requires Invariant(s) && p in s.pipelines && IsFresh(s, freshUrl)
    ensures Invariant(SaveUrl(s, p, freshUrl))
  {
    hide GroupsApart;
    var s' := SaveUrl(s, p, freshUrl);
    assert forall r :: r in s.records ==> RecordTrue(s, r) && RecordTrue(s', r);
    assert GroupsApart(s') by {
      GroupsIgnoreUrls(s, s');
    }
  }

  lemma GroupsIgnoreUrls(s: State, s': State)
    requires GroupsApart(s) && s' == s.(pipelines := s'.pipelines)
    ensures GroupsApart(s')
  {
  }

  lemma GroupKeepsInvariant(s: State, p: string)
    requires Invariant(s) && p in s.pipelines
    ensures Invariant(EnsureTargetGroup(s, p))
  {
    assert forall r :: r in s.records ==> RecordTrue(s, r);
    forall q | q in s.created && q != p
      ensures TargetGroupName(q) != TargetGroupName(p)
    {
      NamesApart(q, p);
    }
  }

  lemma RuleKeepsInvariant(s: State, p: string, host: string, target: nat)
    requires Invariant(s) && p in s.pipelines && s.pipelines[p] == Some(host) && Owns(s, p, target)
    ensures Invariant(EnsureRule(s, host, target)) && HasHost(EnsureRule(s, host, target).rules, host)
  {
    var found := FindRule(s.rules, host);
    if found.Some? {
      var r := s.rules[found.value];
      assert r in s.rules && Owns(s, p, r.target);
      assert EnsureRule(s, host, target).rules == s.rules;
    } else {
      NewRuleKeepsInvariant(s, p, host, target);
    }
  }

  lemma NewRuleKeepsInvariant(s: State, p: string, host: string, target: nat)
    requires Invariant(s) && p in s.pipelines && s.pipelines[p] == Some(host) && Owns(s, p, target)
    requires FindRule(s.rules, host).None?
    ensures Invariant(EnsureRule(s, host, target)) && HasHost(EnsureRule(s, host, target).rules, host)
  {
    var s' := EnsureRule(s, host, target);
    var r := Rule(s.nextArn, host, target);
    assert s'.rules == s.rules + [r] && s'.rules[|s.rules|] == r;
    forall q | q in s.pipelines && q != p
      ensures !Owns(s, q, target) && s.pipelines[q] != Some(host)
    {
      NamesApart(q, p);
    }
    assert RulesForwardToOwners(s') by {
      hide OneRulePerHost, UrlsApart, GroupsApart, RecordsTrue;
      assert forall q :: q in s.pipelines ==> (Owns(s', q, target) <==> Owns(s, q, target));
    }
    assert RecordsTrue(s') by {
      forall d | d in s.records
        ensures RecordTrue(s', d)
      {
        assert RecordTrue(s, d);
        if d.deployUrl.Some? {
          var i :| 0 <= i < |s.rules| && s.rules[i].host == d.deployUrl.value;
          assert s'.rules[i].host == d.deployUrl.value;
        }
      }
    }
  }

  lemma FinishKeepsInvariant(s: State, p: string, id: nat, host: string, target: nat, effects: nat)
    requires Invariant(s) && p in s.pipelines && s.pipelines[p] == Some(host) && Owns(s, p, target) && HasHost(s.rules, host)
    requires |s.records| > 0 && s.records[|s.records| - 1].pipelineId == p
    ensures Invariant(AfterRouting(s, p, id, host, target, effects))
  {
    assert forall r :: r in s.records ==> RecordTrue(s, r);
    var s' := AfterRouting(s, p, id, host, target, effects);
    var last := s.records[|s.records| - 1];
    assert last in s.records;
    forall r | r in s'.records
      ensures RecordTrue(s', r)
    {
      if r !in s.records {
        assert r == last.(deployUrl := Some(host), targetGroup := Some(target));
      } else {
        assert RecordTrue(s, r);
      }
    }
    assert forall i :: 0 <= i < |s.records| ==> s'.records[i].id == s.records[i].id;
  }

  lemma DeployKeepsInvariant(s: State, p: string, freshUrl: string, effects: nat)
    requires Invariant(s) && IsFresh(s, freshUrl)
    ensures Invariant(Deploy(s, p, freshUrl, effects))
  {
    hide Invariant, EnsureRule, AfterRouting;
    if p in s.pipelines && effects >= 1 {
      var tracked := StartTracking(s, p);
      TrackingKeepsInvariant(s, p);
      if effects >= 2 {
        var named := SaveUrl(tracked, p, freshUrl);
        UrlKeepsInvariant(tracked, p, freshUrl);
        if effects >= 3 {
          var grouped := EnsureTargetGroup(named, p);
          GroupKeepsInvariant(named, p);
          if effects >= 4 {
            var host, target := grouped.pipelines[p].value, grouped.targetGroups[TargetGroupName(p)];
            RuleKeepsInvariant(grouped, p, host, target);
            RuleLeavesRest(grouped, host, target);
            FinishKeepsInvariant(EnsureRule(grouped, host, target), p, s.nextRecord, host, target, effects);
          }
        }
      }
    }
  }

  lemma RuleLeavesRest(s: State, host: string, target: nat)
    ensures var s' := EnsureRule(s, host, target);
            s'.records == s.records && s'.pipelines == s.pipelines && s'.targetGroups == s.targetGroups
  {
  }

  // ---------------------------------------------------------------- what clean-up removes

  lemma {:induction false} HostAbsent(rules: seq<Rule>, host: string)
    requires !HasHost(rules, host)
    ensures WithHost(rules, host) == [] && WithoutHost(rules, host) == rules
  {
    if |rules| > 0 {
      assert forall i :: 0 <= i < |rules[1..]| ==> rules[1..][i] == rules[i + 1];
      HostAbsent(rules[1..], host);
    }
  }

  /** A host has one rule at most, and deleting that leaves the rules of the other hosts. */
  lemma {:induction false} HostPresent(rules: seq<Rule>, i: nat)
    requires OneRulePerHost(rules) && i < |rules|
    ensures WithHost(rules, rules[i].host) == [rules[i]]
    ensures RemoveRule(rules, rules[i]) == WithoutHost(rules, rules[i].host)
  {
    var rest := rules[1..];
    if i == 0 {
      HostAbsent(rest, rules[0].host);
    } else {
      HostPresent(rest, i - 1);
    }
  }

  lemma WithHostFinds(rules: seq<Rule>, host: string)
    requires OneRulePerHost(rules)
    ensures !HasHost(rules, host) ==> WithHost(rules, host) == [] && WithoutHost(rules, host) == rules
    ensures HasHost(rules, host) ==>
              && |WithHost(rules, host)| == 1 && WithHost(rules, host)[0] in rules
              && WithHost(rules, host)[0].host == host
              && RemoveRule(rules, WithHost(rules, host)[0]) == WithoutHost(rules, host)
  {
    if HasHost(rules, host) {
      var i :| 0 <= i < |rules| && rules[i].host == host;
      HostPresent(rules, i);
    } else {
      HostAbsent(rules, host);
    }
  }

  lemma {:induction false} InWithoutHost(rules: seq<Rule>, host: string)
    ensures forall r :: r in WithoutHost(rules, host) <==> r in rules && r.host != host
  {
    if |rules| > 0 {
      InWithoutHost(rules[1..], host);
      assert rules == [rules[0]] + rules[1..];
    }
  }

  /** Every record that knows a URL knows this one. */
  predicate UrlIs(records: seq<Record>, host: string) {
    forall r :: r in records && r.deployUrl.Some? ==> r.deployUrl == Some(host)
  }

  predicate Completed(records: seq<Record>) {
    exists r :: r in records && r.deployUrl.Some?
  }

  /** Once the host's rule is gone, the remaining records change nothing: the first one throws. */
  lemma {:induction false} NothingLeftToDelete(rules: seq<Rule>, records: seq<Record>, host: string)
    requires OneRulePerHost(rules) && UrlIs(records, host)
    ensures DeleteRulesOf(WithoutHost(rules, host), rules, records).rules == WithoutHost(rules, host)
  {
    if |records| > 0 {
      assert records == [records[0]] + records[1..];
      if records[0].deployUrl.None? {
        NothingLeftToDelete(rules, records[1..], host);
      } else {
        WithHostFinds(rules, host);
        InWithoutHost(rules, host);
        var doomed := WithHost(rules, host);
        if |doomed| == 0 {
          NothingLeftToDelete(rules, records[1..], host);
        }
      }
    }
  }

  lemma {:induction false} RulesAfterCleanup(rules: seq<Rule>, records: seq<Record>, host: string)
    requires OneRulePerHost(rules) && UrlIs(records, host)
    ensures DeleteRulesOf(rules, rules, records).rules == if Completed(records) then WithoutHost(rules, host) else rules
  {
    if |records| > 0 {
      assert records == [records[0]] + records[1..];
      if records[0].deployUrl.None? {
        RulesAfterCleanup(rules, records[1..], host);
        assert Completed(records) <==> Completed(records[1..]);
      } else {
        assert records[0] in records;
        WithHostFinds(rules, host);
        var doomed := WithHost(rules, host);
        if |doomed| == 1 {
          assert doomed[1..] == [];
          assert DeleteAll(rules, doomed) == Deletion(RemoveRule(rules, doomed[0]), false);
        }
        assert DeleteAll(rules, doomed) == Deletion(WithoutHost(rules, host), false);
        NothingLeftToDelete(rules, records[1..], host);
      }
    }
  }

  predicate TargetIs(records: seq<Record>, target: nat) {
    forall r :: r in records && r.targetGroup.Some? ==> r.targetGroup == Some(target)
  }

  predicate KnowsTarget(records: seq<Record>) {
    exists r :: r in records && r.targetGroup.Some?
  }

  lemma {:induction false} GroupsAfterCleanup(groups: map<string, nat>, rules: seq<Rule>, records: seq<Record>, target: nat)
    requires TargetIs(records, target) && !Referenced(rules, target)
    ensures DeleteTargetGroupsOf(groups, rules, records) ==
            if KnowsTarget(records) then map n | n in groups && groups[n] != target :: groups[n] else groups
    decreases |records|
  {
    if |records| > 0 {
      assert records == [records[0]] + records[1..];
      if records[0].targetGroup.None? {
        GroupsAfterCleanup(groups, rules, records[1..], target);
        assert KnowsTarget(records) <==> KnowsTarget(records[1..]);
      } else {
        assert records[0] in records;
        var left := DeleteTargetGroup(groups, rules, target);
        GroupsAfterCleanup(left, rules, records[1..], target);
        assert left == map n | n in left && left[n] != target :: left[n];
      }
    }
  }

  lemma {:induction false} RecordsOfIn(records: seq<Record>, p: string)
    ensures forall r :: r in RecordsOf(records, p) <==> r in records && r.pipelineId == p
    ensures forall r :: r in RecordsOfOthers(records, p) <==> r in records && r.pipelineId != p
  {
    if |records| > 0 {
      RecordsOfIn(records[1..], p);
      assert records == [records[0]] + records[1..];
    }
  }

  lemma {:induction false} OthersStayApart(records: seq<Record>, p: string)
    requires IdsDiffer(records)
    ensures IdsDiffer(RecordsOfOthers(records, p))
  {
    if |records| > 0 {
      var rest := records[1..];
      OthersStayApart(rest, p);
      RecordsOfIn(rest, p);
      assert forall r :: r in rest ==> r.id != records[0].id;
      var kept := RecordsOfOthers(rest, p);
      assert forall i :: 0 <= i < |kept| ==> kept[i] in rest;
    }
  }

  lemma {:induction false} EventRulesOfIn(records: seq<Record>, e: EventRule)
    ensures e in EventRulesOf(records) <==> exists r :: r in records && r.id == e.id
  {
    if |records| > 0 {
      EventRulesOfIn(records[1..], e);
      assert records == [records[0]] + records[1..];
      if e.id == records[0].id {
        assert records[0] in records;
      } else if exists r :: r in records && r.id == e.id {
        var r :| r in records && r.id == e.id;
        assert r in records[1..];
      }
    }
  }

  /** The rules and target groups once everything of a fully deployed pipeline is gone. */
  ghost predicate Removed(s: State, s': State, p: string)
    requires p in s.pipelines
  {
    && s.pipelines[p].Some? && s'.rules == WithoutHost(s.rules, s.pipelines[p].value)
    && s'.targetGroups == s.targetGroups - {TargetGroupName(p)}
  }

  /**
   * Clean-up takes the listener rule and the target group away together or not at all, and which of the two
   * depends only on whether some deploy of this pipeline ran to its end.
   */
  lemma CleanupOfRouting(s: State, p: string, serviceDeleted: bool)
    requires Invariant(s) && p in s.pipelines
    ensures var s' := Cleanup(s, p, serviceDeleted);
            if Completed(RecordsOf(s.records, p)) then HasGroup(s, p) && Removed(s, s', p)
            else s'.rules == s.rules && s'.targetGroups == s.targetGroups
  {
    hide GroupsApart, UrlsApart, IdsApart;
    var own := RecordsOf(s.records, p);
    RecordsOfIn(s.records, p);
    assert forall r :: r in own ==> RecordTrue(s, r) && r.pipelineId == p;
    var host := if s.pipelines[p].Some? then s.pipelines[p].value else "";
    RulesAfterCleanup(s.rules, own, host);
    if Completed(own) {
      assert UrlIs(own, host) && KnowsTarget(own);
      var target := s.targetGroups[TargetGroupName(p)];
      var rules := WithoutHost(s.rules, host);
      InWithoutHost(s.rules, host);
      assert forall r :: r in rules ==> r.target != target by {
        assert forall r :: r in s.rules && Owns(s, p, r.target) ==> s.pipelines[p] == Some(r.host);
      }
      assert !Referenced(rules, target);
      GroupsAfterCleanup(s.targetGroups, rules, own, target);
      OnlyOneNameFor(s, p);
    } else {
      NoTargetNoChange(s.targetGroups, s.rules, own);
    }
  }

  lemma OnlyOneNameFor(s: State, p: string)
    requires GroupsApart(s) && HasGroup(s, p)
    ensures (map n | n in s.targetGroups && s.targetGroups[n] != s.targetGroups[TargetGroupName(p)] :: s.targetGroups[n]) ==
            s.targetGroups - {TargetGroupName(p)}
  {
  }

  lemma {:induction false} NoTargetNoChange(groups: map<string, nat>, rules: seq<Rule>, records: seq<Record>)
    requires !KnowsTarget(records)
    ensures DeleteTargetGroupsOf(groups, rules, records) == groups
  {
    if |records| > 0 {
      assert records[0] in records;
      NoTargetNoChange(groups, rules, records[1..]);
    }
  }

  lemma CleanupKeepsInvariant(s: State, p: string, serviceDeleted: bool)
    requires Invariant(s)
    ensures Invariant(Cleanup(s, p, serviceDeleted))
  {
    if p in s.pipelines {
      var s' := Cleanup(s, p, serviceDeleted);
      WhatOthersSee(s, p, serviceDeleted);
      hide Cleanup;
      RecordsStayTrue(s, s', p);
      OwnersStay(s, s', p);
      GroupsStayApart(s, s', p);
      hide RecordsTrue, RulesForwardToOwners, GroupsApart, OneRulePerHost;
    }
  }

  lemma {:induction false} WhatOthersSee(s: State, p: string, serviceDeleted: bool)
    requires Invariant(s) && p in s.pipelines
    ensures var s' := Cleanup(s, p, serviceDeleted);
            && RoutingKept(s, s', p) && OneRulePerHost(s'.rules) && s'.records == RecordsOfOthers(s.records, p)
            && s'.created == s.created && s'.nextArn == s.nextArn
  {
    hide RecordsTrue, RulesForwardToOwners, GroupsApart, IdsApart, UrlsApart;
    CleanupOfRouting(s, p, serviceDeleted);
    if Completed(RecordsOf(s.records, p)) {
      InWithoutHost(s.rules, s.pipelines[p].value);
      WithoutHostKeepsOrder(s.rules, s.pipelines[p].value);
    }
    hide OneRulePerHost, DeleteRulesOf, DeleteTargetGroupsOf, EventRulesOf;
  }

  lemma GroupsStayApart(s: State, s': State, p: string)
    requires GroupsApart(s) && p in s.pipelines && RoutingKept(s, s', p)
    requires s'.created == s.created && s'.nextArn == s.nextArn
    ensures GroupsApart(s')
  {
  }

  lemma {:induction false} WithoutHostKeepsOrder(rules: seq<Rule>, host: string)
    requires OneRulePerHost(rules)
    ensures OneRulePerHost(WithoutHost(rules, host))
  {
    if |rules| > 0 {
      WithoutHostKeepsOrder(rules[1..], host);
      InWithoutHost(rules[1..], host);
      var kept := WithoutHost(rules[1..], host);
      assert forall i :: 0 <= i < |kept| ==> kept[i] in rules[1..];
    }
  }

  /** What the other pipelines see of a clean-up of p. */
  ghost predicate RoutingKept(s: State, s': State, p: string)
    requires p in s.pipelines
  {
    && s'.pipelines == s.pipelines - {p} && s'.nextRecord == s.nextRecord
    && (forall r :: r in s'.rules ==> r in s.rules)
    && (forall r :: r in s.rules && Some(r.host) != s.pipelines[p] ==> r in s'.rules)
    && (forall n :: n in s'.targetGroups ==> n in s.targetGroups && s'.targetGroups[n] == s.targetGroups[n])
    && (forall n :: n in s.targetGroups && n != TargetGroupName(p) ==> n in s'.targetGroups && s'.targetGroups[n] == s.targetGroups[n])
  }

  lemma RecordsStayTrue(s: State, s': State, p: string)
    requires Invariant(s) && p in s.pipelines && RoutingKept(s, s', p) && s'.records == RecordsOfOthers(s.records, p)
    ensures RecordsTrue(s')
  {
    hide RulesForwardToOwners, GroupsApart, OneRulePerHost;
    RecordsOfIn(s.records, p);
    OthersStayApart(s.records, p);
    forall r | r in s'.records
      ensures RecordTrue(s', r)
    {
      assert RecordTrue(s, r);
      NamesApart(p, r.pipelineId);
      if r.deployUrl.Some? {
        var i :| 0 <= i < |s.rules| && s.rules[i].host == r.deployUrl.value;
        assert s.rules[i] in s'.rules;
      }
    }
  }

  lemma OwnersStay(s: State, s': State, p: string)
    requires Invariant(s) && p in s.pipelines && RoutingKept(s, s', p)
    ensures RulesForwardToOwners(s')
  {
    hide RecordsTrue, GroupsApart, OneRulePerHost, UrlsApart;
    forall q, r | q in s'.pipelines && r in s'.rules
      ensures s'.pipelines[q] == Some(r.host) <==> Owns(s', q, r.target)
    {
      NamesApart(p, q);
    }
  }

  lemma {:induction false} InvariantHolds(steps: seq<Step>)
    ensures Invariant(Run(steps))
  {
    if |steps| > 0 {
      var s, step := Run(steps[..|steps| - 1]), steps[|steps| - 1];
      InvariantHolds(steps[..|steps| - 1]);
      StepKeepsInvariant(s, step);
    }
  }

  lemma StepKeepsInvariant(s: State, step: Step)
    requires Invariant(s)
    ensures Invariant(Do(s, step))
  {
    match step
    case CreatePipeline(p) => CreateKeepsInvariant(s, p);
    case DeployPipeline(p, freshUrl, effects) =>
      if IsFresh(s, freshUrl) {
        DeployKeepsInvariant(s, p, freshUrl, effects);
      }
    case CompleteDeployment(id) =>
      assert forall r :: r in s.records ==> RecordTrue(s, r);
    case DeletePipeline(p, serviceDeleted) => CleanupKeepsInvariant(s, p, serviceDeleted);
  }

  // ---------------------------------------------------------------- main results

  /**
   * After any run, the listener holds at most one rule per host, and a pipeline's rule forwards to the
   * pipeline's own target group and to no other pipeline's.
   */
  lemma RoutesLeadHome(steps: seq<Step>, p: string, r: Rule)
    requires p in Run(steps).pipelines && r in Run(steps).rules
    ensures var s := Run(steps);
            && (s.pipelines[p] == Some(r.host) <==> Owns(s, p, r.target))
            && (forall r' :: r' in s.rules && r'.host == r.host ==> r' == r)
  {
    InvariantHolds(steps);
    hide RecordsTrue, GroupsApart, UrlsApart, IdsApart;
  }

  /** A deploy that got as far as routing leaves a rule for its host, which leads to its own target group. */
  lemma DeployedIsRouted(steps: seq<Step>, p: string, freshUrl: string, effects: nat)
    requires p in Run(steps).pipelines && IsFresh(Run(steps), freshUrl) && effects >= 4
    ensures var s := Deploy(Run(steps), p, freshUrl, effects);
            && p in s.pipelines && s.pipelines[p].Some?
            && exists r :: r in s.rules && Some(r.host) == s.pipelines[p] && Owns(s, p, r.target)
  {
    var s := Run(steps);
    InvariantHolds(steps);
    DeployKeepsInvariant(s, p, freshUrl, effects);
    hide RecordsTrue, GroupsApart, UrlsApart, IdsApart, OneRulePerHost, IsFresh, Deploy;
    var r := RuleOfDeploy(s, p, freshUrl, effects);
  }

  lemma RuleOfDeploy(s: State, p: string, freshUrl: string, effects: nat) returns (r: Rule)
    requires p in s.pipelines && effects >= 4
    ensures var s' := Deploy(s, p, freshUrl, effects);
            p in s'.pipelines && s'.pipelines[p] == Some(r.host) && r in s'.rules
  {
    var grouped := EnsureTargetGroup(SaveUrl(StartTracking(s, p), p, freshUrl), p);
    var host, target := grouped.pipelines[p].value, grouped.targetGroups[TargetGroupName(p)];
    var routed := EnsureRule(grouped, host, target);
    var found := FindRule(grouped.rules, host);
    r := if found.Some? then routed.rules[found.value] else routed.rules[|grouped.rules|];
  }

  /** Nothing but deleting the pipeline ever changes its URL again. */
  lemma UrlIsPermanent(s: State, step: Step, p: string)
    requires Invariant(s) && p in s.pipelines && s.pipelines[p].Some?
    ensures var s' := Do(s, step); if step.DeletePipeline? && step.p == p then p !in s'.pipelines
                                   else p in s'.pipelines && s'.pipelines[p] == s.pipelines[p]
  {
    hide RecordsTrue, GroupsApart, UrlsApart, RulesForwardToOwners, OneRulePerHost, Deploy, IsFresh;
    if step.DeployPipeline? {
      DeployKeepsUrl(s, step.p, step.freshUrl, step.effects, p);
    }
  }

  lemma DeployKeepsUrl(s: State, deployed: string, freshUrl: string, effects: nat, p: string)
    requires p in s.pipelines && s.pipelines[p].Some?
    ensures var s' := Deploy(s, deployed, freshUrl, effects); p in s'.pipelines && s'.pipelines[p] == s.pipelines[p]
  {
  }

  lemma {:induction false} UrlNeverChanges(earlier: seq<Step>, later: seq<Step>, p: string)
    requires p in Run(earlier).pipelines && Run(earlier).pipelines[p].Some?
    requires forall i :: 0 <= i < |later| ==> !(later[i].DeletePipeline? && later[i].p == p)
    ensures var s := Run(earlier + later); p in s.pipelines && s.pipelines[p] == Run(earlier).pipelines[p]
  {
    hide Do, Invariant;
    if |later| == 0 {
      assert earlier + later == earlier;
    } else {
      var n := |later| - 1;
      UrlNeverChanges(earlier, later[..n], p);
      assert (earlier + later)[..|earlier + later| - 1] == earlier + later[..n];
      InvariantHolds(earlier + later[..n]);
      UrlIsPermanent(Run(earlier + later[..n]), later[n], p);
    }
  }

  /**
   * The round trip. If a deploy of p ran to its end, clean-up removes its listener rule, its target group and
   * its event rules, and everything else on the shared infrastructure is exactly as before.
   */
  lemma {:induction false} CleanupIsExact(steps: seq<Step>, p: string)
    requires p in Run(steps).pipelines && Completed(RecordsOf(Run(steps).records, p))
    ensures var s, s' := Run(steps), Run(steps + [DeletePipeline(p, true)]);
            && Removed(s, s', p) && (forall r :: r in s'.rules <==> r in s.rules && Some(r.host) != s.pipelines[p])
            && s'.services == s.services - {ServiceName(p)}
            && s'.pipelines == s.pipelines - {p} && s'.records == RecordsOfOthers(s.records, p)
    ensures forall e :: EventRuleStays(Run(steps), Run(steps + [DeletePipeline(p, true)]), p, e)
  {
    var s, all := Run(steps), steps + [DeletePipeline(p, true)];
    assert all[..|all| - 1] == steps;
    InvariantHolds(steps);
    CleanupOfRouting(s, p, true);
    InWithoutHost(s.rules, s.pipelines[p].value);
    forall e
      ensures EventRuleStays(s, Run(all), p, e)
    {
      CleanupOfEventRules(s, p, true, e);
    }
  }

  /** Exactly the event rules of p's deployments are removed. */
  predicate EventRuleStays(s: State, s': State, p: string, e: EventRule) {
    e in s'.eventRules <==> e in s.eventRules && !exists r :: r in s.records && r.pipelineId == p && r.id == e.id
  }

  lemma CleanupOfEventRules(s: State, p: string, serviceDeleted: bool, e: EventRule)
    requires p in s.pipelines
    ensures EventRuleStays(s, Cleanup(s, p, serviceDeleted), p, e)
  {
    var own := RecordsOf(s.records, p);
    EventRulesOfIn(own, e);
    RecordsOfIn(s.records, p);
    if exists r :: r in s.records && r.pipelineId == p && r.id == e.id {
      var r :| r in s.records && r.pipelineId == p && r.id == e.id;
      assert r in own;
    }
  }

  /** Another pipeline keeps its event rules: no deployment id is shared. */
  lemma OthersKeepEventRules(steps: seq<Step>, p: string, serviceDeleted: bool, d: Record)
    requires var s := Run(steps); p in s.pipelines && d in s.records && d.pipelineId != p
    ensures var s, s' := Run(steps), Cleanup(Run(steps), p, serviceDeleted);
            forall e :: e in {DeployRule(d.id), HealthRule(d.id)} ==> (e in s'.eventRules <==> e in s.eventRules)
  {
    var s := Run(steps);
    InvariantHolds(steps);
    hide RulesForwardToOwners, GroupsApart, UrlsApart, IdsApart, OneRulePerHost;
    forall e | e in {DeployRule(d.id), HealthRule(d.id)}
      ensures e in Cleanup(s, p, serviceDeleted).eventRules <==> e in s.eventRules
    {
      CleanupOfEventRules(s, p, serviceDeleted, e);
    }
  }

  predicate RoutingGone(s: State, s': State, p: string)
    requires p in s.pipelines
  {
    !HasGroup(s', p) && forall r :: r in s'.rules ==> Some(r.host) != s.pipelines[p]
  }

  /**
   * Clean-up finds what to delete through the deployment records, and a record learns of its rule and group
   * only in the last write of a deploy. So nothing is left behind exactly when some deploy of this pipeline
   * finished, or none got as far as creating anything.
   */
  lemma {:induction false} CleanupLeavesNothingExactlyWhen(steps: seq<Step>, p: string, serviceDeleted: bool)
    requires p in Run(steps).pipelines
    ensures var s, s' := Run(steps), Cleanup(Run(steps), p, serviceDeleted);
            RoutingGone(s, s', p) <==> Completed(RecordsOf(s.records, p)) || RoutingGone(s, s, p)
  {
    var s := Run(steps);
    InvariantHolds(steps);
    CleanupOfRouting(s, p, serviceDeleted);
    if s.pipelines[p].Some? {
      InWithoutHost(s.rules, s.pipelines[p].value);
    }
  }

  /** A first deploy that throws after routing leaks its rule and its target group for good. */
  lemma CutOffDeployLeaks(p: string, url: string)
    ensures var s := Run([CreatePipeline(p), DeployPipeline(p, url, 4), DeletePipeline(p, true)]);
            |s.rules| == 1 && s.rules[0].host == url && HasGroup(s, p) && p !in s.pipelines
  {
    var steps := [CreatePipeline(p), DeployPipeline(p, url, 4), DeletePipeline(p, true)];
    assert steps[..2] == [steps[0], steps[1]] && steps[..2][..1] == [steps[0]] && steps[..2][..1][..0] == [];
    var created := INITIAL.(pipelines := map[p := None], created := {p});
    assert Do(INITIAL, steps[0]) == created;
    assert Run([steps[0]]) == created;
    var s := Deploy(created, p, url, 4);
    assert Run([steps[0], steps[1]]) == s;
    assert Run(steps) == Cleanup(s, p, true);
    assert s.records == [Record(0, p, None, None)];
    assert RecordsOf(s.records, p) == s.records;
    assert s.rules == [Rule(1, url, 0)];
    RulesAfterCleanup(s.rules, s.records, url);
    NoTargetNoChange(s.targetGroups, s.rules, s.records);
  }
}
