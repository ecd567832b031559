/**
 * The same provisioning and clean-up, one effect at a time: deploys and clean-ups of different pipelines interleave
 * at every await. A pipeline has one job at a time, and a deploy may be abandoned after any of its effects.
 */
module RoutingSteps {
  import opened Sequences
  import opened Routing

  /** How far a job is, and what it has captured: a deploy its URL and target group, a clean-up the records it read. */
  datatype Job =
    | Deploying(done: nat, id: nat, host: string, target: nat)
    | Cleaning(stage: nat, own: seq<Record>)

  datatype World = World(shared: State, jobs: map<string, Job>)

  const START := World(Routing.INITIAL, map[])

  datatype Move =
    | Create(p: string)
    | Complete(id: nat)                        // a finished deployment's event rules are removed
    | BeginDeploy(p: string)
    | NextEffect(p: string, freshUrl: string)
    | Abandon(p: string)                       // the deploy throws
    | BeginCleanup(p: string)
    | NextDeletion(p: string, serviceDeleted: bool)

  function FindRecord(records: seq<Record>, id: nat): (r: Option<nat>)
    ensures r.Some? ==> r.value < |records| && records[r.value].id == id
    ensures r.None? ==> forall i :: 0 <= i < |records| ==> records[i].id != id
  {
    FindFirst(records, (record: Record) => record.id == id)
  }

  /** The last write of a deploy, by deployment id. */
  function RecordById(s: State, id: nat, host: string, target: nat): State {
    var found := FindRecord(s.records, id);
    if found.None? then s
    else s.(records := s.records[found.value := s.records[found.value].(deployUrl := Some(host), targetGroup := Some(target))])
  }

  function Effect(w: World, p: string, job: Job, freshUrl: string): World
    requires job.Deploying? && p in w.shared.pipelines
  {
    var s, id, host, target := w.shared, job.id, job.host, job.target;
    match job.done
    case 1 =>
      if !IsFresh(s, freshUrl) then w
      else
        var named := SaveUrl(s, p, freshUrl);
        World(named, w.jobs[p := Deploying(2, id, named.pipelines[p].value, target)])
    case 2 =>
      var grouped := EnsureTargetGroup(s, p);
      World(grouped, w.jobs[p := Deploying(3, id, host, grouped.targetGroups[TargetGroupName(p)])])
    case 3 => World(EnsureRule(s, host, target), w.jobs[p := Deploying(4, id, host, target)])
    case 4 => World(EnsureService(s, p), w.jobs[p := Deploying(5, id, host, target)])
    case 5 => World(AddEventRule(s, DeployRule(id)), w.jobs[p := Deploying(6, id, host, target)])
    case 6 => World(AddEventRule(s, HealthRule(id)), w.jobs[p := Deploying(7, id, host, target)])
    case _ => World(RecordById(s, id, host, target), w.jobs - {p})
  }

  function AddEventRule(s: State, rule: EventRule): State {
    s.(eventRules := s.eventRules + {rule})
  }

  function Deletion(w: World, p: string, job: Job, serviceDeleted: bool): World
    requires job.Cleaning?
  {
    var s, own := w.shared, job.own;
    match job.stage
    case 0 => World(s.(services := if serviceDeleted then s.services - {ServiceName(p)} else s.services), w.jobs[p := Cleaning(1, own)])
    case 1 => World(DeleteRules(s, own), w.jobs[p := Cleaning(2, own)])
    case 2 => World(DeleteGroups(s, own), w.jobs[p := Cleaning(3, own)])
    case 3 => World(s.(eventRules := s.eventRules - EventRulesOf(own)), w.jobs[p := Cleaning(4, own)])
    case _ => World(Forget(s, p), w.jobs - {p})
  }

  function DeleteRules(s: State, own: seq<Record>): State {
    s.(rules := DeleteRulesOf(s.rules, s.rules, own).rules)
  }

  function DeleteGroups(s: State, own: seq<Record>): State {
    s.(targetGroups := DeleteTargetGroupsOf(s.targetGroups, s.rules, own))
  }

  /** The deployment records, and then the pipeline's row. */
  function Forget(s: State, p: string): State {
    s.(records := RecordsOfOthers(s.records, p), pipelines := s.pipelines - {p})
  }

  /** A move that is not due changes nothing. */
  function Make(w: World, move: Move): World {
    match move
    case Create(p) => w.(shared := Do(w.shared, CreatePipeline(p)))
    case Complete(id) => w.(shared := Do(w.shared, CompleteDeployment(id)))
    case BeginDeploy(p) =>
      if p !in w.shared.pipelines || p in w.jobs then w
      else World(StartTracking(w.shared, p), w.jobs[p := Deploying(1, w.shared.nextRecord, "", 0)])
    case NextEffect(p, freshUrl) =>
      if p in w.jobs && w.jobs[p].Deploying? && p in w.shared.pipelines then Effect(w, p, w.jobs[p], freshUrl) else w
    case Abandon(p) => if p in w.jobs && w.jobs[p].Deploying? then w.(jobs := w.jobs - {p}) else w
    case BeginCleanup(p) =>
      if p !in w.shared.pipelines || p in w.jobs then w
      else w.(jobs := w.jobs[p := Cleaning(0, RecordsOf(w.shared.records, p))])
    case NextDeletion(p, serviceDeleted) =>
      if p in w.jobs && w.jobs[p].Cleaning? then Deletion(w, p, w.jobs[p], serviceDeleted) else w
  }

  function After(moves: seq<Move>): World {
    if |moves| == 0 then START else Make(After(moves[..|moves| - 1]), moves[|moves| - 1])
  }

  // ---------------------------------------------------------------- what holds in every state

  /** The routing invariant without the records. */
  predicate Core(s: State) {
    IdsApart(s) && UrlsApart(s) && OneRulePerHost(s.rules) && RulesForwardToOwners(s) && GroupsApart(s)
  }

  predicate BeingCleaned(jobs: map<string, Job>, p: string) {
    p in jobs && jobs[p].Cleaning?
  }

  /** Records tell the truth, except about what a clean-up of their pipeline may have taken away already. */
  predicate RecordsTrueUnlessCleaned(w: World) {
    && IdsDiffer(w.shared.records)
    && forall r :: r in w.shared.records ==>
         && r.pipelineId in w.shared.pipelines && r.id < w.shared.nextRecord
         && (!BeingCleaned(w.jobs, r.pipelineId) ==> RecordTrue(w.shared, r))
  }

  predicate HasRecord(s: State, p: string, id: nat) {
    exists r :: r in s.records && r.id == id && r.pipelineId == p
  }

  predicate DeployOk(s: State, p: string, job: Job)
    requires job.Deploying?
  {
    && p in s.pipelines && 1 <= job.done <= 7 && HasRecord(s, p, job.id)
    && (job.done >= 2 ==> s.pipelines[p] == Some(job.host))
    && (job.done >= 3 ==> Owns(s, p, job.target))
    && (job.done >= 4 ==> HasHost(s.rules, job.host))
  }

  /** What a record of a pipeline under clean-up still tells. */
  predicate OwnOk(s: State, p: string, stage: nat, r: Record)
    requires p in s.pipelines
  {
    && (r.deployUrl.Some? <==> r.targetGroup.Some?)
    && (r.deployUrl.Some? ==> s.pipelines[p] == r.deployUrl)
    && (r.deployUrl.Some? && stage <= 2 ==> Owns(s, p, r.targetGroup.value))
    && (r.deployUrl.Some? && stage >= 2 ==> !HasHost(s.rules, r.deployUrl.value))
    && (r.deployUrl.Some? && stage >= 3 ==> !HasGroup(s, p))
  }

  predicate CleanOk(s: State, p: string, job: Job)
    requires job.Cleaning?
  {
    && p in s.pipelines && job.stage <= 4 && job.own == RecordsOf(s.records, p)
    && forall r :: r in job.own ==> OwnOk(s, p, job.stage, r)
  }

  predicate JobOk(s: State, p: string, job: Job) {
    if job.Deploying? then DeployOk(s, p, job) else CleanOk(s, p, job)
  }

  predicate Consistent(w: World) {
    Core(w.shared) && RecordsTrueUnlessCleaned(w) && forall p :: p in w.jobs ==> JobOk(w.shared, p, w.jobs[p])
  }

  /** Nothing that a pipeline relies on is taken away. */
  predicate Grows(s: State, s': State, p: string) {
    && (p in s.pipelines ==> p in s'.pipelines && (s.pipelines[p].Some? ==> s'.pipelines[p] == s.pipelines[p]))
    && (HasGroup(s, p) ==> HasGroup(s', p) && s'.targetGroups[TargetGroupName(p)] == s.targetGroups[TargetGroupName(p)])
    && (p in s.pipelines && s.pipelines[p].Some? && HasHost(s.rules, s.pipelines[p].value) ==>
          HasHost(s'.rules, s.pipelines[p].value))
  }

  /** Nothing that belongs to a pipeline changes at all. */
  predicate Untouched(s: State, s': State, p: string) {
    && Grows(s, s', p)
    && (p in s.pipelines ==> p in s'.pipelines && s'.pipelines[p] == s.pipelines[p])
    && (HasGroup(s', p) ==> HasGroup(s, p))
    && (p in s.pipelines && s.pipelines[p].Some? && HasHost(s'.rules, s.pipelines[p].value) ==>
          HasHost(s.rules, s.pipelines[p].value))
    && RecordsOf(s'.records, p) == RecordsOf(s.records, p)
  }

  lemma RecordStaysTrue(s: State, s': State, r: Record)
    requires RecordTrue(s, r) && Grows(s, s', r.pipelineId) && s.nextRecord <= s'.nextRecord
    ensures RecordTrue(s', r)
  {
  }

  lemma JobStaysOk(s: State, s': State, p: string, job: Job)
    requires JobOk(s, p, job) && Untouched(s, s', p)
    ensures JobOk(s', p, job)
  {
    if job.Deploying? {
      RecordsOfIn(s.records, p);
      RecordsOfIn(s'.records, p);
      var r :| r in s.records && r.id == job.id && r.pipelineId == p;
      assert r in RecordsOf(s'.records, p);
    } else {
      forall r | r in job.own
        ensures OwnOk(s', p, job.stage, r)
      {
        assert OwnOk(s, p, job.stage, r);
      }
    }
  }

  // ---------------------------------------------------------------- one effect and the other pipelines

  lemma OthersSeeNoUrl(s: State, p: string, freshUrl: string, q: string)
    requires p in s.pipelines && q != p
    ensures Untouched(s, SaveUrl(s, p, freshUrl), q)
  {
  }

  lemma OthersSeeNoGroup(s: State, p: string, q: string)
    requires Core(s) && p in s.pipelines && q in s.pipelines && q != p
    ensures Untouched(s, EnsureTargetGroup(s, p), q)
  {
    NamesApart(p, q);
  }

  lemma HostsAfterRule(s: State, host: string, target: nat, other: string)
    ensures HasHost(EnsureRule(s, host, target).rules, other) <==> HasHost(s.rules, other) || other == host
  {
    var rules, rules' := s.rules, EnsureRule(s, host, target).rules;
    var found := FindRule(rules, host);
    if found.Some? {
      assert |rules'| == |rules| && forall i :: 0 <= i < |rules| ==> rules'[i].host == rules[i].host;
      assert rules[found.value].host == host;
    } else {
      assert rules' == rules + [Rule(s.nextArn, host, target)];
      assert rules'[|rules|].host == host;
      assert forall i :: 0 <= i < |rules| ==> rules'[i] == rules[i];
    }
  }

  lemma OthersSeeNoRule(s: State, p: string, host: string, target: nat, q: string)
    requires Core(s) && p in s.pipelines && q in s.pipelines && q != p && s.pipelines[p] == Some(host)
    ensures Untouched(s, EnsureRule(s, host, target), q)
  {
    RuleLeavesRest(s, host, target);
    if s.pipelines[q].Some? {
      HostsAfterRule(s, host, target, s.pipelines[q].value);
    }
    hide EnsureRule, HasHost;
  }

  lemma {:induction false} RecordsOfAppend(records: seq<Record>, r: Record, p: string)
    requires r.pipelineId != p
    ensures RecordsOf(records + [r], p) == RecordsOf(records, p)
  {
    if |records| == 0 {
      assert records + [r] == [r];
    } else {
      assert (records + [r])[1..] == records[1..] + [r];
      RecordsOfAppend(records[1..], r, p);
    }
  }

  lemma {:induction false} RecordsOfUpdate(records: seq<Record>, i: nat, r: Record, p: string)
    requires i < |records| && records[i].pipelineId == r.pipelineId != p
    ensures RecordsOf(records[i := r], p) == RecordsOf(records, p)
  {
    if i == 0 {
      assert records[0 := r][1..] == records[1..];
    } else {
      assert records[i := r][1..] == records[1..][i - 1 := r];
      RecordsOfUpdate(records[1..], i - 1, r, p);
    }
  }

  lemma {:induction false} RecordsOfRemaining(records: seq<Record>, p: string, q: string)
    requires p != q
    ensures RecordsOf(RecordsOfOthers(records, p), q) == RecordsOf(records, q)
  {
    if |records| > 0 {
      RecordsOfRemaining(records[1..], p, q);
      var rest := RecordsOfOthers(records[1..], p);
      if records[0].pipelineId == p {
        assert [] + rest == rest;
        assert RecordsOf(records[1..], q) + [] == RecordsOf(records[1..], q);
      } else {
        assert ([records[0]] + rest)[1..] == rest;
      }
    }
  }

  // ---------------------------------------------------------------- deletions

  /** What a clean-up knows about its pipeline's URL and target group. */
  lemma OwnFacts(s: State, p: string, job: Job) returns (host: string)
    requires job.Cleaning? && CleanOk(s, p, job) && RulesForwardToOwners(s)
    ensures UrlIs(job.own, host) && (Completed(job.own) <==> KnowsTarget(job.own))
    ensures Completed(job.own) ==> s.pipelines[p] == Some(host)
    ensures Completed(job.own) && job.stage <= 2 ==> HasGroup(s, p) && TargetIs(job.own, s.targetGroups[TargetGroupName(p)])
    ensures Completed(job.own) && job.stage >= 2 ==> !HasHost(s.rules, host)
    ensures Completed(job.own) && job.stage >= 3 ==> !HasGroup(s, p)
  {
    host := if s.pipelines[p].Some? then s.pipelines[p].value else "";
    assert forall r :: r in job.own ==> OwnOk(s, p, job.stage, r);
  }

  lemma DeletedRules(s: State, p: string, job: Job)
    requires Core(s) && job.Cleaning? && CleanOk(s, p, job)
    ensures DeleteRules(s, job.own).rules ==
            if Completed(job.own) && s.pipelines[p].Some? then WithoutHost(s.rules, s.pipelines[p].value) else s.rules
    ensures Completed(job.own) ==> s.pipelines[p].Some?
  {
    var host := OwnFacts(s, p, job);
    RulesAfterCleanup(s.rules, job.own, host);
    hide CleanOk, DeleteRulesOf;
  }

  lemma FewerRules(s: State, host: string)
    requires Core(s)
    ensures Core(s.(rules := WithoutHost(s.rules, host)))
    ensures forall other :: HasHost(WithoutHost(s.rules, host), other) <==> HasHost(s.rules, other) && other != host
  {
    InWithoutHost(s.rules, host);
    WithoutHostKeepsOrder(s.rules, host);
    var rules := WithoutHost(s.rules, host);
    hide IdsApart, UrlsApart;
    forall other
      ensures HasHost(rules, other) <==> HasHost(s.rules, other) && other != host
    {
      HostsIn(rules, other);
      HostsIn(s.rules, other);
    }
  }

  lemma HostsIn(rules: seq<Rule>, host: string)
    ensures HasHost(rules, host) <==> exists r :: r in rules && r.host == host
  {
    if exists r :: r in rules && r.host == host {
      var r :| r in rules && r.host == host;
      var i :| 0 <= i < |rules| && rules[i] == r;
      assert rules[i].host == host;
    }
  }

  lemma RulesDeleted(s: State, p: string, job: Job)
    requires Core(s) && job.Cleaning? && CleanOk(s, p, job) && job.stage == 1
    ensures var s' := DeleteRules(s, job.own);
            Core(s') && CleanOk(s', p, Cleaning(2, job.own)) && forall q :: q in s.pipelines && q != p ==> Untouched(s, s', q)
  {
    DeletedRules(s, p, job);
    var s' := DeleteRules(s, job.own);
    if Completed(job.own) {
      FewerRules(s, s.pipelines[p].value);
      assert s' == s.(rules := WithoutHost(s.rules, s.pipelines[p].value));
    } else {
      assert s' == s;
    }
    hide DeleteRules, HasHost;
    forall r | r in job.own
      ensures OwnOk(s', p, 2, r)
    {
      assert OwnOk(s, p, 1, r);
    }
  }

  lemma DeletedGroups(s: State, p: string, job: Job)
    requires Core(s) && job.Cleaning? && CleanOk(s, p, job) && job.stage == 2
    ensures DeleteGroups(s, job.own).targetGroups ==
            if Completed(job.own) then s.targetGroups - {TargetGroupName(p)} else s.targetGroups
  {
    var host := OwnFacts(s, p, job);
    if Completed(job.own) {
      var target := s.targetGroups[TargetGroupName(p)];
      assert !Referenced(s.rules, target) by {
        NobodyForwards(s, p, host, target);
      }
      GroupsAfterCleanup(s.targetGroups, s.rules, job.own, target);
      OnlyOneNameFor(s, p);
    } else {
      NoTargetNoChange(s.targetGroups, s.rules, job.own);
    }
  }

  lemma NobodyForwards(s: State, p: string, host: string, target: nat)
    requires RulesForwardToOwners(s) && p in s.pipelines && s.pipelines[p] == Some(host) && Owns(s, p, target) && !HasHost(s.rules, host)
    ensures !Referenced(s.rules, target)
  {
    forall i | 0 <= i < |s.rules|
      ensures s.rules[i].target != target
    {
      assert s.rules[i] in s.rules;
    }
  }

  lemma FewerGroups(s: State, p: string)
    requires Core(s) && p in s.pipelines && (s.pipelines[p].Some? ==> !HasHost(s.rules, s.pipelines[p].value))
    ensures Core(s.(targetGroups := s.targetGroups - {TargetGroupName(p)}))
    ensures forall q :: q in s.pipelines && q != p ==> TargetGroupName(q) != TargetGroupName(p)
  {
    forall q | q in s.pipelines && q != p
      ensures TargetGroupName(q) != TargetGroupName(p)
    {
      NamesApart(q, p);
    }
    var s' := s.(targetGroups := s.targetGroups - {TargetGroupName(p)});
    assert RulesForwardToOwners(s') by {
      hide GroupsApart, UrlsApart, IdsApart, OneRulePerHost;
      forall q, r | q in s'.pipelines && r in s'.rules
        ensures s'.pipelines[q] == Some(r.host) <==> Owns(s', q, r.target)
      {
        HostsIn(s.rules, r.host);
      }
    }
    assert GroupsApart(s') by {
      hide RulesForwardToOwners, UrlsApart, IdsApart, OneRulePerHost;
    }
    hide GroupsApart, RulesForwardToOwners;
  }

  lemma GroupsDeleted(s: State, p: string, job: Job)
    requires Core(s) && job.Cleaning? && CleanOk(s, p, job) && job.stage == 2
    ensures var s' := DeleteGroups(s, job.own);
            Core(s') && CleanOk(s', p, Cleaning(3, job.own)) && forall q :: q in s.pipelines && q != p ==> Untouched(s, s', q)
  {
    DeletedGroups(s, p, job);
    var s' := DeleteGroups(s, job.own);
    if Completed(job.own) {
      var host := OwnFacts(s, p, job);
      FewerGroups(s, p);
      assert s' == s.(targetGroups := s.targetGroups - {TargetGroupName(p)});
    } else {
      assert s' == s;
    }
    hide DeleteGroups, Core, HasHost;
    forall r | r in job.own
      ensures OwnOk(s', p, 3, r)
    {
      assert OwnOk(s, p, 2, r);
    }
  }

  lemma Forgotten(s: State, p: string)
    requires Core(s) && p in s.pipelines
    ensures Core(Forget(s, p)) && forall q :: q in s.pipelines && q != p ==> Untouched(s, Forget(s, p), q)
  {
    forall q | q in s.pipelines && q != p
      ensures Untouched(s, Forget(s, p), q)
    {
      RecordsOfRemaining(s.records, p, q);
    }
  }

  // ---------------------------------------------------------------- deploy effects

  /** The state without its records, for which the core is the whole invariant. */
  function Bare(s: State): State {
    s.(records := [])
  }

  lemma CoreIsBare(s: State)
    ensures Core(s) <==> Invariant(Bare(s))
  {
  }

  lemma NamingKeepsCore(s: State, p: string, freshUrl: string)
    requires Core(s) && p in s.pipelines && IsFresh(s, freshUrl)
    ensures Core(SaveUrl(s, p, freshUrl))
  {
    CoreIsBare(s);
    UrlKeepsInvariant(Bare(s), p, freshUrl);
    assert SaveUrl(Bare(s), p, freshUrl) == Bare(SaveUrl(s, p, freshUrl));
    CoreIsBare(SaveUrl(s, p, freshUrl));
    hide Core, Invariant;
  }

  lemma GroupingKeepsCore(s: State, p: string)
    requires Core(s) && p in s.pipelines
    ensures Core(EnsureTargetGroup(s, p))
  {
    CoreIsBare(s);
    GroupKeepsInvariant(Bare(s), p);
    assert EnsureTargetGroup(Bare(s), p) == Bare(EnsureTargetGroup(s, p));
    CoreIsBare(EnsureTargetGroup(s, p));
    hide Core, Invariant;
  }

  lemma RoutingKeepsCore(s: State, p: string, host: string, target: nat)
    requires Core(s) && p in s.pipelines && s.pipelines[p] == Some(host) && Owns(s, p, target)
    ensures Core(EnsureRule(s, host, target))
  {
    CoreIsBare(s);
    RuleKeepsInvariant(Bare(s), p, host, target);
    assert EnsureRule(Bare(s), host, target) == Bare(EnsureRule(s, host, target));
    CoreIsBare(EnsureRule(s, host, target));
    hide Core, Invariant;
  }

  /** The first three effects of a deploy take nothing away from its own pipeline. */
  lemma OwnEffectGrows(s: State, p: string, job: Job, freshUrl: string)
    requires Core(s) && job.Deploying? && job.done <= 3 && DeployOk(s, p, job)
    ensures Grows(s, Effect(World(s, map[]), p, job, freshUrl).shared, p)
  {
    hide Core, IsFresh, EnsureRule;
    if job.done == 3 {
      HostsAfterRule(s, job.host, job.target, job.host);
      RuleLeavesRest(s, job.host, job.target);
    }
    hide HasHost, TargetGroupName;
  }

  ghost predicate SameJobsBut(jobs: map<string, Job>, jobs': map<string, Job>, p: string) {
    forall q :: q != p ==> (q in jobs <==> q in jobs') && (q in jobs ==> jobs'[q] == jobs[q])
  }

  /** A move for one pipeline that the others do not notice keeps the world consistent. */
  lemma StaysConsistent(w: World, w': World, p: string)
    requires Consistent(w) && Core(w'.shared) && RecordsTrueUnlessCleaned(w')
    requires SameJobsBut(w.jobs, w'.jobs, p) && forall q :: q != p && q in w.jobs ==> Untouched(w.shared, w'.shared, q)
    requires p in w'.jobs ==> JobOk(w'.shared, p, w'.jobs[p])
    ensures Consistent(w')
  {
    forall q | q in w'.jobs
      ensures JobOk(w'.shared, q, w'.jobs[q])
    {
      if q != p {
        JobStaysOk(w.shared, w'.shared, q, w.jobs[q]);
      }
    }
  }

  /** Records that were not rewritten stay true. */
  lemma RecordsStay(w: World, w': World, p: string)
    requires RecordsTrueUnlessCleaned(w) && w'.shared.records == w.shared.records && w.shared.nextRecord <= w'.shared.nextRecord
    requires w.shared.pipelines.Keys <= w'.shared.pipelines.Keys
    requires SameJobsBut(w.jobs, w'.jobs, p)
    requires BeingCleaned(w.jobs, p) ==> BeingCleaned(w'.jobs, p)
    requires forall q :: q != p && q in w.shared.pipelines ==> Grows(w.shared, w'.shared, q)
    requires !BeingCleaned(w'.jobs, p) ==> Grows(w.shared, w'.shared, p)
    ensures RecordsTrueUnlessCleaned(w')
  {
    forall r | r in w'.shared.records
      ensures r.pipelineId in w'.shared.pipelines && r.id < w'.shared.nextRecord
      ensures !BeingCleaned(w'.jobs, r.pipelineId) ==> RecordTrue(w'.shared, r)
    {
      assert r in w.shared.records;
      if !BeingCleaned(w'.jobs, r.pipelineId) {
        RecordStaysTrue(w.shared, w'.shared, r);
      }
    }
  }

  lemma JobIsOk(w: World, p: string)
    requires Consistent(w) && p in w.jobs
    ensures JobOk(w.shared, p, w.jobs[p]) && p in w.shared.pipelines
  {
  }

  lemma SharedSame(w: World, w': World, p: string)
    requires Consistent(w) && w'.shared.records == w.shared.records && w'.shared.nextRecord == w.shared.nextRecord
    requires w'.shared.pipelines == w.shared.pipelines && w'.shared.rules == w.shared.rules
    requires w'.shared.targetGroups == w.shared.targetGroups && w'.shared.created == w.shared.created
    requires w'.shared.nextArn == w.shared.nextArn
    requires SameJobsBut(w.jobs, w'.jobs, p)
    requires BeingCleaned(w.jobs, p) ==> BeingCleaned(w'.jobs, p)
    requires p in w'.jobs ==> JobOk(w'.shared, p, w'.jobs[p])
    ensures Consistent(w')
  {
    assert forall q :: Untouched(w.shared, w'.shared, q);
    RecordsStay(w, w', p);
    StaysConsistent(w, w', p);
  }

  // ---------------------------------------------------------------- every move keeps the world consistent

  lemma CreatingKeepsCore(s: State, p: string)
    requires Core(s)
    ensures Core(Do(s, CreatePipeline(p)))
  {
    CoreIsBare(s);
    CreateKeepsInvariant(Bare(s), p);
    CreatingIgnoresRecords(s, p);
    CoreIsBare(Do(s, CreatePipeline(p)));
    hide Core, Invariant, Do;
  }

  lemma CreatingIgnoresRecords(s: State, p: string)
    ensures Do(Bare(s), CreatePipeline(p)) == Bare(Do(s, CreatePipeline(p)))
  {
  }

  lemma CreatingUntouched(s: State, p: string, q: string)
    requires IdsApart(s) && q in s.pipelines
    ensures Untouched(s, Do(s, CreatePipeline(p)), q)
  {
  }

  lemma IdsOf(w: World)
    requires Consistent(w)
    ensures Core(w.shared) && IdsApart(w.shared)
  {
  }

  lemma CreateKeeps(w: World, p: string)
    requires Consistent(w)
    ensures Consistent(Make(w, Create(p)))
  {
    IdsOf(w);
    hide Core, Consistent, Do, Untouched, IdsApart;
    var s := w.shared;
    CreatingKeepsCore(s, p);
    if Do(s, CreatePipeline(p)) == s {
      assert Make(w, Create(p)) == w;
    } else {
      CreatingIsNew(s, p);
      forall q | q in s.pipelines
        ensures Untouched(s, Do(s, CreatePipeline(p)), q)
      {
        CreatingUntouched(s, p, q);
      }
      CreatedStays(w, p);
    }
  }

  lemma CreatingIsNew(s: State, p: string)
    requires IdsApart(s) && Do(s, CreatePipeline(p)) != s
    ensures p !in s.pipelines
  {
  }

  lemma CreatedStays(w: World, p: string)
    requires Consistent(w) && p !in w.shared.pipelines && Core(Make(w, Create(p)).shared)
    requires forall q :: q in w.shared.pipelines ==> Untouched(w.shared, Make(w, Create(p)).shared, q)
    ensures Consistent(Make(w, Create(p)))
  {
    var w' := Make(w, Create(p));
    hide Core, JobOk, DeployOk, CleanOk;
    RecordsStay(w, w', p);
    forall q | q in w.jobs
      ensures q in w.shared.pipelines
    {
      JobInPipelines(w.shared, q, w.jobs[q]);
    }
    StaysConsistent(w, w', p);
  }

  lemma JobInPipelines(s: State, p: string, job: Job)
    requires JobOk(s, p, job)
    ensures p in s.pipelines
  {
  }

  lemma TrackedRecordsTrue(w: World, p: string)
    requires RecordsTrueUnlessCleaned(w) && p in w.shared.pipelines && p !in w.jobs
    ensures var s' := StartTracking(w.shared, p);
            RecordsTrueUnlessCleaned(World(s', w.jobs[p := Deploying(1, w.shared.nextRecord, "", 0)]))
    ensures HasRecord(StartTracking(w.shared, p), p, w.shared.nextRecord)
  {
    var s := w.shared;
    var r := Record(s.nextRecord, p, None, None);
    var w' := World(StartTracking(s, p), w.jobs[p := Deploying(1, s.nextRecord, "", 0)]);
    assert r in w'.shared.records;
    forall d | d in w'.shared.records
      ensures d.pipelineId in w'.shared.pipelines && d.id < w'.shared.nextRecord
      ensures !BeingCleaned(w'.jobs, d.pipelineId) ==> RecordTrue(w'.shared, d)
    {
      if d in s.records && !BeingCleaned(w.jobs, d.pipelineId) {
        RecordStaysTrue(s, w'.shared, d);
      }
    }
    assert forall i :: 0 <= i < |s.records| ==> s.records[i] in s.records;
  }

  lemma BeginDeployKeeps(w: World, p: string)
    requires Consistent(w)
    ensures Consistent(Make(w, BeginDeploy(p)))
  {
    var s := w.shared;
    if p in s.pipelines && p !in w.jobs {
      assert Core(s) && RecordsTrueUnlessCleaned(w);
      hide Core, Consistent, RecordsTrueUnlessCleaned;
      TrackedRecordsTrue(w, p);
      var r := Record(s.nextRecord, p, None, None);
      CoreIgnoresRecords(s, s.records + [r], s.nextRecord + 1);
      assert StartTracking(s, p) == s.(records := s.records + [r], nextRecord := s.nextRecord + 1);
      var w' := World(StartTracking(s, p), w.jobs[p := Deploying(1, s.nextRecord, "", 0)]);
      assert Make(w, BeginDeploy(p)) == w';
      hide Make, HasRecord;
      hide StartTracking, Untouched;
      forall q | q != p && q in w.jobs
        ensures Untouched(s, w'.shared, q)
      {
        TrackingUntouched(s, p, q);
      }
      StaysConsistent(w, w', p);
    }
  }

  lemma TrackingUntouched(s: State, p: string, q: string)
    requires p != q
    ensures Untouched(s, StartTracking(s, p), q)
  {
    RecordsOfAppend(s.records, Record(s.nextRecord, p, None, None), q);
  }

  lemma EffectOfMove(w: World, p: string, freshUrl: string)
    requires p in w.jobs && w.jobs[p].Deploying? && 1 <= w.jobs[p].done <= 3 && p in w.shared.pipelines
    ensures var w', alone := Make(w, NextEffect(p, freshUrl)), Effect(World(w.shared, map[p := w.jobs[p]]), p, w.jobs[p], freshUrl);
            && w'.shared == alone.shared && p in w'.jobs && p in alone.jobs && w'.jobs[p] == alone.jobs[p]
            && SameJobsBut(w.jobs, w'.jobs, p)
            && alone.shared == Effect(World(w.shared, map[]), p, w.jobs[p], freshUrl).shared
    ensures var s, s' := w.shared, Make(w, NextEffect(p, freshUrl)).shared;
            s'.records == s.records && s'.nextRecord == s.nextRecord && s.pipelines.Keys <= s'.pipelines.Keys
  {
    hide FindRule, IsFresh;
  }

  /** The first three effects; the others leave routing alone. */
  lemma RoutingEffectKeeps(w: World, p: string, freshUrl: string)
    requires Consistent(w) && p in w.jobs && w.jobs[p].Deploying? && w.jobs[p].done <= 3 && p in w.shared.pipelines
    ensures Consistent(Make(w, NextEffect(p, freshUrl)))
  {
    var s, job, w' := w.shared, w.jobs[p], Make(w, NextEffect(p, freshUrl));
    forall q | q in w.jobs
      ensures q in s.pipelines
    {
      JobIsOk(w, q);
    }
    JobIsOk(w, p);
    assert Core(s) && !BeingCleaned(w.jobs, p);
    hide Make, Effect, Core, Consistent, DeployOk, Untouched, Grows;
    EffectOfMove(w, p, freshUrl);
    OwnEffectGrows(s, p, job, freshUrl);
    OwnRoutingEffect(s, p, job, freshUrl);
    forall q | q in s.pipelines && q != p
      ensures Untouched(s, w'.shared, q)
    {
      OthersSeeNoEffect(s, p, job, freshUrl, q);
    }
    EffectStays(w, w', p);
  }

  lemma EffectStays(w: World, w': World, p: string)
    requires Consistent(w) && Core(w'.shared) && p in w'.jobs && JobOk(w'.shared, p, w'.jobs[p]) && SameJobsBut(w.jobs, w'.jobs, p)
    requires !BeingCleaned(w.jobs, p) && w'.shared.records == w.shared.records && w'.shared.nextRecord == w.shared.nextRecord
    requires w.shared.pipelines.Keys <= w'.shared.pipelines.Keys && w.jobs.Keys <= w.shared.pipelines.Keys
    requires Grows(w.shared, w'.shared, p)
    requires forall q :: q in w.shared.pipelines && q != p ==> Untouched(w.shared, w'.shared, q)
    ensures Consistent(w')
  {
    hide Core, JobOk;
    assert forall q :: q in w.shared.pipelines && q != p ==> Untouched(w.shared, w'.shared, q) ==> Grows(w.shared, w'.shared, q);
    RecordsStay(w, w', p);
    StaysConsistent(w, w', p);
  }

  lemma OthersSeeNoEffect(s: State, p: string, job: Job, freshUrl: string, q: string)
    requires Core(s) && job.Deploying? && job.done <= 3 && DeployOk(s, p, job) && q in s.pipelines && q != p
    ensures Untouched(s, Effect(World(s, map[]), p, job, freshUrl).shared, q)
  {
    if job.done == 1 {
      OthersSeeNoUrl(s, p, freshUrl, q);
    } else if job.done == 2 {
      OthersSeeNoGroup(s, p, q);
    } else {
      OthersSeeNoRule(s, p, job.host, job.target, q);
    }
    hide EnsureRule, EnsureTargetGroup, SaveUrl, Core;
  }

  lemma OwnRoutingEffect(s: State, p: string, job: Job, freshUrl: string)
    requires Core(s) && job.Deploying? && job.done <= 3 && DeployOk(s, p, job)
    ensures var w' := Effect(World(s, map[p := job]), p, job, freshUrl);
            Core(w'.shared) && p in w'.jobs && w'.jobs[p].Deploying? && DeployOk(w'.shared, p, w'.jobs[p])
  {
    if job.done == 1 {
      if IsFresh(s, freshUrl) {
        NamingKeepsCore(s, p, freshUrl);
      }
      hide Core;
    } else if job.done == 2 {
      GroupingKeepsCore(s, p);
      hide Core;
    } else {
      RoutingKeepsCore(s, p, job.host, job.target);
      HostsAfterRule(s, job.host, job.target, job.host);
      RuleLeavesRest(s, job.host, job.target);
      hide Core, EnsureRule, HasHost;
    }
  }

  lemma LateEffectOfMove(w: World, p: string, freshUrl: string)
    requires p in w.jobs && w.jobs[p].Deploying? && 4 <= w.jobs[p].done <= 6 && p in w.shared.pipelines
    ensures var w', job := Make(w, NextEffect(p, freshUrl)), w.jobs[p];
            && w'.jobs == w.jobs[p := Deploying(job.done + 1, job.id, job.host, job.target)]
            && w'.shared == w.shared.(services := w'.shared.services, eventRules := w'.shared.eventRules)
  {
  }

  lemma LateDeployOk(s: State, s': State, p: string, job: Job)
    requires job.Deploying? && 4 <= job.done <= 6 && DeployOk(s, p, job)
    requires s' == s.(services := s'.services, eventRules := s'.eventRules)
    ensures DeployOk(s', p, Deploying(job.done + 1, job.id, job.host, job.target))
  {
    var r :| r in s.records && r.id == job.id && r.pipelineId == p;
    assert r in s'.records;
  }

  lemma LateEffectKeeps(w: World, p: string, freshUrl: string)
    requires Consistent(w) && p in w.jobs && w.jobs[p].Deploying? && 4 <= w.jobs[p].done <= 6 && p in w.shared.pipelines
    ensures Consistent(Make(w, NextEffect(p, freshUrl)))
  {
    JobIsOk(w, p);
    hide Consistent, Make, DeployOk;
    LateEffectOfMove(w, p, freshUrl);
    LateDeployOk(w.shared, Make(w, NextEffect(p, freshUrl)).shared, p, w.jobs[p]);
    SharedSame(w, Make(w, NextEffect(p, freshUrl)), p);
  }

  lemma RecordFound(s: State, p: string, job: Job) returns (i: nat)
    requires job.Deploying? && job.done == 7 && DeployOk(s, p, job) && IdsDiffer(s.records)
    ensures i < |s.records| && s.records[i].id == job.id && s.records[i].pipelineId == p
    ensures var r := s.records[i].(deployUrl := Some(job.host), targetGroup := Some(job.target));
            RecordById(s, job.id, job.host, job.target) == s.(records := s.records[i := r])
  {
    var d :| d in s.records && d.id == job.id && d.pipelineId == p;
    var j :| 0 <= j < |s.records| && s.records[j] == d;
    i := FindRecord(s.records, job.id).value;
    assert i == j;
  }

  lemma CoreIgnoresRecords(s: State, records: seq<Record>, nextRecord: nat)
    requires Core(s)
    ensures Core(s.(records := records, nextRecord := nextRecord))
  {
  }

  lemma MakeRecording(w: World, p: string, freshUrl: string)
    requires p in w.jobs && w.jobs[p].Deploying? && w.jobs[p].done >= 7 && p in w.shared.pipelines
    ensures var job := w.jobs[p];
            Make(w, NextEffect(p, freshUrl)) == World(RecordById(w.shared, job.id, job.host, job.target), w.jobs - {p})
  {
    hide RecordById;
  }

  /** The record that the last effect writes is true. */
  lemma RecordedIsTrue(w: World, p: string, i: nat)
    requires Consistent(w) && p in w.jobs && w.jobs[p].Deploying? && w.jobs[p].done == 7 && i < |w.shared.records|
    requires w.shared.records[i].id == w.jobs[p].id && w.shared.records[i].pipelineId == p
    ensures var r := w.shared.records[i].(deployUrl := Some(w.jobs[p].host), targetGroup := Some(w.jobs[p].target));
            RecordTrue(w.shared.(records := w.shared.records[i := r]), r)
  {
    JobIsOk(w, p);
    RecordIdsBelow(w, i);
    hide Consistent;
  }

  lemma RecordingKeeps(w: World, p: string, freshUrl: string)
    requires Consistent(w) && p in w.jobs && w.jobs[p].Deploying? && w.jobs[p].done == 7 && p in w.shared.pipelines
    ensures Consistent(Make(w, NextEffect(p, freshUrl)))
  {
    JobIsOk(w, p);
    IdsOf(w);
    hide Consistent, Core, RecordById, Make, DeployOk, RecordTrue, IdsDiffer;
    var s, job := w.shared, w.jobs[p];
    RecordsDiffer(w);
    MakeRecording(w, p, freshUrl);
    var i := RecordFound(s, p, job);
    var r := s.records[i].(deployUrl := Some(job.host), targetGroup := Some(job.target));
    var s' := s.(records := s.records[i := r]);
    RecordedIsTrue(w, p, i);
    CoreIgnoresRecords(s, s'.records, s.nextRecord);
    assert s' == s.(records := s'.records, nextRecord := s.nextRecord);
    RecordingStays(w, World(s', w.jobs - {p}), p, i, r);
  }

  lemma RecordsDiffer(w: World)
    requires Consistent(w)
    ensures IdsDiffer(w.shared.records)
  {
  }

  lemma RecordIdsBelow(w: World, i: nat)
    requires Consistent(w) && i < |w.shared.records|
    ensures w.shared.records[i].id < w.shared.nextRecord
  {
    assert w.shared.records[i] in w.shared.records;
  }

  lemma RecordingStays(w: World, w': World, p: string, i: nat, r: Record)
    requires Consistent(w) && i < |w.shared.records| && w'.shared == w.shared.(records := w.shared.records[i := r])
    requires w'.jobs == w.jobs - {p} && !BeingCleaned(w.jobs, p) && Core(w'.shared) && RecordTrue(w'.shared, r)
    requires r.pipelineId == p == w.shared.records[i].pipelineId && r.id == w.shared.records[i].id
    ensures Consistent(w')
  {
    hide Core;
    var s := w.shared;
    assert RecordsTrueUnlessCleaned(w') by {
      forall d | d in w'.shared.records
        ensures d.pipelineId in w'.shared.pipelines && d.id < w'.shared.nextRecord
        ensures !BeingCleaned(w'.jobs, d.pipelineId) ==> RecordTrue(w'.shared, d)
      {
        assert s.records[i] in s.records;
        if d != r {
          assert d in s.records;
          if !BeingCleaned(w'.jobs, d.pipelineId) {
            CleanedExceptOwn(w, w', p, d);
          }
        }
      }
      assert forall k :: 0 <= k < |s.records| ==> w'.shared.records[k].id == s.records[k].id;
    }
    forall q | q != p && q in w.jobs
      ensures Untouched(s, w'.shared, q)
    {
      RecordsOfUpdate(s.records, i, r, q);
    }
    StaysConsistent(w, w', p);
  }

  lemma CleanedExceptOwn(w: World, w': World, p: string, d: Record)
    requires RecordsTrueUnlessCleaned(w) && d in w.shared.records && w'.jobs == w.jobs - {p}
    requires w'.shared == w.shared.(records := w'.shared.records) && !BeingCleaned(w'.jobs, d.pipelineId)
    requires BeingCleaned(w.jobs, p) ==> d.pipelineId != p
    ensures RecordTrue(w'.shared, d)
  {
    RecordStaysTrue(w.shared, w'.shared, d);
  }

  lemma BeginCleanupKeeps(w: World, p: string)
    requires Consistent(w)
    ensures Consistent(Make(w, BeginCleanup(p)))
  {
    var s := w.shared;
    if p in s.pipelines && p !in w.jobs {
      var job := Cleaning(0, RecordsOf(s.records, p));
      RecordsOfIn(s.records, p);
      forall r | r in job.own
        ensures OwnOk(s, p, 0, r)
      {
        assert RecordTrue(s, r);
      }
      assert CleanOk(s, p, job);
      hide Consistent, CleanOk;
      SharedSame(w, World(s, w.jobs[p := job]), p);
    }
  }

  /** The stages that touch neither rules nor target groups. */
  lemma SideDeletionKeeps(w: World, p: string, serviceDeleted: bool)
    requires Consistent(w) && p in w.jobs && w.jobs[p].Cleaning? && w.jobs[p].stage in {0, 3}
    ensures Consistent(Make(w, NextDeletion(p, serviceDeleted)))
  {
    JobIsOk(w, p);
    hide Consistent;
    var s, job, w' := w.shared, w.jobs[p], Make(w, NextDeletion(p, serviceDeleted));
    assert w'.jobs == w.jobs[p := Cleaning(job.stage + 1, job.own)];
    assert w'.shared == s.(services := w'.shared.services, eventRules := w'.shared.eventRules);
    hide Make, Deletion;
    forall r | r in job.own
      ensures OwnOk(w'.shared, p, job.stage + 1, r)
    {
      assert OwnOk(s, p, job.stage, r);
    }
    SharedSame(w, w', p);
  }

  lemma JobsHavePipelines(w: World)
    requires Consistent(w)
    ensures w.jobs.Keys <= w.shared.pipelines.Keys
  {
    forall q | q in w.jobs
      ensures q in w.shared.pipelines
    {
      JobIsOk(w, q);
    }
  }

  lemma MakeRoutingDeletion(w: World, p: string, serviceDeleted: bool)
    requires p in w.jobs && w.jobs[p].Cleaning? && w.jobs[p].stage in {1, 2}
    ensures var job := w.jobs[p];
            Make(w, NextDeletion(p, serviceDeleted)) ==
            World(if job.stage == 1 then DeleteRules(w.shared, job.own) else DeleteGroups(w.shared, job.own),
                  w.jobs[p := Cleaning(job.stage + 1, job.own)])
  {
    hide DeleteRules, DeleteGroups;
  }

  lemma RoutingDeletionKeeps(w: World, p: string, serviceDeleted: bool)
    requires Consistent(w) && p in w.jobs && w.jobs[p].Cleaning? && w.jobs[p].stage in {1, 2}
    ensures Consistent(Make(w, NextDeletion(p, serviceDeleted)))
  {
    JobIsOk(w, p);
    IdsOf(w);
    JobsHavePipelines(w);
    hide Consistent, Core, CleanOk, Untouched, DeleteRules, DeleteGroups, Make;
    MakeRoutingDeletion(w, p, serviceDeleted);
    var s, job := w.shared, w.jobs[p];
    var s' := if job.stage == 1 then DeleteRules(s, job.own) else DeleteGroups(s, job.own);
    if job.stage == 1 {
      RulesDeleted(s, p, job);
    } else {
      GroupsDeleted(s, p, job);
    }
    DeletionKeepsRest(s, job.own);
    DeletionStays(w, World(s', w.jobs[p := Cleaning(job.stage + 1, job.own)]), p);
  }

  lemma DeletionKeepsRest(s: State, own: seq<Record>)
    ensures DeleteRules(s, own) == s.(rules := DeleteRules(s, own).rules)
    ensures DeleteGroups(s, own) == s.(targetGroups := DeleteGroups(s, own).targetGroups)
  {
  }

  lemma DeletionStays(w: World, w': World, p: string)
    requires Consistent(w) && Core(w'.shared) && p in w'.jobs && JobOk(w'.shared, p, w'.jobs[p]) && SameJobsBut(w.jobs, w'.jobs, p)
    requires BeingCleaned(w'.jobs, p) && w'.shared.records == w.shared.records && w'.shared.nextRecord == w.shared.nextRecord
    requires w'.shared.pipelines == w.shared.pipelines && w.jobs.Keys <= w.shared.pipelines.Keys
    requires forall q :: q in w.shared.pipelines && q != p ==> Untouched(w.shared, w'.shared, q)
    ensures Consistent(w')
  {
    hide Core, JobOk;
    assert forall q :: q in w.shared.pipelines && q != p ==> Untouched(w.shared, w'.shared, q) ==> Grows(w.shared, w'.shared, q);
    RecordsStay(w, w', p);
    StaysConsistent(w, w', p);
  }

  lemma ForgettingKeeps(w: World, p: string, serviceDeleted: bool)
    requires Consistent(w) && p in w.jobs && w.jobs[p].Cleaning? && w.jobs[p].stage == 4
    ensures Consistent(Make(w, NextDeletion(p, serviceDeleted)))
  {
    JobIsOk(w, p);
    var s := w.shared;
    var w' := World(Forget(s, p), w.jobs - {p});
    forall q | q in w.jobs
      ensures q in s.pipelines
    {
      JobIsOk(w, q);
    }
    assert Core(s) && RecordsTrueUnlessCleaned(w);
    Forgotten(s, p);
    hide Consistent, Core;
    assert RecordsTrueUnlessCleaned(w') by {
      RecordsOfIn(s.records, p);
      OthersStayApart(s.records, p);
      forall d | d in w'.shared.records
        ensures d.pipelineId in w'.shared.pipelines && d.id < w'.shared.nextRecord
        ensures !BeingCleaned(w'.jobs, d.pipelineId) ==> RecordTrue(w'.shared, d)
      {
        assert d in s.records && d.pipelineId != p;
        if !BeingCleaned(w'.jobs, d.pipelineId) {
          RecordStaysTrue(s, w'.shared, d);
        }
      }
    }
    hide RecordsTrueUnlessCleaned, Forget, Untouched;
    StaysConsistent(w, w', p);
  }

  lemma CompleteKeeps(w: World, id: nat)
    requires Consistent(w)
    ensures Consistent(Make(w, Complete(id)))
  {
    var w' := Make(w, Complete(id));
    assert "" in w.jobs ==> JobOk(w'.shared, "", w.jobs[""]) by {
      if "" in w.jobs {
        JobIsOk(w, "");
        JobStaysOk(w.shared, w'.shared, "", w.jobs[""]);
      }
    }
    hide Consistent, JobOk;
    SharedSame(w, w', "");
  }

  lemma MoveKeeps(w: World, move: Move)
    requires Consistent(w)
    ensures Consistent(Make(w, move))
  {
    match move {
      case Create(p) => CreateKeeps(w, p);
      case Complete(id) => CompleteKeeps(w, id);
      case BeginDeploy(p) => BeginDeployKeeps(w, p);
      case NextEffect(p, freshUrl) =>
        if p in w.jobs && w.jobs[p].Deploying? {
          JobIsOk(w, p);
          hide Consistent;
          if w.jobs[p].done <= 3 {
            RoutingEffectKeeps(w, p, freshUrl);
          } else if w.jobs[p].done <= 6 {
            LateEffectKeeps(w, p, freshUrl);
          } else {
            RecordingKeeps(w, p, freshUrl);
          }
        }
      case Abandon(p) =>
        if p in w.jobs && w.jobs[p].Deploying? {
          hide Consistent;
          SharedSame(w, Make(w, move), p);
        }
      case BeginCleanup(p) => BeginCleanupKeeps(w, p);
      case NextDeletion(p, serviceDeleted) =>
        if p in w.jobs && w.jobs[p].Cleaning? {
          JobIsOk(w, p);
          hide Consistent;
          if w.jobs[p].stage in {0, 3} {
            SideDeletionKeeps(w, p, serviceDeleted);
          } else if w.jobs[p].stage in {1, 2} {
            RoutingDeletionKeeps(w, p, serviceDeleted);
          } else {
            ForgettingKeeps(w, p, serviceDeleted);
          }
        }
    }
  }

  lemma {:induction false} ConsistentAfter(moves: seq<Move>)
    ensures Consistent(After(moves))
  {
    if |moves| > 0 {
      ConsistentAfter(moves[..|moves| - 1]);
      MoveKeeps(After(moves[..|moves| - 1]), moves[|moves| - 1]);
      hide Consistent, Make;
    }
  }

  // ---------------------------------------------------------------- main results

  /**
   * In every interleaving of deploys and clean-ups, effect by effect, a host has one rule at most, and a rule has a
   * pipeline's host exactly when it forwards to the pipeline's own group.
   */
  lemma RoutesLeadHomeThroughout(moves: seq<Move>, p: string, r: Rule)
    requires p in After(moves).shared.pipelines && r in After(moves).shared.rules
    ensures var s := After(moves).shared;
            && (s.pipelines[p] == Some(r.host) <==> Owns(s, p, r.target))
            && (forall r' :: r' in s.rules && r'.host == r.host ==> r' == r)
  {
    ConsistentAfter(moves);
    hide GroupsApart, UrlsApart, IdsApart, RecordsTrueUnlessCleaned, JobOk;
  }

  /** Once a deploy has placed its rule, the rule stays until a clean-up of the same pipeline, whatever the others do. */
  lemma PlacedRuleStays(moves: seq<Move>, p: string)
    requires var w := After(moves); p in w.jobs && w.jobs[p].Deploying? && w.jobs[p].done >= 4
    ensures var s := After(moves).shared;
            && p in s.pipelines && s.pipelines[p].Some?
            && exists r :: r in s.rules && Some(r.host) == s.pipelines[p] && Owns(s, p, r.target)
  {
    var w := After(moves);
    ConsistentAfter(moves);
    JobIsOk(w, p);
    HostsIn(w.shared.rules, w.jobs[p].host);
    var r :| r in w.shared.rules && r.host == w.jobs[p].host;
    RoutesLeadHomeThroughout(moves, p, r);
  }

  /**
   * No move of one pipeline's job changes what belongs to another: its URL, its group, whether its host has a rule,
   * and its records.
   */
  lemma JobsKeepToThemselves(moves: seq<Move>, move: Move, q: string)
    requires q in After(moves).shared.pipelines
    requires move.Create? || move.Complete? || move.p != q
    ensures Untouched(After(moves).shared, Make(After(moves), move).shared, q)
  {
    var w := After(moves);
    ConsistentAfter(moves);
    MoveUntouched(w, move, q);
  }

  lemma MoveUntouched(w: World, move: Move, q: string)
    requires Consistent(w) && q in w.shared.pipelines && (move.Create? || move.Complete? || move.p != q)
    ensures Untouched(w.shared, Make(w, move).shared, q)
  {
    var s := w.shared;
    match move {
      case Create(p) =>
      case Complete(id) =>
      case BeginDeploy(p) => RecordsOfAppend(s.records, Record(s.nextRecord, p, None, None), q);
      case NextEffect(p, freshUrl) =>
        if p in w.jobs && w.jobs[p].Deploying? {
          JobIsOk(w, p);
          EffectUntouched(w, p, freshUrl, q);
        }
      case Abandon(p) =>
      case BeginCleanup(p) =>
      case NextDeletion(p, serviceDeleted) =>
        if p in w.jobs && w.jobs[p].Cleaning? {
          JobIsOk(w, p);
          DeletionUntouched(w, p, serviceDeleted, q);
        }
    }
  }

  lemma EffectUntouched(w: World, p: string, freshUrl: string, q: string)
    requires Consistent(w) && q in w.shared.pipelines && p != q
    requires p in w.jobs && w.jobs[p].Deploying? && JobOk(w.shared, p, w.jobs[p]) && p in w.shared.pipelines
    ensures Untouched(w.shared, Make(w, NextEffect(p, freshUrl)).shared, q)
  {
    var s, job := w.shared, w.jobs[p];
    assert Core(s) && IdsDiffer(s.records) && DeployOk(s, p, job);
    hide Consistent, Core, DeployOk, Make, Effect, Untouched, IdsDiffer;
    assert 1 <= job.done by {
      FirstEffectDone(s, p, job);
    }
    if job.done <= 3 {
      EffectOfMove(w, p, freshUrl);
      OthersSeeNoEffect(s, p, job, freshUrl, q);
    } else if job.done <= 6 {
      LateEffectOfMove(w, p, freshUrl);
      SideUntouched(s, Make(w, NextEffect(p, freshUrl)).shared, q);
    } else {
      RecordingUntouched(w, p, freshUrl, q);
    }
  }

  lemma FirstEffectDone(s: State, p: string, job: Job)
    requires job.Deploying? && DeployOk(s, p, job)
    ensures 1 <= job.done <= 7
  {
  }

  lemma RecordingUntouched(w: World, p: string, freshUrl: string, q: string)
    requires p in w.jobs && w.jobs[p].Deploying? && w.jobs[p].done >= 7 && p in w.shared.pipelines && p != q
    requires DeployOk(w.shared, p, w.jobs[p]) && IdsDiffer(w.shared.records)
    ensures Untouched(w.shared, Make(w, NextEffect(p, freshUrl)).shared, q)
  {
    var s, job := w.shared, w.jobs[p];
    var i := RecordFound(s, p, job);
    assert Make(w, NextEffect(p, freshUrl)).shared == RecordById(s, job.id, job.host, job.target);
    hide Make, RecordById, DeployOk, IdsDiffer;
    RecordsOfUpdate(s.records, i, s.records[i].(deployUrl := Some(job.host), targetGroup := Some(job.target)), q);
  }

  lemma MakeSideDeletion(w: World, p: string, serviceDeleted: bool)
    requires p in w.jobs && w.jobs[p].Cleaning? && w.jobs[p].stage in {0, 3}
    ensures var s' := Make(w, NextDeletion(p, serviceDeleted)).shared;
            s' == w.shared.(services := s'.services, eventRules := s'.eventRules)
  {
    hide EventRulesOf, ServiceName;
  }

  lemma MakeForgetting(w: World, p: string, serviceDeleted: bool)
    requires p in w.jobs && w.jobs[p].Cleaning? && w.jobs[p].stage >= 4
    ensures Make(w, NextDeletion(p, serviceDeleted)).shared == Forget(w.shared, p)
  {
    hide Forget;
  }

  lemma DeletionUntouched(w: World, p: string, serviceDeleted: bool, q: string)
    requires Consistent(w) && q in w.shared.pipelines && p != q
    requires p in w.jobs && w.jobs[p].Cleaning? && JobOk(w.shared, p, w.jobs[p]) && p in w.shared.pipelines
    ensures Untouched(w.shared, Make(w, NextDeletion(p, serviceDeleted)).shared, q)
  {
    IdsOf(w);
    hide Consistent, Core, Make, Untouched, CleanOk, DeleteRules, DeleteGroups, Forget;
    var s, job := w.shared, w.jobs[p];
    if job.stage in {1, 2} {
      MakeRoutingDeletion(w, p, serviceDeleted);
      if job.stage == 1 {
        RulesDeleted(s, p, job);
      } else {
        GroupsDeleted(s, p, job);
      }
    } else if job.stage in {0, 3} {
      MakeSideDeletion(w, p, serviceDeleted);
      SideUntouched(s, Make(w, NextDeletion(p, serviceDeleted)).shared, q);
    } else {
      MakeForgetting(w, p, serviceDeleted);
      Forgotten(s, p);
    }
  }

  lemma SideUntouched(s: State, s': State, q: string)
    requires s' == s.(services := s'.services, eventRules := s'.eventRules)
    ensures Untouched(s, s', q)
  {
  }

  /** A deletion for one pipeline spares the service and the event rules of every other. */
  lemma DeletionsSpareOthers(moves: seq<Move>, p: string, serviceDeleted: bool, d: Record)
    requires d in After(moves).shared.records && d.pipelineId != p
    ensures var s, s' := After(moves).shared, Make(After(moves), NextDeletion(p, serviceDeleted)).shared;
            && (ServiceName(d.pipelineId) in s'.services <==> ServiceName(d.pipelineId) in s.services)
            && forall e :: e in {DeployRule(d.id), HealthRule(d.id)} ==> (e in s'.eventRules <==> e in s.eventRules)
  {
    var w := After(moves);
    ConsistentAfter(moves);
    if p in w.jobs && w.jobs[p].Cleaning? {
      JobIsOk(w, p);
      assert IdsDiffer(w.shared.records);
      hide Consistent, JobOk, DeleteRules, DeleteGroups, Forget;
      SpareOthers(w, p, serviceDeleted, d);
    }
  }

  lemma SpareOthers(w: World, p: string, serviceDeleted: bool, d: Record)
    requires p in w.jobs && w.jobs[p].Cleaning? && CleanOk(w.shared, p, w.jobs[p]) && IdsDiffer(w.shared.records)
    requires d in w.shared.records && d.pipelineId != p
    ensures var s, s' := w.shared, Make(w, NextDeletion(p, serviceDeleted)).shared;
            && (ServiceName(d.pipelineId) in s'.services <==> ServiceName(d.pipelineId) in s.services)
            && forall e :: e in {DeployRule(d.id), HealthRule(d.id)} ==> (e in s'.eventRules <==> e in s.eventRules)
  {
    var own := w.jobs[p].own;
    RecordsOfIn(w.shared.records, p);
    assert ServiceName(p)[5..] == p && ServiceName(d.pipelineId)[5..] == d.pipelineId;
    forall e | e in {DeployRule(d.id), HealthRule(d.id)}
      ensures e !in EventRulesOf(own)
    {
      EventRulesOfIn(own, e);
    }
    hide EventRulesOf, DeleteRulesOf, DeleteTargetGroupsOf, ServiceName;
  }

  /**
   * When a clean-up that found a finished deploy has made its deletions, nothing of its pipeline's routing is left,
   * although other pipelines were deployed and cleaned up in between.
   */
  lemma FinishedCleanupLeavesNothing(moves: seq<Move>, p: string)
    requires var w := After(moves);
             p in w.jobs && w.jobs[p].Cleaning? && w.jobs[p].stage >= 3 && Completed(w.jobs[p].own)
    ensures var s := After(moves).shared;
            && p in s.pipelines && s.pipelines[p].Some?
            && !HasGroup(s, p) && forall r :: r in s.rules ==> Some(r.host) != s.pipelines[p]
  {
    var w := After(moves);
    ConsistentAfter(moves);
    JobIsOk(w, p);
    var host := OwnFacts(w.shared, p, w.jobs[p]);
    HostsIn(w.shared.rules, host);
  }

  // ---------------------------------------------------------------- jobs that nothing interrupts

  function Effects(w: World, p: string, freshUrl: string, n: nat): World {
    if n == 0 then w else Make(Effects(w, p, freshUrl, n - 1), NextEffect(p, freshUrl))
  }

  function Deletions(w: World, p: string, serviceDeleted: bool, n: nat): World {
    if n == 0 then w else Make(Deletions(w, p, serviceDeleted, n - 1), NextDeletion(p, serviceDeleted))
  }

  /** The state of a deploy after tracking and naming, with its target group. */
  function Grouped(s: State, p: string, freshUrl: string): State
    requires p in s.pipelines
  {
    EnsureTargetGroup(SaveUrl(StartTracking(s, p), p, freshUrl), p)
  }

  lemma ThreeEffects(w: World, p: string, freshUrl: string)
    requires p in w.shared.pipelines && p !in w.jobs && IsFresh(w.shared, freshUrl)
    ensures var grouped := Grouped(w.shared, p, freshUrl);
            p in grouped.pipelines && grouped.pipelines[p].Some? && HasGroup(grouped, p)
    ensures var grouped := Grouped(w.shared, p, freshUrl);
            Effects(Make(w, BeginDeploy(p)), p, freshUrl, 2) ==
            World(grouped, w.jobs[p := Deploying(3, w.shared.nextRecord, grouped.pipelines[p].value, grouped.targetGroups[TargetGroupName(p)])])
  {
    hide TargetGroupName;
    var s, id := w.shared, w.shared.nextRecord;
    var w1 := Make(w, BeginDeploy(p));
    assert w1 == World(StartTracking(s, p), w.jobs[p := Deploying(1, id, "", 0)]);
    assert Effects(w1, p, freshUrl, 0) == w1 && IsFresh(w1.shared, freshUrl);
    hide IsFresh;
    var named := SaveUrl(w1.shared, p, freshUrl);
    var w2 := World(named, w.jobs[p := Deploying(2, id, named.pipelines[p].value, 0)]);
    assert Make(w1, NextEffect(p, freshUrl)) == w2;
    assert Effects(w1, p, freshUrl, 1) == w2;
  }

  lemma OneMore(w: World, p: string, freshUrl: string, n: nat)
    ensures Effects(w, p, freshUrl, n + 1) == Make(Effects(w, p, freshUrl, n), NextEffect(p, freshUrl))
    ensures Effects(w, p, freshUrl, 0) == w
  {
  }

  /** What one of the effects from the rule on makes of the shared state. */
  function LateEffect(s: State, p: string, done: nat, id: nat, host: string, target: nat): State {
    match done
    case 3 => EnsureRule(s, host, target)
    case 4 => EnsureService(s, p)
    case 5 => AddEventRule(s, DeployRule(id))
    case 6 => AddEventRule(s, HealthRule(id))
    case _ => RecordById(s, id, host, target)
  }

  lemma MakeLateEffect(s: State, jobs: map<string, Job>, p: string, freshUrl: string, done: nat, id: nat, host: string, target: nat)
    requires 3 <= done <= 7 && p in s.pipelines
    ensures Make(World(s, jobs[p := Deploying(done, id, host, target)]), NextEffect(p, freshUrl)) ==
            World(LateEffect(s, p, done, id, host, target), if done < 7 then jobs[p := Deploying(done + 1, id, host, target)] else jobs - {p})
    ensures p in LateEffect(s, p, done, id, host, target).pipelines
  {
    var job, next := Deploying(done, id, host, target), Deploying(done + 1, id, host, target);
    assert jobs[p := job][p := next] == jobs[p := next] && jobs[p := job] - {p} == jobs - {p};
    hide EnsureRule, EnsureService, AddEventRule, RecordById;
    EffectsKeepPipelines(s, p, done, id, host, target);
  }

  lemma EffectsKeepPipelines(s: State, p: string, done: nat, id: nat, host: string, target: nat)
    ensures LateEffect(s, p, done, id, host, target).pipelines == s.pipelines
  {
  }

  lemma LastRecord(s: State, id: nat, host: string, target: nat)
    requires |s.records| > 0 && s.records[|s.records| - 1].id == id && IdsDiffer(s.records)
    ensures RecordById(s, id, host, target) == RecordResources(s, host, target)
  {
    assert FindRecord(s.records, id) == Some(|s.records| - 1);
  }

  lemma LateEffectsAreAfterRouting(s: State, p: string, id: nat, host: string, target: nat)
    requires |s.records| > 0 && s.records[|s.records| - 1].id == id && IdsDiffer(s.records)
    ensures LateEffect(LateEffect(LateEffect(LateEffect(s, p, 4, id, host, target), p, 5, id, host, target), p, 6, id, host, target),
                       p, 7, id, host, target)
            == AfterRouting(s, p, id, host, target, 8)
  {
    hide ServiceName;
    var watched := AddEventRule(AddEventRule(EnsureService(s, p), DeployRule(id)), HealthRule(id));
    LastRecord(watched, id, host, target);
    hide RecordById, IdsDiffer;
  }

  lemma FirstLateEffect(s: State, p: string, id: nat, host: string, target: nat)
    ensures LateEffect(s, p, 3, id, host, target) == EnsureRule(s, host, target)
  {
  }

  /** From the rule on: the rest of a deploy. */
  lemma RestOfDeploy(s: State, jobs: map<string, Job>, p: string, freshUrl: string, id: nat, host: string, target: nat)
    requires p in s.pipelines && |s.records| > 0 && s.records[|s.records| - 1].id == id && IdsDiffer(s.records)
    ensures |EnsureRule(s, host, target).records| > 0
    ensures Effects(World(s, jobs[p := Deploying(3, id, host, target)]), p, freshUrl, 5) ==
            World(AfterRouting(EnsureRule(s, host, target), p, id, host, target, 8), jobs - {p})
  {
    hide Make, LateEffect, EnsureRule, Effects, AfterRouting, IdsDiffer;
    RuleLeavesRest(s, host, target);
    var w := World(s, jobs[p := Deploying(3, id, host, target)]);
    var s4 := LateEffect(s, p, 3, id, host, target);
    FirstLateEffect(s, p, id, host, target);
    var s5 := LateEffect(s4, p, 4, id, host, target);
    var s6 := LateEffect(s5, p, 5, id, host, target);
    var s7 := LateEffect(s6, p, 6, id, host, target);
    OneMore(w, p, freshUrl, 0);
    MakeLateEffect(s, jobs, p, freshUrl, 3, id, host, target);
    OneMore(w, p, freshUrl, 1);
    MakeLateEffect(s4, jobs, p, freshUrl, 4, id, host, target);
    OneMore(w, p, freshUrl, 2);
    MakeLateEffect(s5, jobs, p, freshUrl, 5, id, host, target);
    OneMore(w, p, freshUrl, 3);
    MakeLateEffect(s6, jobs, p, freshUrl, 6, id, host, target);
    OneMore(w, p, freshUrl, 4);
    MakeLateEffect(s7, jobs, p, freshUrl, 7, id, host, target);
    LateEffectsAreAfterRouting(s4, p, id, host, target);
  }

  lemma {:induction false} EffectsCompose(w: World, p: string, freshUrl: string, m: nat, n: nat)
    ensures Effects(Effects(w, p, freshUrl, m), p, freshUrl, n) == Effects(w, p, freshUrl, m + n)
  {
    hide Effects, Make;
    OneMore(Effects(w, p, freshUrl, m), p, freshUrl, if n > 0 then n - 1 else 0);
    if n > 0 {
      EffectsCompose(w, p, freshUrl, m, n - 1);
      OneMore(w, p, freshUrl, m + n - 1);
    }
  }

  lemma GroupedRecords(s: State, p: string, freshUrl: string)
    requires p in s.pipelines
    ensures Grouped(s, p, freshUrl).records == s.records + [Record(s.nextRecord, p, None, None)]
  {
    hide TargetGroupName;
  }

  /** A deploy that nothing interrupts is the whole deploy. */
  lemma UninterruptedDeployIsDeploy(moves: seq<Move>, p: string, freshUrl: string)
    requires var w := After(moves); p in w.shared.pipelines && p !in w.jobs && IsFresh(w.shared, freshUrl)
    ensures var w := After(moves);
            Effects(Make(w, BeginDeploy(p)), p, freshUrl, 7) == World(Deploy(w.shared, p, freshUrl, 8), w.jobs)
  {
    hide Effects, Make, Grouped, EnsureRule, AfterRouting, Deploy, Consistent, After, IsFresh, IdsDiffer;
    var w := After(moves);
    ConsistentAfter(moves);
    NewIdDiffers(w, p);
    ThreeEffects(w, p, freshUrl);
    GroupedRecords(w.shared, p, freshUrl);
    var s := Grouped(w.shared, p, freshUrl);
    var host, target := s.pipelines[p].value, s.targetGroups[TargetGroupName(p)];
    DeployUnfolds(w.shared, p, freshUrl);
    RestOfDeploy(s, w.jobs, p, freshUrl, w.shared.nextRecord, host, target);
    EffectsCompose(Make(w, BeginDeploy(p)), p, freshUrl, 2, 5);
    assert w.jobs - {p} == w.jobs;
  }

  lemma NewIdDiffers(w: World, p: string)
    requires Consistent(w)
    ensures IdsDiffer(w.shared.records + [Record(w.shared.nextRecord, p, None, None)])
  {
    forall i | 0 <= i < |w.shared.records|
      ensures w.shared.records[i].id < w.shared.nextRecord
    {
      RecordIdsBelow(w, i);
    }
  }

  lemma DeployUnfolds(s: State, p: string, freshUrl: string)
    requires p in s.pipelines
    ensures var grouped := Grouped(s, p, freshUrl);
            && p in grouped.pipelines && grouped.pipelines[p].Some? && HasGroup(grouped, p)
            && (var host, target := grouped.pipelines[p].value, grouped.targetGroups[TargetGroupName(p)];
                && |EnsureRule(grouped, host, target).records| > 0
                && Deploy(s, p, freshUrl, 8) == AfterRouting(EnsureRule(grouped, host, target), p, s.nextRecord, host, target, 8))
  {
    hide AfterRouting, FindRule, TargetGroupName;
  }

  /** The stages of a clean-up before its records are forgotten. */
  function Deleted(s: State, p: string, own: seq<Record>, serviceDeleted: bool, stage: nat): State
    requires stage <= 4
  {
    if stage == 0 then s
    else
      var before := Deleted(s, p, own, serviceDeleted, stage - 1);
      StageResult(before, p, stage - 1, own, serviceDeleted)
  }

  function StageResult(s: State, p: string, stage: nat, own: seq<Record>, serviceDeleted: bool): State {
    match stage
    case 0 => s.(services := if serviceDeleted then s.services - {ServiceName(p)} else s.services)
    case 1 => DeleteRules(s, own)
    case 2 => DeleteGroups(s, own)
    case 3 => s.(eventRules := s.eventRules - EventRulesOf(own))
    case _ => Forget(s, p)
  }

  lemma {:induction false} DeletionsAreStages(w: World, p: string, serviceDeleted: bool, n: nat)
    requires p in w.shared.pipelines && p !in w.jobs && n <= 4
    ensures var own := RecordsOf(w.shared.records, p);
            Deletions(Make(w, BeginCleanup(p)), p, serviceDeleted, n) ==
            World(Deleted(w.shared, p, own, serviceDeleted, n), w.jobs[p := Cleaning(n, own)])
  {
    hide RecordsOf, StageResult;
    var w0, own := Make(w, BeginCleanup(p)), RecordsOf(w.shared.records, p);
    if n == 0 {
      assert Deletions(w0, p, serviceDeleted, 0) == w0;
    } else {
      hide Make;
      DeletionsAreStages(w, p, serviceDeleted, n - 1);
      OneMoreDeletion(w0, p, serviceDeleted, n - 1);
      MakeDeletion(Deleted(w.shared, p, own, serviceDeleted, n - 1), w.jobs, p, n - 1, own, serviceDeleted);
    }
  }

  lemma AllStagesAreCleanup(s: State, p: string, serviceDeleted: bool)
    requires p in s.pipelines
    ensures var own := RecordsOf(s.records, p);
            StageResult(Deleted(s, p, own, serviceDeleted, 4), p, 4, own, serviceDeleted) == Cleanup(s, p, serviceDeleted)
  {
    hide DeleteRulesOf, DeleteTargetGroupsOf, EventRulesOf, RecordsOfOthers, ServiceName, RecordsOf;
    var own := RecordsOf(s.records, p);
    var s1 := StageResult(s, p, 0, own, serviceDeleted);
    assert Deleted(s, p, own, serviceDeleted, 1) == s1;
    var s3 := DeleteGroups(DeleteRules(s1, own), own);
    assert Deleted(s, p, own, serviceDeleted, 2) == DeleteRules(s1, own);
    assert Deleted(s, p, own, serviceDeleted, 3) == s3;
    assert Deleted(s, p, own, serviceDeleted, 4) == s3.(eventRules := s3.eventRules - EventRulesOf(own));
  }

  /** A clean-up that nothing interrupts is the whole clean-up. */
  lemma UninterruptedCleanupIsCleanup(w: World, p: string, serviceDeleted: bool)
    requires p in w.shared.pipelines && p !in w.jobs
    ensures Deletions(Make(w, BeginCleanup(p)), p, serviceDeleted, 5) == World(Cleanup(w.shared, p, serviceDeleted), w.jobs)
  {
    hide Make, Deletions, Deleted, StageResult, Cleanup, RecordsOf;
    var w0, own := Make(w, BeginCleanup(p)), RecordsOf(w.shared.records, p);
    DeletionsAreStages(w, p, serviceDeleted, 4);
    OneMoreDeletion(w0, p, serviceDeleted, 4);
    MakeDeletion(Deleted(w.shared, p, own, serviceDeleted, 4), w.jobs, p, 4, own, serviceDeleted);
    AllStagesAreCleanup(w.shared, p, serviceDeleted);
    assert w.jobs - {p} == w.jobs;
  }

  lemma OneMoreDeletion(w: World, p: string, serviceDeleted: bool, n: nat)
    ensures Deletions(w, p, serviceDeleted, n + 1) == Make(Deletions(w, p, serviceDeleted, n), NextDeletion(p, serviceDeleted))
    ensures Deletions(w, p, serviceDeleted, 0) == w
  {
  }

  lemma MakeDeletion(s: State, jobs: map<string, Job>, p: string, stage: nat, own: seq<Record>, serviceDeleted: bool)
    requires stage <= 4
    ensures Make(World(s, jobs[p := Cleaning(stage, own)]), NextDeletion(p, serviceDeleted)) ==
            World(StageResult(s, p, stage, own, serviceDeleted), if stage < 4 then jobs[p := Cleaning(stage + 1, own)] else jobs - {p})
  {
    hide DeleteRules, DeleteGroups, Forget, EventRulesOf, ServiceName;
    var job, next := Cleaning(stage, own), Cleaning(stage + 1, own);
    assert jobs[p := job][p := next] == jobs[p := next] && jobs[p := job] - {p} == jobs - {p};
  }
}
