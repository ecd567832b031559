/**
 * The buildspec compiler: a list of flow nodes becomes three phases of shell commands. The generator
 * mutates command arrays; Compile is the layout it arrives at.
 */
module BuildSpec {
  import opened Sequences
  import opened NodeCommands
  import Dockerfile

  datatype Spec = Spec(preBuild: seq<string>, build: seq<string>, postBuild: seq<string>)

  // ---------------------------------------------------------------- the fixed commands

  const LOGIN := [
    "echo \"=== PRE_BUILD Phase ===\"",
    "echo Logging in to Amazon ECR...",
    "aws ecr get-login-password --region $AWS_DEFAULT_REGION | docker login --username AWS --password-stdin $AWS_ACCOUNT_ID.dkr.ecr.$AWS_DEFAULT_REGION.amazonaws.com",
    "REPOSITORY_URI=$AWS_ACCOUNT_ID.dkr.ecr.$AWS_DEFAULT_REGION.amazonaws.com/$IMAGE_REPO_NAME",
    "IMAGE_TAG=user-$USER_ID-project-$PROJECT_ID-build-$CODEBUILD_BUILD_NUMBER"]

  const BUILD_HEAD := ["echo \"=== BUILD Phase ===\"", "echo Build started on `date`"]

  const DOCKER_BUILD := [
    "echo \"=== Docker Build ===\"",
    "echo \"Checking for Dockerfile...\"",
    "[ -f Dockerfile ] && echo \"Dockerfile found\" || echo \"Dockerfile NOT found\"",
    "echo \"Building Docker image...\"",
    "docker build -t $REPOSITORY_URI:latest .",
    "docker tag $REPOSITORY_URI:latest $REPOSITORY_URI:$IMAGE_TAG"]

  const POST_HEAD := ["echo \"=== POST_BUILD Phase ===\"", "echo Build completed on `date`"]

  const PUSH := [
    "echo \"=== Docker Push ===\"",
    "echo Pushing the Docker images...",
    "docker push $REPOSITORY_URI:latest",
    "docker push $REPOSITORY_URI:$IMAGE_TAG",
    "echo Writing image definitions file...",
    "printf '[{\"name\":\"otto-container\",\"imageUri\":\"%s\"}]' $REPOSITORY_URI:$IMAGE_TAG > imagedefinitions.json"]

  const TESTS_HEADER := "echo \"=== Running Tests ===\""

  const DOCKERFILE_HEADER := "echo \"=== Dockerfile Setup ===\""

  function NodeSetup(version: string): seq<string> {
    if version == "" then []
    else ["echo \"=== Node.js Setup ===\"", "echo \"Current Node version:\"", "node --version",
          "# Check if n is installed", "which n || npm install -g n",
          "echo \"Installing Node.js " + version + "...\"", "n " + version,
          "echo \"Updated Node version:\"", "node --version"]
  }

  function ManagerInstall(manager: string): seq<string> {
    if manager == "npm" then []
    else ["echo \"Installing " + manager + " globally...\"", "which " + manager + " || npm install -g " + manager]
  }

  // ---------------------------------------------------------------- finding and grouping nodes

  datatype Wanted = NodeVersion | Install | AnyBuild

  predicate IsBlock(w: Wanted, node: Node) {
    match w
    case NodeVersion => node.blockType == "node_version"
    case Install => node.blockType == "install_module_node"
    case AnyBuild => node.blockType in {"build_webpack", "build_vite", "build_custom"}
  }

  /** Array.prototype.find */
  function FirstBlock(flow: seq<Node>, w: Wanted): Option<Node> {
    if |flow| == 0 then None
    else if IsBlock(w, flow[0]) then Some(flow[0])
    else FirstBlock(flow[1..], w)
  }

  function VersionOf(flow: seq<Node>): string {
    var node := FirstBlock(flow, NodeVersion);
    if node.Some? then node.value.version else ""
  }

  function ManagerOf(flow: seq<Node>): string {
    var node := FirstBlock(flow, Install);
    if node.Some? then Or(node.value.packageManager, "npm") else "npm"
  }

  /** The command for the image build; it depends on the first build block and the package manager. */
  function DockerBuildCommand(flow: seq<Node>): string {
    var node := FirstBlock(flow, AnyBuild);
    if node.None? then ""
    else if node.value.blockType == "build_custom" && node.value.scriptName != "" then
      ManagerOf(flow) + " run " + node.value.scriptName
    else ManagerOf(flow) + " run build"
  }

  function DockerfileScript(flow: seq<Node>): string {
    Dockerfile.Script(Dockerfile.Lines(Or(VersionOf(flow), "20"), ManagerOf(flow), DockerBuildCommand(flow)))
  }

  function InGroup(flow: seq<Node>, group: string): seq<Node> {
    if |flow| == 0 then []
    else if flow[0].groupType == group then [flow[0]] + InGroup(flow[1..], group)
    else InGroup(flow[1..], group)
  }

  lemma {:induction false} InGroupAppend(flow: seq<Node>, node: Node, group: string)
    ensures InGroup(flow + [node], group) == InGroup(flow, group) + if node.groupType == group then [node] else []
  {
    if |flow| == 0 {
      assert flow + [node] == [node];
    } else {
      assert (flow + [node])[1..] == flow[1..] + [node];
      InGroupAppend(flow[1..], node, group);
    }
  }

  /** groupNodesByType: a stable partition; a group without nodes has no entry. */
  method GroupNodesByType(flow: seq<Node>) returns (grouped: map<string, seq<Node>>)
    ensures forall g :: g in grouped ==> grouped[g] == InGroup(flow, g)
    ensures forall g :: g !in grouped ==> InGroup(flow, g) == []
  {
    grouped := map[];
    for k := 0 to |flow|
      invariant forall g :: g in grouped ==> grouped[g] == InGroup(flow[..k], g)
      invariant forall g :: g !in grouped ==> InGroup(flow[..k], g) == []
    {
      var node := flow[k];
      assert flow[..k + 1] == flow[..k] + [node];
      forall g {
        InGroupAppend(flow[..k], node, g);
      }
      if node.groupType !in grouped {
        grouped := grouped[node.groupType := []];
      }
      grouped := grouped[node.groupType := grouped[node.groupType] + [node]];
    }
    assert flow[..|flow|] == flow;
  }

  // ---------------------------------------------------------------- the layout

  datatype Section = PreBuildNodes | BuildNodes | TestNodes | UtilityTests | Notifications

  function GroupOf(section: Section): string {
    match section
    case PreBuildNodes => "prebuild"
    case BuildNodes => "build"
    case TestNodes => "test"
    case UtilityTests => "utility"
    case Notifications => "notification"
  }

  /** The commands one node contributes to its section. */
  function CommandsOf(section: Section, node: Node): seq<string> {
    match section
    case PreBuildNodes => if node.blockType == "node_version" then [] else PreBuildCommands(node)
    case BuildNodes => BuildCommands(node)
    case TestNodes => TestCommands(node)
    case UtilityTests => if node.blockType == "test_custom" then CustomTest(node) else []
    case Notifications => NotificationCommands(node)
  }

  function Contributions(section: Section, nodes: seq<Node>): seq<string> {
    if |nodes| == 0 then []
    else CommandsOf(section, nodes[0]) + Contributions(section, nodes[1..])
  }

  function SectionCommands(section: Section, flow: seq<Node>): seq<string> {
    Contributions(section, InGroup(flow, GroupOf(section)))
  }

  function Tests(flow: seq<Node>): seq<string> {
    SectionCommands(TestNodes, flow) + SectionCommands(UtilityTests, flow)
  }

  function TestsWithHeader(flow: seq<Node>): seq<string> {
    if |Tests(flow)| > 0 then [TESTS_HEADER] + Tests(flow) else []
  }

  function Compile(flow: seq<Node>): Spec {
    Spec(NodeSetup(VersionOf(flow)) + LOGIN + ManagerInstall(ManagerOf(flow)) + SectionCommands(PreBuildNodes, flow)
         + [DOCKERFILE_HEADER, DockerfileScript(flow)],
         BUILD_HEAD + SectionCommands(BuildNodes, flow) + DOCKER_BUILD,
         POST_HEAD + TestsWithHeader(flow) + PUSH + SectionCommands(Notifications, flow))
  }

  lemma {:induction false} ContributionsAppend(section: Section, nodes: seq<Node>, node: Node)
    ensures Contributions(section, nodes + [node]) == Contributions(section, nodes) + CommandsOf(section, node)
  {
    hide CommandsOf;
    if |nodes| == 0 {
      assert nodes + [node] == [node];
    } else {
      assert (nodes + [node])[1..] == nodes[1..] + [node];
      ContributionsAppend(section, nodes[1..], node);
    }
  }

  /** One `for (const node of grouped.x) commands.push(...)` loop; a missing group is skipped. */
  method PushSection(commands: seq<string>, section: Section, grouped: map<string, seq<Node>>, ghost flow: seq<Node>)
    returns (pushed: seq<string>)
    requires forall g :: g in grouped ==> grouped[g] == InGroup(flow, g)
    requires forall g :: g !in grouped ==> InGroup(flow, g) == []
    ensures pushed == commands + SectionCommands(section, flow)
  {
    hide CommandsOf, GroupOf, InGroup;
    pushed := commands;
    if GroupOf(section) in grouped {
      var nodes := grouped[GroupOf(section)];
      assert nodes[..0] == [];
      for k := 0 to |nodes|
        invariant pushed == commands + Contributions(section, nodes[..k])
      {
        ContributionsAppend(section, nodes[..k], nodes[k]);
        assert nodes[..k + 1] == nodes[..k] + [nodes[k]];
        pushed := pushed + CommandsOf(section, nodes[k]);
      }
      assert nodes[..|nodes|] == nodes;
    }
  }

  /** Array.prototype.splice(at, 0, ...items) */
  function SpliceIn(commands: seq<string>, at: nat, items: seq<string>): seq<string>
    requires at <= |commands|
  {
    commands[..at] + items + commands[at..]
  }

  lemma SpliceAfterHead(head: seq<string>, tail: seq<string>, items: seq<string>)
    ensures SpliceIn(head + tail, |head|, items) == head + items + tail
  {
    assert (head + tail)[..|head|] == head && (head + tail)[|head|..] == tail;
  }

  /** generateBuildSpec up to JSON.stringify. */
  method GenerateBuildSpec(flow: seq<Node>) returns (spec: Spec)
    ensures spec == Compile(flow)
  {
    hide NodeSetup, ManagerInstall, SectionCommands, VersionOf, ManagerOf, DockerfileScript, DockerBuildCommand;
    var preBuild := LOGIN;
    var build := BUILD_HEAD;
    var postBuild := POST_HEAD + PUSH;
    var grouped := GroupNodesByType(flow);

    preBuild := NodeSetup(VersionOf(flow)) + preBuild;               // unshift
    preBuild := preBuild + ManagerInstall(ManagerOf(flow));
    preBuild := PushSection(preBuild, PreBuildNodes, grouped, flow);
    preBuild := preBuild + [DOCKERFILE_HEADER, DockerfileScript(flow)];

    build := PushSection(build, BuildNodes, grouped, flow);
    build := build + DOCKER_BUILD;

    var testCommands := PushSection([], TestNodes, grouped, flow);
    testCommands := PushSection(testCommands, UtilityTests, grouped, flow);
    assert testCommands == Tests(flow);
    if |testCommands| > 0 {
      SpliceAfterHead(POST_HEAD, PUSH, [TESTS_HEADER] + testCommands);
      postBuild := SpliceIn(postBuild, 2, [TESTS_HEADER] + testCommands);
    }
    assert postBuild == POST_HEAD + TestsWithHeader(flow) + PUSH;
    postBuild := PushSection(postBuild, Notifications, grouped, flow);
    return Spec(preBuild, build, postBuild);
  }

  // ---------------------------------------------------------------- only the order inside each group matters

  /** The node version is set in prebuild nodes only, installs and builds happen in build nodes only. */
  predicate WellPlaced(flow: seq<Node>) {
    forall k :: 0 <= k < |flow| ==>
      && (IsBlock(NodeVersion, flow[k]) ==> flow[k].groupType == "prebuild")
      && (IsBlock(Install, flow[k]) || IsBlock(AnyBuild, flow[k]) ==> flow[k].groupType == "build")
  }

  predicate SameGroups(a: seq<Node>, b: seq<Node>) {
    forall section: Section :: InGroup(a, GroupOf(section)) == InGroup(b, GroupOf(section))
  }

  /** Looking for a block that only one group holds can look in that group alone. */
  lemma {:induction false} FindInGroup(flow: seq<Node>, w: Wanted, group: string)
    requires forall k :: 0 <= k < |flow| && IsBlock(w, flow[k]) ==> flow[k].groupType == group
    ensures FirstBlock(flow, w) == FirstBlock(InGroup(flow, group), w)
  {
    if |flow| > 0 && !IsBlock(w, flow[0]) {
      FindInGroup(flow[1..], w, group);
      var rest := InGroup(flow[1..], group);
      assert ([flow[0]] + rest)[1..] == rest;
    }
  }

  /** The spec is determined by the five group sequences and the three nodes the generator searches for. */
  lemma SameFindsSameSpec(a: seq<Node>, b: seq<Node>)
    requires SameGroups(a, b)
    requires VersionOf(a) == VersionOf(b) && ManagerOf(a) == ManagerOf(b) && DockerBuildCommand(a) == DockerBuildCommand(b)
    ensures Compile(a) == Compile(b)
  {
    SameSections(a, b);
    hide SectionCommands, NodeSetup, ManagerInstall;
  }

  lemma SameSections(a: seq<Node>, b: seq<Node>)
    requires SameGroups(a, b)
    ensures forall section: Section :: SectionCommands(section, a) == SectionCommands(section, b)
  {
  }

  lemma SetupTellsVersion(a: string, b: string)
    requires NodeSetup(a) == NodeSetup(b)
    ensures a == b
  {
    if a != "" && b != "" {
      assert NodeSetup(a)[6] == "n " + a && NodeSetup(b)[6] == "n " + b;
      StripEnds("n ", a, b, "");
    }
  }

  lemma InstallTellsManager(a: string, b: string)
    requires ManagerInstall(a) == ManagerInstall(b)
    ensures a == b
  {
    if a != "npm" && b != "npm" {
      assert ManagerInstall(a)[0] == "echo \"Installing " + a + " globally...\"";
      assert ManagerInstall(b)[0] == "echo \"Installing " + b + " globally...\"";
      StripEnds("echo \"Installing ", a, b, " globally...\"");
    }
  }

  /** The setup blocks have lengths 0 or 9 and 0 or 2, so the length of pre_build tells which of them are there. */
  lemma HeadTellsSetup(a: string, b: string, m: string, n: string, rest: seq<string>, s: string, t: string)
    requires NodeSetup(a) + LOGIN + ManagerInstall(m) + rest + [DOCKERFILE_HEADER, s] ==
             NodeSetup(b) + LOGIN + ManagerInstall(n) + rest + [DOCKERFILE_HEADER, t]
    ensures a == b && m == n && s == t
  {
    var x, y := NodeSetup(a), NodeSetup(b);
    var u, v := ManagerInstall(m), ManagerInstall(n);
    assert |x| in {0, 9} && |y| in {0, 9} && |u| in {0, 2} && |v| in {0, 2};
    hide NodeSetup, ManagerInstall;
    assert |x| == |y| && |u| == |v|;
    var left := x + LOGIN + u + rest + [DOCKERFILE_HEADER, s];
    var right := y + LOGIN + v + rest + [DOCKERFILE_HEADER, t];
    assert left[..|x|] == x && right[..|y|] == y;
    var from := |x| + |LOGIN|;
    assert left[from..from + |u|] == u && right[from..from + |v|] == v;
    assert left[|left| - 1] == s && right[|right| - 1] == t;
    SetupTellsVersion(a, b);
    InstallTellsManager(m, n);
  }

  /** The exact condition: lists with the same groups compile alike if and only if the three searches find the same. */
  lemma SameSpecExactlyWhenSameFinds(a: seq<Node>, b: seq<Node>)
    requires SameGroups(a, b)
    ensures Compile(a) == Compile(b) <==>
            VersionOf(a) == VersionOf(b) && ManagerOf(a) == ManagerOf(b) && DockerBuildCommand(a) == DockerBuildCommand(b)
  {
    if VersionOf(a) == VersionOf(b) && ManagerOf(a) == ManagerOf(b) && DockerBuildCommand(a) == DockerBuildCommand(b) {
      SameFindsSameSpec(a, b);
    }
    if Compile(a) == Compile(b) {
      SameSections(a, b);
      hide SectionCommands, NodeSetup, ManagerInstall, VersionOf, ManagerOf, DockerBuildCommand, TestsWithHeader;
      HeadTellsSetup(VersionOf(a), VersionOf(b), ManagerOf(a), ManagerOf(b), SectionCommands(PreBuildNodes, a),
                     DockerfileScript(a), DockerfileScript(b));
      Dockerfile.ScriptTellsBuildCommand(Or(VersionOf(a), "20"), ManagerOf(a), DockerBuildCommand(a), DockerBuildCommand(b));
    }
  }

  /**
   * However the groups are interleaved, and whatever nodes of other groups are added, well-placed lists with the
   * same five group sequences compile to the same spec.
   */
  lemma SpecDependsOnGroupOrderOnly(a: seq<Node>, b: seq<Node>)
    requires WellPlaced(a) && WellPlaced(b) && SameGroups(a, b)
    ensures Compile(a) == Compile(b)
  {
    FindInGroup(a, NodeVersion, GroupOf(PreBuildNodes));
    FindInGroup(b, NodeVersion, GroupOf(PreBuildNodes));
    FindInGroup(a, Install, GroupOf(BuildNodes));
    FindInGroup(b, Install, GroupOf(BuildNodes));
    FindInGroup(a, AnyBuild, GroupOf(BuildNodes));
    FindInGroup(b, AnyBuild, GroupOf(BuildNodes));
    SameFindsSameSpec(a, b);
  }

  lemma StartIsNoSection(section: Section)
    ensures GroupOf(section) != "start"
  {
    assert GroupOf(section)[0] != "start"[0];
  }

  lemma OtherGroupIsEmpty(a: Node, b: Node, group: string)
    requires a.groupType != group && b.groupType != group
    ensures InGroup([a, b], group) == []
  {
    assert [b][1..] == [] && InGroup([b], group) == [];
    assert [a, b][1..] == [b];
  }

  /** Without the placement condition it fails: two node versions outside every group, in either order. */
  lemma MisplacedVersionMatters(a: Node, b: Node)
    requires a.blockType == b.blockType == "node_version" && a.groupType == b.groupType == "start"
    requires a.version == "18" && b.version == "20"
    ensures SameGroups([a, b], [b, a]) && Compile([a, b]) != Compile([b, a])
  {
    forall section: Section
      ensures InGroup([a, b], GroupOf(section)) == InGroup([b, a], GroupOf(section))
    {
      StartIsNoSection(section);
      OtherGroupIsEmpty(a, b, GroupOf(section));
      OtherGroupIsEmpty(b, a, GroupOf(section));
    }
    assert VersionOf([a, b]) == "18" && VersionOf([b, a]) == "20";
    hide InGroup, SectionCommands, VersionOf, ManagerOf, DockerfileScript, ManagerInstall, TestsWithHeader;
    VersionShows([a, b], "18");
    VersionShows([b, a], "20");
  }

  lemma VersionShows(flow: seq<Node>, version: string)
    requires VersionOf(flow) == version && |version| == 2
    ensures |Compile(flow).preBuild| > 6 && Compile(flow).preBuild[6] == "n " + version
    ensures ("n " + version)[2..] == version
  {
    hide SectionCommands, VersionOf, ManagerOf, DockerfileScript, ManagerInstall;
    assert Compile(flow).preBuild[6] == NodeSetup(version)[6];
  }

  // ---------------------------------------------------------------- phase order and conservation

  /** Where a command comes from. Stages are listed in the order the build goes through them. */
  datatype Stage =
    | NodeSetupStage | LoginStage | ManagerStage | SectionStage(section: Section) | DockerfileStage | BuildHeadStage
    | ImageBuildStage | PostHeadStage | TestsHeaderStage | ImagePushStage

  function Rank(stage: Stage): (r: nat)
    ensures r < 14
  {
    match stage
    case NodeSetupStage => 0
    case LoginStage => 1
    case ManagerStage => 2
    case SectionStage(PreBuildNodes) => 3
    case DockerfileStage => 4
    case BuildHeadStage => 5
    case SectionStage(BuildNodes) => 6
    case ImageBuildStage => 7
    case PostHeadStage => 8
    case TestsHeaderStage => 9
    case SectionStage(TestNodes) => 10
    case SectionStage(UtilityTests) => 11
    case ImagePushStage => 12
    case SectionStage(Notifications) => 13
  }

  /** A command with its stage and, for a node's command, the node's position in the flow list. */
  datatype Tagged = Tagged(text: string, stage: Stage, node: nat)

  function Tag(commands: seq<string>, stage: Stage, node: nat): (r: seq<Tagged>)
    ensures |r| == |commands|
  {
    seq(|commands|, i requires 0 <= i < |commands| => Tagged(commands[i], stage, node))
  }

  function Texts(commands: seq<Tagged>): (r: seq<string>)
    ensures |r| == |commands|
  {
    seq(|commands|, i requires 0 <= i < |commands| => commands[i].text)
  }

  /** The commands of the nodes of one section, for the flow list from position `from` on. */
  function NodeBlocks(flow: seq<Node>, section: Section, from: nat): seq<Tagged>
    requires from <= |flow|
    decreases |flow| - from
  {
    if from == |flow| then []
    else (if flow[from].groupType == GroupOf(section)
          then Tag(CommandsOf(section, flow[from]), SectionStage(section), from) else [])
         + NodeBlocks(flow, section, from + 1)
  }

  /** The commands of one stage, in order. */
  function StageBlock(flow: seq<Node>, stage: Stage): seq<Tagged> {
    match stage
    case NodeSetupStage => Tag(NodeSetup(VersionOf(flow)), stage, 0)
    case LoginStage => Tag(LOGIN, stage, 0)
    case ManagerStage => Tag(ManagerInstall(ManagerOf(flow)), stage, 0)
    case SectionStage(section) => NodeBlocks(flow, section, 0)
    case DockerfileStage => Tag([DOCKERFILE_HEADER, DockerfileScript(flow)], stage, 0)
    case BuildHeadStage => Tag(BUILD_HEAD, stage, 0)
    case ImageBuildStage => Tag(DOCKER_BUILD, stage, 0)
    case PostHeadStage => Tag(POST_HEAD, stage, 0)
    case TestsHeaderStage => Tag(if |Tests(flow)| > 0 then [TESTS_HEADER] else [], stage, 0)
    case ImagePushStage => Tag(PUSH, stage, 0)
  }

  function StageAt(rank: nat): Stage
    requires rank < 14
  {
    if rank == 0 then NodeSetupStage
    else if rank == 1 then LoginStage
    else if rank == 2 then ManagerStage
    else if rank == 3 then SectionStage(PreBuildNodes)
    else if rank == 4 then DockerfileStage
    else if rank == 5 then BuildHeadStage
    else if rank == 6 then SectionStage(BuildNodes)
    else if rank == 7 then ImageBuildStage
    else if rank == 8 then PostHeadStage
    else if rank == 9 then TestsHeaderStage
    else if rank == 10 then SectionStage(TestNodes)
    else if rank == 11 then SectionStage(UtilityTests)
    else if rank == 12 then ImagePushStage
    else SectionStage(Notifications)
  }

  /** All stages from a given rank on, one after the other. */
  function LayoutFrom(flow: seq<Node>, rank: nat): seq<Tagged>
    requires rank <= 14
    decreases 14 - rank
  {
    if rank == 14 then [] else StageBlock(flow, StageAt(rank)) + LayoutFrom(flow, rank + 1)
  }

  function Layout(flow: seq<Node>): seq<Tagged> {
    LayoutFrom(flow, 0)
  }

  lemma TextsConcat(a: seq<Tagged>, b: seq<Tagged>)
    ensures Texts(a + b) == Texts(a) + Texts(b)
  {
  }

  lemma TextsOfTag(commands: seq<string>, stage: Stage, node: nat)
    ensures Texts(Tag(commands, stage, node)) == commands
  {
  }

  lemma {:induction false} TextsOfNodeBlocks(flow: seq<Node>, section: Section, from: nat)
    requires from <= |flow|
    ensures Texts(NodeBlocks(flow, section, from)) == Contributions(section, InGroup(flow[from..], GroupOf(section)))
    decreases |flow| - from
  {
    if from < |flow| {
      hide CommandsOf, GroupOf, Tag, Texts;
      TextsOfNodeBlocks(flow, section, from + 1);
      assert flow[from..][0] == flow[from] && flow[from..][1..] == flow[from + 1..];
      var rest := InGroup(flow[from + 1..], GroupOf(section));
      if flow[from].groupType == GroupOf(section) {
        var block := Tag(CommandsOf(section, flow[from]), SectionStage(section), from);
        TextsConcat(block, NodeBlocks(flow, section, from + 1));
        TextsOfTag(CommandsOf(section, flow[from]), SectionStage(section), from);
        assert InGroup(flow[from..], GroupOf(section)) == [flow[from]] + rest;
        assert ([flow[from]] + rest)[1..] == rest;
      } else {
        assert NodeBlocks(flow, section, from) == NodeBlocks(flow, section, from + 1);
      }
    }
  }

  /** The plain text of a stage. */
  function StageCommands(flow: seq<Node>, stage: Stage): seq<string> {
    match stage
    case NodeSetupStage => NodeSetup(VersionOf(flow))
    case LoginStage => LOGIN
    case ManagerStage => ManagerInstall(ManagerOf(flow))
    case SectionStage(section) => SectionCommands(section, flow)
    case DockerfileStage => [DOCKERFILE_HEADER, DockerfileScript(flow)]
    case BuildHeadStage => BUILD_HEAD
    case ImageBuildStage => DOCKER_BUILD
    case PostHeadStage => POST_HEAD
    case TestsHeaderStage => if |Tests(flow)| > 0 then [TESTS_HEADER] else []
    case ImagePushStage => PUSH
  }

  lemma PlainStage(flow: seq<Node>, stage: Stage)
    requires !stage.SectionStage?
    ensures StageBlock(flow, stage) == Tag(StageCommands(flow, stage), stage, 0)
  {
  }

  lemma TextsOfStage(flow: seq<Node>, stage: Stage)
    ensures Texts(StageBlock(flow, stage)) == StageCommands(flow, stage)
  {
    if stage.SectionStage? {
      TextsOfNodeBlocks(flow, stage.section, 0);
      assert flow[0..] == flow;
    } else {
      PlainStage(flow, stage);
      TextsOfTag(StageCommands(flow, stage), stage, 0);
    }
  }

  function CommandsFrom(flow: seq<Node>, rank: nat): seq<string>
    requires rank <= 14
    decreases 14 - rank
  {
    if rank == 14 then [] else StageCommands(flow, StageAt(rank)) + CommandsFrom(flow, rank + 1)
  }

  lemma {:induction false} TextsOfLayoutFrom(flow: seq<Node>, rank: nat)
    requires rank <= 14
    ensures Texts(LayoutFrom(flow, rank)) == CommandsFrom(flow, rank)
    decreases 14 - rank
  {
    if rank < 14 {
      hide Texts, StageBlock, StageCommands;
      TextsOfLayoutFrom(flow, rank + 1);
      TextsOfStage(flow, StageAt(rank));
      TextsConcat(StageBlock(flow, StageAt(rank)), LayoutFrom(flow, rank + 1));
    }
  }

  function AllCommands(spec: Spec): seq<string> {
    spec.preBuild + spec.build + spec.postBuild
  }

  lemma NextStage(flow: seq<Node>, rank: nat)
    requires rank < 14
    ensures CommandsFrom(flow, rank) == StageCommands(flow, StageAt(rank)) + CommandsFrom(flow, rank + 1)
  {
    hide StageCommands, StageAt;
  }

  /** The four stages from a given rank on. */
  lemma {:induction false} NextStages(flow: seq<Node>, rank: nat)
    requires rank + 4 <= 14
    ensures CommandsFrom(flow, rank) ==
            StageCommands(flow, StageAt(rank)) + StageCommands(flow, StageAt(rank + 1)) + StageCommands(flow, StageAt(rank + 2))
            + StageCommands(flow, StageAt(rank + 3)) + CommandsFrom(flow, rank + 4)
  {
    hide StageCommands, StageAt, CommandsFrom;
    NextStage(flow, rank);
    NextStage(flow, rank + 1);
    NextStage(flow, rank + 2);
    NextStage(flow, rank + 3);
  }

  lemma PostCommands(flow: seq<Node>)
    ensures CommandsFrom(flow, 8) == Compile(flow).postBuild
  {
    hide StageCommands, StageAt, SectionCommands, CommandsFrom, TestsWithHeader, NodeSetup, ManagerInstall, DockerfileScript;
    var header := if |Tests(flow)| > 0 then [TESTS_HEADER] else [];
    var tests, utility, notes := SectionCommands(TestNodes, flow), SectionCommands(UtilityTests, flow), SectionCommands(Notifications, flow);
    TestsSplit(flow);
    assert Compile(flow).postBuild == POST_HEAD + (header + tests + utility) + PUSH + notes;
    hide Compile, Tests;
    NextStages(flow, 8);
    NextStage(flow, 12);
    NextStage(flow, 13);
    StagesOfPost(flow);
    EndOfStages(flow);
    PostRegroup(POST_HEAD, header, tests, utility, PUSH, notes);
  }

  lemma PostRegroup(head: seq<string>, header: seq<string>, tests: seq<string>, utility: seq<string>, push: seq<string>, notes: seq<string>)
    ensures head + header + tests + utility + (push + (notes + [])) == head + (header + tests + utility) + push + notes
  {
  }

  lemma EndOfStages(flow: seq<Node>)
    ensures CommandsFrom(flow, 14) == []
  {
  }

  lemma TestsSplit(flow: seq<Node>)
    ensures TestsWithHeader(flow) == (if |Tests(flow)| > 0 then [TESTS_HEADER] else [])
                                     + SectionCommands(TestNodes, flow) + SectionCommands(UtilityTests, flow)
  {
    hide SectionCommands;
  }

  lemma StagesOfPost(flow: seq<Node>)
    ensures StageCommands(flow, StageAt(8)) == POST_HEAD
    ensures StageCommands(flow, StageAt(9)) == if |Tests(flow)| > 0 then [TESTS_HEADER] else []
    ensures StageCommands(flow, StageAt(10)) == SectionCommands(TestNodes, flow)
    ensures StageCommands(flow, StageAt(11)) == SectionCommands(UtilityTests, flow)
    ensures StageCommands(flow, StageAt(12)) == PUSH
    ensures StageCommands(flow, StageAt(13)) == SectionCommands(Notifications, flow)
  {
    hide NodeSetup, ManagerInstall, SectionCommands, DockerfileScript, Tests, VersionOf, ManagerOf;
  }

  lemma StagesOfPreAndBuild(flow: seq<Node>)
    ensures StageCommands(flow, StageAt(0)) == NodeSetup(VersionOf(flow))
    ensures StageCommands(flow, StageAt(1)) == LOGIN
    ensures StageCommands(flow, StageAt(2)) == ManagerInstall(ManagerOf(flow))
    ensures StageCommands(flow, StageAt(3)) == SectionCommands(PreBuildNodes, flow)
    ensures StageCommands(flow, StageAt(4)) == [DOCKERFILE_HEADER, DockerfileScript(flow)]
    ensures StageCommands(flow, StageAt(5)) == BUILD_HEAD
    ensures StageCommands(flow, StageAt(6)) == SectionCommands(BuildNodes, flow)
    ensures StageCommands(flow, StageAt(7)) == DOCKER_BUILD
  {
    hide NodeSetup, ManagerInstall, SectionCommands, DockerfileScript, Tests, VersionOf, ManagerOf;
  }

  lemma PreAndBuildCommands(flow: seq<Node>)
    ensures CommandsFrom(flow, 0) == Compile(flow).preBuild + (Compile(flow).build + CommandsFrom(flow, 8))
  {
    hide StageCommands, StageAt, SectionCommands, CommandsFrom, TestsWithHeader, NodeSetup, ManagerInstall, DockerfileScript,
         VersionOf, ManagerOf;
    NextStages(flow, 0);
    NextStages(flow, 4);
    StagesOfPreAndBuild(flow);
  }

  lemma Regroup(a: seq<string>, b: seq<string>, c: seq<string>)
    ensures a + (b + c) == a + b + c
  {
  }

  /** The three phases, one after the other, are the stages in rank order: nothing is lost, added or moved. */
  lemma PhasesAreTheLayout(flow: seq<Node>)
    ensures Texts(Layout(flow)) == AllCommands(Compile(flow))
  {
    hide Compile, CommandsFrom, LayoutFrom, Texts;
    TextsOfLayoutFrom(flow, 0);
    PreAndBuildCommands(flow);
    PostCommands(flow);
    Regroup(Compile(flow).preBuild, Compile(flow).build, Compile(flow).postBuild);
  }

  /** By stage, and inside a section by node position. */
  predicate Before(a: Tagged, b: Tagged) {
    Rank(a.stage) < Rank(b.stage) || (a.stage == b.stage && a.node <= b.node)
  }

  predicate Ordered(commands: seq<Tagged>) {
    forall i, j :: 0 <= i < j < |commands| ==> Before(commands[i], commands[j])
  }

  lemma OrderedConcat(a: seq<Tagged>, b: seq<Tagged>)
    requires Ordered(a) && Ordered(b)
    requires forall x, y :: x in a && y in b ==> Before(x, y)
    ensures Ordered(a + b)
  {
    forall i, j | 0 <= i < |a| && |a| <= j < |a + b|
      ensures Before((a + b)[i], (a + b)[j])
    {
      assert a[i] in a && b[j - |a|] in b;
    }
  }

  lemma TagOrdered(commands: seq<string>, stage: Stage, node: nat)
    ensures Ordered(Tag(commands, stage, node))
    ensures forall c :: c in Tag(commands, stage, node) ==> c.stage == stage && c.node == node
  {
  }

  lemma {:induction false} NodeBlocksOrdered(flow: seq<Node>, section: Section, from: nat)
    requires from <= |flow|
    ensures Ordered(NodeBlocks(flow, section, from))
    ensures forall c :: c in NodeBlocks(flow, section, from) ==> c.stage == SectionStage(section) && c.node >= from
    decreases |flow| - from
  {
    hide CommandsOf, GroupOf, Rank;
    if from < |flow| {
      NodeBlocksOrdered(flow, section, from + 1);
      var rest := NodeBlocks(flow, section, from + 1);
      var block := Tag(CommandsOf(section, flow[from]), SectionStage(section), from);
      TagOrdered(CommandsOf(section, flow[from]), SectionStage(section), from);
      hide Tag, Ordered;
      OrderedConcat(block, rest);
      assert [] + rest == rest;
    }
  }

  lemma StageBlockOrdered(flow: seq<Node>, stage: Stage)
    ensures Ordered(StageBlock(flow, stage))
    ensures forall c :: c in StageBlock(flow, stage) ==> c.stage == stage
  {
    if stage.SectionStage? {
      NodeBlocksOrdered(flow, stage.section, 0);
    } else {
      PlainStage(flow, stage);
      hide StageBlock, StageCommands;
      TagOrdered(StageCommands(flow, stage), stage, 0);
    }
  }

  lemma RankOfStageAt(rank: nat)
    requires rank < 14
    ensures Rank(StageAt(rank)) == rank
  {
  }

  lemma {:induction false} LayoutFromOrdered(flow: seq<Node>, rank: nat)
    requires rank <= 14
    ensures Ordered(LayoutFrom(flow, rank))
    ensures forall c :: c in LayoutFrom(flow, rank) ==> Rank(c.stage) >= rank
    decreases 14 - rank
  {
    if rank < 14 {
      hide StageBlock, Rank, StageAt;
      LayoutFromOrdered(flow, rank + 1);
      StageBlockOrdered(flow, StageAt(rank));
      RankOfStageAt(rank);
      var block, rest := StageBlock(flow, StageAt(rank)), LayoutFrom(flow, rank + 1);
      OrderedConcat(block, rest);
    }
  }

  /**
   * Commands run stage by stage: ECR login before docker build, docker build before every test command, every
   * test command before docker push, docker push before every notification, and nodes in list order.
   */
  lemma PhaseOrder(flow: seq<Node>, i: nat, j: nat)
    requires i < |Layout(flow)| && j < |Layout(flow)|
    requires Rank(Layout(flow)[i].stage) < Rank(Layout(flow)[j].stage)
             || (Layout(flow)[i].stage == Layout(flow)[j].stage && Layout(flow)[i].node < Layout(flow)[j].node)
    ensures i < j
    ensures |AllCommands(Compile(flow))| == |Layout(flow)|
    ensures AllCommands(Compile(flow))[i] == Layout(flow)[i].text && AllCommands(Compile(flow))[j] == Layout(flow)[j].text
  {
    hide Compile, LayoutFrom, AllCommands;
    LayoutFromOrdered(flow, 0);
    PhasesAreTheLayout(flow);
    var layout := Layout(flow);
    assert j < i ==> Before(layout[j], layout[i]);
  }

  // ---------------------------------------------------------------- what each stage and node contributes

  /** The texts of the commands that come from one stage and node. */
  function Select(commands: seq<Tagged>, stage: Stage, node: nat): seq<string> {
    if |commands| == 0 then []
    else (if commands[0].stage == stage && commands[0].node == node then [commands[0].text] else [])
         + Select(commands[1..], stage, node)
  }

  lemma {:induction false} SelectConcat(a: seq<Tagged>, b: seq<Tagged>, stage: Stage, node: nat)
    ensures Select(a + b, stage, node) == Select(a, stage, node) + Select(b, stage, node)
  {
    if |a| == 0 {
      assert a + b == b;
    } else {
      assert (a + b)[1..] == a[1..] + b;
      SelectConcat(a[1..], b, stage, node);
    }
  }

  lemma {:induction false} SelectTag(commands: seq<string>, tagged: Stage, at: nat, stage: Stage, node: nat)
    ensures Select(Tag(commands, tagged, at), stage, node) == if tagged == stage && at == node then commands else []
  {
    if |commands| > 0 {
      assert Tag(commands, tagged, at)[1..] == Tag(commands[1..], tagged, at);
      SelectTag(commands[1..], tagged, at, stage, node);
      assert [commands[0]] + commands[1..] == commands;
    }
  }

  lemma {:induction false} SelectForeign(commands: seq<Tagged>, stage: Stage, node: nat)
    requires forall c :: c in commands ==> c.stage != stage || c.node != node
    ensures Select(commands, stage, node) == []
  {
    if |commands| > 0 {
      assert commands[0] in commands;
      SelectForeign(commands[1..], stage, node);
    }
  }

  lemma {:induction false} SelectNodeBlocks(flow: seq<Node>, section: Section, from: nat, node: nat)
    requires from <= |flow|
    ensures Select(NodeBlocks(flow, section, from), SectionStage(section), node) ==
            if from <= node < |flow| && flow[node].groupType == GroupOf(section) then CommandsOf(section, flow[node]) else []
    decreases |flow| - from
  {
    hide CommandsOf, GroupOf, Tag, Select;
    var stage := SectionStage(section);
    if from == |flow| {
      SelectForeign([], stage, node);
    } else {
      var rest := NodeBlocks(flow, section, from + 1);
      SelectNodeBlocks(flow, section, from + 1, node);
      if flow[from].groupType == GroupOf(section) {
        var commands := CommandsOf(section, flow[from]);
        SelectConcat(Tag(commands, stage, from), rest, stage, node);
        SelectTag(commands, stage, from, stage, node);
        EmptyIsNeutral(commands);
        EmptyIsNeutral(Select(rest, stage, node));
      } else {
        assert NodeBlocks(flow, section, from) == rest;
      }
    }
  }

  lemma EmptyIsNeutral<T>(s: seq<T>)
    ensures s + [] == s && [] + s == s
  {
  }

  lemma {:induction false} SelectLayoutFrom(flow: seq<Node>, rank: nat, stage: Stage, node: nat)
    requires rank <= 14
    ensures Select(LayoutFrom(flow, rank), stage, node) ==
            if Rank(stage) >= rank then Select(StageBlock(flow, stage), stage, node) else []
    decreases 14 - rank
  {
    hide StageBlock, Rank, StageAt;
    if rank < 14 {
      hide Select;
      RankOfStageAt(rank);
      SameRankSameStage(stage, StageAt(rank));
      var block, rest := StageBlock(flow, StageAt(rank)), LayoutFrom(flow, rank + 1);
      assert LayoutFrom(flow, rank) == block + rest;
      hide LayoutFrom;
      SelectLayoutFrom(flow, rank + 1, stage, node);
      SelectConcat(block, rest, stage, node);
      EmptyIsNeutral(Select(block, stage, node));
      EmptyIsNeutral(Select(rest, stage, node));
      if StageAt(rank) != stage {
        StageBlockOrdered(flow, StageAt(rank));
        SelectForeign(block, stage, node);
      }
    }
  }

  lemma SameRankSameStage(a: Stage, b: Stage)
    ensures Rank(a) == Rank(b) <==> a == b
  {
  }

  /**
   * Conservation: a node's commands appear exactly as its generator made them, in its section if it has one, and
   * every fixed stage appears exactly as written.
   */
  lemma EveryContributionSurvives(flow: seq<Node>, stage: Stage, node: nat)
    ensures Select(Layout(flow), stage, node) ==
            if stage.SectionStage? then
              (if node < |flow| && flow[node].groupType == GroupOf(stage.section)
               then CommandsOf(stage.section, flow[node]) else [])
            else if node == 0 then StageCommands(flow, stage) else []
  {
    hide StageBlock, StageCommands, CommandsOf, LayoutFrom, Select, NodeBlocks, Rank, GroupOf;
    SelectLayoutFrom(flow, 0, stage, node);
    if stage.SectionStage? {
      SectionBlock(flow, stage.section);
      SelectNodeBlocks(flow, stage.section, 0, node);
    } else {
      PlainStage(flow, stage);
      SelectTag(StageCommands(flow, stage), stage, 0, stage, node);
    }
  }

  lemma SectionBlock(flow: seq<Node>, section: Section)
    ensures StageBlock(flow, SectionStage(section)) == NodeBlocks(flow, section, 0)
  {
    hide NodeBlocks;
  }

  lemma OrderedIsContiguous(commands: seq<Tagged>, i: nat, j: nat, k: nat)
    requires Ordered(commands) && i <= j <= k < |commands|
    requires commands[i].stage == commands[k].stage && commands[i].node == commands[k].node
    ensures commands[j].stage == commands[i].stage && commands[j].node == commands[i].node
  {
    SameRankSameStage(commands[i].stage, commands[j].stage);
    hide Rank;
    if i < j < k {
      assert Before(commands[i], commands[j]) && Before(commands[j], commands[k]);
    }
  }

  /** Each contribution is one contiguous block. */
  lemma ContributionsAreContiguous(flow: seq<Node>, i: nat, j: nat, k: nat)
    requires i <= j <= k < |Layout(flow)|
    requires Layout(flow)[i].stage == Layout(flow)[k].stage && Layout(flow)[i].node == Layout(flow)[k].node
    ensures Layout(flow)[j].stage == Layout(flow)[i].stage && Layout(flow)[j].node == Layout(flow)[i].node
  {
    hide LayoutFrom, Ordered, Rank;
    LayoutFromOrdered(flow, 0);
    OrderedIsContiguous(Layout(flow), i, j, k);
  }

  // ---------------------------------------------------------------- counting

  function SectionFor(group: string): Option<Section> {
    if group == "prebuild" then Some(PreBuildNodes)
    else if group == "build" then Some(BuildNodes)
    else if group == "test" then Some(TestNodes)
    else if group == "utility" then Some(UtilityTests)
    else if group == "notification" then Some(Notifications)
    else None
  }

  function Load(node: Node): nat {
    var section := SectionFor(node.groupType);
    if section.Some? then |CommandsOf(section.value, node)| else 0
  }

  function TotalLoad(flow: seq<Node>): nat {
    if |flow| == 0 then 0 else Load(flow[0]) + TotalLoad(flow[1..])
  }

  function SectionSize(section: Section, flow: seq<Node>): nat {
    |SectionCommands(section, flow)|
  }

  lemma SectionForIsGroup(section: Section, group: string)
    ensures SectionFor(group) == Some(section) <==> group == GroupOf(section)
  {
  }

  lemma SectionSizeStep(section: Section, flow: seq<Node>)
    requires |flow| > 0
    ensures SectionSize(section, flow) ==
            SectionSize(section, flow[1..]) + if SectionFor(flow[0].groupType) == Some(section) then Load(flow[0]) else 0
  {
    SectionForIsGroup(section, flow[0].groupType);
    hide CommandsOf, GroupOf, SectionFor;
    var rest := InGroup(flow[1..], GroupOf(section));
    assert ([flow[0]] + rest)[1..] == rest;
  }

  lemma {:induction false} SectionsSumToLoad(flow: seq<Node>)
    ensures SectionSize(PreBuildNodes, flow) + SectionSize(BuildNodes, flow) + SectionSize(TestNodes, flow)
            + SectionSize(UtilityTests, flow) + SectionSize(Notifications, flow) == TotalLoad(flow)
  {
    if |flow| > 0 {
      SectionSizeStep(PreBuildNodes, flow);
      SectionSizeStep(BuildNodes, flow);
      SectionSizeStep(TestNodes, flow);
      SectionSizeStep(UtilityTests, flow);
      SectionSizeStep(Notifications, flow);
      SectionsSumToLoad(flow[1..]);
      hide SectionSize, CommandsOf;
    }
  }

  /** The number of commands: 23 fixed ones, the conditional blocks, and what each node contributes. */
  lemma {:induction false} CommandCount(flow: seq<Node>)
    ensures |AllCommands(Compile(flow))| ==
            23 + (if VersionOf(flow) != "" then 9 else 0) + (if ManagerOf(flow) != "npm" then 2 else 0)
            + (if |Tests(flow)| > 0 then 1 else 0) + TotalLoad(flow)
  {
    SectionsSumToLoad(flow);
    hide SectionCommands, VersionOf, ManagerOf, DockerfileScript;
  }

  // ---------------------------------------------------------------- the image agrees with the build host

  lemma ImageInstall(version: string, manager: string, command: string)
    ensures "RUN npm install -g " + manager in Dockerfile.Lines(version, manager, command)
            <==> manager in {"yarn", "pnpm"}
  {
    var install := "RUN npm install -g " + manager;
    assert install[4] == 'n' && install[0] == 'R';
    assert Dockerfile.IfPackage(command)[4] == 'i';
    if manager == "yarn" {
      assert install == "RUN npm install -g yarn";
      assert install in Dockerfile.Dependencies(manager);
    } else if manager == "pnpm" {
      assert install == "RUN npm install -g pnpm";
      assert install in Dockerfile.Dependencies(manager);
    } else {
      OtherManagerLines(version, manager, command);
    }
  }

  lemma OtherManagerLines(version: string, manager: string, command: string)
    requires manager !in {"yarn", "pnpm"}
    ensures forall l :: l in Dockerfile.Lines(version, manager, command) ==> |l| > 4 && (l[0] != 'R' || l[4] == 'i')
  {
    assert forall c :: Dockerfile.IfPackage(c)[4] == 'i';
    hide Dockerfile.IfPackage;
  }

  /**
   * pre_build and the image install the same package manager exactly when it is npm, yarn or pnpm: any other is
   * installed on the build host only.
   */
  lemma ManagersAgreeExactlyWhenKnown(flow: seq<Node>)
    ensures (|ManagerInstall(ManagerOf(flow))| > 0 <==>
             "RUN npm install -g " + ManagerOf(flow) in
             Dockerfile.Lines(Or(VersionOf(flow), "20"), ManagerOf(flow), DockerBuildCommand(flow)))
            <==> ManagerOf(flow) in {"npm", "yarn", "pnpm"}
  {
    ImageInstall(Or(VersionOf(flow), "20"), ManagerOf(flow), DockerBuildCommand(flow));
    hide Dockerfile.Lines;
  }

  /**
   * The image is built on the node version that pre_build installs, read back out of the generated command,
   * exactly when the version is a single line; the build command does not matter.
   */
  lemma ImageUsesInstalledVersion(flow: seq<Node>)
    requires VersionOf(flow) != ""
    ensures var spec := Compile(flow);
            && "n " + VersionOf(flow) in spec.preBuild
            && |spec.preBuild| > 0
            && var body := Dockerfile.HereDocument(spec.preBuild[|spec.preBuild| - 1], Dockerfile.DELIMITER);
               (|body| > 0 && body[0] == "FROM node:" + VersionOf(flow) + "-alpine") <==> Dockerfile.OneLine(VersionOf(flow))
  {
    hide Dockerfile.Lines, Dockerfile.HereDocument, Dockerfile.OneLine, Dockerfile.Script, VersionOf, ManagerOf,
         DockerBuildCommand, Compile;
    Dockerfile.BaseImageArrives(VersionOf(flow), ManagerOf(flow), DockerBuildCommand(flow));
    PreBuildEnds(flow);
  }

  lemma PreBuildEnds(flow: seq<Node>)
    requires VersionOf(flow) != ""
    ensures var preBuild := Compile(flow).preBuild;
            |preBuild| > 0 && preBuild[|preBuild| - 1] == DockerfileScript(flow) && "n " + VersionOf(flow) in preBuild
  {
    hide SectionCommands, ManagerInstall, TestsWithHeader, DockerfileScript, VersionOf, ManagerOf;
    assert NodeSetup(VersionOf(flow))[6] == "n " + VersionOf(flow);
    assert Compile(flow).preBuild[6] == NodeSetup(VersionOf(flow))[6];
  }
}
