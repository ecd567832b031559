/** The shell commands each flow node stands for. An absent string property and an empty one are the same to the code. */
module NodeCommands {
  import opened Sequences

  datatype Node = Node(
    blockType: string, groupType: string, version: string, packageManager: string,
    updatePackageList: bool, installPackages: seq<string>,
    environmentVariables: seq<(string, string)>, loadFromFile: string,
    cleanInstall: bool, productionOnly: bool,
    configFile: string, mode: Option<string>, basePath: string, outputDir: string,
    scriptName: string, customCommands: seq<string>, workingDirectory: string,
    coverage: bool, testDir: string, reporter: string, timeout: string, recursive: bool,
    browsers: Option<seq<string>>, testCommands: seq<string>,
    channel: string, webhookUrlEnv: string, messageTemplate: string, recipients: string, subject: string)

  function Or(value: string, default: string): string {
    if value != "" then value else default
  }

  function OsPackage(node: Node): seq<string> {
    var manager := Or(node.packageManager, "apt-get");
    var apt := manager == "apt" || manager == "apt-get";
    (if !node.updatePackageList then []
     else if apt then ["apt-get update -y"]
     else if manager == "yum" then ["yum update -y"]
     else [])
    + (if |node.installPackages| == 0 then []
       else if apt then ["apt-get install -y " + Join(node.installPackages, ' ')]
       else if manager == "yum" then ["yum install -y " + Join(node.installPackages, ' ')]
       else [])
  }

  function Exports(variables: seq<(string, string)>): seq<string> {
    if |variables| == 0 then []
    else ["export " + variables[0].0 + "=\"" + variables[0].1 + "\""] + Exports(variables[1..])
  }

  function EnvironmentSetup(node: Node): seq<string> {
    Exports(node.environmentVariables) + if node.loadFromFile != "" then ["source " + node.loadFromFile] else []
  }

  lemma {:induction false} ExportsAppend(variables: seq<(string, string)>, last: (string, string))
    ensures Exports(variables + [last]) == Exports(variables) + Exports([last])
  {
    if |variables| == 0 {
      assert variables + [last] == [last];
    } else {
      assert (variables + [last])[1..] == variables[1..] + [last];
      ExportsAppend(variables[1..], last);
    }
  }

  method GenerateEnvironmentSetupCommands(node: Node) returns (commands: seq<string>)
    ensures commands == EnvironmentSetup(node)
  {
    commands := [];
    var variables := node.environmentVariables;
    for i := 0 to |variables|
      invariant commands == Exports(variables[..i])
    {
      ExportsAppend(variables[..i], variables[i]);
      assert variables[..i + 1] == variables[..i] + [variables[i]];
      commands := commands + ["export " + variables[i].0 + "=\"" + variables[i].1 + "\""];
    }
    assert variables[..|variables|] == variables;
    if node.loadFromFile != "" {
      commands := commands + ["source " + node.loadFromFile];
    }
  }

  /** A shell conditional on package.json; an empty command leaves an empty step before the `else`. */
  function Guarded(notice: string, command: string, otherwise: string): string {
    "if [ -f package.json ]; then echo \"" + notice + "\"; " + command + "; else echo \"" + otherwise + "\"; fi"
  }

  const INSTALL_HEAD := [
    "echo \"=== Install Dependencies ===\"", "pwd", "ls -la", "echo \"Checking for package.json...\"",
    "[ -f package.json ] && " + "cat package.json | head -20 || echo \"No package.json found\""]
  const NO_INSTALL := "No package.json found, skipping dependency installation"
  const WEBPACK_NOTICE := "Running webpack build..."
  const NO_WEBPACK := "No package.json found, skipping webpack build"
  const VITE_NOTICE := "Running vite build..."
  const NO_VITE := "No package.json found, skipping vite build"

  function InstallNotice(node: Node): string {
    "Installing dependencies with " + Or(node.packageManager, "npm") + "..."
  }

  function InstallCommand(node: Node): string {
    var manager := Or(node.packageManager, "npm");
    if node.cleanInstall then
      (if manager == "npm" then "npm ci || npm install"
       else if manager == "yarn" then "yarn install --frozen-lockfile"
       else if manager == "pnpm" then "pnpm install --frozen-lockfile"
       else "")
    else if node.productionOnly then manager + " install --production"
    else manager + " install"
  }

  function InstallPackages(node: Node): seq<string> {
    INSTALL_HEAD + [Guarded(InstallNotice(node), InstallCommand(node), NO_INSTALL)]
  }

  function Runner(manager: string): string {
    if manager == "npm" then "npx "
    else if manager == "pnpm" then "pnpm exec "
    else if manager == "yarn" then "yarn "
    else ""
  }

  function WebpackCommand(node: Node): string {
    var runner := Runner(Or(node.packageManager, "npm"));
    var mode := if node.mode.Some? then node.mode.value else "undefined";
    var config := if node.configFile != "" && node.configFile != "webpack.config.js" then " --config " + node.configFile else "";
    if runner == "" then "" else runner + "webpack" + config + " --mode " + mode
  }

  function WebpackBuild(node: Node): seq<string> {
    [Guarded(WEBPACK_NOTICE, WebpackCommand(node), NO_WEBPACK)]
  }

  function ViteCommand(node: Node): string {
    var runner := Runner(Or(node.packageManager, "npm"));
    (if node.basePath != "" && node.basePath != "/" then "VITE_BASE_PATH=" + node.basePath + " " else "")
    + (if runner == "" then "" else runner + "vite build")
  }

  function ViteBuild(node: Node): seq<string> {
    [Guarded(VITE_NOTICE, ViteCommand(node), NO_VITE)]
    + if node.outputDir != "" && node.outputDir != "dist" then ["mv " + node.outputDir + " dist"] else []
  }

  lemma GuardedTellsCommand(notice: string, a: string, b: string, otherwise: string)
    requires Guarded(notice, a, otherwise) == Guarded(notice, b, otherwise)
    ensures a == b
  {
    var start, end := "if [ -f package.json ]; then echo \"" + notice + "\"; ", "; else echo \"" + otherwise + "\"; fi";
    assert Guarded(notice, a, otherwise) == start + a + end && Guarded(notice, b, otherwise) == start + b + end;
    StripEnds(start, a, b, end);
  }

  predicate KnownManager(node: Node) {
    Or(node.packageManager, "npm") in {"npm", "yarn", "pnpm"}
  }

  /** Some command of the list is a conditional with nothing between its notice and the `else`. */
  predicate HasEmptyStep(commands: seq<string>, notice: string, otherwise: string) {
    Guarded(notice, "", otherwise) in commands
  }

  lemma CommandsEmptyExactlyWhen(node: Node)
    ensures InstallCommand(node) == "" <==> node.cleanInstall && !KnownManager(node)
    ensures WebpackCommand(node) == "" <==> !KnownManager(node)
    ensures ViteCommand(node) == "" <==> !KnownManager(node) && node.basePath in {"", "/"}
  {
  }

  lemma GuardedTellsEmpty(notice: string, command: string, otherwise: string)
    ensures Guarded(notice, command, otherwise) == Guarded(notice, "", otherwise) <==> command == ""
    ensures |Guarded(notice, "", otherwise)| > 0 && Guarded(notice, "", otherwise)[0] == 'i'
  {
    if Guarded(notice, command, otherwise) == Guarded(notice, "", otherwise) {
      GuardedTellsCommand(notice, command, "", otherwise);
    }
  }

  /** The install step is empty exactly for a clean install with a package manager other than npm, yarn and pnpm. */
  lemma EmptyInstallExactlyWhen(node: Node)
    ensures HasEmptyStep(InstallPackages(node), InstallNotice(node), NO_INSTALL) <==> node.cleanInstall && !KnownManager(node)
  {
    CommandsEmptyExactlyWhen(node);
    GuardedTellsEmpty(InstallNotice(node), InstallCommand(node), NO_INSTALL);
    HeadHasNoConditional(Guarded(InstallNotice(node), "", NO_INSTALL));
    hide Guarded, InstallCommand, KnownManager, InstallNotice;
  }

  lemma HeadHasNoConditional(command: string)
    requires |command| > 0 && command[0] == 'i'
    ensures command !in INSTALL_HEAD
  {
    assert INSTALL_HEAD[0][0] == 'e' && INSTALL_HEAD[1][0] == 'p' && INSTALL_HEAD[2][0] == 'l' && INSTALL_HEAD[3][0] == 'e';
    assert INSTALL_HEAD[4][0] == "[ -f package.json ] && "[0];
  }

  /** A webpack step is empty exactly with such a manager, and a vite step if there is no base path to set either. */
  lemma EmptyBuildExactlyWhen(node: Node)
    ensures HasEmptyStep(WebpackBuild(node), WEBPACK_NOTICE, NO_WEBPACK) <==> !KnownManager(node)
    ensures HasEmptyStep(ViteBuild(node), VITE_NOTICE, NO_VITE) <==> !KnownManager(node) && node.basePath in {"", "/"}
  {
    CommandsEmptyExactlyWhen(node);
    GuardedTellsEmpty(WEBPACK_NOTICE, WebpackCommand(node), NO_WEBPACK);
    GuardedTellsEmpty(VITE_NOTICE, ViteCommand(node), NO_VITE);
    hide Guarded, WebpackCommand, ViteCommand, KnownManager;
    assert forall c :: c in ViteBuild(node) ==> c == Guarded(VITE_NOTICE, ViteCommand(node), NO_VITE) || c[..1] == "m";
  }

  function InDirectory(directory: string, commands: seq<string>): (r: seq<string>)
    ensures |r| == |commands|
  {
    if directory == "" || directory == "." then commands
    else seq(|commands|, i requires 0 <= i < |commands| => "cd " + directory + " && " + commands[i])
  }

  function CustomBuild(node: Node): seq<string> {
    var manager := Or(node.packageManager, "npm");
    InDirectory(node.workingDirectory,
                (if node.scriptName != "" then [manager + " run " + node.scriptName] else []) + node.customCommands)
  }

  function Configured(command: string, node: Node, default: string): string {
    command + if node.configFile != "" && node.configFile != default then " --config " + node.configFile else ""
  }

  function Covered(command: string, node: Node): string {
    command + if node.coverage then " --coverage" else ""
  }

  function MochaTest(node: Node): string {
    "npx mocha"
    + (if node.testDir != "" then " " + node.testDir else "")
    + (if node.reporter != "" then " --reporter " + node.reporter else "")
    + (if node.timeout != "" then " --timeout " + node.timeout else "")
    + (if node.recursive then " --recursive" else "")
  }

  function PlaywrightTest(node: Node): string {
    Configured("npx playwright test", node, "playwright.config.ts")
    + if node.browsers.Some? then " --project " + Join(node.browsers.value, ',') else ""
  }

  function CustomTest(node: Node): seq<string> {
    InDirectory(node.workingDirectory, node.testCommands)
  }

  function SlackNotification(node: Node): seq<string> {
    if node.channel == "" || node.webhookUrlEnv == "" then []
    else ["curl -X POST -H 'Content-type: application/json' --data '{\"channel\":\"" + node.channel + "\",\"text\":\""
          + Or(node.messageTemplate, "Build completed successfully!") + "\"}' $" + node.webhookUrlEnv]
  }

  function EmailNotification(node: Node): seq<string> {
    if node.recipients == "" || node.subject == "" then []
    else ["echo \"" + Or(node.messageTemplate, "Build completed successfully!") + "\" | mail -s \"" + node.subject
          + "\" " + node.recipients]
  }

  // ---------------------------------------------------------------- dispatch per group

  function PreBuildCommands(node: Node): seq<string> {
    if node.blockType == "os_package" then OsPackage(node)
    else if node.blockType == "environment_setup" then EnvironmentSetup(node)
    else []
  }

  function BuildCommands(node: Node): seq<string> {
    if node.blockType == "install_module_node" then InstallPackages(node)
    else if node.blockType == "build_webpack" then WebpackBuild(node)
    else if node.blockType == "build_vite" then ViteBuild(node)
    else if node.blockType == "build_custom" then CustomBuild(node)
    else []
  }

  function TestCommands(node: Node): seq<string> {
    if node.blockType == "test_jest" then [Covered(Configured("npm run test", node, "jest.config.js"), node)]
    else if node.blockType == "test_vitest" then [Covered(Configured("npx vitest run", node, "vitest.config.ts"), node)]
    else if node.blockType == "test_mocha" then [MochaTest(node)]
    else if node.blockType == "test_playwright" then [PlaywrightTest(node)]
    else if node.blockType == "test_custom" then CustomTest(node)
    else []
  }

  function NotificationCommands(node: Node): seq<string> {
    if node.blockType == "notification_slack" then SlackNotification(node)
    else if node.blockType == "notification_email" then EmailNotification(node)
    else []
  }
}
