/** The generated Dockerfile and the shell here-document that carries it. */
module Dockerfile {
  import opened Sequences

  const DELIMITER := "EODOCKERFILE"
  const OPENING_TEST := "[ ! -f Dockerfile ] && "
  const OPENING_NOTICE := "echo \"Creating Dockerfile...\""
  const OPENING_HEREDOC := " && cat > Dockerfile << 'EODOCKERFILE'"
  const OPENING := OPENING_TEST + OPENING_NOTICE + OPENING_HEREDOC
  const CLOSING := "[ -f Dockerfile ] && echo \"Dockerfile created successfully\" || echo \"Using existing Dockerfile\""

  /** A step that only runs when the project has a package.json. */
  function IfPackage(command: string): string {
    "RUN if [ -f package.json ]; then " + command + "; fi"
  }

  /** The lines of the Dockerfile; an absent build command and an empty one are the same to the code. */
  function Lines(nodeVersion: string, packageManager: string, buildCommand: string): seq<string> {
    ["FROM node:" + nodeVersion + "-alpine", "WORKDIR /app", "COPY package*.json ./"]
    + LockFile(packageManager)
    + Dependencies(packageManager)
    + ["COPY . ."]
    + (if buildCommand != "" then [IfPackage(buildCommand)] else [])
    + ["EXPOSE 3000"]
    + Start(packageManager)
  }

  function LockFile(packageManager: string): seq<string> {
    if packageManager == "yarn" then ["COPY yarn.lock* ./"]
    else if packageManager == "pnpm" then ["COPY pnpm-lock.yaml* ./"]
    else []
  }

  function Dependencies(packageManager: string): seq<string> {
    if packageManager == "npm" then
      [IfPackage("npm ci --only=production || " + "npm install --only=production")]
    else if packageManager == "yarn" then
      ["RUN npm install -g yarn", IfPackage("yarn install --frozen-lockfile --production")]
    else if packageManager == "pnpm" then
      ["RUN npm install -g pnpm", IfPackage("pnpm install --frozen-lockfile --prod")]
    else []
  }

  function Start(packageManager: string): seq<string> {
    if packageManager == "npm" then ["CMD [\"npm\", \"start\"]"]
    else if packageManager == "yarn" then ["CMD [\"yarn\", \"start\"]"]
    else if packageManager == "pnpm" then ["CMD [\"pnpm\", \"start\"]"]
    else []
  }

  /** A command with a here-document, its body and delimiter, and one more command. */
  function Framed(opening: string, lines: seq<string>, delimiter: string, closing: string): string {
    opening + ['\n'] + (Join(lines, '\n') + ['\n'] + (delimiter + ['\n'] + closing))
  }

  function Script(lines: seq<string>): string {
    Framed(OPENING, lines, DELIMITER, CLOSING)
  }

  method GenerateDockerfileScript(nodeVersion: string, packageManager: string, buildCommand: string) returns (script: string)
    ensures script == Script(Lines(nodeVersion, packageManager, buildCommand))
  {
    hide LockFile, Dependencies, Start, Script, IfPackage;
    var lines := ["FROM node:" + nodeVersion + "-alpine", "WORKDIR /app", "COPY package*.json ./"];
    lines := lines + LockFile(packageManager);
    var dependencies := PushDependencies(packageManager);
    lines := lines + dependencies;
    lines := lines + ["COPY . ."];
    if buildCommand != "" {
      lines := lines + [IfPackage(buildCommand)];
    }
    lines := lines + ["EXPOSE 3000"];
    lines := lines + Start(packageManager);
    assert lines == Lines(nodeVersion, packageManager, buildCommand);
    return Script(lines);
  }

  method PushDependencies(packageManager: string) returns (lines: seq<string>)
    ensures lines == Dependencies(packageManager)
  {
    lines := [];
    if packageManager == "npm" {
      lines := lines + [IfPackage("npm ci --only=production || " + "npm install --only=production")];
    } else if packageManager == "yarn" {
      lines := lines + ["RUN npm install -g yarn"];
      lines := lines + [IfPackage("yarn install --frozen-lockfile --production")];
    } else if packageManager == "pnpm" {
      lines := lines + ["RUN npm install -g pnpm"];
      lines := lines + [IfPackage("pnpm install --frozen-lockfile --prod")];
    }
  }

  // ---------------------------------------------------------------- reading the here-document back

  function UpTo(delimiter: string, lines: seq<string>): seq<string> {
    if |lines| == 0 || lines[0] == delimiter then [] else [lines[0]] + UpTo(delimiter, lines[1..])
  }

  /**
   * What the shell feeds to the command: the lines after the one with the redirection, up to the first that
   * is just the delimiter (section 2.7.4 of the POSIX.1-2017 Shell Command Language).
   */
  function HereDocument(script: string, delimiter: string): seq<string> {
    UpTo(delimiter, Split(script, '\n')[1..])
  }

  lemma {:induction false} StopsAtDelimiter(delimiter: string, lines: seq<string>, rest: seq<string>)
    requires delimiter !in lines
    ensures UpTo(delimiter, lines + ([delimiter] + rest)) == lines
  {
    if |lines| > 0 {
      assert (lines + ([delimiter] + rest))[1..] == lines[1..] + ([delimiter] + rest);
      StopsAtDelimiter(delimiter, lines[1..], rest);
    }
  }

  lemma {:induction false} UpToKeeps(delimiter: string, lines: seq<string>)
    ensures forall l :: l in UpTo(delimiter, lines) ==> l in lines
  {
    if |lines| > 0 {
      UpToKeeps(delimiter, lines[1..]);
    }
  }

  /** The body read back is the list of lines that went in exactly when no line holds a newline of its own. */
  lemma HereDocumentRoundTrip(opening: string, lines: seq<string>, delimiter: string, closing: string)
    requires '\n' !in opening && '\n' !in delimiter
    requires |lines| > 0 && delimiter !in lines
    ensures HereDocument(Framed(opening, lines, delimiter, closing), delimiter) == lines
            <==> forall k :: 0 <= k < |lines| ==> '\n' !in lines[k]
  {
    hide Split;
    if forall k :: 0 <= k < |lines| ==> '\n' !in lines[k] {
      var rest := delimiter + ['\n'] + closing;
      SplitAtSeparator(delimiter, closing, '\n');
      SplitJoinThen(lines, rest, '\n');
      SplitAtSeparator(opening, Join(lines, '\n') + ['\n'] + rest, '\n');
      assert Split(Framed(opening, lines, delimiter, closing), '\n')[1..] == lines + ([delimiter] + Split(closing, '\n'));
      StopsAtDelimiter(delimiter, lines, Split(closing, '\n'));
    } else {
      var script := Framed(opening, lines, delimiter, closing);
      SplitPartsHaveNoSeparator(script, '\n');
      UpToKeeps(delimiter, Split(script, '\n')[1..]);
      var k :| 0 <= k < |lines| && '\n' in lines[k];
      assert lines[k] !in HereDocument(script, delimiter);
    }
  }

  /** How every generated line begins; the delimiter does not begin like that. */
  predicate IsInstruction(line: string) {
    |line| >= 2 && (line[0] != 'E' || line[1] != 'O')
  }

  predicate AllInstructions(lines: seq<string>) {
    forall k :: 0 <= k < |lines| ==> IsInstruction(lines[k])
  }

  lemma PartsAreInstructions(nodeVersion: string, packageManager: string, command: string)
    ensures AllInstructions(["FROM node:" + nodeVersion + "-alpine", "WORKDIR /app", "COPY package*.json ./"])
    ensures AllInstructions(LockFile(packageManager)) && AllInstructions(Dependencies(packageManager))
    ensures AllInstructions(Start(packageManager)) && AllInstructions(["COPY . ."]) && AllInstructions(["EXPOSE 3000"])
    ensures AllInstructions([IfPackage(command)])
  {
    forall c
      ensures IsInstruction(IfPackage(c))
    {
      assert IfPackage(c)[0] == 'R';
    }
    hide IfPackage;
    assert IsInstruction("RUN npm install -g yarn") && IsInstruction("RUN npm install -g pnpm");
  }

  lemma LinesAreInstructions(nodeVersion: string, packageManager: string, buildCommand: string)
    ensures AllInstructions(Lines(nodeVersion, packageManager, buildCommand))
  {
    PartsAreInstructions(nodeVersion, packageManager, buildCommand);
    hide IsInstruction, LockFile, Dependencies, Start;
  }

  predicate OneLine(s: string) {
    '\n' !in s
  }

  lemma IfPackageIsOneLine(command: string)
    ensures OneLine(IfPackage(command)) <==> OneLine(command)
  {
  }

  lemma NpmIsOneLine()
    ensures OneLine("npm ci --only=production || " + "npm install --only=production")
  {
    assert OneLine("npm ci --only=production || ");
    assert OneLine("npm install --only=production");
  }

  lemma YarnIsOneLine()
    ensures OneLine("yarn install --frozen-lockfile --production")
  {
  }

  lemma PnpmIsOneLine()
    ensures OneLine("pnpm install --frozen-lockfile --prod")
  {
  }

  lemma DependenciesAreOneLine(packageManager: string)
    ensures forall l :: l in Dependencies(packageManager) ==> OneLine(l)
  {
    hide IfPackage, OneLine;
    InstallsAreOneLine();
    NpmIsOneLine();
    YarnIsOneLine();
    PnpmIsOneLine();
    IfPackageIsOneLine("npm ci --only=production || " + "npm install --only=production");
    IfPackageIsOneLine("yarn install --frozen-lockfile --production");
    IfPackageIsOneLine("pnpm install --frozen-lockfile --prod");
  }

  lemma InstallsAreOneLine()
    ensures OneLine("RUN npm install -g yarn") && OneLine("RUN npm install -g pnpm")
  {
  }

  lemma PartsAreOneLine(packageManager: string)
    ensures forall l :: l in LockFile(packageManager) + Start(packageManager) ==> OneLine(l)
    ensures OneLine("WORKDIR /app") && OneLine("COPY package*.json ./") && OneLine("COPY . .") && OneLine("EXPOSE 3000")
  {
  }

  lemma JoinedIsOneLine(a: string, b: string)
    requires OneLine(a) && OneLine(b)
    ensures OneLine(a + b)
  {
  }

  lemma FrameIsOneLine()
    ensures OneLine(OPENING) && OneLine(DELIMITER)
  {
    assert OneLine(OPENING_TEST) && OneLine(OPENING_NOTICE) && OneLine(OPENING_HEREDOC) && OneLine(DELIMITER);
    JoinedIsOneLine(OPENING_TEST, OPENING_NOTICE);
    JoinedIsOneLine(OPENING_TEST + OPENING_NOTICE, OPENING_HEREDOC);
  }

  lemma LinesAreOneLine(nodeVersion: string, packageManager: string, buildCommand: string)
    ensures (forall l :: l in Lines(nodeVersion, packageManager, buildCommand) ==> OneLine(l))
            <==> OneLine(nodeVersion) && OneLine(buildCommand)
  {
    PartsAreOneLine(packageManager);
    DependenciesAreOneLine(packageManager);
    IfPackageIsOneLine(buildCommand);
    assert OneLine("FROM node:" + nodeVersion + "-alpine") <==> OneLine(nodeVersion);
    var lines := Lines(nodeVersion, packageManager, buildCommand);
    assert lines[0] == "FROM node:" + nodeVersion + "-alpine";
    hide OneLine, LockFile, Dependencies, Start, IfPackage;
  }

  /** The Dockerfile arrives intact exactly when neither the version nor the build command breaks its line. */
  lemma DockerfileArrivesIntact(nodeVersion: string, packageManager: string, buildCommand: string)
    ensures HereDocument(Script(Lines(nodeVersion, packageManager, buildCommand)), DELIMITER)
            == Lines(nodeVersion, packageManager, buildCommand)
            <==> OneLine(nodeVersion) && OneLine(buildCommand)
  {
    var lines := Lines(nodeVersion, packageManager, buildCommand);
    LinesAreInstructions(nodeVersion, packageManager, buildCommand);
    assert !IsInstruction(DELIMITER);
    LinesAreOneLine(nodeVersion, packageManager, buildCommand);
    FrameIsOneLine();
    assert |lines| > 0;
    hide Lines, HereDocument, Framed, IsInstruction;
    HereDocumentRoundTrip(OPENING, lines, DELIMITER, CLOSING);
    assert forall k :: 0 <= k < |lines| ==> lines[k] in lines;
  }

  /** The first line arrives whatever happens to the others, exactly when it is one line. */
  lemma FirstLineArrives(opening: string, first: string, more: seq<string>, delimiter: string, closing: string)
    requires '\n' !in opening && first != delimiter && |more| > 0
    ensures var body := HereDocument(Framed(opening, [first] + more, delimiter, closing), delimiter);
            (|body| > 0 && body[0] == first) <==> '\n' !in first
  {
    hide Split;
    var script := Framed(opening, [first] + more, delimiter, closing);
    if '\n' !in first {
      JoinConcat([first], more, '\n');
      JoinOne(first);
      var tail := Join(more, '\n') + ['\n'] + (delimiter + ['\n'] + closing);
      assert script == opening + ['\n'] + (first + ['\n'] + tail);
      SplitAtSeparator(opening, first + ['\n'] + tail, '\n');
      SplitAtSeparator(first, tail, '\n');
      assert Split(script, '\n')[1..] == [first] + Split(tail, '\n');
    } else {
      SplitPartsHaveNoSeparator(script, '\n');
      UpToKeeps(delimiter, Split(script, '\n')[1..]);
      var body := HereDocument(script, delimiter);
      assert |body| > 0 ==> body[0] in body;
    }
  }

  lemma BaseImageArrives(nodeVersion: string, packageManager: string, buildCommand: string)
    ensures var body := HereDocument(Script(Lines(nodeVersion, packageManager, buildCommand)), DELIMITER);
            (|body| > 0 && body[0] == "FROM node:" + nodeVersion + "-alpine") <==> OneLine(nodeVersion)
  {
    var lines := Lines(nodeVersion, packageManager, buildCommand);
    var first := "FROM node:" + nodeVersion + "-alpine";
    assert first[0] == 'F' && lines[0] == first && |lines| > 1;
    assert OneLine(first) <==> OneLine(nodeVersion);
    FrameIsOneLine();
    hide Lines, HereDocument, Framed;
    assert lines == [first] + lines[1..];
    FirstLineArrives(OPENING, first, lines[1..], DELIMITER, CLOSING);
  }

  lemma JoinOne(line: string)
    ensures Join([line], '\n') == line
  {
  }

  // ---------------------------------------------------------------- the script tells the build command

  /** What the build command adds to the joined lines. */
  function BuildPart(command: string): string {
    if command == "" then "" else IfPackage(command) + ['\n']
  }

  lemma LinesAroundBuild(nodeVersion: string, packageManager: string, command: string)
    ensures var before := ["FROM node:" + nodeVersion + "-alpine", "WORKDIR /app", "COPY package*.json ./"]
                          + LockFile(packageManager) + Dependencies(packageManager) + ["COPY . ."];
            var after := ["EXPOSE 3000"] + Start(packageManager);
            Join(Lines(nodeVersion, packageManager, command), '\n') ==
            Join(before, '\n') + ['\n'] + BuildPart(command) + Join(after, '\n')
  {
    hide LockFile, Dependencies, Start, Join, IfPackage;
    var before := ["FROM node:" + nodeVersion + "-alpine", "WORKDIR /app", "COPY package*.json ./"]
                  + LockFile(packageManager) + Dependencies(packageManager) + ["COPY . ."];
    var after := ["EXPOSE 3000"] + Start(packageManager);
    if command == "" {
      assert Lines(nodeVersion, packageManager, command) == before + after;
      JoinConcat(before, after, '\n');
    } else {
      var step := [IfPackage(command)];
      assert Lines(nodeVersion, packageManager, command) == before + (step + after);
      JoinConcat(before, step + after, '\n');
      JoinConcat(step, after, '\n');
      JoinOne(step[0]);
    }
  }

  lemma BuildPartTellsCommand(a: string, b: string)
    requires BuildPart(a) == BuildPart(b)
    ensures a == b
  {
    if a != "" && b != "" {
      IfPackageTellsCommand(a, b);
    }
  }

  lemma IfPackageTellsCommand(a: string, b: string)
    requires IfPackage(a) + ['\n'] == IfPackage(b) + ['\n']
    ensures a == b
  {
    assert "" + IfPackage(a) == IfPackage(a) && "" + IfPackage(b) == IfPackage(b);
    StripEnds("", IfPackage(a), IfPackage(b), ['\n']);
    StripEnds("RUN if [ -f package.json ]; then ", a, b, "; fi");
  }

  lemma FramedTellsBody(opening: string, a: seq<string>, b: seq<string>, delimiter: string, closing: string)
    requires Framed(opening, a, delimiter, closing) == Framed(opening, b, delimiter, closing)
    ensures Join(a, '\n') == Join(b, '\n')
  {
    hide Join;
    var start, end := opening + ['\n'], ['\n'] + (delimiter + ['\n'] + closing);
    assert Framed(opening, a, delimiter, closing) == start + Join(a, '\n') + end;
    assert Framed(opening, b, delimiter, closing) == start + Join(b, '\n') + end;
    StripEnds(start, Join(a, '\n'), Join(b, '\n'), end);
  }

  /** For one version and package manager, different build commands give different scripts. */
  lemma ScriptTellsBuildCommand(nodeVersion: string, packageManager: string, a: string, b: string)
    requires Script(Lines(nodeVersion, packageManager, a)) == Script(Lines(nodeVersion, packageManager, b))
    ensures a == b
  {
    hide Lines, LockFile, Dependencies, Start, Join, BuildPart, Framed;
    FramedTellsBody(OPENING, Lines(nodeVersion, packageManager, a), Lines(nodeVersion, packageManager, b), DELIMITER, CLOSING);
    LinesAroundBuild(nodeVersion, packageManager, a);
    LinesAroundBuild(nodeVersion, packageManager, b);
    var before := Join(["FROM node:" + nodeVersion + "-alpine", "WORKDIR /app", "COPY package*.json ./"]
                       + LockFile(packageManager) + Dependencies(packageManager) + ["COPY . ."], '\n') + ['\n'];
    var after := Join(["EXPOSE 3000"] + Start(packageManager), '\n');
    hide *;
    StripEnds(before, BuildPart(a), BuildPart(b), after);
    BuildPartTellsCommand(a, b);
  }
}
