/** How the RoboFile runs Codeception: which PHP executables are enabled,
    which report flags an environment type asks for, how one run's command
    line is put together, how runs fan out over suites and executables, and
    how suite names given on the command line are checked.

    `vsprintf`, `escapeshellarg` and `escapeshellcmd` are not evaluated: a
    command line is the pattern handed to `vsprintf` together with its
    arguments, each argument tagged with the escaping applied to it. */
module RoboCodecept {
  import opened Php

  // -----------------------------------------------------------------------
  // PHP executables (`php.executables` in the configuration)

  /** `$php['envVars']`: variable name to value, a null value meaning the
      variable is named without a value. */
  type EnvVars = seq<(string, Option<string>)>

  /** One entry of `php.executables`. A missing `enabled` key is None. */
  datatype PhpExecutable = PhpExecutable(enabled: Option<Mixed>, envVars: Option<EnvVars>, command: string)

  /** `!empty($php['enabled'])`. */
  predicate IsEnabled(php: PhpExecutable) {
    php.enabled.Some? && !Falsy(php.enabled.value)
  }

  /** `array_filter` of the configured executables on `enabled`: keys and
      order are kept. */
  function EnabledPhpExecutables(executables: seq<(string, PhpExecutable)>): (r: seq<(string, PhpExecutable)>)
    ensures forall p :: p in r <==> p in executables && IsEnabled(p.1)
    ensures |r| <= |executables|
    ensures (forall i :: 0 <= i < |executables| ==> IsEnabled(executables[i].1)) ==> r == executables
  {
    if executables == [] then []
    else
      var init := executables[..|executables| - 1];
      var last := executables[|executables| - 1];
      assert forall p :: p in executables <==> p in init || p == last;
      var kept := EnabledPhpExecutables(init);
      if IsEnabled(last.1) then kept + [last] else kept
  }

  /** `array_filter` read front to back: each enabled entry, in turn. */
  function EnabledFrom(executables: seq<(string, PhpExecutable)>): seq<(string, PhpExecutable)> {
    if executables == [] then []
    else (if IsEnabled(executables[0].1) then [executables[0]] else []) + EnabledFrom(executables[1..])
  }

  lemma {:induction false} EnabledFromSnoc(executables: seq<(string, PhpExecutable)>, e: (string, PhpExecutable))
    ensures EnabledFrom(executables + [e]) == EnabledFrom(executables) + (if IsEnabled(e.1) then [e] else [])
  {
    if executables == [] {
      assert executables + [e] == [e];
    } else {
      var head := if IsEnabled(executables[0].1) then [executables[0]] else [];
      assert (executables + [e])[0] == executables[0];
      assert (executables + [e])[1..] == executables[1..] + [e];
      assert EnabledFrom(executables + [e]) == head + EnabledFrom(executables[1..] + [e]);
      EnabledFromSnoc(executables[1..], e);
    }
  }

  /** The enabled executables keep their relative order: they are exactly
      the entries the front-to-back filter keeps, one after the other. */
  lemma {:induction false} EnabledPhpExecutablesInOrder(executables: seq<(string, PhpExecutable)>)
    ensures EnabledPhpExecutables(executables) == EnabledFrom(executables)
  {
    if executables != [] {
      var init, last := executables[..|executables| - 1], executables[|executables| - 1];
      EnabledPhpExecutablesInOrder(init);
      EnabledFromSnoc(init, last);
      assert init + [last] == executables;
    }
  }

  /** The values of an ordered PHP array. */
  function Values<K, V>(a: seq<(K, V)>): (r: seq<V>)
    ensures |r| == |a|
    ensures forall i :: 0 <= i < |a| ==> r[i] == a[i].1
  {
    if a == [] then [] else [a[0].1] + Values(a[1..])
  }

  // -----------------------------------------------------------------------
  // Command lines

  /** How an argument reaches `vsprintf`. */
  datatype ShellArg =
    | Quoted(s: string)          // escapeshellarg($s)
    | CommandEscaped(s: string)  // escapeshellcmd($s)
    | Verbatim(s: string)        // inserted as configured

  /** A `vsprintf` pattern together with the arguments its placeholders
      take, grown the way the PHP appends to the pattern and to the
      argument list side by side. */
  datatype Clause =
    | Empty                             // nothing yet
    | Lit(text: string)                 // literal pattern text
    | Arg(arg: ShellArg)                // a `%s` and the argument it takes
    | Then(first: Clause, next: Clause) // one clause after the other

  /** The pattern handed to `vsprintf`. */
  function Pattern(c: Clause): string {
    match c
    case Empty => ""
    case Lit(text) => text
    case Arg(_) => "%s"
    case Then(first, next) => Pattern(first) + Pattern(next)
  }

  /** The arguments handed to `vsprintf`, in order. */
  function Args(c: Clause): seq<ShellArg> {
    match c
    case Empty => []
    case Lit(_) => []
    case Arg(a) => [a]
    case Then(first, next) => Args(first) + Args(next)
  }

  /** No literal text holds a `%`. */
  predicate WellFormed(c: Clause) {
    match c
    case Lit(text) => '%' !in text
    case Then(first, next) => WellFormed(first) && WellFormed(next)
    case _ => true
  }

  /** In a well-formed clause every `%` of the pattern starts a placeholder
      that has its argument. */
  lemma {:induction false} PatternMatchesArguments(c: Clause)
    requires WellFormed(c)
    ensures Count(Pattern(c), '%') == |Args(c)|
  {
    match c
    case Empty =>
    case Lit(text) =>
      CountAbsent(text, '%');
    case Arg(_) =>
      assert "%s"[1..][1..] == "";
    case Then(first, next) =>
      PatternMatchesArguments(first);
      PatternMatchesArguments(next);
      CountAppend(Pattern(first), Pattern(next), '%');
  }

  /** Appending literal text adds no argument. */
  lemma ThenLit(c: Clause, text: string)
    ensures Args(Then(c, Lit(text))) == Args(c)
    ensures WellFormed(Then(c, Lit(text))) <==> WellFormed(c) && '%' !in text
  {
  }

  /** Appending a placeholder adds its argument. */
  lemma ThenArg(c: Clause, a: ShellArg)
    ensures Args(Then(c, Arg(a))) == Args(c) + [a]
    ensures WellFormed(Then(c, Arg(a))) <==> WellFormed(c)
  {
  }

  /** The quoted values of the variables that have one, in order. */
  function EnvVarValues(vars: EnvVars): (r: seq<ShellArg>)
    ensures |r| <= |vars|
    ensures forall a :: a in r ==> a.Quoted?
  {
    if vars == [] then []
    else
      var value := vars[|vars| - 1].1;
      EnvVarValues(vars[..|vars| - 1]) + (if value.None? then [] else [Quoted(value.value)])
  }

  /** One `NAME` or `NAME=%s` per configured variable, each followed by a
      space; a value is passed quoted. */
  function EnvVarsClause(vars: EnvVars): Clause {
    if vars == [] then Empty
    else
      var (name, value) := vars[|vars| - 1];
      var named := Then(EnvVarsClause(vars[..|vars| - 1]), Lit(name));
      if value.None? then Then(named, Lit(" "))
      else Then(Then(Then(named, Lit("=")), Arg(Quoted(value.value))), Lit(" "))
  }

  /** The variables contribute their values as arguments, and no `%` of
      their own as long as no name holds one. */
  lemma {:induction false} EnvVarsClauseArgs(vars: EnvVars)
    ensures Args(EnvVarsClause(vars)) == EnvVarValues(vars)
    ensures (forall i :: 0 <= i < |vars| ==> '%' !in vars[i].0) ==> WellFormed(EnvVarsClause(vars))
  {
    if vars != [] {
      var init := vars[..|vars| - 1];
      var (name, value) := vars[|vars| - 1];
      EnvVarsClauseArgs(init);
      var named := Then(EnvVarsClause(init), Lit(name));
      ThenLit(EnvVarsClause(init), name);
      if value.None? {
        ThenLit(named, " ");
      } else {
        ThenLit(named, "=");
        ThenArg(Then(named, Lit("=")), Quoted(value.value));
        ThenLit(Then(Then(named, Lit("=")), Arg(Quoted(value.value))), " ");
      }
      assert (forall i :: 0 <= i < |vars| ==> '%' !in vars[i].0) ==>
        (forall i :: 0 <= i < |init| ==> '%' !in init[i].0) && '%' !in name by {
        assert forall i :: 0 <= i < |init| ==> init[i] == vars[i];
      }
    }
  }

  /** The PHP executable, then codecept from the bin directory, with the
      options every run has. */
  function WithExecutable(c: Clause, command: string, binDir: string): Clause {
    Then(Then(Then(Then(Then(Then(c,
      Arg(Verbatim(command))), Lit(" ")), Arg(CommandEscaped(binDir + "/codecept"))),
      Lit(" --ansi")), Lit(" --verbose")), Lit(" --debug"))
  }

  lemma WithExecutableArgs(c: Clause, command: string, binDir: string)
    ensures Args(WithExecutable(c, command, binDir)) == Args(c) + [Verbatim(command), CommandEscaped(binDir + "/codecept")]
    ensures WellFormed(c) ==> WellFormed(WithExecutable(c, command, binDir))
  {
    var c1 := Then(c, Arg(Verbatim(command)));
    var c2 := Then(c1, Lit(" "));
    var c3 := Then(c2, Arg(CommandEscaped(binDir + "/codecept")));
    var c4 := Then(c3, Lit(" --ansi"));
    var c5 := Then(c4, Lit(" --verbose"));
    ThenArg(c, Verbatim(command));
    ThenLit(c1, " ");
    ThenArg(c2, CommandEscaped(binDir + "/codecept"));
    ThenLit(c3, " --ansi");
    ThenLit(c4, " --verbose");
    ThenLit(c5, " --debug");
  }

  /** The report options of `codecept run`. */
  datatype ReportFlag = CoverageHtml | CoverageXml | Coverage | JunitHtml | JunitXml

  /** The report options for an environment type, in command-line order:
      a developer machine gets HTML reports, CI gets XML reports, and both
      keep the serialized coverage. */
  function ReportFlags(envType: string): (r: seq<ReportFlag>)
    ensures CoverageHtml in r <==> envType == "dev"
    ensures JunitHtml in r <==> envType == "dev"
    ensures CoverageXml in r <==> envType == "ci"
    ensures JunitXml in r <==> envType == "ci"
    ensures Coverage in r <==> envType == "dev" || envType == "ci"
  {
    if envType == "dev" then [CoverageHtml, Coverage, JunitHtml]
    else if envType == "ci" then [CoverageXml, Coverage, JunitXml]
    else []
  }

  function FlagOption(flag: ReportFlag): string {
    match flag
    case CoverageHtml => " --coverage-html="
    case CoverageXml => " --coverage-xml="
    case Coverage => " --coverage="
    case JunitHtml => " --html="
    case JunitXml => " --xml="
  }

  /** Where a report goes, relative to the log directory. */
  function FlagPath(flag: ReportFlag, suite: string): string {
    match flag
    case CoverageHtml => "human/coverage/" + suite + "/html"
    case CoverageXml => "machine/coverage/" + suite + "/coverage.xml"
    case Coverage => "machine/coverage/" + suite + "/coverage.serialized"
    case JunitHtml => "human/junit/junit." + suite + ".html"
    case JunitXml => "machine/junit/junit." + suite + ".xml"
  }

  /** The quoted report path of each flag, in order. */
  function FlagArgs(flags: seq<ReportFlag>, suite: string): (r: seq<ShellArg>)
    ensures |r| == |flags|
    ensures forall i :: 0 <= i < |flags| ==> r[i] == Quoted(FlagPath(flags[i], suite))
  {
    if flags == [] then []
    else FlagArgs(flags[..|flags| - 1], suite) + [Quoted(FlagPath(flags[|flags| - 1], suite))]
  }

  lemma FlagOptionPlain(flag: ReportFlag)
    ensures '%' !in FlagOption(flag)
  {
    match flag
    case CoverageHtml =>
    case CoverageXml =>
    case Coverage =>
    case JunitHtml =>
    case JunitXml =>
  }

  /** A report option and its path. */
  function WithFlag(c: Clause, flag: ReportFlag, suite: string): Clause {
    Then(Then(c, Lit(FlagOption(flag))), Arg(Quoted(FlagPath(flag, suite))))
  }

  function WithFlags(c: Clause, flags: seq<ReportFlag>, suite: string): Clause {
    if flags == [] then c
    else WithFlag(WithFlags(c, flags[..|flags| - 1], suite), flags[|flags| - 1], suite)
  }

  /** Each report option adds its quoted path and no `%` of its own. */
  lemma {:induction false} WithFlagsArgs(c: Clause, flags: seq<ReportFlag>, suite: string)
    ensures Args(WithFlags(c, flags, suite)) == Args(c) + FlagArgs(flags, suite)
    ensures WellFormed(c) ==> WellFormed(WithFlags(c, flags, suite))
  {
    if flags != [] {
      var init, last := flags[..|flags| - 1], flags[|flags| - 1];
      WithFlagsArgs(c, init, suite);
      var before := WithFlags(c, init, suite);
      ThenLit(before, FlagOption(last));
      ThenArg(Then(before, Lit(FlagOption(last))), Quoted(FlagPath(last, suite)));
      FlagOptionPlain(last);
    }
  }

  /** The directory a report flag writes into, created before the run. */
  function FlagDirectory(flag: ReportFlag, logDir: string, suite: string): Option<string> {
    match flag
    case CoverageHtml => Some(logDir + "/human/coverage/" + suite)
    case CoverageXml => None
    case Coverage => Some(logDir + "/machine/coverage/" + suite)
    case JunitHtml => Some(logDir + "/human/junit")
    case JunitXml => Some(logDir + "/machine/junit")
  }

  function FlagDirectories(flags: seq<ReportFlag>, logDir: string, suite: string): seq<string> {
    if flags == [] then []
    else
      var dir := FlagDirectory(flags[|flags| - 1], logDir, suite);
      FlagDirectories(flags[..|flags| - 1], logDir, suite) + (if dir.Some? then [dir.value] else [])
  }

  /** Every report directory lies inside the log directory. */
  lemma {:induction false} FlagDirectoriesUnderLogDir(flags: seq<ReportFlag>, logDir: string, suite: string)
    ensures forall d :: d in FlagDirectories(flags, logDir, suite) ==> StartsWith(d, logDir + "/")
  {
    if flags != [] {
      FlagDirectoriesUnderLogDir(flags[..|flags| - 1], logDir, suite);
      var dir := FlagDirectory(flags[|flags| - 1], logDir, suite);
      if dir.Some? {
        var rest := dir.value[|logDir| + 1..];
        assert dir.value == logDir + "/" + rest;
        assert (logDir + "/" + rest)[..|logDir| + 1] == logDir + "/";
      }
    }
  }

  /** A directory is created exactly when one of the flags writes into it. */
  lemma {:induction false} FlagDirectoriesMembers(flags: seq<ReportFlag>, logDir: string, suite: string, d: string)
    ensures d in FlagDirectories(flags, logDir, suite)
        <==> exists f :: f in flags && FlagDirectory(f, logDir, suite) == Some(d)
  {
    if flags != [] {
      var init, last := flags[..|flags| - 1], flags[|flags| - 1];
      FlagDirectoriesMembers(init, logDir, suite, d);
      assert forall f :: f in flags <==> f in init || f == last;
    }
  }

  /** `run`, followed by the suite unless every suite is run. */
  function WithRun(c: Clause, suite: string): Clause {
    var run := Then(c, Lit(" run"));
    if suite != "all" then Then(Then(run, Lit(" ")), Arg(Quoted(suite))) else run
  }

  /** `--env <type>.<name>` when the environment file for that pair exists. */
  function WithEnvFile(c: Clause, envFileExists: bool, envFileName: string): Clause {
    if envFileExists then Then(Then(c, Lit(" --env ")), Arg(Quoted(envFileName))) else c
  }

  /** On Jenkins a failed test run (exit code 1) is not a failed build. */
  const JenkinsUnstable := " || [[ \"${?}\" == \"1\" ]]"

  lemma JenkinsUnstablePlain()
    ensures '%' !in JenkinsUnstable
  {
  }

  function WithJenkins(c: Clause, envType: string, envName: string): Clause {
    if envType == "ci" && envName == "jenkins" then Then(c, Lit(JenkinsUnstable)) else c
  }

  /** What follows the report options: the suite unless every suite is
      run, then the environment file name when that file exists; on
      Jenkins the pattern ends with the exit code 1 guard. */
  lemma TailArgs(c: Clause, suite: string, envFileExists: bool, envFileName: string, envType: string, envName: string)
    ensures var r := WithJenkins(WithEnvFile(WithRun(c, suite), envFileExists, envFileName), envType, envName);
      && Args(r) == Args(c) + (if suite == "all" then [] else [Quoted(suite)])
                            + (if envFileExists then [Quoted(envFileName)] else [])
      && (WellFormed(c) ==> WellFormed(r))
  {
    var run := Then(c, Lit(" run"));
    ThenLit(c, " run");
    if suite != "all" {
      ThenLit(run, " ");
      ThenArg(Then(run, Lit(" ")), Quoted(suite));
    }
    var withRun := WithRun(c, suite);
    if envFileExists {
      ThenLit(withRun, " --env ");
      ThenArg(Then(withRun, Lit(" --env ")), Quoted(envFileName));
    }
    var withEnv := WithEnvFile(withRun, envFileExists, envFileName);
    ThenLit(withEnv, JenkinsUnstable);
    JenkinsUnstablePlain();
  }

  // -----------------------------------------------------------------------
  // One run

  /** What a run depends on besides the suite and the executable. The log
      and environment directories come from the Codeception configuration
      and `envFileExists` stands for `file_exists`. */
  datatype RunContext = RunContext(
    envType: string,
    envName: string,
    binDir: string,
    logDir: string,
    envDir: string,
    envFileExists: string -> bool)

  /** `getLogDir`: the configured log path unless it is empty. */
  function LogDir(logPath: Option<string>): (r: string)
    ensures logPath.Some? && Truthy(logPath.value) ==> r == logPath.value
    ensures !(logPath.Some? && Truthy(logPath.value)) ==> r == "tests/_log"
  {
    if logPath.Some? && Truthy(logPath.value) then logPath.value else "tests/_log"
  }

  function EnvFileName(ctx: RunContext): string {
    ctx.envType + "." + ctx.envName
  }

  function EnvFilePath(ctx: RunContext): string {
    ctx.envDir + "/" + EnvFileName(ctx) + ".yml"
  }

  function VarsOf(php: PhpExecutable): EnvVars {
    if php.envVars.Some? then php.envVars.value else []
  }

  /** The directories to create and the command to run for one suite with
      one executable; the process also gets the executable's variables. */
  datatype CommandPlan = CommandPlan(mkdirs: seq<string>, command: Clause, processEnv: Option<EnvVars>)

  function SuitePlan(ctx: RunContext, suite: string, php: PhpExecutable): (r: CommandPlan)
    // the process gets `$php['envVars'] ?? null`
    ensures r.processEnv == php.envVars
    // every report directory is made inside the log directory
    ensures forall d :: d in r.mkdirs ==> StartsWith(d, ctx.logDir + "/")
  {
    var flags := ReportFlags(ctx.envType);
    FlagDirectoriesUnderLogDir(flags, ctx.logDir, suite);
    var command :=
      WithJenkins(
        WithEnvFile(
          WithRun(
            WithFlags(WithExecutable(EnvVarsClause(VarsOf(php)), php.command, ctx.binDir), flags, suite),
            suite),
          ctx.envFileExists(EnvFilePath(ctx)), EnvFileName(ctx)),
        ctx.envType, ctx.envName);
    CommandPlan(FlagDirectories(flags, ctx.logDir, suite), command, php.envVars)
  }

  /** `vsprintf` gets exactly as many arguments as the pattern has
      placeholders, as long as no variable name holds a `%`. */
  lemma PlaceholdersMatchArguments(ctx: RunContext, suite: string, php: PhpExecutable)
    requires forall i :: 0 <= i < |VarsOf(php)| ==> '%' !in VarsOf(php)[i].0
    ensures var c := SuitePlan(ctx, suite, php).command;
            Count(Pattern(c), '%') == |Args(c)|
  {
    var vars := VarsOf(php);
    var exec := WithExecutable(EnvVarsClause(vars), php.command, ctx.binDir);
    EnvVarsClauseArgs(vars);
    WithExecutableArgs(EnvVarsClause(vars), php.command, ctx.binDir);
    WithFlagsArgs(exec, ReportFlags(ctx.envType), suite);
    TailArgs(WithFlags(exec, ReportFlags(ctx.envType), suite), suite,
             ctx.envFileExists(EnvFilePath(ctx)), EnvFileName(ctx), ctx.envType, ctx.envName);
    PatternMatchesArguments(SuitePlan(ctx, suite, php).command);
  }

  /** The arguments are the variables' values, the executable, codecept,
      one quoted report path per flag, the suite unless it is "all", and
      the environment file name when that file exists. */
  lemma SuitePlanArguments(ctx: RunContext, suite: string, php: PhpExecutable)
    ensures Args(SuitePlan(ctx, suite, php).command)
         == EnvVarValues(VarsOf(php))
            + [Verbatim(php.command), CommandEscaped(ctx.binDir + "/codecept")]
            + FlagArgs(ReportFlags(ctx.envType), suite)
            + (if suite == "all" then [] else [Quoted(suite)])
            + (if ctx.envFileExists(EnvFilePath(ctx)) then [Quoted(EnvFileName(ctx))] else [])
  {
    var vars := VarsOf(php);
    var exec := WithExecutable(EnvVarsClause(vars), php.command, ctx.binDir);
    EnvVarsClauseArgs(vars);
    WithExecutableArgs(EnvVarsClause(vars), php.command, ctx.binDir);
    WithFlagsArgs(exec, ReportFlags(ctx.envType), suite);
    TailArgs(WithFlags(exec, ReportFlags(ctx.envType), suite), suite,
             ctx.envFileExists(EnvFilePath(ctx)), EnvFileName(ctx), ctx.envType, ctx.envName);
  }

  /** The report options of a developer machine, one after the other. */
  lemma DevFlags(c: Clause, suite: string)
    ensures WithFlags(c, [CoverageHtml, Coverage, JunitHtml], suite)
         == WithFlag(WithFlag(WithFlag(c, CoverageHtml, suite), Coverage, suite), JunitHtml, suite)
  {
    var flags := [CoverageHtml, Coverage, JunitHtml];
    assert flags[..2][..1][..0] == [];
    assert flags[..2][..1] == [CoverageHtml];
    assert flags[..2] == [CoverageHtml, Coverage];
    assert WithFlags(c, flags[..2][..1], suite) == WithFlag(c, CoverageHtml, suite);
    assert WithFlags(c, flags[..2], suite) == WithFlag(WithFlag(c, CoverageHtml, suite), Coverage, suite);
  }

  /** The report options on CI, one after the other. */
  lemma CiFlags(c: Clause, suite: string)
    ensures WithFlags(c, [CoverageXml, Coverage, JunitXml], suite)
         == WithFlag(WithFlag(WithFlag(c, CoverageXml, suite), Coverage, suite), JunitXml, suite)
  {
    var flags := [CoverageXml, Coverage, JunitXml];
    assert flags[..2][..1][..0] == [];
    assert flags[..2][..1] == [CoverageXml];
    assert flags[..2] == [CoverageXml, Coverage];
    assert WithFlags(c, flags[..2][..1], suite) == WithFlag(c, CoverageXml, suite);
    assert WithFlags(c, flags[..2], suite) == WithFlag(WithFlag(c, CoverageXml, suite), Coverage, suite);
  }

  /** The report directories are made exactly for the flags that write
      into them: on a developer machine the HTML coverage, serialized
      coverage and HTML JUnit directories, on CI the serialized coverage
      and XML JUnit directories, and none elsewhere. */
  lemma SuitePlanDirectories(ctx: RunContext, suite: string, php: PhpExecutable)
    ensures SuitePlan(ctx, suite, php).mkdirs
         == if ctx.envType == "dev" then
              [ctx.logDir + "/human/coverage/" + suite, ctx.logDir + "/machine/coverage/" + suite, ctx.logDir + "/human/junit"]
            else if ctx.envType == "ci" then
              [ctx.logDir + "/machine/coverage/" + suite, ctx.logDir + "/machine/junit"]
            else []
  {
    if ctx.envType == "dev" {
      DevDirectories(ctx.logDir, suite);
    } else if ctx.envType == "ci" {
      CiDirectories(ctx.logDir, suite);
    }
  }

  lemma DevDirectories(logDir: string, suite: string)
    ensures FlagDirectories([CoverageHtml, Coverage, JunitHtml], logDir, suite)
         == [logDir + "/human/coverage/" + suite, logDir + "/machine/coverage/" + suite, logDir + "/human/junit"]
  {
    var flags := [CoverageHtml, Coverage, JunitHtml];
    assert flags[..2][..1] == [CoverageHtml];
    assert flags[..2][..1][..0] == [];
    assert flags[..2] == [CoverageHtml, Coverage];
    assert FlagDirectories(flags[..2][..1], logDir, suite) == [logDir + "/human/coverage/" + suite];
    assert FlagDirectories(flags[..2], logDir, suite) == [logDir + "/human/coverage/" + suite, logDir + "/machine/coverage/" + suite];
  }

  lemma CiDirectories(logDir: string, suite: string)
    ensures FlagDirectories([CoverageXml, Coverage, JunitXml], logDir, suite)
         == [logDir + "/machine/coverage/" + suite, logDir + "/machine/junit"]
  {
    var flags := [CoverageXml, Coverage, JunitXml];
    assert flags[..2][..1] == [CoverageXml];
    assert flags[..2][..1][..0] == [];
    assert flags[..2] == [CoverageXml, Coverage];
    assert FlagDirectories(flags[..2][..1], logDir, suite) == [];
    assert FlagDirectories(flags[..2], logDir, suite) == [logDir + "/machine/coverage/" + suite];
  }

  // -----------------------------------------------------------------------
  // Fan-out

  /** `getTaskCodeceptRunSuites` runs every suite when none is named. */
  function EffectiveSuites(suiteNames: seq<string>): (r: seq<string>)
    ensures r != []
    ensures suiteNames != [] ==> r == suiteNames
  {
    if suiteNames == [] then ["all"] else suiteNames
  }

  /** The runs for one suite, one per executable. */
  function SuiteRuns(suite: string, executables: seq<PhpExecutable>): (r: seq<(string, PhpExecutable)>)
    ensures |r| == |executables|
    ensures forall j :: 0 <= j < |executables| ==> r[j] == (suite, executables[j])
  {
    if executables == [] then []
    else SuiteRuns(suite, executables[..|executables| - 1]) + [(suite, executables[|executables| - 1])]
  }

  /** The (suite, executable) runs of `getTaskCodeceptRunSuites`, suite-major. */
  function Runs(suites: seq<string>, executables: seq<PhpExecutable>): seq<(string, PhpExecutable)> {
    if suites == [] then []
    else Runs(suites[..|suites| - 1], executables) + SuiteRuns(suites[|suites| - 1], executables)
  }

  /** Every suite is paired with every executable. */
  lemma {:induction false} RunsLength(suites: seq<string>, executables: seq<PhpExecutable>)
    ensures |Runs(suites, executables)| == |suites| * |executables|
  {
    if suites != [] {
      var init := suites[..|suites| - 1];
      RunsLength(init, executables);
      assert |suites| * |executables| == |init| * |executables| + |executables|;
    }
  }

  /** Run `i * |executables| + j` is suite `i` with executable `j`. */
  lemma {:induction false} RunsIndex(suites: seq<string>, executables: seq<PhpExecutable>, i: nat, j: nat)
    requires i < |suites| && j < |executables|
    ensures i * |executables| + j < |Runs(suites, executables)|
    ensures Runs(suites, executables)[i * |executables| + j] == (suites[i], executables[j])
  {
    var init := suites[..|suites| - 1];
    var m := |executables|;
    RunsLength(suites, executables);
    RunsLength(init, executables);
    assert |suites| * m == |init| * m + m;
    if i < |init| {
      RunsIndex(init, executables, i, j);
    } else {
      assert i * m == |init| * m;
    }
  }

  /** What a run turns into: its directories, its command and its process
      environment. */
  type Planner = (string, PhpExecutable) -> CommandPlan

  /** The planner of a context: `SuitePlan` with that context. */
  function RunPlanner(ctx: RunContext): Planner {
    (suite, php) => SuitePlan(ctx, suite, php)
  }

  /** The plan of every run, in order. */
  function Plans(planner: Planner, runs: seq<(string, PhpExecutable)>): (r: seq<CommandPlan>)
    ensures |r| == |runs|
  {
    if runs == [] then []
    else Plans(planner, runs[..|runs| - 1]) + [planner(runs[|runs| - 1].0, runs[|runs| - 1].1)]
  }

  lemma {:induction false} PlansIndex(planner: Planner, runs: seq<(string, PhpExecutable)>, k: nat)
    requires k < |runs|
    ensures Plans(planner, runs)[k] == planner(runs[k].0, runs[k].1)
  {
    if k < |runs| - 1 {
      PlansIndex(planner, runs[..|runs| - 1], k);
    }
  }

  lemma PlansSnoc(planner: Planner, runs: seq<(string, PhpExecutable)>, run: (string, PhpExecutable))
    ensures Plans(planner, runs + [run]) == Plans(planner, runs) + [planner(run.0, run.1)]
  {
    assert (runs + [run])[..|runs|] == runs;
  }

  lemma {:induction false} PlansAppend(planner: Planner, a: seq<(string, PhpExecutable)>, b: seq<(string, PhpExecutable)>)
    ensures Plans(planner, a + b) == Plans(planner, a) + Plans(planner, b)
  {
    if b == [] {
      assert a + b == a;
    } else {
      var init, last := b[..|b| - 1], b[|b| - 1];
      assert a + b == (a + init) + [last];
      PlansSnoc(planner, a + init, last);
      PlansSnoc(planner, init, last);
      PlansAppend(planner, a, init);
    }
  }

  /** Under any planner, plan `i * |executables| + j` is the plan of suite
      `i` with executable `j`. */
  lemma PlansOfRunsIndex(planner: Planner, suites: seq<string>, executables: seq<PhpExecutable>, i: nat, j: nat, k: nat)
    requires i < |suites| && j < |executables| && k == i * |executables| + j
    ensures k < |Plans(planner, Runs(suites, executables))|
    ensures Plans(planner, Runs(suites, executables))[k] == planner(suites[i], executables[j])
  {
    RunsIndex(suites, executables, i, j);
    PlansIndex(planner, Runs(suites, executables), k);
  }

  /** `getTaskCodeceptRunSuites` makes one task per suite and enabled
      executable, suite-major: task `i * |executables| + j` runs suite `i`
      with executable `j`. */
  lemma FanOutIndex(ctx: RunContext, suites: seq<string>, executables: seq<PhpExecutable>, i: nat, j: nat, k: nat)
    requires i < |suites| && j < |executables| && k == i * |executables| + j
    ensures k < |Plans(RunPlanner(ctx), Runs(suites, executables))|
    ensures Plans(RunPlanner(ctx), Runs(suites, executables))[k] == SuitePlan(ctx, suites[i], executables[j])
  {
    PlansOfRunsIndex(RunPlanner(ctx), suites, executables, i, j, k);
  }

  // -----------------------------------------------------------------------
  // Suite names

  /** `explode('.', $basename)[0]` of every suite file. */
  function FirstSegments(basenames: seq<string>): (r: seq<string>)
    ensures |r| == |basenames|
    ensures forall i :: 0 <= i < |r| ==> r[i] == FirstSegment(basenames[i], '.')
  {
    if basenames == [] then []
    else FirstSegments(basenames[..|basenames| - 1]) + [FirstSegment(basenames[|basenames| - 1], '.')]
  }

  /** The suite names of the `*.suite.yml` and `*.suite.dist.yml` files:
      a suite with both files is named once. */
  function SuiteNamesOf(basenames: seq<string>): (r: seq<string>)
    ensures NoDuplicates(r)
    ensures forall n :: n in r <==> exists i :: 0 <= i < |basenames| && n == FirstSegment(basenames[i], '.')
    ensures forall n :: n in r ==> '.' !in n
  {
    var segments := FirstSegments(basenames);
    assert forall n :: n in segments <==> exists i :: 0 <= i < |basenames| && n == FirstSegment(basenames[i], '.') by {
      forall n | n in segments
        ensures exists i :: 0 <= i < |basenames| && n == FirstSegment(basenames[i], '.')
      {
        var i :| 0 <= i < |segments| && segments[i] == n;
      }
    }
    Unique(segments)
  }

  /** `\InvalidArgumentException($message, $code)`. */
  datatype InvalidArgument = InvalidArgument(message: string, code: int)

  const InvalidSuiteNamesMessage := "The following Codeception suite names are invalid: "

  /** `validateArgCodeceptionSuiteNames` against the known suite names. */
  function SuiteNamesCheck(suiteNames: seq<string>, known: seq<string>): (r: Outcome<InvalidArgument>)
    ensures r.Pass? <==> forall n :: n in suiteNames ==> n in known
    ensures r.Fail? ==>
      && r.error.code == 1
      && r.error.message == InvalidSuiteNamesMessage + Join(Without(suiteNames, known), ", ")
      && Without(suiteNames, known) != []
  {
    if suiteNames == [] then Pass
    else
      var invalid := Without(suiteNames, known);
      assert invalid != [] ==> invalid[0] in invalid;
      if invalid == [] then Pass
      else Fail(InvalidArgument(InvalidSuiteNamesMessage + Join(invalid, ", "), 1))
  }

  /** A suite name that is not known fails the check, and the message
      names it. */
  lemma InvalidSuiteNameReported(suiteNames: seq<string>, known: seq<string>, name: string)
    requires name in suiteNames && name !in known
    ensures SuiteNamesCheck(suiteNames, known).Fail?
    ensures Contains(SuiteNamesCheck(suiteNames, known).error.message, name)
  {
    var invalid := Without(suiteNames, known);
    var i :| 0 <= i < |invalid| && invalid[i] == name;
    JoinContains(invalid, ", ", i);
    ContainsAfter(InvalidSuiteNamesMessage, Join(invalid, ", "), name);
  }

  // -----------------------------------------------------------------------
  // Process output

  datatype Channel = StdOut | StdErr

  /** Where `getProcessCallback`'s callback writes a chunk of the given
      Symfony process output type ("out" or "err"), or None when it drops
      it. */
  function ProcessCallbackTarget(outputType: string, hideStdOutput: bool, hideStdError: bool): (r: Option<Channel>)
    ensures r == Some(StdOut) <==> outputType == "out" && !hideStdOutput
    ensures r == Some(StdErr) <==> outputType == "err" && !hideStdError
  {
    if (outputType == "out" && hideStdOutput) || (outputType == "err" && hideStdError) then None
    else if outputType == "out" then Some(StdOut)
    else if outputType == "err" then Some(StdErr)
    else None
  }
}
