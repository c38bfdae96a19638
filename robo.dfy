/** The RoboFile object: the state its constructor sets up (environment
    variable prefix, environment type and name) and the commands modelled
    on top of it (the prepare-commit-msg hook and the Codeception runs).

    What the PHP reads from disk or from the configuration at run time is
    given to the constructor or to the method that needs it: the package
    name and bin directory from composer.json, the Codeception `paths`
    section, `php.executables`, the process environment, the suite file
    basenames and `file_exists`. */
module Robo {
  import opened Php
  import RoboEnv
  import RoboGitHook
  import opened RoboCodecept

  /** The `paths` section of the merged Codeception configuration; a
      missing key is None. */
  datatype CodeceptionPaths = CodeceptionPaths(log: Option<string>, envs: Option<string>)

  /** `"$envDir/..."` with an unset `paths.envs` interpolates as "". */
  function EnvDir(paths: CodeceptionPaths): string {
    if paths.envs.Some? then paths.envs.value else ""
  }

  class RoboFile {
    const packageName: string
    const binDir: string
    const codeceptionPaths: CodeceptionPaths
    const phpExecutables: seq<(string, PhpExecutable)>
    var gitHook: string
    var envVarNamePrefix: string
    var environmentType: string
    var environmentName: string
    var codeceptionSuiteNames: seq<string>

    constructor (packageName: string, binDir: string, codeceptionPaths: CodeceptionPaths,
                 phpExecutables: seq<(string, PhpExecutable)>, env: RoboEnv.Env)
      ensures this.packageName == packageName && this.binDir == binDir
      ensures this.codeceptionPaths == codeceptionPaths && this.phpExecutables == phpExecutables
      ensures gitHook == "" && codeceptionSuiteNames == []
      ensures envVarNamePrefix == RoboEnv.EnvVarNamePrefix(packageName)
      ensures RoboEnv.Environment(environmentType, environmentName)
           == RoboEnv.EnvironmentOf(env, RoboEnv.EnvVarNamePrefix(packageName))
    {
      this.packageName := packageName;
      this.binDir := binDir;
      this.codeceptionPaths := codeceptionPaths;
      this.phpExecutables := phpExecutables;
      gitHook := "";
      envVarNamePrefix := "";
      environmentType := "";
      environmentName := "";
      codeceptionSuiteNames := [];
      new;
      InitEnvVarNamePrefix();
      InitEnvironmentTypeAndName(env);
    }

    method InitEnvVarNamePrefix()
      modifies this`envVarNamePrefix
      ensures envVarNamePrefix == RoboEnv.EnvVarNamePrefix(packageName)
    {
      envVarNamePrefix := ToUpper(ReplaceChar(packageName, '-', '_'));
    }

    function GetEnvVarName(name: string): (r: string)
      reads this
      ensures StartsWith(r, envVarNamePrefix + "_")
      ensures r[|envVarNamePrefix| + 1..] == ToUpper(name)
    {
      RoboEnv.EnvVarName(envVarNamePrefix, name)
    }

    /** Settles the environment type and name the way the decision table
        `EnvironmentOf` describes. */
    method InitEnvironmentTypeAndName(env: RoboEnv.Env)
      modifies this`environmentType, this`environmentName
      ensures RoboEnv.Environment(environmentType, environmentName) == RoboEnv.EnvironmentOf(env, envVarNamePrefix)
    {
      environmentType := RoboEnv.GetEnv(env, GetEnvVarName("environment_type"));
      environmentName := RoboEnv.GetEnv(env, GetEnvVarName("environment_name"));

      if !Truthy(environmentType) {
        if RoboEnv.EnvIs(env, "CI", "true") {
          environmentType := "ci";
        } else if Truthy(RoboEnv.GetEnv(env, "JENKINS_HOME")) {
          environmentType := "ci";
          if !Truthy(environmentName) {
            environmentName := "jenkins";
          }
        }
      }

      if !Truthy(environmentName) && environmentType == "ci" {
        if RoboEnv.EnvIs(env, "GITLAB_CI", "true") {
          environmentName := "gitlab";
        } else if RoboEnv.EnvIs(env, "TRAVIS", "true") {
          environmentName := "travis";
        } else if RoboEnv.EnvIs(env, "CIRCLECI", "true") {
          environmentName := "circle";
        }
      }

      if !Truthy(environmentType) {
        environmentType := "dev";
      }

      if !Truthy(environmentName) {
        environmentName := "local";
      }
    }

    /** The path patterns the hook lists staged files for; None for merge
        and squash commits, which are left alone. */
    method CmdGithookPrepareCommitMsgExecute(msgSource: string, env: RoboEnv.Env) returns (paths: Option<seq<string>>)
      modifies this`gitHook
      ensures paths == RoboGitHook.PrepareCommitMsgPaths(msgSource, env)
      ensures gitHook == if paths.None? then old(gitHook) else "prepare-commit-msg"
    {
      if msgSource == "merge" || msgSource == "squash" {
        return None;
      }
      gitHook := "prepare-commit-msg";
      var composer := RoboEnv.GetEnv(env, "COMPOSER");
      var composerJson := RoboGitHook.StripLeadingDotSlash(if Truthy(composer) then composer else "./composer.json");
      var composerLock := RoboGitHook.JsonToLock(composerJson);
      paths := Some(Unique([
        "composer.json",
        "composer.lock",
        composerJson,
        composerLock,
        "composer.*.json",
        "composer.*.lock"]));
    }

    // ---------------------------------------------------------------------
    // Codeception

    function GetLogDir(): (r: string)
      reads this
      ensures codeceptionPaths.log.Some? && Truthy(codeceptionPaths.log.value) ==> r == codeceptionPaths.log.value
      ensures !(codeceptionPaths.log.Some? && Truthy(codeceptionPaths.log.value)) ==> r == "tests/_log"
    {
      LogDir(codeceptionPaths.log)
    }

    /** What every run of this RoboFile shares. */
    function Context(envFileExists: string -> bool): RunContext
      reads this
    {
      RunContext(environmentType, environmentName, binDir, GetLogDir(), EnvDir(codeceptionPaths), envFileExists)
    }

    function GetEnabledPhpExecutables(): (r: seq<(string, PhpExecutable)>)
      reads this
      ensures forall p :: p in r <==> p in phpExecutables && IsEnabled(p.1)
    {
      EnabledPhpExecutables(phpExecutables)
    }

    /** Builds the pattern and its arguments piece by piece and collects
        the report directories to create. */
    method GetTaskCodeceptRunSuite(suite: string, php: PhpExecutable, envFileExists: string -> bool)
      returns (plan: CommandPlan)
      ensures plan == SuitePlan(Context(envFileExists), suite, php)
    {
      var withCoverageHtml := environmentType == "dev";
      var withCoverageXml := environmentType == "ci";
      var withUnitReportHtml := environmentType == "dev";
      var withUnitReportXml := environmentType == "ci";
      var logDir := GetLogDir();

      var cmd := Empty;
      var vars := VarsOf(php);
      var i := 0;
      while i < |vars|
        invariant 0 <= i <= |vars|
        invariant cmd == EnvVarsClause(vars[..i])
      {
        var (envName, envValue) := vars[i];
        assert vars[..i + 1][..i] == vars[..i];
        cmd := Then(cmd, Lit(envName));
        if envValue.None? {
          cmd := Then(cmd, Lit(" "));
        } else {
          cmd := Then(Then(Then(cmd, Lit("=")), Arg(Quoted(envValue.value))), Lit(" "));
        }
        i := i + 1;
      }
      assert vars[..|vars|] == vars;

      cmd := Then(cmd, Arg(Verbatim(php.command)));
      cmd := Then(Then(cmd, Lit(" ")), Arg(CommandEscaped(binDir + "/codecept")));
      cmd := Then(cmd, Lit(" --ansi"));
      cmd := Then(cmd, Lit(" --verbose"));
      cmd := Then(cmd, Lit(" --debug"));

      var beforeFlags := cmd;
      var mkdirs: seq<string> := [];
      if withCoverageHtml {
        cmd := Then(Then(cmd, Lit(" --coverage-html=")), Arg(Quoted("human/coverage/" + suite + "/html")));
        mkdirs := mkdirs + [logDir + "/human/coverage/" + suite];
      }

      if withCoverageXml {
        cmd := Then(Then(cmd, Lit(" --coverage-xml=")), Arg(Quoted("machine/coverage/" + suite + "/coverage.xml")));
      }

      if withCoverageHtml || withCoverageXml {
        cmd := Then(Then(cmd, Lit(" --coverage=")), Arg(Quoted("machine/coverage/" + suite + "/coverage.serialized")));
        mkdirs := mkdirs + [logDir + "/machine/coverage/" + suite];
      }

      if withUnitReportHtml {
        cmd := Then(Then(cmd, Lit(" --html=")), Arg(Quoted("human/junit/junit." + suite + ".html")));
        mkdirs := mkdirs + [logDir + "/human/junit"];
      }

      if withUnitReportXml {
        cmd := Then(Then(cmd, Lit(" --xml=")), Arg(Quoted("machine/junit/junit." + suite + ".xml")));
        mkdirs := mkdirs + [logDir + "/machine/junit"];
      }
      if environmentType == "dev" {
        DevFlags(beforeFlags, suite);
        DevDirectories(logDir, suite);
      } else if environmentType == "ci" {
        CiFlags(beforeFlags, suite);
        CiDirectories(logDir, suite);
      }
      assert cmd == WithFlags(beforeFlags, ReportFlags(environmentType), suite);
      assert mkdirs == FlagDirectories(ReportFlags(environmentType), logDir, suite);

      cmd := Then(cmd, Lit(" run"));
      if suite != "all" {
        cmd := Then(Then(cmd, Lit(" ")), Arg(Quoted(suite)));
      }
      assert cmd == WithRun(WithFlags(beforeFlags, ReportFlags(environmentType), suite), suite);

      var envDir := EnvDir(codeceptionPaths);
      var envFileName := environmentType + "." + environmentName;
      if envFileExists(envDir + "/" + envFileName + ".yml") {
        cmd := Then(Then(cmd, Lit(" --env ")), Arg(Quoted(envFileName)));
      }

      if environmentType == "ci" && environmentName == "jenkins" {
        cmd := Then(cmd, Lit(JenkinsUnstable));
      }

      plan := CommandPlan(mkdirs, cmd, php.envVars);
    }

    /** The tasks of one suite: one per executable, in order. */
    method AddSuiteTasks(plans: seq<CommandPlan>, suite: string, executables: seq<PhpExecutable>,
                         envFileExists: string -> bool)
      returns (added: seq<CommandPlan>)
      ensures added == plans + Plans(RunPlanner(Context(envFileExists)), SuiteRuns(suite, executables))
    {
      ghost var ctx := Context(envFileExists);
      added := plans;
      var j := 0;
      while j < |executables|
        invariant 0 <= j <= |executables|
        invariant added == plans + Plans(RunPlanner(ctx), SuiteRuns(suite, executables[..j]))
      {
        var plan := GetTaskCodeceptRunSuite(suite, executables[j], envFileExists);
        RunStep(RunPlanner(ctx), plans, suite, executables, j, added, plan);
        added := added + [plan];
        j := j + 1;
      }
      assert executables[..j] == executables;
    }

    /** One task per suite and enabled executable, suite-major; no suite
        names means every suite. */
    method GetTaskCodeceptRunSuites(suiteNames: seq<string>, envFileExists: string -> bool)
      returns (plans: seq<CommandPlan>)
      ensures plans == Plans(RunPlanner(Context(envFileExists)),
                             Runs(EffectiveSuites(suiteNames), Values(GetEnabledPhpExecutables())))
    {
      var suites := suiteNames;
      if suites == [] {
        suites := ["all"];
      }
      assert suites == EffectiveSuites(suiteNames);
      var executables := Values(GetEnabledPhpExecutables());
      ghost var planner := RunPlanner(Context(envFileExists));
      plans := [];
      var i := 0;
      while i < |suites|
        invariant 0 <= i <= |suites|
        invariant plans == Plans(planner, Runs(suites[..i], executables))
      {
        plans := AddSuiteTasks(plans, suites[i], executables, envFileExists);
        SuiteStep(planner, suites, executables, i);
        i := i + 1;
      }
      assert suites[..|suites|] == suites;
    }

    /** `getCodeceptionSuiteNames`: computed from the suite files once and
        then kept; `suiteFiles` are the basenames the directory scan finds. */
    method GetCodeceptionSuiteNames(suiteFiles: seq<string>) returns (names: seq<string>)
      modifies this`codeceptionSuiteNames
      ensures old(codeceptionSuiteNames) != [] ==> codeceptionSuiteNames == old(codeceptionSuiteNames)
      ensures old(codeceptionSuiteNames) == [] ==> codeceptionSuiteNames == SuiteNamesOf(suiteFiles)
      ensures names == codeceptionSuiteNames
    {
      if codeceptionSuiteNames == [] {
        var i := 0;
        while i < |suiteFiles|
          invariant 0 <= i <= |suiteFiles|
          invariant codeceptionSuiteNames == FirstSegments(suiteFiles[..i])
        {
          assert suiteFiles[..i + 1][..i] == suiteFiles[..i];
          codeceptionSuiteNames := codeceptionSuiteNames + [FirstSegment(suiteFiles[i], '.')];
          i := i + 1;
        }
        assert suiteFiles[..|suiteFiles|] == suiteFiles;
        codeceptionSuiteNames := Unique(codeceptionSuiteNames);
      }
      names := codeceptionSuiteNames;
    }

    /** An empty list is accepted without looking at the suite files;
        otherwise every name must be a known suite. */
    method ValidateArgCodeceptionSuiteNames(suiteNames: seq<string>, suiteFiles: seq<string>)
      returns (outcome: Outcome<InvalidArgument>)
      modifies this`codeceptionSuiteNames
      ensures suiteNames == [] ==> outcome == Pass && codeceptionSuiteNames == old(codeceptionSuiteNames)
      ensures suiteNames != [] ==>
        codeceptionSuiteNames == if old(codeceptionSuiteNames) != [] then old(codeceptionSuiteNames) else SuiteNamesOf(suiteFiles)
      ensures outcome == SuiteNamesCheck(suiteNames, codeceptionSuiteNames)
    {
      if suiteNames == [] {
        return Pass;
      }
      var known := GetCodeceptionSuiteNames(suiteFiles);
      var invalidSuiteNames := Without(suiteNames, known);
      if invalidSuiteNames != [] {
        return Fail(InvalidArgument(InvalidSuiteNamesMessage + Join(invalidSuiteNames, ", "), 1));
      }
      outcome := Pass;
    }

    /** The `test` command: validate the suite names, then plan the runs. */
    method Test(suiteNames: seq<string>, suiteFiles: seq<string>, envFileExists: string -> bool)
      returns (result: Result<seq<CommandPlan>, InvalidArgument>)
      modifies this`codeceptionSuiteNames
      ensures suiteNames == [] ==> codeceptionSuiteNames == old(codeceptionSuiteNames)
      ensures suiteNames != [] ==>
        codeceptionSuiteNames == if old(codeceptionSuiteNames) != [] then old(codeceptionSuiteNames) else SuiteNamesOf(suiteFiles)
      ensures result.Err? <==> SuiteNamesCheck(suiteNames, codeceptionSuiteNames).Fail?
      ensures result.Err? ==> result.error == SuiteNamesCheck(suiteNames, codeceptionSuiteNames).error
      ensures result.Ok? ==> result.value == Plans(RunPlanner(Context(envFileExists)),
                               Runs(EffectiveSuites(suiteNames), Values(GetEnabledPhpExecutables())))
    {
      var outcome := ValidateArgCodeceptionSuiteNames(suiteNames, suiteFiles);
      if outcome.Fail? {
        return Err(outcome.error);
      }
      var plans := GetTaskCodeceptRunSuites(suiteNames, envFileExists);
      result := Ok(plans);
    }
  }

  /** The inner loop of `getTaskCodeceptRunSuites` adds the plan of one
      more executable. */
  lemma RunStep(planner: Planner, before: seq<CommandPlan>,
                suite: string, executables: seq<PhpExecutable>, j: nat,
                plans: seq<CommandPlan>, plan: CommandPlan)
    requires j < |executables|
    requires plans == before + Plans(planner, SuiteRuns(suite, executables[..j]))
    requires plan == planner(suite, executables[j])
    ensures plans + [plan] == before + Plans(planner, SuiteRuns(suite, executables[..j + 1]))
  {
    assert executables[..j + 1][..j] == executables[..j];
    PlansSnoc(planner, SuiteRuns(suite, executables[..j]), (suite, executables[j]));
  }

  /** The outer loop adds the plans of one more suite. */
  lemma SuiteStep(planner: Planner, suites: seq<string>, executables: seq<PhpExecutable>, i: nat)
    requires i < |suites|
    ensures Plans(planner, Runs(suites[..i + 1], executables))
         == Plans(planner, Runs(suites[..i], executables)) + Plans(planner, SuiteRuns(suites[i], executables))
  {
    assert suites[..i + 1][..i] == suites[..i];
    PlansAppend(planner, Runs(suites[..i], executables), SuiteRuns(suites[i], executables));
  }
}
