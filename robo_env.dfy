/** How the RoboFile names its own environment variables and decides the
    environment type and name it runs in. The process environment is an input:
    `getenv($name)` returns `false` exactly when `name` is not a key. */
module RoboEnv {
  import opened Php

  type Env = map<string, string>

  /** `(string) getenv($name)`: "" when the variable is not set. */
  function GetEnv(env: Env, name: string): string {
    if name in env then env[name] else ""
  }

  /** `getenv($name) === $value`. */
  predicate EnvIs(env: Env, name: string, value: string) {
    name in env && env[name] == value
  }

  /** `strtoupper(str_replace('-', '_', $packageName))`. */
  function EnvVarNamePrefix(packageName: string): (r: string)
    ensures |r| == |packageName|
    ensures forall i :: 0 <= i < |r| ==>
      r[i] == (if packageName[i] == '-' then '_' else UpperChar(packageName[i]))
    ensures '-' !in r
    ensures forall c :: c in r ==> !('a' <= c <= 'z')
  {
    ToUpper(ReplaceChar(packageName, '-', '_'))
  }

  /** `"{$prefix}_" . strtoupper($name)`. */
  function EnvVarName(prefix: string, name: string): (r: string)
    ensures |r| == |prefix| + 1 + |name|
    ensures StartsWith(r, prefix + "_")
    ensures r[|prefix| + 1..] == ToUpper(name)
  {
    prefix + "_" + ToUpper(name)
  }

  datatype Environment = Environment(envType: string, envName: string)

  /** The explicitly configured type, `<PREFIX>_ENVIRONMENT_TYPE`. */
  function GivenType(env: Env, prefix: string): string {
    GetEnv(env, EnvVarName(prefix, "environment_type"))
  }

  /** The explicitly configured name, `<PREFIX>_ENVIRONMENT_NAME`. */
  function GivenName(env: Env, prefix: string): string {
    GetEnv(env, EnvVarName(prefix, "environment_name"))
  }

  /** The CI vendor named by its own marker variable, GitLab first, then
      Travis, then CircleCI. */
  function CiVendor(env: Env): (r: Option<string>)
    ensures r == Some("gitlab") <==> EnvIs(env, "GITLAB_CI", "true")
    ensures r == Some("travis") <==> !EnvIs(env, "GITLAB_CI", "true") && EnvIs(env, "TRAVIS", "true")
    ensures r == Some("circle") <==>
      !EnvIs(env, "GITLAB_CI", "true") && !EnvIs(env, "TRAVIS", "true") && EnvIs(env, "CIRCLECI", "true")
    ensures r.None? || r.value in {"gitlab", "travis", "circle"}
  {
    if EnvIs(env, "GITLAB_CI", "true") then Some("gitlab")
    else if EnvIs(env, "TRAVIS", "true") then Some("travis")
    else if EnvIs(env, "CIRCLECI", "true") then Some("circle")
    else None
  }

  /** The environment the RoboFile settles on, as a decision table over the
      process environment. `prefix` is the RoboFile's own variable prefix. */
  function EnvironmentOf(env: Env, prefix: string): (r: Environment)
    // both are always set afterwards
    ensures Truthy(r.envType) && Truthy(r.envName)
    // an explicitly configured type or name is kept
    ensures Truthy(GivenType(env, prefix))
            ==> r.envType == GivenType(env, prefix)
    ensures Truthy(GivenName(env, prefix))
            ==> r.envName == GivenName(env, prefix)
    // outside CI an unnamed environment is "local"
    ensures !Truthy(GivenName(env, prefix)) && r.envType != "ci" ==> r.envName == "local"
  {
    assert Truthy("ci") && Truthy("dev") && Truthy("jenkins") && Truthy("local");
    assert Truthy("gitlab") && Truthy("travis") && Truthy("circle");
    var givenType := GivenType(env, prefix);
    var givenName := GivenName(env, prefix);
    var ciFlag := EnvIs(env, "CI", "true");
    var jenkinsHome := Truthy(GetEnv(env, "JENKINS_HOME"));
    var envType :=
      if Truthy(givenType) then givenType
      else if ciFlag || jenkinsHome then "ci"
      else "dev";
    var envName :=
      if Truthy(givenName) then givenName
      else if !Truthy(givenType) && !ciFlag && jenkinsHome then "jenkins"
      else if envType == "ci" && CiVendor(env).Some? then CiVendor(env).value
      else "local";
    Environment(envType, envName)
  }

  /** Without an explicit type, CI=true or a set JENKINS_HOME mean "ci" and
      anything else "dev". */
  lemma EnvironmentTypeDetection(env: Env, prefix: string)
    requires !Truthy(GivenType(env, prefix))
    ensures EnvironmentOf(env, prefix).envType
         == if EnvIs(env, "CI", "true") || Truthy(GetEnv(env, "JENKINS_HOME")) then "ci" else "dev"
  {
  }

  /** Jenkins is recognised through JENKINS_HOME when CI is not "true", and
      then names itself unless a name was configured. */
  lemma JenkinsDetection(env: Env, prefix: string)
    requires !Truthy(GivenType(env, prefix)) && !EnvIs(env, "CI", "true")
    requires Truthy(GetEnv(env, "JENKINS_HOME"))
    ensures EnvironmentOf(env, prefix).envType == "ci"
    ensures EnvironmentOf(env, prefix).envName
         == if Truthy(GivenName(env, prefix)) then GivenName(env, prefix) else "jenkins"
  {
  }

  /** An unnamed "ci" environment outside Jenkins takes the name of the first
      vendor marker set (GitLab, Travis, CircleCI), or else "local". */
  lemma CiVendorNaming(env: Env, prefix: string)
    requires EnvironmentOf(env, prefix).envType == "ci"
    requires !Truthy(GivenName(env, prefix))
    requires Truthy(GivenType(env, prefix)) || EnvIs(env, "CI", "true") || !Truthy(GetEnv(env, "JENKINS_HOME"))
    ensures EnvironmentOf(env, prefix).envName
         == if CiVendor(env).Some? then CiVendor(env).value else "local"
  {
  }
}
