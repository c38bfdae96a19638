/** The prepare-commit-msg git hook of the RoboFile: which staged paths it
    looks at, and which staged lock files it diffs. Reading a file from git
    and decoding JSON are inputs (`GitShow`, `JsonDecode`). */
module RoboGitHook {
  import opened Php
  import opened LockDiff
  import RoboEnv

  /** `preg_replace('@^\./@', '', $s)`. */
  function StripLeadingDotSlash(s: string): (r: string)
    ensures StartsWith(s, "./") ==> "./" + r == s
    ensures !StartsWith(s, "./") ==> r == s
  {
    if StartsWith(s, "./") then s[2..] else s
  }

  /** `preg_replace('@\.json$@', '.lock', $s)`. Without the D modifier PCRE's
      `$` also matches just before a final newline. */
  function JsonToLock(s: string): (r: string)
    ensures |r| == |s|
    ensures EndsWith(s, ".json") ==> EndsWith(r, ".lock") && r[..|s| - 5] == s[..|s| - 5]
    ensures !EndsWith(s, ".json") && EndsWith(s, ".json\n") ==>
      EndsWith(r, ".lock\n") && r[..|s| - 6] == s[..|s| - 6]
    ensures !EndsWith(s, ".json") && !EndsWith(s, ".json\n") ==> r == s
  {
    if EndsWith(s, ".json") then s[..|s| - 5] + ".lock"
    else if EndsWith(s, ".json\n") then s[..|s| - 6] + ".lock\n"
    else s
  }

  /** `getenv('COMPOSER') ?: './composer.json'` with a leading "./" removed. */
  function ComposerJsonPath(env: RoboEnv.Env): (r: string)
    ensures !Truthy(RoboEnv.GetEnv(env, "COMPOSER")) ==> r == "composer.json"
    ensures Truthy(RoboEnv.GetEnv(env, "COMPOSER")) && StartsWith(RoboEnv.GetEnv(env, "COMPOSER"), "./")
            ==> "./" + r == RoboEnv.GetEnv(env, "COMPOSER")
    ensures Truthy(RoboEnv.GetEnv(env, "COMPOSER")) && !StartsWith(RoboEnv.GetEnv(env, "COMPOSER"), "./")
            ==> r == RoboEnv.GetEnv(env, "COMPOSER")
  {
    assert StartsWith("./composer.json", "./");
    assert "./composer.json"[2..] == "composer.json";
    StripLeadingDotSlash(
      if Truthy(RoboEnv.GetEnv(env, "COMPOSER")) then RoboEnv.GetEnv(env, "COMPOSER") else "./composer.json")
  }

  /** The lock file next to the json file; a COMPOSER value that does not
      end in `.json` names the lock file too. */
  function ComposerLockPath(env: RoboEnv.Env): (r: string)
    ensures |r| == |ComposerJsonPath(env)|
    ensures EndsWith(ComposerJsonPath(env), ".json") ==> EndsWith(r, ".lock")
    ensures !EndsWith(ComposerJsonPath(env), ".json") && !EndsWith(ComposerJsonPath(env), ".json\n")
            ==> r == ComposerJsonPath(env)
  {
    JsonToLock(ComposerJsonPath(env))
  }

  /** The path patterns whose staged versions the hook lists. */
  function StagedPathPatterns(env: RoboEnv.Env): (r: seq<string>)
    ensures NoDuplicates(r)
    ensures 0 < |r| <= 6 && r[0] == "composer.json"
    ensures forall p :: p in r <==>
      p in {"composer.json", "composer.lock", ComposerJsonPath(env), ComposerLockPath(env),
            "composer.*.json", "composer.*.lock"}
  {
    Unique(["composer.json", "composer.lock", ComposerJsonPath(env), ComposerLockPath(env),
            "composer.*.json", "composer.*.lock"])
  }

  /** With COMPOSER unset (or set to the default path) the hook reads
      composer.json and composer.lock in the working directory. */
  lemma DefaultComposerPaths(env: RoboEnv.Env)
    requires RoboEnv.GetEnv(env, "COMPOSER") in {"", "0", "./composer.json", "composer.json"}
    ensures ComposerJsonPath(env) == "composer.json"
    ensures ComposerLockPath(env) == "composer.lock"
  {
    var json := "composer.json";
    assert StartsWith("./" + json, "./");
    assert ("./" + json)[2..] == json;
    assert json[..2] != "./" by { assert json[..2][0] == 'c'; }
    assert EndsWith(json, ".json");
    assert json[..|json| - 5] + ".lock" == "composer.lock";
  }

  /** With COMPOSER unset (or set to the default path) the hook lists the two
      default files and the two glob patterns, in that order. */
  lemma DefaultStagedPathPatterns(env: RoboEnv.Env)
    requires RoboEnv.GetEnv(env, "COMPOSER") in {"", "0", "./composer.json", "composer.json"}
    ensures StagedPathPatterns(env) == ["composer.json", "composer.lock", "composer.*.json", "composer.*.lock"]
  {
    DefaultComposerPaths(env);
    DefaultNamesDistinct();
    UniqueOfRepeatedPair("composer.json", "composer.lock", "composer.*.json", "composer.*.lock");
  }

  /** The four default names differ at index 9 ('j', 'l', '*', '*') or 11 ('s', 'o'). */
  lemma DefaultNamesDistinct()
    ensures "composer.json" != "composer.lock" && "composer.json" != "composer.*.json"
    ensures "composer.json" != "composer.*.lock" && "composer.lock" != "composer.*.json"
    ensures "composer.lock" != "composer.*.lock" && "composer.*.json" != "composer.*.lock"
  {
    var json, lock, jsonGlob, lockGlob := "composer.json", "composer.lock", "composer.*.json", "composer.*.lock";
    assert json[9] != lock[9] && json[9] != jsonGlob[9] && json[9] != lockGlob[9];
    assert lock[9] != jsonGlob[9] && lock[9] != lockGlob[9];
    assert jsonGlob[11] != lockGlob[11];
  }

  lemma UniquePair(a: string, b: string)
    requires a != b
    ensures Unique([a, b]) == [a, b]
  {
    UniqueSnoc([], a);
    assert [] + [a] == [a];
    UniqueSnoc([a], b);
    assert [a] + [b] == [a, b];
  }

  /** Appending values that are all already present changes nothing. */
  lemma {:induction false} UniqueAbsorb(s: seq<string>, t: seq<string>)
    requires forall x :: x in t ==> x in s
    ensures Unique(s + t) == Unique(s)
  {
    if t == [] {
      assert s + t == s;
    } else {
      var init, last := t[..|t| - 1], t[|t| - 1];
      UniqueAbsorb(s, init);
      assert s + t == (s + init) + [last];
      UniqueSnoc(s + init, last);
    }
  }

  lemma UniqueTwice(a: string, b: string)
    requires a != b
    ensures Unique([a, b, a, b]) == [a, b]
  {
    UniquePair(a, b);
    UniqueAbsorb([a, b], [a, b]);
    assert [a, b] + [a, b] == [a, b, a, b];
  }

  lemma UniqueOfRepeatedPair(a: string, b: string, c: string, d: string)
    requires a != b && a != c && a != d && b != c && b != d && c != d
    ensures Unique([a, b, a, b, c, d]) == [a, b, c, d]
  {
    UniqueTwice(a, b);
    UniqueSnoc([a, b, a, b], c);
    assert [a, b, a, b] + [c] == [a, b, a, b, c];
    UniqueSnoc([a, b, a, b, c], d);
    assert [a, b, a, b, c] + [d] == [a, b, a, b, c, d];
  }

  /** The lock path is the json path with its ".json" ending turned into ".lock". */
  lemma LockPathFollowsJsonPath(env: RoboEnv.Env)
    requires EndsWith(ComposerJsonPath(env), ".json")
    ensures var json := ComposerJsonPath(env);
            ComposerLockPath(env) == json[..|json| - 5] + ".lock"
  {
    var json := ComposerJsonPath(env);
    var lock := ComposerLockPath(env);
    assert lock == lock[..|lock| - 5] + lock[|lock| - 5..];
  }

  /** What `cmdGithookPrepareCommitMsgExecute` hands to the staged-files
      listing: nothing for merge and squash commits. */
  function PrepareCommitMsgPaths(msgSource: string, env: RoboEnv.Env): (r: Option<seq<string>>)
    ensures r.None? <==> msgSource == "merge" || msgSource == "squash"
    ensures r.Some? ==> r.value == StagedPathPatterns(env)
  {
    if msgSource == "merge" || msgSource == "squash" then None
    else Some(StagedPathPatterns(env))
  }

  // -----------------------------------------------------------------------
  // Diffing the staged lock files

  /** `git show $ref:$path`: the content, or None when git fails. */
  type GitShow = (string, string) -> Option<string>

  /** `json_decode($content, true)`. */
  type JsonDecode = string -> Option<Doc>

  /** `safeJsonDecode`: no content decodes to null. */
  function SafeJsonDecode(content: Option<string>, decode: JsonDecode): (r: Option<Doc>)
    ensures content.None? ==> r.None?
    ensures content.Some? ==> r == decode(content.value)
  {
    if content.None? then None else decode(content.value)
  }

  /** `mb_substr($fileName, 0, -mb_strlen('.lock'))`. */
  function LockId(fileName: string): (id: string)
    requires EndsWith(fileName, ".lock")
    ensures id + ".lock" == fileName
  {
    fileName[..|fileName| - 5]
  }

  /** The diff of one staged lock file: HEAD against the index, lock files
      first, then the json files next to them. */
  function LockFileDiff(fileName: string, differ: LockDiffer, show: GitShow, decode: JsonDecode): (r: Entries)
    requires EndsWith(fileName, ".lock")
    // the lock documents are the staged file itself, the json documents its sibling
    ensures r == differ.diff(
      SafeJsonDecode(show("HEAD", fileName), decode),
      SafeJsonDecode(show("", fileName), decode),
      SafeJsonDecode(show("HEAD", LockId(fileName) + ".json"), decode),
      SafeJsonDecode(show("", LockId(fileName) + ".json"), decode))
  {
    var id := LockId(fileName);
    differ.diff(
      SafeJsonDecode(show("HEAD", id + ".lock"), decode),
      SafeJsonDecode(show("", id + ".lock"), decode),
      SafeJsonDecode(show("HEAD", id + ".json"), decode),
      SafeJsonDecode(show("", id + ".json"), decode))
  }

  /** A staged file whose diff is recorded. */
  predicate Recorded(fileName: string, differ: LockDiffer, show: GitShow, decode: JsonDecode) {
    EndsWith(fileName, ".lock") && |LockFileDiff(fileName, differ, show, decode)| > 0
  }

  /** `$state['app.cld.entries_list']` after the loop has seen `files`. */
  function EntriesList(files: seq<string>, differ: LockDiffer, show: GitShow, decode: JsonDecode)
    : (r: seq<(string, Entries)>)
    ensures |r| <= |files|
    ensures forall k :: k in Keys(r) ==> k in files && EndsWith(k, ".lock")
  {
    if files == [] then []
    else
      var list := EntriesList(files[..|files| - 1], differ, show, decode);
      var f := files[|files| - 1];
      if Recorded(f, differ, show, decode) then ArraySet(list, f, LockFileDiff(f, differ, show, decode))
      else list
  }

  /** The loop of `getTaskGitHookPrepareCommitMsgMakeQuartets` handles one
      more file. */
  lemma EntriesListStep(files: seq<string>, i: nat, differ: LockDiffer, show: GitShow, decode: JsonDecode)
    requires i < |files|
    ensures EntriesList(files[..i + 1], differ, show, decode)
         == if Recorded(files[i], differ, show, decode)
            then ArraySet(EntriesList(files[..i], differ, show, decode), files[i], LockFileDiff(files[i], differ, show, decode))
            else EntriesList(files[..i], differ, show, decode)
  {
    assert files[..i + 1][..i] == files[..i];
  }

  /** A staged file has entries in the list exactly when it is a lock file
      with a non-empty diff, and then they are that diff. */
  lemma {:induction false} EntriesListLookup(files: seq<string>, differ: LockDiffer, show: GitShow, decode: JsonDecode, k: string)
    ensures Lookup(EntriesList(files, differ, show, decode), k)
         == if k in files && Recorded(k, differ, show, decode)
            then Some(LockFileDiff(k, differ, show, decode)) else None
  {
    if files != [] {
      var init := files[..|files| - 1];
      EntriesListLookup(init, differ, show, decode, k);
      assert files == init + [files[|files| - 1]];
    }
  }

  /** Every file appears at most once in the list. */
  lemma {:induction false} EntriesListKeysUnique(files: seq<string>, differ: LockDiffer, show: GitShow, decode: JsonDecode)
    ensures NoDuplicates(Keys(EntriesList(files, differ, show, decode)))
  {
    if files != [] {
      EntriesListKeysUnique(files[..|files| - 1], differ, show, decode);
    }
  }

  /** The callable task of `getTaskGitHookPrepareCommitMsgMakeQuartets`;
      `files` is `$state[$filesStateKey]`, None when that key is missing, and
      `defaultDiffer` is what `new LockDiffer()` produces. */
  method MakeQuartets(files: Option<seq<string>>, defaultDiffer: LockDiffer, show: GitShow, decode: JsonDecode)
    returns (entriesList: seq<(string, Entries)>, exitCode: int)
    ensures exitCode == 0
    ensures entriesList == EntriesList(if files.Some? then files.value else [], defaultDiffer, show, decode)
  {
    var items := if files.Some? then files.value else [];
    entriesList := [];
    var i := 0;
    while i < |items|
      invariant 0 <= i <= |items|
      invariant entriesList == EntriesList(items[..i], defaultDiffer, show, decode)
    {
      var fileName := items[i];
      EntriesListStep(items, i, defaultDiffer, show, decode);
      if EndsWith(fileName, ".lock") {
        var id := fileName[..|fileName| - 5];
        var entries := defaultDiffer.diff(
          SafeJsonDecode(show("HEAD", id + ".lock"), decode),
          SafeJsonDecode(show("", id + ".lock"), decode),
          SafeJsonDecode(show("HEAD", id + ".json"), decode),
          SafeJsonDecode(show("", id + ".json"), decode));
        assert entries == LockFileDiff(fileName, defaultDiffer, show, decode);
        if |entries| > 0 {
          entriesList := ArraySet(entriesList, fileName, entries);
        }
      }
      i := i + 1;
    }
    assert items[..|items|] == items;
    exitCode := 0;
  }
}
