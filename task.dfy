/** The Robo tasks of the package: the shared BaseTask (options, result code
    and message, prefixed asset names, task context), the LockDifferTask that
    runs a LockDiffer over two lock/json pairs, and the ReportTask.

    PHP inheritance becomes composition here: each concrete task owns the
    BaseTask object that holds the inherited state, in its `base` field. */
module Task {
  import opened Php
  import opened LockDiff

  const BaseTaskName := "Composer Lock Diff"
  const LockDifferTaskName := "Composer Lock Diff - LockDiffer"
  const ReportTaskName := "Composer Lock Diff - Report"

  /** The asset LockDifferTask::runDoIt writes. */
  const EntriesAssetName := "composer_lock_differ.entries"

  /** The options array passed to `setOptions`. A key that is present in the
      array is `Some(v)`; for a nullable option an explicit null is `Some(None)`. */
  datatype Options = Options(
    assetNamePrefix: Option<string>,
    lockDiffer: Option<Option<LockDiffer>>,
    leftLock: Option<Option<Doc>>,
    rightLock: Option<Option<Doc>>,
    leftJson: Option<Option<Doc>>,
    rightJson: Option<Option<Doc>>)

  /** The effect of `if (array_key_exists($key, $options)) { $this->setX($options[$key]); }`. */
  function Pick<T>(option: Option<T>, current: T): T {
    if option.Some? then option.value else current
  }

  /** `Robo\Result`: exit code, message and data. */
  datatype TaskResult<V> = TaskResult(exitCode: int, message: string, data: map<string, V>)

  /** The asset names and values `getAssetsWithPrefixedNames` returns. */
  function PrefixedAssets<V>(prefix: string, assets: map<string, V>): (r: map<string, V>)
    ensures !Truthy(prefix) ==> r == assets
    ensures Truthy(prefix) ==>
      forall k :: k in assets ==> prefix + k in r && r[prefix + k] == assets[k]
    ensures Truthy(prefix) ==>
      forall k :: k in r ==> StartsWith(k, prefix) && k[|prefix|..] in assets
  {
    if !Truthy(prefix) then assets
    else
      PrefixInjective(prefix);
      map k | k in assets :: prefix + k := assets[k]
  }

  /** Distinct names stay distinct once prefixed. */
  lemma PrefixInjective(prefix: string)
    ensures forall a, b {:trigger prefix + a, prefix + b} :: prefix + a == prefix + b ==> a == b
  {
    forall a, b | prefix + a == prefix + b ensures a == b {
      assert a == (prefix + a)[|prefix|..];
      assert b == (prefix + b)[|prefix|..];
    }
  }

  /** The prefix actually put in front of asset names. */
  function EffectivePrefix(prefix: string): string {
    if Truthy(prefix) then prefix else ""
  }

  lemma {:induction false} PrefixImageSize(prefix: string, keys: set<string>)
    ensures |set k | k in keys :: prefix + k| == |keys|
    decreases keys
  {
    if keys != {} {
      var x :| x in keys;
      var rest := keys - {x};
      PrefixImageSize(prefix, rest);
      var image := set k | k in rest :: prefix + k;
      assert (set k | k in keys :: prefix + k) == image + {prefix + x};
      PrefixInjective(prefix);
      assert prefix + x !in image;
    }
  }

  /** Prefixing asset names neither merges nor invents assets: the result has
      exactly as many entries as the task's assets. */
  lemma PrefixedAssetsCount<V>(prefix: string, assets: map<string, V>)
    ensures |PrefixedAssets(prefix, assets)| == |assets|
  {
    if Truthy(prefix) {
      var r := PrefixedAssets(prefix, assets);
      assert r.Keys == set k | k in assets.Keys :: prefix + k;
      PrefixImageSize(prefix, assets.Keys);
    }
  }

  /** With a truthy prefix, the asset stored under `k` is returned under
      `prefix + k` and under no other name; with a falsy prefix, under `k`. */
  lemma PrefixedAssetLookup<V>(prefix: string, assets: map<string, V>, k: string)
    ensures (EffectivePrefix(prefix) + k in PrefixedAssets(prefix, assets)) <==> k in assets
    ensures k in assets ==> PrefixedAssets(prefix, assets)[EffectivePrefix(prefix) + k] == assets[k]
  {
    if !Truthy(prefix) {
      assert EffectivePrefix(prefix) + k == k;
    } else if prefix + k in PrefixedAssets(prefix, assets) {
      assert (prefix + k)[|prefix|..] == k;
    }
  }

  /** One loop step of getAssetsWithPrefixedNames: adding asset `k`. */
  lemma PrefixedAssetsAdd<V>(prefix: string, assets: map<string, V>, todo: set<string>, k: string)
    requires Truthy(prefix) && k in assets && k !in todo
    ensures PrefixedAssets(prefix, assets - todo)
         == PrefixedAssets(prefix, assets - (todo + {k}))[prefix + k := assets[k]]
  {
    var lhs := PrefixedAssets(prefix, assets - todo);
    var rhs := PrefixedAssets(prefix, assets - (todo + {k}))[prefix + k := assets[k]];
    forall key | key in lhs ensures key in rhs && lhs[key] == rhs[key] {
      var j := key[|prefix|..];
      assert key == prefix + j;
    }
    forall key | key in rhs ensures key in lhs {
      if key != prefix + k {
        var j := key[|prefix|..];
        assert key == prefix + j;
      }
    }
  }

  class BaseTask<V> {
    const taskName: string
    var assets: map<string, V>
    var assetNamePrefix: string
    var taskResultCode: int
    var taskResultMessage: string

    constructor (taskName: string)
      ensures this.taskName == taskName
      ensures assets == map[] && assetNamePrefix == ""
      ensures taskResultCode == 0 && taskResultMessage == ""
    {
      this.taskName := taskName;
      assets := map[];
      assetNamePrefix := "";
      taskResultCode := 0;
      taskResultMessage := "";
    }

    function GetAssetNamePrefix(): string
      reads this
    {
      assetNamePrefix
    }

    method SetAssetNamePrefix(value: string)
      modifies this`assetNamePrefix
      ensures GetAssetNamePrefix() == value
    {
      assetNamePrefix := value;
    }

    /** Only the `assetNamePrefix` key is read here. */
    method SetOptions(options: Options)
      modifies this`assetNamePrefix
      ensures assetNamePrefix == Pick(options.assetNamePrefix, old(assetNamePrefix))
    {
      if options.assetNamePrefix.Some? {
        SetAssetNamePrefix(options.assetNamePrefix.value);
      }
    }

    method RunInit()
      modifies this`taskResultCode, this`taskResultMessage
      ensures taskResultCode == 0 && taskResultMessage == ""
    {
      taskResultCode := 0;
      taskResultMessage := "";
    }

    method GetAssetsWithPrefixedNames() returns (r: map<string, V>)
      ensures r == PrefixedAssets(assetNamePrefix, assets)
    {
      var prefix := GetAssetNamePrefix();
      if !Truthy(prefix) {
        return assets;
      }
      r := map[];
      var todo := assets.Keys;
      while todo != {}
        invariant todo <= assets.Keys
        invariant r == PrefixedAssets(prefix, assets - todo)
        decreases todo
      {
        var k :| k in todo;
        r := r[prefix + k := assets[k]];
        todo := todo - {k};
        PrefixedAssetsAdd(prefix, assets, todo, k);
      }
      assert assets - todo == assets;
    }

    method RunReturn() returns (result: TaskResult<V>)
      ensures result == TaskResult(taskResultCode, taskResultMessage, PrefixedAssets(assetNamePrefix, assets))
    {
      var data := GetAssetsWithPrefixedNames();
      result := TaskResult(taskResultCode, taskResultMessage, data);
    }

    /** `getTaskName()`; `formatted` stands for `TaskInfo::formatTaskName($this)`. */
    function GetTaskName(formatted: string): (r: string)
      ensures Truthy(taskName) ==> r == taskName
      ensures !Truthy(taskName) ==> r == formatted
    {
      if Truthy(taskName) then taskName else formatted
    }

    /** The context this class hands on to the parent's `getTaskContext`. */
    function GetTaskContext(context: Option<map<string, Mixed>>, formatted: string): (r: map<string, Mixed>)
      ensures "name" in r
      ensures forall k :: k != "name" ==> (k in r <==> context.Some? && k in context.value)
      ensures forall k :: k != "name" && k in r ==> r[k] == context.value[k]
      ensures context.Some? && !EmptyAt(context.value, "name") ==> r["name"] == context.value["name"]
      ensures (context.None? || EmptyAt(context.value, "name")) ==> r["name"] == Str(GetTaskName(formatted))
    {
      var c := if context.Some? then context.value else map[];
      if EmptyAt(c, "name") then c["name" := Str(GetTaskName(formatted))] else c
    }
  }

  /** LockDifferTask's configuration: the inherited prefix and its five nullable fields. */
  datatype LockDifferSettings = LockDifferSettings(
    assetNamePrefix: string,
    lockDiffer: Option<LockDiffer>,
    leftLock: Option<Doc>,
    rightLock: Option<Doc>,
    leftJson: Option<Doc>,
    rightJson: Option<Doc>)

  class LockDifferTask {
    const base: BaseTask<Entries>
    /** What `new LockDiffer()` produces. */
    const defaultDiffer: LockDiffer
    var lockDiffer: Option<LockDiffer>
    var leftLock: Option<Doc>
    var rightLock: Option<Doc>
    var leftJson: Option<Doc>
    var rightJson: Option<Doc>

    ghost function Settings(): LockDifferSettings
      reads this, base
    {
      LockDifferSettings(base.assetNamePrefix, lockDiffer, leftLock, rightLock, leftJson, rightJson)
    }

    constructor (defaultDiffer: LockDiffer)
      ensures fresh(base) && base.taskName == LockDifferTaskName
      ensures this.defaultDiffer == defaultDiffer
      ensures Settings() == LockDifferSettings("", None, None, None, None, None)
      ensures base.assets == map[] && base.taskResultCode == 0 && base.taskResultMessage == ""
    {
      base := new BaseTask(LockDifferTaskName);
      this.defaultDiffer := defaultDiffer;
      lockDiffer, leftLock, rightLock, leftJson, rightJson := None, None, None, None, None;
    }

    function GetLockDiffer(): Option<LockDiffer> reads this { lockDiffer }
    function GetLeftLock(): Option<Doc> reads this { leftLock }
    function GetRightLock(): Option<Doc> reads this { rightLock }
    function GetLeftJson(): Option<Doc> reads this { leftJson }
    function GetRightJson(): Option<Doc> reads this { rightJson }

    method SetLockDiffer(value: Option<LockDiffer>)
      modifies this`lockDiffer
      ensures GetLockDiffer() == value
      ensures Settings() == old(Settings()).(lockDiffer := value)
    {
      lockDiffer := value;
    }

    method SetLeftLock(value: Option<Doc>)
      modifies this`leftLock
      ensures GetLeftLock() == value
      ensures Settings() == old(Settings()).(leftLock := value)
    {
      leftLock := value;
    }

    method SetRightLock(value: Option<Doc>)
      modifies this`rightLock
      ensures GetRightLock() == value
      ensures Settings() == old(Settings()).(rightLock := value)
    {
      rightLock := value;
    }

    method SetLeftJson(value: Option<Doc>)
      modifies this`leftJson
      ensures GetLeftJson() == value
      ensures Settings() == old(Settings()).(leftJson := value)
    {
      leftJson := value;
    }

    method SetRightJson(value: Option<Doc>)
      modifies this`rightJson
      ensures GetRightJson() == value
      ensures Settings() == old(Settings()).(rightJson := value)
    {
      rightJson := value;
    }

    /** Exactly the options whose keys are present are applied; a present key
        whose value is null clears its field. */
    method SetOptions(options: Options)
      modifies base`assetNamePrefix, this`lockDiffer, this`leftLock, this`rightLock, this`leftJson, this`rightJson
      ensures Settings() == LockDifferSettings(
        Pick(options.assetNamePrefix, old(base.assetNamePrefix)),
        Pick(options.lockDiffer, old(lockDiffer)),
        Pick(options.leftLock, old(leftLock)),
        Pick(options.rightLock, old(rightLock)),
        Pick(options.leftJson, old(leftJson)),
        Pick(options.rightJson, old(rightJson)))
    {
      base.SetOptions(options);
      if options.lockDiffer.Some? {
        SetLockDiffer(options.lockDiffer.value);
      }
      if options.leftLock.Some? {
        SetLeftLock(options.leftLock.value);
      }
      if options.rightLock.Some? {
        SetRightLock(options.rightLock.value);
      }
      if options.leftJson.Some? {
        SetLeftJson(options.leftJson.value);
      }
      if options.rightJson.Some? {
        SetRightJson(options.rightJson.value);
      }
    }

    /** The configured LockDiffer, or a fresh default one when none is set. */
    function ActiveDiffer(): (d: LockDiffer)
      reads this
      ensures lockDiffer.Some? ==> d == lockDiffer.value
      ensures lockDiffer.None? ==> d == defaultDiffer
    {
      if lockDiffer.Some? then lockDiffer.value else defaultDiffer
    }

    /** The entries the configured inputs produce, in the argument order
        left lock, right lock, left json, right json. */
    ghost function Entries(): Entries
      reads this
    {
      ActiveDiffer().diff(leftLock, rightLock, leftJson, rightJson)
    }

    method RunDoIt()
      modifies base`assets
      ensures base.assets == old(base.assets)[EntriesAssetName := Entries()]
    {
      var differ := ActiveDiffer();
      base.assets := base.assets[EntriesAssetName := differ.diff(GetLeftLock(), GetRightLock(), GetLeftJson(), GetRightJson())];
    }

    method Run() returns (result: TaskResult<Entries>)
      modifies base`assets, base`taskResultCode, base`taskResultMessage
      ensures base.assets == old(base.assets)[EntriesAssetName := Entries()]
      ensures result.exitCode == 0 && result.message == ""
      ensures result.data == PrefixedAssets(base.assetNamePrefix, base.assets)
      ensures base.taskResultCode == 0 && base.taskResultMessage == ""
      ensures |result.data| == |base.assets|
      ensures EffectivePrefix(base.assetNamePrefix) + EntriesAssetName in result.data
      ensures result.data[EffectivePrefix(base.assetNamePrefix) + EntriesAssetName] == Entries()
    {
      base.RunInit();
      RunDoIt();
      result := base.RunReturn();
      PrefixedAssetsCount(base.assetNamePrefix, base.assets);
      PrefixedAssetLookup(base.assetNamePrefix, base.assets, EntriesAssetName);
    }
  }

  class ReportTask<V> {
    const base: BaseTask<V>

    constructor ()
      ensures fresh(base) && base.taskName == ReportTaskName
      ensures base.assets == map[] && base.assetNamePrefix == ""
      ensures base.taskResultCode == 0 && base.taskResultMessage == ""
    {
      base := new BaseTask(ReportTaskName);
    }

    /** `runDoIt` does nothing, so a run always succeeds with the assets as they are. */
    method Run() returns (result: TaskResult<V>)
      modifies base`taskResultCode, base`taskResultMessage
      ensures result.exitCode == 0 && result.message == ""
      ensures result.data == PrefixedAssets(base.assetNamePrefix, base.assets)
      ensures base.taskResultCode == 0 && base.taskResultMessage == ""
    {
      base.RunInit();
      result := base.RunReturn();
    }
  }
}
