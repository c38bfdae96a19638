/** The types of the composer-lock-diff library that the tasks pass around.
    The diff algorithm itself belongs to that library and is not part of this
    model: a LockDiffer is an uninterpreted function of its four inputs. */
module LockDiff {
  import opened Php

  /** A decoded composer.lock or composer.json document (`?array`). */
  type Doc = map<string, Mixed>

  /** One row of a lock diff, as the library reports it. */
  datatype LockDiffEntry = LockDiffEntry(
    name: string,
    versionBefore: string,
    versionAfter: string,
    requiredBefore: string,
    requiredAfter: string,
    directBefore: string,
    directAfter: string)

  type Entries = seq<LockDiffEntry>

  /** `LockDiffer::diff($leftLock, $rightLock, $leftJson, $rightJson)`. */
  type DiffFunction = (Option<Doc>, Option<Doc>, Option<Doc>, Option<Doc>) -> Entries

  /** A LockDiffer object; what it computes is given by `diff`. */
  datatype LockDiffer = LockDiffer(diff: DiffFunction)
}
