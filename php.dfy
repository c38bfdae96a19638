/** PHP value semantics that the tasks and the RoboFile rely on: truthiness,
    `empty()`, and the string and array built-ins they call. */
module Php {

  datatype Option<+T> = None | Some(value: T)

  datatype Outcome<+E> = Pass | Fail(error: E)

  datatype Result<+T, +E> = Ok(value: T) | Err(error: E)

  /** A PHP value as decoded from JSON or read from configuration.
      Floats and integer array keys are not modelled. */
  datatype Mixed =
    | Null
    | Bool(b: bool)
    | Int(i: int)
    | Str(s: string)
    | Arr(items: map<string, Mixed>)

  /** `(bool) $s` for a string: only "" and "0" are false. */
  predicate Truthy(s: string) {
    s != "" && s != "0"
  }

  /** `!$v` / `empty($v)` for a defined value. */
  predicate Falsy(v: Mixed) {
    match v
    case Null => true
    case Bool(b) => !b
    case Int(i) => i == 0
    case Str(s) => !Truthy(s)
    case Arr(items) => items == map[]
  }

  /** `empty($a[$key])`: a missing key counts as empty. */
  predicate EmptyAt(a: map<string, Mixed>, key: string) {
    key !in a || Falsy(a[key])
  }

  // ---------------------------------------------------------------------
  // Strings

  predicate StartsWith(s: string, prefix: string) {
    |prefix| <= |s| && s[..|prefix|] == prefix
  }

  /** `str_ends_with($s, $suffix)`. */
  predicate EndsWith(s: string, suffix: string) {
    |suffix| <= |s| && s[|s| - |suffix|..] == suffix
  }

  /** `strtoupper` on one character: ASCII letters only, as in PHP 8.2 and later
      or under the C locale. */
  function UpperChar(c: char): char {
    if 'a' <= c <= 'z' then (c as int - 32) as char else c
  }

  /** `strtoupper($s)`. */
  function ToUpper(s: string): (r: string)
    ensures |r| == |s|
    ensures forall i :: 0 <= i < |s| ==> r[i] == UpperChar(s[i])
  {
    seq(|s|, i requires 0 <= i < |s| => UpperChar(s[i]))
  }

  /** `str_replace($from, $to, $s)` for single-character needles. */
  function ReplaceChar(s: string, from: char, to: char): (r: string)
    ensures |r| == |s|
    ensures forall i :: 0 <= i < |s| ==> r[i] == (if s[i] == from then to else s[i])
  {
    seq(|s|, i requires 0 <= i < |s| => if s[i] == from then to else s[i])
  }

  /** `explode($sep, $s)[0]`: everything before the first separator. */
  function FirstSegment(s: string, sep: char): (r: string)
    ensures StartsWith(s, r)
    ensures sep !in r
    ensures |r| < |s| ==> s[|r|] == sep
  {
    if s == [] || s[0] == sep then [] else [s[0]] + FirstSegment(s[1..], sep)
  }

  /** `implode($glue, $parts)`. */
  function Join(parts: seq<string>, glue: string): string {
    if parts == [] then ""
    else if |parts| == 1 then parts[0]
    else parts[0] + glue + Join(parts[1..], glue)
  }

  /** Number of occurrences of `c` in `s`. */
  function Count(s: string, c: char): nat {
    if s == [] then 0 else (if s[0] == c then 1 else 0) + Count(s[1..], c)
  }

  lemma {:induction false} CountAppend(a: string, b: string, c: char)
    ensures Count(a + b, c) == Count(a, c) + Count(b, c)
  {
    if a != [] {
      assert (a + b)[1..] == a[1..] + b;
      CountAppend(a[1..], b, c);
    } else {
      assert a + b == b;
    }
  }

  lemma {:induction false} CountAbsent(s: string, c: char)
    requires c !in s
    ensures Count(s, c) == 0
  {
    if s != [] {
      assert s[0] != c;
      CountAbsent(s[1..], c);
    }
  }

  /** `str_contains($s, $part)`. */
  predicate Contains(s: string, part: string)
    decreases |s|
  {
    StartsWith(s, part) || (s != [] && Contains(s[1..], part))
  }

  lemma {:induction false} ContainsAfter(a: string, b: string, part: string)
    requires Contains(b, part)
    ensures Contains(a + b, part)
  {
    if a != [] {
      assert (a + b)[1..] == a[1..] + b;
      ContainsAfter(a[1..], b, part);
    } else {
      assert a + b == b;
    }
  }

  /** Every part is spelled out in the joined string. */
  lemma {:induction false} JoinContains(parts: seq<string>, glue: string, i: nat)
    requires i < |parts|
    ensures Contains(Join(parts, glue), parts[i])
  {
    var s := Join(parts, glue);
    if i == 0 {
      if |parts| > 1 {
        assert s == parts[0] + (glue + Join(parts[1..], glue));
        assert s[..|parts[0]|] == parts[0];
      }
      assert StartsWith(s, parts[0]);
    } else {
      JoinContains(parts[1..], glue, i - 1);
      assert s == (parts[0] + glue) + Join(parts[1..], glue);
      ContainsAfter(parts[0] + glue, Join(parts[1..], glue), parts[i]);
    }
  }

  // ---------------------------------------------------------------------
  // Arrays

  predicate NoDuplicates(s: seq<string>) {
    forall i, j :: 0 <= i < j < |s| ==> s[i] != s[j]
  }

  /** `array_unique($s)` on a list: the first occurrence of each value is kept,
      later repetitions are dropped, the order of what is kept is unchanged. */
  function Unique(s: seq<string>): (r: seq<string>)
    ensures NoDuplicates(r)
    ensures forall x :: x in r <==> x in s
    ensures |r| <= |s|
    ensures s != [] ==> r != [] && r[0] == s[0]
  {
    if s == [] then []
    else
      var init := Unique(s[..|s| - 1]);
      var last := s[|s| - 1];
      assert forall x :: x in s <==> x in s[..|s| - 1] || x == last;
      if last in s[..|s| - 1] then init else init + [last]
  }

  /** Appending a value to a list appends it to the unique values unless it
      was already there. */
  lemma UniqueSnoc(s: seq<string>, x: string)
    ensures Unique(s + [x]) == if x in s then Unique(s) else Unique(s) + [x]
  {
    assert (s + [x])[..|s|] == s;
  }

  /** `array_unique` read front to back: a value is kept when it has not been
      seen before, so what is kept appears in the order of its first
      occurrence. */
  function KeepUnseen(s: seq<string>, seen: set<string>): seq<string> {
    if s == [] then []
    else if s[0] in seen then KeepUnseen(s[1..], seen)
    else [s[0]] + KeepUnseen(s[1..], seen + {s[0]})
  }

  lemma {:induction false} KeepUnseenSnoc(s: seq<string>, x: string, seen: set<string>)
    ensures KeepUnseen(s + [x], seen)
         == KeepUnseen(s, seen) + (if x in seen || x in s then [] else [x])
  {
    if s == [] {
      assert s + [x] == [x];
    } else {
      assert (s + [x])[1..] == s[1..] + [x];
      assert x in s <==> x == s[0] || x in s[1..];
      if s[0] in seen {
        KeepUnseenSnoc(s[1..], x, seen);
      } else {
        KeepUnseenSnoc(s[1..], x, seen + {s[0]});
      }
    }
  }

  /** `Unique` keeps exactly the first occurrence of every value, in the
      order of those first occurrences. */
  lemma {:induction false} UniqueKeepsFirstOccurrences(s: seq<string>)
    ensures Unique(s) == KeepUnseen(s, {})
  {
    if s != [] {
      var init, last := s[..|s| - 1], s[|s| - 1];
      UniqueKeepsFirstOccurrences(init);
      KeepUnseenSnoc(init, last, {});
      assert init + [last] == s;
    }
  }

  /** `array_diff($s, $known)` on lists: the values of `s` not in `known`,
      repetitions and order kept. */
  function Without(s: seq<string>, known: seq<string>): (r: seq<string>)
    ensures forall x :: x in r <==> x in s && x !in known
    ensures |r| <= |s|
    ensures |r| == |s| <==> forall x :: x in s ==> x !in known
  {
    if s == [] then []
    else if s[0] in known then Without(s[1..], known)
    else [s[0]] + Without(s[1..], known)
  }

  /** A PHP array with string keys and insertion order, as a list of pairs. */
  function Lookup<V>(a: seq<(string, V)>, k: string): Option<V> {
    if a == [] then None else if a[0].0 == k then Some(a[0].1) else Lookup(a[1..], k)
  }

  /** `array_keys($a)`. */
  function Keys<V>(a: seq<(string, V)>): (r: seq<string>)
    ensures |r| == |a|
    ensures forall i :: 0 <= i < |a| ==> r[i] == a[i].0
  {
    if a == [] then [] else [a[0].0] + Keys(a[1..])
  }

  /** `$a[$k] = $v`: an existing key keeps its position and gets the new value,
      a new key is appended. */
  function ArraySet<V>(a: seq<(string, V)>, k: string, v: V): (r: seq<(string, V)>)
    ensures forall j :: Lookup(r, j) == if j == k then Some(v) else Lookup(a, j)
    ensures Keys(r) == if k in Keys(a) then Keys(a) else Keys(a) + [k]
  {
    if a == [] then [(k, v)]
    else if a[0].0 == k then [(k, v)] + a[1..]
    else
      [a[0]] + ArraySet(a[1..], k, v)
  }
}
