/** The selection rule of `pickObjWithHighestFieldValue`: scan the records, reading the
    string at a field path (a missing field reads as '0'), and keep the first record whose
    value is strictly greater than the best seen so far, starting from '0'. */
module Selector {
  import opened Wrappers
  import opened Js
  import opened Strings

  /** The running maximum starts here, and a missing field reads as it. */
  const FLOOR: string := "0"

  /** The key `_.get` reads for a path: a `null` path is cast to the one-element path
      `[null]`, whose key is the string `'null'`. */
  function PathKey(path: Option<string>): string {
    if path.Some? then path.value else "null"
  }

  /** `_.get(val, fieldPath, '0')`. */
  function FieldOr0(rec: Record, path: Option<string>): string {
    if PathKey(path) in rec then rec[PathKey(path)] else FLOOR
  }

  /** `(currentLatest, latestIdx)` after the loop has visited the first `n` records. */
  function Scan(arr: seq<Record>, path: Option<string>, n: nat): (st: (string, int))
    requires n <= |arr|
    ensures -1 <= st.1 < n
    ensures st.1 == -1 ==> st.0 == FLOOR
    ensures st.1 >= 0 ==> st.0 == FieldOr0(arr[st.1], path)
  {
    if n == 0 then (FLOOR, -1)
    else
      var st := Scan(arr, path, n - 1);
      var testVal := FieldOr0(arr[n - 1], path);
      if Less(st.0, testVal) then (testVal, n - 1) else st
  }

  /** The index the loop ends with, -1 when no record was picked. */
  function HighestIndex(arr: seq<Record>, path: Option<string>): (k: int)
    ensures -1 <= k < |arr|
  {
    Scan(arr, path, |arr|).1
  }

  /** `_.get(arr, '[' + latestIdx + ']', null)`: the picked record, or `null` for index -1. */
  function Pick(arr: seq<Record>, path: Option<string>): Option<Record> {
    var k := HighestIndex(arr, path);
    if k == -1 then None else Some(arr[k])
  }

  /** What the selection promises: no index when no value exceeds '0'; otherwise an index
      whose value exceeds '0', is at least every other value, and is strictly greater than
      every earlier value (ties go to the earliest record). */
  ghost predicate IsHighest(arr: seq<Record>, path: Option<string>, k: int) {
    if k == -1 then
      forall j :: 0 <= j < |arr| ==> !Less(FLOOR, FieldOr0(arr[j], path))
    else
      && 0 <= k < |arr|
      && Less(FLOOR, FieldOr0(arr[k], path))
      && (forall j :: 0 <= j < |arr| ==>
            FieldOr0(arr[j], path) == FieldOr0(arr[k], path) || Less(FieldOr0(arr[j], path), FieldOr0(arr[k], path)))
      && (forall j :: 0 <= j < k ==> Less(FieldOr0(arr[j], path), FieldOr0(arr[k], path)))
  }

  /** The loop's invariant over the first `n` records. */
  lemma {:induction false} ScanInvariant(arr: seq<Record>, path: Option<string>, n: nat)
    requires n <= |arr|
    ensures var st := Scan(arr, path, n);
      && (st.1 == -1 ==> forall j :: 0 <= j < n ==> !Less(FLOOR, FieldOr0(arr[j], path)))
      && (st.1 >= 0 ==>
            && Less(FLOOR, st.0)
            && (forall j :: 0 <= j < n ==> !Less(st.0, FieldOr0(arr[j], path)))
            && (forall j :: 0 <= j < st.1 ==> Less(FieldOr0(arr[j], path), st.0)))
  {
    if n > 0 {
      ScanInvariant(arr, path, n - 1);
      var st := Scan(arr, path, n - 1);
      var v := FieldOr0(arr[n - 1], path);
      if Less(st.0, v) {
        forall j | 0 <= j < n
          ensures !Less(v, FieldOr0(arr[j], path))
        {
          var w := FieldOr0(arr[j], path);
          if j == n - 1 {
            LessIrreflexive(v);
          } else if Less(v, w) {
            LessTransitive(st.0, v, w);
          }
        }
        forall j | 0 <= j < n - 1
          ensures Less(FieldOr0(arr[j], path), v)
        {
          var w := FieldOr0(arr[j], path);
          if w != st.0 {
            LessTotal(w, st.0);
            LessTransitive(w, st.0, v);
          }
        }
        if st.1 >= 0 {
          LessTransitive(FLOOR, st.0, v);
        }
      }
    }
  }

  /** The index the loop ends with satisfies `IsHighest`. */
  lemma HighestIndexIsHighest(arr: seq<Record>, path: Option<string>)
    ensures IsHighest(arr, path, HighestIndex(arr, path))
  {
    var k := HighestIndex(arr, path);
    ScanInvariant(arr, path, |arr|);
    if k >= 0 {
      forall j | 0 <= j < |arr|
        ensures FieldOr0(arr[j], path) == FieldOr0(arr[k], path) || Less(FieldOr0(arr[j], path), FieldOr0(arr[k], path))
      {
        if FieldOr0(arr[j], path) != FieldOr0(arr[k], path) {
          LessTotal(FieldOr0(arr[j], path), FieldOr0(arr[k], path));
        }
      }
    }
  }

  /** `IsHighest` pins down one index, so the selection is fully specified by it. */
  lemma HighestIsUnique(arr: seq<Record>, path: Option<string>, k1: int, k2: int)
    requires IsHighest(arr, path, k1) && IsHighest(arr, path, k2)
    ensures k1 == k2
  {
    if k1 >= 0 && k2 >= 0 && k1 != k2 {
      var lo, hi := if k1 < k2 then k1 else k2, if k1 < k2 then k2 else k1;
      var a, b := FieldOr0(arr[lo], path), FieldOr0(arr[hi], path);
      assert Less(a, b);
      LessAsymmetric(a, b);
      LessIrreflexive(a);
      assert false;
    } else if k1 != k2 {
      assert false;
    }
  }

  /** The picked record, stated on the records themselves: `null` exactly when no value
      exceeds '0'; otherwise a member of `arr` whose value exceeds '0' and is at least
      every other value, and no earlier record carries an equal value. */
  lemma PickIsHighest(arr: seq<Record>, path: Option<string>)
    ensures Pick(arr, path).None? <==> forall j :: 0 <= j < |arr| ==> !Less(FLOOR, FieldOr0(arr[j], path))
    ensures Pick(arr, path).Some? ==>
              exists k :: 0 <= k < |arr| && arr[k] == Pick(arr, path).value && IsHighest(arr, path, k)
  {
    HighestIndexIsHighest(arr, path);
    var k := HighestIndex(arr, path);
    if k >= 0 {
      assert arr[k] == Pick(arr, path).value;
    }
  }

  /** Ties go to the earliest record: a later record with the same value is never picked. */
  lemma PickPrefersEarliest(arr: seq<Record>, path: Option<string>, i: nat, j: nat)
    requires i < j < |arr| && FieldOr0(arr[i], path) == FieldOr0(arr[j], path)
    ensures HighestIndex(arr, path) != j
  {
    HighestIndexIsHighest(arr, path);
    if HighestIndex(arr, path) == j {
      LessIrreflexive(FieldOr0(arr[j], path));
    }
  }

  /** A single record whose value exceeds '0' comes back unchanged. */
  lemma PickSingleton(rec: Record, path: Option<string>)
    requires Less(FLOOR, FieldOr0(rec, path))
    ensures Pick([rec], path) == Some(rec)
  {
  }

  /** `null` for an empty array, and when no record has the field the path reads (for a
      `null` path, the field `null`). */
  lemma PickNothing(arr: seq<Record>, path: Option<string>)
    requires |arr| == 0 || forall j :: 0 <= j < |arr| ==> PathKey(path) !in arr[j]
    ensures Pick(arr, path) == None
  {
    HighestIndexIsHighest(arr, path);
    if HighestIndex(arr, path) >= 0 {
      LessIrreflexive(FLOOR);
    }
  }

  /** A `null` path reads the field `null`: `[{someKey: 'someValue'}]` gives `null`, but a
      record whose `null` field exceeds '0' is picked. */
  lemma NullPathExample()
    ensures Pick([map["someKey" := "someValue"]], None) == None
    ensures Pick([map["null" := "5"]], None) == Some(map["null" := "5"])
  {
    PickNothing([map["someKey" := "someValue"]], None);
    LessAtFirstDifference(FLOOR, "5", 0);
    PickSingleton(map["null" := "5"], None);
  }

  /** The nested-field example: of values '1', '3', '2' at `key.key`, the '3' record wins. */
  lemma PickNestedExample()
    ensures var r1, r3, r2 := map["key.key" := "1"], map["key.key" := "3"], map["key.key" := "2"];
      Pick([r1, r3, r2], Some("key.key")) == Some(r3)
  {
    var r1, r3, r2 := map["key.key" := "1"], map["key.key" := "3"], map["key.key" := "2"];
    var arr := [r1, r3, r2];
    assert Scan(arr, Some("key.key"), 1) == ("1", 0);
    assert Scan(arr, Some("key.key"), 2) == ("3", 1);
    assert !Less("3", "2");
  }

  /** `pickObjWithHighestFieldValue`: the loop over `arr`, keeping the running maximum and
      its index; the record it returns is the one `Pick` specifies. */
  method PickObjWithHighestFieldValue(arr: seq<Record>, fieldPath: Option<string>) returns (r: Option<Record>)
    ensures r == Pick(arr, fieldPath)
  {
    var currentLatest := FLOOR;
    var latestIdx := -1;
    var idx := 0;
    while idx < |arr|
      invariant 0 <= idx <= |arr|
      invariant (currentLatest, latestIdx) == Scan(arr, fieldPath, idx)
    {
      var testVal := FieldOr0(arr[idx], fieldPath);
      if Less(currentLatest, testVal) {
        currentLatest := testVal;
        latestIdx := idx;
      }
      idx := idx + 1;
    }
    r := if latestIdx == -1 then None else Some(arr[latestIdx]);
  }
}
