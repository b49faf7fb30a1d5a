/**
 * The list operations the application performs on its collections, written
 * once and parametrised by the function that gives an element's key (its
 * `id`, or a chart entry's month label):
 *   - FirstIndex / FindIndex: `Array.prototype.findIndex` by key;
 *   - Upsert: replace the first element with the same key, else append;
 *   - RemoveKey: `filter(x => x.id !== id)`;
 *   - Sum: `reduce((acc, x) => acc + f(x), 0)`;
 *   - Dedup: the distinct values of a sequence in order of first occurrence.
 */
module Collections {

  /** The keys of the elements of `s`, position by position. */
  function Keys<T>(s: seq<T>, keyOf: T -> string): (r: seq<string>)
    ensures |r| == |s|
    ensures forall i :: 0 <= i < |s| ==> r[i] == keyOf(s[i])
  {
    seq(|s|, i requires 0 <= i < |s| => keyOf(s[i]))
  }

  /** No value occurs twice in `s`. */
  ghost predicate Distinct<T>(s: seq<T>)
  {
    forall i, j :: 0 <= i < j < |s| ==> s[i] != s[j]
  }

  /** No two elements of `s` share a key. */
  ghost predicate UniqueKeys<T>(s: seq<T>, keyOf: T -> string)
  {
    Distinct(Keys(s, keyOf))
  }

  /**
   * The position of the first element whose key is `key`, or -1 when there
   * is none.
   */
  function FirstIndex<T>(s: seq<T>, key: string, keyOf: T -> string): (r: int)
    ensures -1 <= r < |s|
    ensures 0 <= r ==> keyOf(s[r]) == key
    ensures 0 <= r ==> forall j :: 0 <= j < r ==> keyOf(s[j]) != key
    ensures r == -1 <==> key !in Keys(s, keyOf)
  {
    if |s| == 0 then -1
    else if keyOf(s[0]) == key then 0
    else
      var k := FirstIndex(s[1..], key, keyOf);
      assert forall i :: 0 <= i < |s| - 1 ==> Keys(s[1..], keyOf)[i] == Keys(s, keyOf)[i + 1];
      assert Keys(s[1..], keyOf) == Keys(s, keyOf)[1..];
      if k < 0 then -1 else k + 1
  }

  /** The scan that `findIndex` performs. */
  method FindIndex<T>(s: seq<T>, key: string, keyOf: T -> string) returns (index: int)
    ensures index == FirstIndex(s, key, keyOf)
  {
    index := 0;
    while index < |s| && keyOf(s[index]) != key
      invariant 0 <= index <= |s|
      invariant forall j :: 0 <= j < index ==> keyOf(s[j]) != key
    {
      index := index + 1;
    }
    if index == |s| {
      index := -1;
    }
  }

  /** Save by key: overwrite the first element with `x`'s key, or append `x`. */
  function Upsert<T>(s: seq<T>, x: T, keyOf: T -> string): seq<T>
  {
    var k := FirstIndex(s, keyOf(x), keyOf);
    if k >= 0 then s[k := x] else s + [x]
  }

  /** Delete by key: keep, in order, the elements whose key is not `key`. */
  function RemoveKey<T(!new)>(s: seq<T>, key: string, keyOf: T -> string): (r: seq<T>)
    ensures |r| <= |s|
    ensures key !in Keys(r, keyOf)
    ensures forall y :: y in r <==> y in s && keyOf(y) != key
  {
    if |s| == 0 then []
    else if keyOf(s[0]) == key then RemoveKey(s[1..], key, keyOf)
    else [s[0]] + RemoveKey(s[1..], key, keyOf)
  }

  /** Left fold of `f` over `s` from 0. */
  function Sum<T>(s: seq<T>, f: T -> real): real
  {
    if |s| == 0 then 0.0 else Sum(s[..|s| - 1], f) + f(s[|s| - 1])
  }

  /**
   * The distinct values of `s`, each at the place where it first occurs: the
   * contract gives distinctness and membership, and the body (one step per
   * element, appending a value only when it is new) gives the order.
   */
  function Dedup<T(==,!new)>(s: seq<T>): (r: seq<T>)
    ensures Distinct(r)
    ensures forall x :: x in r <==> x in s
  {
    if |s| == 0 then []
    else
      var d := Dedup(s[..|s| - 1]);
      if s[|s| - 1] in d then d else d + [s[|s| - 1]]
  }

  // ---------------------------------------------------------------- Upsert

  /** A new key appends: the length grows by one and the old elements stay in place. */
  lemma UpsertNewKey<T>(s: seq<T>, x: T, keyOf: T -> string)
    requires keyOf(x) !in Keys(s, keyOf)
    ensures Upsert(s, x, keyOf) == s + [x]
    ensures |Upsert(s, x, keyOf)| == |s| + 1
  {
  }

  /**
   * A key already present overwrites exactly the first element with that key;
   * the length and every other position are unchanged.
   */
  lemma UpsertExistingKey<T>(s: seq<T>, x: T, keyOf: T -> string, k: nat)
    requires k < |s| && keyOf(s[k]) == keyOf(x)
    requires forall j :: 0 <= j < k ==> keyOf(s[j]) != keyOf(x)
    ensures Upsert(s, x, keyOf) == s[k := x]
  {
    assert Keys(s, keyOf)[k] == keyOf(x);
  }

  /** After a save the saved element is in the collection. */
  lemma UpsertContains<T>(s: seq<T>, x: T, keyOf: T -> string)
    ensures x in Upsert(s, x, keyOf)
    ensures keyOf(x) in Keys(Upsert(s, x, keyOf), keyOf)
  {
    var r := Upsert(s, x, keyOf);
    var k := FirstIndex(s, keyOf(x), keyOf);
    var at := if k >= 0 then k else |s|;
    assert r[at] == x;
    assert Keys(r, keyOf)[at] == keyOf(x);
  }

  /** Saving adds `x`'s key to the set of keys and removes none. */
  lemma UpsertKeys<T>(s: seq<T>, x: T, keyOf: T -> string)
    ensures (set y | y in Keys(Upsert(s, x, keyOf), keyOf)) == (set y | y in Keys(s, keyOf)) + {keyOf(x)}
  {
    var r := Upsert(s, x, keyOf);
    var k := FirstIndex(s, keyOf(x), keyOf);
    UpsertContains(s, x, keyOf);
    forall y | y in Keys(r, keyOf) ensures y in Keys(s, keyOf) || y == keyOf(x) {
      var i :| 0 <= i < |r| && Keys(r, keyOf)[i] == y;
      if i < |s| && (k < 0 || i != k) {
        assert Keys(s, keyOf)[i] == y;
      }
    }
    forall y | y in Keys(s, keyOf) ensures y in Keys(r, keyOf) {
      var i :| 0 <= i < |s| && Keys(s, keyOf)[i] == y;
      if k >= 0 && i == k {
        assert y == keyOf(x);
      } else {
        assert Keys(r, keyOf)[i] == y;
      }
    }
  }

  /** Saving keeps ids unique in a collection whose ids are unique. */
  lemma UpsertKeepsUniqueKeys<T>(s: seq<T>, x: T, keyOf: T -> string)
    requires UniqueKeys(s, keyOf)
    ensures UniqueKeys(Upsert(s, x, keyOf), keyOf)
  {
    var r := Upsert(s, x, keyOf);
    var k := FirstIndex(s, keyOf(x), keyOf);
    var ks, kr := Keys(s, keyOf), Keys(r, keyOf);
    forall i, j | 0 <= i < j < |kr| ensures kr[i] != kr[j] {
      if k >= 0 {
        if i == k {
          assert kr[i] == ks[k] && kr[j] == ks[j];
        } else if j == k {
          assert kr[j] == ks[k] && kr[i] == ks[i];
        } else {
          assert kr[i] == ks[i] && kr[j] == ks[j];
        }
      } else if j == |s| {
        assert kr[i] == ks[i];
      } else {
        assert kr[i] == ks[i] && kr[j] == ks[j];
      }
    }
  }

  /** Saving the same element twice is the same as saving it once. */
  lemma UpsertIdempotent<T>(s: seq<T>, x: T, keyOf: T -> string)
    ensures Upsert(Upsert(s, x, keyOf), x, keyOf) == Upsert(s, x, keyOf)
  {
    var r := Upsert(s, x, keyOf);
    var k := FirstIndex(s, keyOf(x), keyOf);
    if k >= 0 {
      UpsertExistingKey(r, x, keyOf, k);
    } else {
      UpsertExistingKey(r, x, keyOf, |s|);
    }
  }

  // ------------------------------------------------------------- RemoveKey

  /** Deletion keeps relative order: it distributes over concatenation. */
  lemma {:induction false} RemoveKeyAppend<T(!new)>(a: seq<T>, b: seq<T>, key: string, keyOf: T -> string)
    ensures RemoveKey(a + b, key, keyOf) == RemoveKey(a, key, keyOf) + RemoveKey(b, key, keyOf)
  {
    if |a| == 0 {
      assert a + b == b;
    } else {
      assert (a + b)[0] == a[0];
      assert (a + b)[1..] == a[1..] + b;
      RemoveKeyAppend(a[1..], b, key, keyOf);
    }
  }

  /**
   * The positions of the elements a deletion keeps, in increasing order: every
   * position whose key differs, and no other.
   */
  function KeptIndices<T>(s: seq<T>, key: string, keyOf: T -> string): (idx: seq<nat>)
    ensures forall i :: 0 <= i < |idx| ==> idx[i] < |s| && keyOf(s[idx[i]]) != key
    ensures forall i, j :: 0 <= i < j < |idx| ==> idx[i] < idx[j]
    ensures forall k :: 0 <= k < |s| && keyOf(s[k]) != key ==> k in idx
  {
    if |s| == 0 then []
    else
      var kept := KeptIndices(s[..|s| - 1], key, keyOf);
      if keyOf(s[|s| - 1]) != key then kept + [|s| - 1] else kept
  }

  /**
   * Deletion keeps the other elements in their relative order: its result is
   * the list read at the kept positions.
   */
  lemma {:induction false} RemoveKeyKeepsOrder<T(!new)>(s: seq<T>, key: string, keyOf: T -> string)
    ensures var r, idx := RemoveKey(s, key, keyOf), KeptIndices(s, key, keyOf);
      |r| == |idx| && forall i :: 0 <= i < |r| ==> r[i] == s[idx[i]]
  {
    if |s| > 0 {
      var n := |s| - 1;
      assert s == s[..n] + [s[n]];
      RemoveKeyAppend(s[..n], [s[n]], key, keyOf);
      RemoveKeyKeepsOrder(s[..n], key, keyOf);
      assert RemoveKey([s[n]], key, keyOf) == if keyOf(s[n]) != key then [s[n]] else [];
    }
  }

  /** Deleting a key nobody has changes nothing. */
  lemma {:induction false} RemoveKeyAbsent<T(!new)>(s: seq<T>, key: string, keyOf: T -> string)
    requires key !in Keys(s, keyOf)
    ensures RemoveKey(s, key, keyOf) == s
  {
    if |s| > 0 {
      assert Keys(s, keyOf)[0] == keyOf(s[0]);
      assert Keys(s[1..], keyOf) == Keys(s, keyOf)[1..];
      RemoveKeyAbsent(s[1..], key, keyOf);
    }
  }

  /** Deleting twice is the same as deleting once. */
  lemma RemoveKeyIdempotent<T(!new)>(s: seq<T>, key: string, keyOf: T -> string)
    ensures RemoveKey(RemoveKey(s, key, keyOf), key, keyOf) == RemoveKey(s, key, keyOf)
  {
    RemoveKeyAbsent(RemoveKey(s, key, keyOf), key, keyOf);
  }

  /** Deletion removes exactly the elements carrying the key, so many of them. */
  lemma {:induction false} RemoveKeyLength<T(!new)>(s: seq<T>, key: string, keyOf: T -> string)
    ensures |RemoveKey(s, key, keyOf)| == |s| - multiset(Keys(s, keyOf))[key]
  {
    if |s| > 0 {
      assert Keys(s, keyOf) == [keyOf(s[0])] + Keys(s[1..], keyOf);
      RemoveKeyLength(s[1..], key, keyOf);
    }
  }

  /** Deleting keeps ids unique in a collection whose ids are unique. */
  lemma {:induction false} RemoveKeyKeepsUniqueKeys<T(!new)>(s: seq<T>, key: string, keyOf: T -> string)
    requires UniqueKeys(s, keyOf)
    ensures UniqueKeys(RemoveKey(s, key, keyOf), keyOf)
  {
    if |s| > 0 {
      var ks := Keys(s, keyOf);
      assert Keys(s[1..], keyOf) == ks[1..];
      RemoveKeyKeepsUniqueKeys(s[1..], key, keyOf);
      if keyOf(s[0]) != key {
        var rest := RemoveKey(s[1..], key, keyOf);
        var kr := Keys(rest, keyOf);
        forall i | 0 <= i < |ks| - 1 ensures ks[1..][i] != ks[0] {
          assert ks[1..][i] == ks[i + 1];
        }
        forall j | 0 <= j < |kr| ensures kr[j] != keyOf(s[0]) {
          KeyOfMember(s[1..], rest[j], keyOf);
        }
        DistinctCons(keyOf(s[0]), kr);
        assert Keys([s[0]] + rest, keyOf) == [keyOf(s[0])] + kr;
      }
    }
  }

  /** A value not in a distinct sequence can go in front of it. */
  lemma DistinctCons<T>(x: T, s: seq<T>)
    requires Distinct(s) && x !in s
    ensures Distinct([x] + s)
  {
    var t := [x] + s;
    forall i, j | 0 <= i < j < |t| ensures t[i] != t[j] {
      assert t[j] == s[j - 1];
      if i > 0 { assert t[i] == s[i - 1]; }
    }
  }

  /** The key of a member is among the keys. */
  lemma KeyOfMember<T>(s: seq<T>, y: T, keyOf: T -> string)
    requires y in s
    ensures keyOf(y) in Keys(s, keyOf)
  {
    var i :| 0 <= i < |s| && s[i] == y;
    assert Keys(s, keyOf)[i] == keyOf(y);
  }

  /** Deleting an id right after saving a record with it leaves what deleting alone leaves. */
  lemma {:induction false} RemoveKeyAfterUpsert<T(!new)>(s: seq<T>, x: T, keyOf: T -> string)
    ensures RemoveKey(Upsert(s, x, keyOf), keyOf(x), keyOf) == RemoveKey(s, keyOf(x), keyOf)
  {
    var k := FirstIndex(s, keyOf(x), keyOf);
    if k >= 0 {
      RemoveKeyOverwrite(s, k, x, keyOf);
    } else {
      RemoveKeyAppend(s, [x], keyOf(x), keyOf);
      assert RemoveKey([x], keyOf(x), keyOf) == [];
      assert RemoveKey(s, keyOf(x), keyOf) + [] == RemoveKey(s, keyOf(x), keyOf);
    }
  }

  /** Overwriting an element by another with the same key is invisible after deleting that key. */
  lemma {:induction false} RemoveKeyOverwrite<T(!new)>(s: seq<T>, k: nat, x: T, keyOf: T -> string)
    requires k < |s| && keyOf(s[k]) == keyOf(x)
    ensures RemoveKey(s[k := x], keyOf(x), keyOf) == RemoveKey(s, keyOf(x), keyOf)
  {
    if k == 0 {
      assert s[k := x][1..] == s[1..];
    } else {
      assert s[k := x][0] == s[0];
      assert s[k := x][1..] == s[1..][k - 1 := x];
      RemoveKeyOverwrite(s[1..], k - 1, x, keyOf);
    }
  }

  // ------------------------------------------------------------------- Sum

  /** The fold over a concatenation is the sum of the folds. */
  lemma {:induction false} SumAppend<T>(a: seq<T>, b: seq<T>, f: T -> real)
    ensures Sum(a + b, f) == Sum(a, f) + Sum(b, f)
  {
    if |b| == 0 {
      assert a + b == a;
    } else {
      assert (a + b)[..|a + b| - 1] == a + b[..|b| - 1];
      SumAppend(a, b[..|b| - 1], f);
    }
  }

  /** Changing one element changes the fold by the difference of its two values. */
  lemma {:induction false} SumUpdate<T>(s: seq<T>, k: nat, y: T, f: T -> real)
    requires k < |s|
    ensures Sum(s[k := y], f) == Sum(s, f) - f(s[k]) + f(y)
  {
    var n := |s| - 1;
    if k == n {
      assert s[k := y][..n] == s[..n];
    } else {
      assert s[k := y][..n] == s[..n][k := y];
      SumUpdate(s[..n], k, y, f);
    }
  }

  /** Folds agree on sequences that agree pointwise under `f`. */
  lemma {:induction false} SumPointwise<T>(a: seq<T>, b: seq<T>, f: T -> real)
    requires |a| == |b|
    requires forall i :: 0 <= i < |a| ==> f(a[i]) == f(b[i])
    ensures Sum(a, f) == Sum(b, f)
  {
    if |a| > 0 {
      SumPointwise(a[..|a| - 1], b[..|b| - 1], f);
    }
  }
}
