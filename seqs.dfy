/** Generic facts about sequences used by the table model: filtering, and keys that are unique. */
module Seqs {

  /** The elements of `s` that satisfy `p`, in their original order (a `WHERE`/`.filter`). */
  function Filter<T(!new)>(s: seq<T>, p: T -> bool): (r: seq<T>)
    ensures |r| <= |s|
    ensures forall x :: x in r <==> x in s && p(x)
  {
    if s == [] then [] else (if p(s[0]) then [s[0]] else []) + Filter(s[1..], p)
  }

  lemma {:induction false} FilterDistributes<T(!new)>(a: seq<T>, b: seq<T>, p: T -> bool)
    ensures Filter(a + b, p) == Filter(a, p) + Filter(b, p)
  {
    if a == [] {
      assert a + b == b;
    } else {
      assert (a + b)[0] == a[0];
      assert (a + b)[1..] == a[1..] + b;
      FilterDistributes(a[1..], b, p);
    }
  }

  /** Filtering with a predicate that every element satisfies changes nothing. */
  lemma {:induction false} FilterAll<T(!new)>(s: seq<T>, p: T -> bool)
    requires forall x :: x in s ==> p(x)
    ensures Filter(s, p) == s
  {
    if s != [] {
      FilterAll(s[1..], p);
      assert [s[0]] + s[1..] == s;
    }
  }

  /** Filtering with a predicate that no element satisfies leaves nothing. */
  lemma {:induction false} FilterNone<T(!new)>(s: seq<T>, p: T -> bool)
    requires forall x :: x in s ==> !p(x)
    ensures Filter(s, p) == []
  {
    if s != [] {
      FilterNone(s[1..], p);
    }
  }

  /** No two positions of `s` hold rows with the same key (a primary key). */
  predicate UniqueKeys<T, K(==)>(s: seq<T>, key: T -> K)
  {
    forall i, j :: 0 <= i < j < |s| ==> key(s[i]) != key(s[j])
  }

  /** No value occurs twice in `s`. */
  predicate NoRepeats<T(==)>(s: seq<T>)
  {
    forall i, j :: 0 <= i < j < |s| ==> s[i] != s[j]
  }

  /** With unique keys, a key determines the position of its row. */
  lemma UniqueKeysAt<T, K>(s: seq<T>, key: T -> K, i: nat, j: nat)
    requires UniqueKeys(s, key)
    requires i < |s| && j < |s| && key(s[i]) == key(s[j])
    ensures i == j
  {
  }

  lemma UniqueKeysAppend<T, K>(a: seq<T>, b: seq<T>, key: T -> K)
    ensures UniqueKeys(a + b, key) <==>
              UniqueKeys(a, key) && UniqueKeys(b, key) &&
              (forall x, y :: x in a && y in b ==> key(x) != key(y))
  {
    var s := a + b;
    if UniqueKeys(s, key) {
      assert UniqueKeys(a, key) by {
        forall i, j | 0 <= i < j < |a| ensures key(a[i]) != key(a[j]) {
          assert s[i] == a[i] && s[j] == a[j];
        }
      }
      assert UniqueKeys(b, key) by {
        forall i, j | 0 <= i < j < |b| ensures key(b[i]) != key(b[j]) {
          assert s[|a| + i] == b[i] && s[|a| + j] == b[j];
        }
      }
      forall x, y | x in a && y in b ensures key(x) != key(y) {
        var i :| 0 <= i < |a| && a[i] == x;
        var j :| 0 <= j < |b| && b[j] == y;
        assert s[i] == x && s[|a| + j] == y;
      }
    }
    if UniqueKeys(a, key) && UniqueKeys(b, key) && (forall x, y :: x in a && y in b ==> key(x) != key(y)) {
      forall i, j | 0 <= i < j < |s| ensures key(s[i]) != key(s[j]) {
        if j < |a| {
          assert s[i] == a[i] && s[j] == a[j];
        } else if i >= |a| {
          assert s[i] == b[i - |a|] && s[j] == b[j - |a|];
        } else {
          assert s[i] == a[i] && s[j] == b[j - |a|];
          assert s[i] in a && s[j] in b;
        }
      }
    }
  }

  /** Appending one row to rows with unique keys keeps the keys unique exactly when no row has its key. */
  lemma UniqueKeysAppendOne<T, K>(s: seq<T>, x: T, key: T -> K)
    requires UniqueKeys(s, key)
    ensures UniqueKeys(s + [x], key) <==> forall y :: y in s ==> key(y) != key(x)
  {
    UniqueKeysAppend(s, [x], key);
    assert UniqueKeys([x], key);
    if forall y :: y in s ==> key(y) != key(x) {
      forall y, z | y in s && z in [x] ensures key(y) != key(z) {
        assert z == x;
      }
    }
  }

  lemma {:induction false} FilterKeepsUniqueKeys<T(!new), K>(s: seq<T>, p: T -> bool, key: T -> K)
    requires UniqueKeys(s, key)
    ensures UniqueKeys(Filter(s, p), key)
  {
    if s != [] {
      var head := if p(s[0]) then [s[0]] else [];
      UniqueKeysAppend([s[0]], s[1..], key);
      assert [s[0]] + s[1..] == s;
      FilterKeepsUniqueKeys(s[1..], p, key);
      UniqueKeysAppend(head, Filter(s[1..], p), key);
    }
  }

  /** A concatenation is free of repeats when both parts are and they share no value. */
  lemma NoRepeatsAppend<T>(a: seq<T>, b: seq<T>)
    ensures NoRepeats(a + b) <==> NoRepeats(a) && NoRepeats(b) && (forall x :: x in a ==> x !in b)
  {
    var s := a + b;
    if NoRepeats(s) {
      forall i, j | 0 <= i < j < |a| ensures a[i] != a[j] {
        assert s[i] == a[i] && s[j] == a[j];
      }
      forall i, j | 0 <= i < j < |b| ensures b[i] != b[j] {
        assert s[|a| + i] == b[i] && s[|a| + j] == b[j];
      }
      forall i, j | 0 <= i < |a| && 0 <= j < |b| ensures a[i] != b[j] {
        assert s[i] == a[i] && s[|a| + j] == b[j];
      }
    }
    if NoRepeats(a) && NoRepeats(b) && (forall x :: x in a ==> x !in b) {
      forall i, j | 0 <= i < j < |s| ensures s[i] != s[j] {
        if j < |a| {
          assert s[i] == a[i] && s[j] == a[j];
        } else if i >= |a| {
          assert s[i] == b[i - |a|] && s[j] == b[j - |a|];
        } else {
          assert s[i] == a[i] && s[j] == b[j - |a|];
          assert s[i] in a && s[j] in b;
        }
      }
    }
  }

  /** With unique keys, selecting by a condition that only rows sharing the key of `x` meet finds
      `x` alone. */
  lemma {:induction false} FilterUniqueKey<T(!new), K>(s: seq<T>, key: T -> K, p: T -> bool, x: T)
    requires UniqueKeys(s, key)
    requires x in s && p(x)
    requires forall y :: p(y) ==> key(y) == key(x)
    ensures Filter(s, p) == [x]
  {
    var rest := s[1..];
    assert forall j :: 0 <= j < |rest| ==> rest[j] == s[j + 1];
    assert forall j :: 0 <= j < |rest| ==> key(s[0]) != key(rest[j]);
    if s[0] == x {
      FilterNone(rest, p);
    } else {
      var k :| 0 <= k < |rest| && rest[k] == x;
      assert key(s[0]) != key(x);
      assert UniqueKeys(rest, key) by {
        forall i, j | 0 <= i < j < |rest| ensures key(rest[i]) != key(rest[j]) {
          assert rest[i] == s[i + 1] && rest[j] == s[j + 1];
        }
      }
      FilterUniqueKey(rest, key, p, x);
    }
  }

  /** Replacing rows by rows with the same key keeps the keys unique. */
  lemma SameKeysKeepUniqueKeys<T, K>(s: seq<T>, s': seq<T>, key: T -> K)
    requires |s'| == |s|
    requires forall i :: 0 <= i < |s| ==> key(s'[i]) == key(s[i])
    requires UniqueKeys(s, key)
    ensures UniqueKeys(s', key)
  {
  }

  /** The JavaScript idiom `xs.length !== new Set(xs).size` detects exactly the repeated values. */
  lemma {:induction false} SetSizeDetectsRepeats<T>(s: seq<T>)
    ensures |set x | x in s| <= |s|
    ensures NoRepeats(s) <==> |set x | x in s| == |s|
  {
    if s != [] {
      var rest := s[1..];
      SetSizeDetectsRepeats(rest);
      assert s == [s[0]] + rest;
      assert (set x | x in s) == {s[0]} + (set x | x in rest);
      if s[0] in rest {
        assert (set x | x in s) == (set x | x in rest);
        var k :| 0 <= k < |rest| && rest[k] == s[0];
        assert s[0] == s[k + 1];
      } else {
        assert NoRepeats(s) <==> NoRepeats(rest) by {
          if NoRepeats(rest) {
            forall i, j | 0 <= i < j < |s| ensures s[i] != s[j] {
              if i == 0 {
                assert s[j] == rest[j - 1];
              } else {
                assert s[i] == rest[i - 1] && s[j] == rest[j - 1];
              }
            }
          }
          if NoRepeats(s) {
            forall i, j | 0 <= i < j < |rest| ensures rest[i] != rest[j] {
              assert rest[i] == s[i + 1] && rest[j] == s[j + 1];
            }
          }
        }
      }
    }
  }

  /** Filtering twice, with a second predicate that implies the first, is filtering once. */
  lemma {:induction false} FilterFilter<T(!new)>(s: seq<T>, p: T -> bool, q: T -> bool)
    requires forall x :: q(x) ==> p(x)
    ensures Filter(Filter(s, p), q) == Filter(s, q)
  {
    if s != [] {
      FilterFilter(s[1..], p, q);
      var head := if p(s[0]) then [s[0]] else [];
      FilterDistributes(head, Filter(s[1..], p), q);
      if p(s[0]) {
        assert head[1..] == [];
      }
    }
  }

  /** Filtering twice, with a second predicate that excludes the first, leaves nothing. */
  lemma FilterDisjoint<T(!new)>(s: seq<T>, p: T -> bool, q: T -> bool)
    requires forall x :: q(x) ==> !p(x)
    ensures Filter(Filter(s, p), q) == []
  {
    FilterNone(Filter(s, p), q);
  }

  /** Filtering keeps a sequence free of repeats. */
  lemma {:induction false} FilterKeepsNoRepeats<T(!new)>(s: seq<T>, p: T -> bool)
    requires NoRepeats(s)
    ensures NoRepeats(Filter(s, p))
  {
    if s != [] {
      var head := if p(s[0]) then [s[0]] else [];
      assert [s[0]] + s[1..] == s;
      NoRepeatsAppend([s[0]], s[1..]);
      FilterKeepsNoRepeats(s[1..], p);
      NoRepeatsAppend(head, Filter(s[1..], p));
    }
  }

  /** The parts `f(x)` of every `x` in `s`, one after another (a `flatMap`). */
  function FlatMap<A, B>(s: seq<A>, f: A -> seq<B>): seq<B>
  {
    if s == [] then [] else f(s[0]) + FlatMap(s[1..], f)
  }

  /** When every part has one element, the flattening is those elements in order. */
  lemma {:induction false} FlatMapSingles<A, B>(s: seq<A>, f: A -> seq<B>)
    requires forall i :: 0 <= i < |s| ==> |f(s[i])| == 1
    ensures |FlatMap(s, f)| == |s|
    ensures forall i :: 0 <= i < |s| ==> FlatMap(s, f)[i] == f(s[i])[0]
  {
    if s != [] {
      var tail := s[1..];
      assert |f(s[0])| == 1;
      forall i | 0 <= i < |tail| ensures |f(tail[i])| == 1 {
        assert tail[i] == s[i + 1];
      }
      FlatMapSingles(tail, f);
      var all := FlatMap(s, f);
      var rest := FlatMap(tail, f);
      forall i | 0 <= i < |s| ensures all[i] == f(s[i])[0] {
        if i > 0 {
          assert all[i] == rest[i - 1] && s[i] == tail[i - 1];
        }
      }
    }
  }
}
