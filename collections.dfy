/** The C# List/Queue operations the chunk managers use, on sequences. */
module Collections {

  datatype Option<T> = None | Some(value: T)

  /** `List<T>.RemoveAt(i)`: the element at `i` is gone and the later ones shift down by one. */
  function RemoveAt<T>(s: seq<T>, i: int): (r: seq<T>)
    requires 0 <= i < |s|
    ensures |r| == |s| - 1
    ensures multiset(r) + multiset{s[i]} == multiset(s)
  {
    assert s == s[..i] + [s[i]] + s[i + 1..];
    s[..i] + s[i + 1..]
  }

  /** Where an element lands after `RemoveAt`. */
  lemma RemoveAtIndex<T>(s: seq<T>, i: int, j: int)
    requires 0 <= i < |s| && 0 <= j < |s| - 1
    ensures RemoveAt(s, i)[j] == if j < i then s[j] else s[j + 1]
  {
  }

  /** The elements of `s` whose `drop` flag is false, in their original order. */
  function Keep<T>(s: seq<T>, drop: seq<bool>): seq<T>
    requires |s| == |drop|
  {
    if s == [] then []
    else (if drop[0] then [] else [s[0]]) + Keep(s[1..], drop[1..])
  }

  /** The elements of `s` whose `drop` flag is true, last one first:
      the order in which a scan from the back of a list enqueues them. */
  function DroppedBackward<T>(s: seq<T>, drop: seq<bool>): seq<T>
    requires |s| == |drop|
  {
    if s == [] then []
    else DroppedBackward(s[1..], drop[1..]) + (if drop[0] then [s[0]] else [])
  }

  /** Splitting by the flags neither loses nor duplicates an element. */
  lemma {:induction false} KeepDroppedPartition<T>(s: seq<T>, drop: seq<bool>)
    requires |s| == |drop|
    ensures multiset(Keep(s, drop)) + multiset(DroppedBackward(s, drop)) == multiset(s)
  {
    if s != [] {
      KeepDroppedPartition(s[1..], drop[1..]);
      var head := if drop[0] then [] else [s[0]];
      var tail := if drop[0] then [s[0]] else [];
      assert Keep(s, drop) == head + Keep(s[1..], drop[1..]);
      assert DroppedBackward(s, drop) == DroppedBackward(s[1..], drop[1..]) + tail;
      assert multiset(head) + multiset(tail) == multiset{s[0]};
      assert s == [s[0]] + s[1..];
      assert multiset(s) == multiset{s[0]} + multiset(s[1..]);
    }
  }

  /** An element is kept exactly when it sits at an index whose flag is false. */
  lemma {:induction false} KeepMembership<T>(s: seq<T>, drop: seq<bool>, x: T)
    requires |s| == |drop|
    ensures x in Keep(s, drop) <==> exists k :: 0 <= k < |s| && s[k] == x && !drop[k]
  {
    if s != [] {
      KeepMembership(s[1..], drop[1..], x);
      if x in Keep(s[1..], drop[1..]) {
        var k :| 1 <= k + 1 < |s| && s[1..][k] == x && !drop[1..][k];
        assert s[k + 1] == x && !drop[k + 1];
      }
      if exists k :: 0 <= k < |s| && s[k] == x && !drop[k] {
        var k :| 0 <= k < |s| && s[k] == x && !drop[k];
        if k > 0 {
          assert s[1..][k - 1] == x && !drop[1..][k - 1];
        }
      }
    }
  }

  /** No element occurs twice. */
  ghost predicate Distinct<T>(s: seq<T>) {
    forall i, j | 0 <= i < j < |s| :: s[i] != s[j]
  }

  /** Without repetitions, every element is counted at most once. */
  lemma {:induction false} DistinctCount<T>(s: seq<T>, x: T)
    requires Distinct(s)
    ensures multiset(s)[x] <= 1
  {
    if s != [] {
      assert s == [s[0]] + s[1..];
      assert Distinct(s[1..]) by {
        forall i, j | 0 <= i < j < |s[1..]| ensures s[1..][i] != s[1..][j] {
          assert s[1..][i] == s[i + 1] && s[1..][j] == s[j + 1];
        }
      }
      DistinctCount(s[1..], x);
      if s[0] == x {
        assert x !in s[1..];
      }
    }
  }

  /** Rearranging a sequence without repetitions leaves none. */
  lemma DistinctPermutation<T>(s: seq<T>, t: seq<T>)
    requires Distinct(s) && multiset(s) == multiset(t)
    ensures Distinct(t)
  {
    forall i, j | 0 <= i < j < |t| ensures t[i] != t[j] {
      if t[i] == t[j] {
        assert t == t[..i] + [t[i]] + t[i + 1..j] + [t[j]] + t[j + 1..];
        assert multiset(t)[t[i]] >= 2;
        DistinctCount(s, t[i]);
      }
    }
  }

  /** Moving the head of a repetition-free sequence to its back keeps it
      repetition-free, and the head is not among the rest. */
  lemma DistinctRotate<T>(s: seq<T>)
    requires Distinct(s) && s != []
    ensures s[0] !in s[1..] && Distinct(s[1..] + [s[0]])
  {
    var t := s[1..] + [s[0]];
    forall i, j | 0 <= i < j < |t| ensures t[i] != t[j] {
      if j == |t| - 1 {
        assert t[i] == s[i + 1] && t[j] == s[0];
      } else {
        assert t[i] == s[i + 1] && t[j] == s[j + 1];
      }
    }
  }

  /** No element of a repetition-free concatenation is in both parts. */
  lemma DistinctSplit<T>(a: seq<T>, b: seq<T>, x: T)
    requires Distinct(a + b)
    ensures x !in a || x !in b
  {
    DistinctCount(a + b, x);
    assert multiset(a + b)[x] == multiset(a)[x] + multiset(b)[x];
  }

  /** Moving the front of `b` to the back of `a` keeps the elements distinct, and
      the moved element was in neither of the other parts. */
  lemma DistinctMoveFront<T>(a: seq<T>, b: seq<T>)
    requires Distinct(a + b) && |b| > 0
    ensures b[0] !in a && b[0] !in b[1..]
    ensures Distinct((a + [b[0]]) + b[1..])
  {
    assert a + b == (a + [b[0]]) + b[1..];
    DistinctSplit(a, b, b[0]);
    DistinctSplit(a + [b[0]], b[1..], b[0]);
  }

  /** `m1` and `m2` hold the same keys and values, except perhaps at `k`. */
  ghost predicate AgreeExcept<K(!new), V>(m1: map<K, V>, m2: map<K, V>, k: K) {
    forall x | x != k :: (x in m1 <==> x in m2) && (x in m1 ==> m1[x] == m2[x])
  }

  /** One step of a scan from the back that removes flagged elements from a
      list and enqueues them: before the step at `i` the list is the unscanned
      prefix followed by the kept suffix, and the queue has the dropped suffix
      behind `queued`. A flagged element leaves the list for the back of the
      queue, and both keep their shapes one index lower. */
  lemma ScanBackDrop<T>(s: seq<T>, drop: seq<bool>, i: int, list: seq<T>, queue: seq<T>, queued: seq<T>)
    requires |s| == |drop| && 0 <= i < |s| && drop[i]
    requires list == s[..i + 1] + Keep(s[i + 1..], drop[i + 1..])
    requires queue == queued + DroppedBackward(s[i + 1..], drop[i + 1..])
    ensures i < |list| && list[i] == s[i]
    ensures RemoveAt(list, i) == s[..i] + Keep(s[i..], drop[i..])
    ensures queue + [list[i]] == queued + DroppedBackward(s[i..], drop[i..])
  {
    var kept := Keep(s[i + 1..], drop[i + 1..]);
    assert s[i..] == [s[i]] + s[i + 1..];
    assert drop[i..] == [drop[i]] + drop[i + 1..];
    KeepCons(s[i..], drop[i..]);
    assert s[..i + 1] == s[..i] + [s[i]];
    assert list == s[..i] + ([s[i]] + kept);
    assert list[..i] == s[..i] && list[i + 1..] == kept;
  }

  /** The same step on an element that is not flagged: nothing moves. */
  lemma ScanBackKeep<T>(s: seq<T>, drop: seq<bool>, i: int, list: seq<T>, queue: seq<T>, queued: seq<T>)
    requires |s| == |drop| && 0 <= i < |s| && !drop[i]
    requires list == s[..i + 1] + Keep(s[i + 1..], drop[i + 1..])
    requires queue == queued + DroppedBackward(s[i + 1..], drop[i + 1..])
    ensures i < |list| && list[i] == s[i]
    ensures list == s[..i] + Keep(s[i..], drop[i..])
    ensures queue == queued + DroppedBackward(s[i..], drop[i..])
  {
    assert s[i..] == [s[i]] + s[i + 1..];
    assert drop[i..] == [drop[i]] + drop[i + 1..];
    KeepCons(s[i..], drop[i..]);
    assert s[..i + 1] == s[..i] + [s[i]];
  }

  /** `Keep` and `DroppedBackward` on a non-empty sequence, one element off the front. */
  lemma KeepCons<T>(s: seq<T>, drop: seq<bool>)
    requires |s| == |drop| && |s| > 0
    ensures Keep(s, drop) == (if drop[0] then [] else [s[0]]) + Keep(s[1..], drop[1..])
    ensures DroppedBackward(s, drop) == DroppedBackward(s[1..], drop[1..]) + (if drop[0] then [s[0]] else [])
  {
  }

  /** Keeping the unflagged elements and queueing the flagged ones behind `rest`
      neither loses nor duplicates anything. */
  lemma KeepDroppedDistinct<T>(s: seq<T>, rest: seq<T>, drop: seq<bool>)
    requires |s| == |drop| && Distinct(s + rest)
    ensures multiset(Keep(s, drop) + (rest + DroppedBackward(s, drop))) == multiset(s + rest)
    ensures Distinct(Keep(s, drop) + (rest + DroppedBackward(s, drop)))
  {
    KeepDroppedPartition(s, drop);
    DistinctPermutation(s + rest, Keep(s, drop) + (rest + DroppedBackward(s, drop)));
  }

  /** Moving the dropped elements of `s` behind `rest` loses no element and makes none. */
  lemma KeepDroppedConserved<T>(s: seq<T>, rest: seq<T>, drop: seq<bool>)
    requires |s| == |drop|
    ensures |Keep(s, drop)| + |rest + DroppedBackward(s, drop)| == |s| + |rest|
    ensures forall x | x in Keep(s, drop) + (rest + DroppedBackward(s, drop)) :: x in s + rest
  {
    var moved := Keep(s, drop) + (rest + DroppedBackward(s, drop));
    KeepDroppedPartition(s, drop);
    calc {
      multiset(moved);
      multiset(Keep(s, drop)) + multiset(rest) + multiset(DroppedBackward(s, drop));
      multiset(s) + multiset(rest);
      multiset(s + rest);
    }
    assert |moved| == |multiset(moved)| == |multiset(s + rest)| == |s + rest|;
    forall x | x in moved
      ensures x in s + rest
    {
      assert x in multiset(moved);
    }
  }

  /** Appending an element that is not there yet keeps a sequence repetition-free. */
  lemma DistinctAppend<T>(s: seq<T>, x: T)
    requires Distinct(s) && x !in s
    ensures Distinct(s + [x])
  {
  }

  /** Sequences with the same elements, counted, have the same members. */
  lemma PermutedMembers<T>(a: seq<T>, b: seq<T>)
    requires multiset(a) == multiset(b)
    ensures forall x :: x in a <==> x in b
  {
    forall x
      ensures x in a <==> x in b
    {
      assert x in a <==> x in multiset(a);
      assert x in b <==> x in multiset(b);
    }
  }
}
