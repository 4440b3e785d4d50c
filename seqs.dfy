/** Sequence idioms shared by the portfolio store and the refresh scheduler:
    `Array.prototype.filter` against a drop list, `includes` + `push`, and
    `Array.from(new Set(...))`. */
module Seqs {

  /** No element occurs twice. */
  predicate NoDup<T(==)>(s: seq<T>) {
    forall i, j :: 0 <= i < j < |s| ==> s[i] != s[j]
  }

  /** `s.filter(x => !drop.includes(x))`: the elements of `s` not in `drop`, in order. */
  function RemoveAll<T(==)>(s: seq<T>, drop: seq<T>): seq<T> {
    if s == [] then []
    else if s[0] in drop then RemoveAll(s[1..], drop)
    else [s[0]] + RemoveAll(s[1..], drop)
  }

  /** `if (!s.includes(x)) s.push(x)` */
  function AddUnique<T(==)>(s: seq<T>, x: T): seq<T> {
    if x in s then s else s + [x]
  }

  /** `Array.from(new Set(s))`: each element once, at the place of its first occurrence. */
  function Dedup<T(==)>(s: seq<T>): seq<T> {
    if s == [] then [] else AddUnique(Dedup(s[..|s| - 1]), s[|s| - 1])
  }

  lemma {:induction false} RemoveAllMembers<T>(s: seq<T>, drop: seq<T>)
    ensures forall x :: x in RemoveAll(s, drop) <==> x in s && x !in drop
  {
    if s != [] {
      RemoveAllMembers(s[1..], drop);
      assert s == [s[0]] + s[1..];
    }
  }

  /** Filtering keeps every occurrence of a kept element and none of a dropped one. */
  lemma {:induction false} RemoveAllCounts<T>(s: seq<T>, drop: seq<T>)
    ensures forall x :: multiset(RemoveAll(s, drop))[x] == if x in drop then 0 else multiset(s)[x]
  {
    if s != [] {
      RemoveAllCounts(s[1..], drop);
      assert s == [s[0]] + s[1..];
      assert multiset(s) == multiset{s[0]} + multiset(s[1..]);
    }
  }

  /** Filtering distributes over concatenation: the kept elements stay in their order. */
  lemma {:induction false} RemoveAllAppend<T>(s: seq<T>, t: seq<T>, drop: seq<T>)
    ensures RemoveAll(s + t, drop) == RemoveAll(s, drop) + RemoveAll(t, drop)
  {
    if s == [] {
      assert s + t == t;
    } else {
      assert (s + t)[0] == s[0];
      assert (s + t)[1..] == s[1..] + t;
      RemoveAllAppend(s[1..], t, drop);
    }
  }

  /** A filter that drops nothing is the identity. */
  lemma {:induction false} RemoveAllKeepsAll<T>(s: seq<T>, drop: seq<T>)
    requires forall x :: x in s ==> x !in drop
    ensures RemoveAll(s, drop) == s
  {
    if s != [] {
      assert s[0] in s;
      forall x | x in s[1..] ensures x !in drop {
        assert x in s;
      }
      RemoveAllKeepsAll(s[1..], drop);
      assert s == [s[0]] + s[1..];
    }
  }

  /** A filter that drops every element leaves nothing. */
  lemma {:induction false} RemoveAllDropsAll<T>(s: seq<T>, drop: seq<T>)
    requires forall x :: x in s ==> x in drop
    ensures RemoveAll(s, drop) == []
  {
    if s != [] {
      assert s[0] in s;
      forall x | x in s[1..] ensures x in drop {
        assert x in s;
      }
      RemoveAllDropsAll(s[1..], drop);
    }
  }

  lemma {:induction false} RemoveAllNoDup<T>(s: seq<T>, drop: seq<T>)
    requires NoDup(s)
    ensures NoDup(RemoveAll(s, drop))
  {
    if s != [] {
      assert NoDup(s[1..]) by {
        forall i, j | 0 <= i < j < |s[1..]| ensures s[1..][i] != s[1..][j] {
          assert s[1..][i] == s[i + 1] && s[1..][j] == s[j + 1];
        }
      }
      RemoveAllNoDup(s[1..], drop);
      RemoveAllMembers(s[1..], drop);
      if s[0] !in drop {
        assert s[0] !in s[1..] by {
          forall j | 0 <= j < |s[1..]| ensures s[1..][j] != s[0] {
            assert s[1..][j] == s[j + 1];
          }
        }
        var r := RemoveAll(s[1..], drop);
        forall i, j | 0 <= i < j < |[s[0]] + r| ensures ([s[0]] + r)[i] != ([s[0]] + r)[j] {
          if i == 0 {
            assert ([s[0]] + r)[j] == r[j - 1];
            assert r[j - 1] in r;
          }
        }
      }
    }
  }

  /** Filtering one present element out of a duplicate-free sequence shortens it by one. */
  lemma {:induction false} RemoveAllOne<T>(s: seq<T>, x: T)
    requires NoDup(s) && x in s
    ensures |RemoveAll(s, [x])| == |s| - 1
  {
    var tail := s[1..];
    assert NoDup(tail) by {
      forall i, j | 0 <= i < j < |tail| ensures tail[i] != tail[j] {
        assert tail[i] == s[i + 1] && tail[j] == s[j + 1];
      }
    }
    if s[0] == x {
      forall y | y in tail ensures y !in [x] {
        var j :| 0 <= j < |tail| && tail[j] == y;
        assert tail[j] == s[j + 1];
      }
      RemoveAllKeepsAll(tail, [x]);
    } else {
      assert x in tail by {
        var j :| 0 <= j < |s| && s[j] == x;
        assert tail[j - 1] == x;
      }
      RemoveAllOne(tail, x);
    }
  }

  /** Dropping a duplicate-free sequence's own first `n` elements leaves exactly the rest. */
  lemma {:induction false} RemoveAllPrefix<T>(s: seq<T>, n: nat)
    requires NoDup(s) && n <= |s|
    ensures RemoveAll(s, s[..n]) == s[n..]
  {
    var head, tail := s[..n], s[n..];
    assert s == head + tail;
    RemoveAllAppend(head, tail, head);
    RemoveAllDropsAll(head, head);
    forall x | x in tail ensures x !in head {
      var j :| 0 <= j < |tail| && tail[j] == x;
      assert tail[j] == s[n + j];
    }
    RemoveAllKeepsAll(tail, head);
  }

  lemma AddUniqueSpec<T>(s: seq<T>, x: T)
    ensures x in AddUnique(s, x)
    ensures forall y :: y in AddUnique(s, x) <==> y in s || y == x
    ensures NoDup(s) ==> NoDup(AddUnique(s, x))
    ensures AddUnique(AddUnique(s, x), x) == AddUnique(s, x)
  {
  }

  /** `Array.from(new Set(s))` has no duplicates and the same members as `s`. */
  lemma {:induction false} DedupSpec<T>(s: seq<T>)
    ensures NoDup(Dedup(s))
    ensures forall x :: x in Dedup(s) <==> x in s
  {
    if s != [] {
      var init, last := s[..|s| - 1], s[|s| - 1];
      DedupSpec(init);
      AddUniqueSpec(Dedup(init), last);
      assert s == init + [last];
    }
  }

  /** Splitting off the last element of a duplicate-free sequence. */
  lemma NoDupInit<T>(s: seq<T>)
    requires NoDup(s) && s != []
    ensures NoDup(s[..|s| - 1]) && s[|s| - 1] !in s[..|s| - 1]
  {
    var init := s[..|s| - 1];
    forall i, j | 0 <= i < j < |init| ensures init[i] != init[j] {
      assert init[i] == s[i] && init[j] == s[j];
    }
    forall i | 0 <= i < |init| ensures init[i] != s[|s| - 1] {
      assert init[i] == s[i];
    }
  }

  /** Appending an absent element to an already deduplicated prefix. */
  lemma DedupStep<T>(init: seq<T>, x: T)
    requires Dedup(init) == init && x !in init
    ensures Dedup(init + [x]) == init + [x]
  {
    var s := init + [x];
    assert s[..|s| - 1] == init;
  }

  /** On a sequence that is already duplicate-free, `Array.from(new Set(s))` changes nothing. */
  lemma {:induction false} DedupOfNoDup<T>(s: seq<T>)
    requires NoDup(s)
    ensures Dedup(s) == s
  {
    if s != [] {
      var init, x := s[..|s| - 1], s[|s| - 1];
      assert s == init + [x];
      NoDupInit(s);
      DedupOfNoDup(init);
      DedupStep(init, x);
    }
  }
}
