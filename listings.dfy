/**
 * Sorted string listings: Go's `sort.Strings` over a slice, and the
 * ascending, duplicate-free listing of a set of keys that several
 * commands print or join.
 */
module Listings {
  import opened Text
  import opened Sorting

  /** `s` lists the set `keys` in ascending order, each key once. */
  ghost predicate SortedListing(s: seq<string>, keys: set<string>) {
    && SortedBy(s, StrLe)
    && NoDuplicates(s)
    && (forall x :: x in s <==> x in keys)
  }

  lemma StrLeIsTotalPreorder()
    ensures TotalPreorder(StrLe)
  {
    forall x, y ensures StrLe(x, y) || StrLe(y, x) {
      StrLeTotal(x, y);
    }
    forall x, y, z | StrLe(x, y) && StrLe(y, z) ensures StrLe(x, z) {
      StrLeTransitive(x, y, z);
    }
  }

  /** The sorted listing of a set of keys is unique, so a message built from it is determined. */
  lemma {:induction false} SortedListingUnique(s: seq<string>, t: seq<string>, keys: set<string>)
    requires SortedListing(s, keys) && SortedListing(t, keys)
    ensures s == t
    decreases |s|
  {
    if s != [] {
      assert s[0] in t;
      assert t != [];
      assert t[0] in s;
      assert StrLe(s[0], t[0]) by {
        var j :| 0 <= j < |s| && s[j] == t[0];
        if j > 0 {
          ghost var le := StrLe;
          assert SortedBy(s, le);
          assert le(s[0], s[j]);
        } else {
          StrLeTotal(s[0], s[0]);
        }
      }
      assert StrLe(t[0], s[0]) by {
        var j :| 0 <= j < |t| && t[j] == s[0];
        if j > 0 {
          ghost var le := StrLe;
          assert SortedBy(t, le);
          assert le(t[0], t[j]);
        } else {
          StrLeTotal(t[0], t[0]);
        }
      }
      StrLeAntisymmetric(s[0], t[0]);
      var x := s[0];
      TailListing(s, keys);
      TailListing(t, keys);
      SortedListingUnique(s[1..], t[1..], keys - {x});
      assert s == [x] + s[1..];
      assert t == [x] + t[1..];
    } else {
      assert keys == {};
      forall x
        ensures x !in multiset(t)
      {
        assert x in multiset(t) <==> x in t;
        assert x in t <==> x in keys;
      }
      assert multiset(t) == multiset{};
    }
  }

  /** Dropping the head of a sorted listing lists the other keys. */
  lemma TailListing(s: seq<string>, keys: set<string>)
    requires SortedListing(s, keys) && s != []
    ensures SortedListing(s[1..], keys - {s[0]})
  {
    SortedTail(s, StrLe);
    TailNoDuplicates(s);
    forall x
      ensures x in s[1..] <==> x in keys - {s[0]}
    {
      if x in s[1..] {
        var j :| 0 <= j < |s[1..]| && s[1..][j] == x;
        NoDuplicatesDistinct(s, 0, j + 1);
      }
      if x in keys - {s[0]} {
        var j :| 0 <= j < |s| && s[j] == x;
        assert s[1..][j - 1] == x;
      }
    }
  }

  lemma SortedTail<T>(s: seq<T>, le: (T, T) -> bool)
    requires SortedBy(s, le) && s != []
    ensures SortedBy(s[1..], le)
  {
    var tail := s[1..];
    forall i, j | 0 <= i < j < |tail|
      ensures le(tail[i], tail[j])
    {
      assert tail[i] == s[i + 1] && tail[j] == s[j + 1];
    }
  }

  lemma TailNoDuplicates(s: seq<string>)
    requires NoDuplicates(s) && s != []
    ensures NoDuplicates(s[1..])
  {
    assert s == [s[0]] + s[1..];
    assert multiset(s) == multiset{s[0]} + multiset(s[1..]);
    forall x
      ensures multiset(s[1..])[x] <= 1
    {
      assert multiset(s)[x] == multiset{s[0]}[x] + multiset(s[1..])[x];
    }
  }

  /** sort.Strings on a copy of `s`: the same strings, ascending. */
  method SortStrings(s: seq<string>) returns (sorted: seq<string>)
    ensures SortedBy(sorted, StrLe)
    ensures multiset(sorted) == multiset(s)
  {
    var a := new string[|s|](i requires 0 <= i < |s| => s[i]);
    assert a[..] == s;
    StrLeIsTotalPreorder();
    SortBy(a, StrLe);
    sorted := a[..];
  }
}
