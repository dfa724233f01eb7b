/**
 * The bookmark update shared by the resource and formula pages: a key
 * already bookmarked is removed (every copy of it), any other key is
 * appended.
 */
module Bookmarks {
  import Seqs

  predicate NoDuplicates<T(==)>(s: seq<T>)
  {
    forall i, j :: 0 <= i < j < |s| ==> s[i] != s[j]
  }

  /**
   * The list `handleBookmark` computes from the previous one: a bookmarked
   * key is gone afterwards and the list is shorter; a new key is put at the
   * end behind the unchanged list.
   */
  function Toggle<T(==)>(list: seq<T>, key: T): (r: seq<T>)
    ensures key in list ==> key !in r && |r| < |list|
    ensures key !in list ==> |r| == |list| + 1 && r[..|list|] == list && r[|list|] == key
  {
    if key in list then
      var other := (y: T) => y != key;
      var same := (y: T) => y == key;
      Seqs.FilterMembers(other, list);
      Seqs.FilterMembers(same, list);
      Seqs.FilterPartition(other, same, list);
      assert key in Seqs.Filter(same, list);
      Seqs.Filter(other, list)
    else
      list + [key]
  }

  /** The key's membership flips and nobody else's changes. */
  lemma {:induction false} ToggleMembership<T>(list: seq<T>, key: T)
    ensures key in Toggle(list, key) <==> key !in list
    ensures forall y :: y != key ==> (y in Toggle(list, key) <==> y in list)
  {
    Seqs.FilterMembers((y: T) => y != key, list);
  }

  /** Toggling the same key twice restores every membership. */
  lemma ToggleTwiceMembership<T>(list: seq<T>, key: T)
    ensures forall y :: y in Toggle(Toggle(list, key), key) <==> y in list
  {
    ToggleMembership(list, key);
    ToggleMembership(Toggle(list, key), key);
  }

  /** From a list without the key, toggling twice gives back the same list. */
  lemma ToggleAbsentTwice<T>(list: seq<T>, key: T)
    requires key !in list
    ensures Toggle(Toggle(list, key), key) == list
  {
    var added := list + [key];
    assert key in added;
    Seqs.FilterAll((y: T) => y != key, list);
    Seqs.FilterAppend((y: T) => y != key, list, [key]);
    assert Seqs.Filter((y: T) => y != key, [key]) == [];
  }

  /** A filter keeps a list free of duplicates. */
  lemma {:induction false} FilterNoDuplicates<T>(p: T -> bool, s: seq<T>)
    requires NoDuplicates(s)
    ensures NoDuplicates(Seqs.Filter(p, s))
  {
    if s != [] {
      assert NoDuplicates(s[1..]) by {
        forall i, j | 0 <= i < j < |s[1..]| ensures s[1..][i] != s[1..][j] {
          assert s[1..][i] == s[i + 1] && s[1..][j] == s[j + 1];
        }
      }
      FilterNoDuplicates(p, s[1..]);
      Seqs.FilterMembers(p, s[1..]);
      assert s[0] !in s[1..];
      var r := Seqs.Filter(p, s);
      if p(s[0]) {
        assert r == [s[0]] + Seqs.Filter(p, s[1..]);
        forall i, j | 0 <= i < j < |r| ensures r[i] != r[j] {
          if i == 0 {
            assert r[j] in Seqs.Filter(p, s[1..]);
          } else {
            assert r[i] == Seqs.Filter(p, s[1..])[i - 1] && r[j] == Seqs.Filter(p, s[1..])[j - 1];
          }
        }
      }
    }
  }

  /** A bookmark list without duplicates stays without duplicates. */
  lemma ToggleNoDuplicates<T>(list: seq<T>, key: T)
    requires NoDuplicates(list)
    ensures NoDuplicates(Toggle(list, key))
  {
    if key in list {
      FilterNoDuplicates((y: T) => y != key, list);
    } else {
      var r := list + [key];
      forall i, j | 0 <= i < j < |r| ensures r[i] != r[j] {
        if j == |list| {
          assert r[i] == list[i];
        }
      }
    }
  }
}
