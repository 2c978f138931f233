/** Primary keys of the two tables.

    Both tables use an integer primary key. The store picks a new key the way
    SQLite picks a rowid when none is given: one more than the largest key in
    the table, or 1 when the table is empty. Listing queries without an
    ORDER BY return rows in key order, which `SortedKeys` provides.
 */
module Ids {

  /** Every finite non-empty set of naturals has a least element. */
  lemma {:induction false} LeastElement(s: set<nat>) returns (m: nat)
    requires s != {}
    ensures m in s && forall x :: x in s ==> m <= x
  {
    var y :| y in s;
    if s == {y} {
      m := y;
    } else {
      var m' := LeastElement(s - {y});
      m := if y < m' then y else m';
      forall x | x in s ensures m <= x {
        if x != y { assert x in s - {y}; }
      }
    }
  }

  /** Every finite non-empty set of naturals has a greatest element. */
  lemma {:induction false} GreatestElement(s: set<nat>) returns (m: nat)
    requires s != {}
    ensures m in s && forall x :: x in s ==> x <= m
  {
    var y :| y in s;
    if s == {y} {
      m := y;
    } else {
      var m' := GreatestElement(s - {y});
      m := if m' < y then y else m';
      forall x | x in s ensures x <= m {
        if x != y { assert x in s - {y}; }
      }
    }
  }

  /** The least element of a non-empty set. */
  function Min(s: set<nat>): (m: nat)
    requires s != {}
    ensures m in s
    ensures forall x :: x in s ==> m <= x
  {
    assert exists m :: m in s && forall x :: x in s ==> m <= x by {
      var w := LeastElement(s);
    }
    var m :| m in s && forall x :: x in s ==> m <= x;
    m
  }

  /** The greatest element of a non-empty set. */
  function Max(s: set<nat>): (m: nat)
    requires s != {}
    ensures m in s
    ensures forall x :: x in s ==> x <= m
  {
    assert exists m :: m in s && forall x :: x in s ==> x <= m by {
      var w := GreatestElement(s);
    }
    var m :| m in s && forall x :: x in s ==> x <= m;
    m
  }

  /** The key the store gives a new row: above every key in use, and 1 for an
      empty table. */
  function FreshId(keys: set<nat>): (id: nat)
    ensures id !in keys
    ensures forall k :: k in keys ==> k < id
    ensures keys == {} ==> id == 1
    ensures keys != {} ==> id - 1 in keys
  {
    if keys == {} then 1 else Max(keys) + 1
  }

  /** What `SortedKeys` promises about its result. */
  ghost predicate SortedListing(keys: set<nat>, r: seq<nat>)
  {
    && |r| == |keys|
    && (forall i :: 0 <= i < |r| ==> r[i] in keys)
    && (forall x :: x in keys ==> x in r)
    && (forall i, j :: 0 <= i < j < |r| ==> r[i] < r[j])
  }

  /** Putting the least key in front of a listing of the others lists all. */
  lemma ConsListing(keys: set<nat>, m: nat, rest: seq<nat>)
    requires m in keys && forall x :: x in keys ==> m <= x
    requires SortedListing(keys - {m}, rest)
    ensures SortedListing(keys, [m] + rest)
  {
    var r := [m] + rest;
    assert forall x :: x in keys ==> x == m || x in keys - {m};
    forall i, j | 0 <= i < j < |r| ensures r[i] < r[j] {
      assert r[j] == rest[j - 1] && r[j] in keys - {m};
      if i > 0 { assert r[i] == rest[i - 1]; }
    }
  }

  /** The keys of a table in ascending order. */
  function SortedKeys(keys: set<nat>): (r: seq<nat>)
    ensures SortedListing(keys, r)
    decreases keys
  {
    if keys == {} then []
    else
      var m := Min(keys);
      var rest := SortedKeys(keys - {m});
      ConsListing(keys, m, rest);
      [m] + rest
  }
}
