/** `DataFrame.drop_duplicates()` on the customer rows: full-row equality,
    keeping the first occurrence of each row. */
module Dedup {

  /** No two positions of `s` hold equal values. */
  predicate NoDuplicates<T(==, !new)>(s: seq<T>) {
    forall i, j | 0 <= i < j < |s| :: s[i] != s[j]
  }

  /** Row i survives when no equal row comes before it (keep="first"). */
  function DropDuplicates<T(==, !new)>(rows: seq<T>): (kept: seq<T>)
    ensures forall x :: x in kept <==> x in rows
    ensures NoDuplicates(kept)
    decreases |rows|
  {
    if rows == [] then []
    else
      var prefix := rows[..|rows| - 1];
      var last := rows[|rows| - 1];
      if last in prefix then DropDuplicates(prefix) else DropDuplicates(prefix) + [last]
  }

  /** The position of the first occurrence of `x` in `rows`. */
  function FirstIndex<T(==, !new)>(rows: seq<T>, x: T): (i: nat)
    requires x in rows
    ensures i < |rows| && rows[i] == x && x !in rows[..i]
    decreases |rows|
  {
    var prefix := rows[..|rows| - 1];
    if x in prefix then FirstIndex(prefix, x) else |rows| - 1
  }

  lemma OrderAt<T(!new)>(rows: seq<T>, s: seq<T>, a: int, b: int)
    requires forall x | x in s :: x in rows
    requires InFirstOccurrenceOrder(rows, s)
    requires 0 <= a < b < |s|
    ensures s[a] in rows && s[b] in rows && FirstIndex(rows, s[a]) < FirstIndex(rows, s[b])
  {
  }

  lemma HeadIsMember<T>(s: seq<T>)
    requires s != []
    ensures s[0] in s
  {
  }

  /** The surviving rows appear in the order of their first occurrences. */
  predicate InFirstOccurrenceOrder<T(==, !new)>(rows: seq<T>, kept: seq<T>)
    requires forall x | x in kept :: x in rows
  {
    forall a, b | 0 <= a < b < |kept| :: FirstIndex(rows, kept[a]) < FirstIndex(rows, kept[b])
  }

  lemma {:induction false} DropDuplicatesKeepsFirstOccurrenceOrder<T(!new)>(rows: seq<T>)
    ensures InFirstOccurrenceOrder(rows, DropDuplicates(rows))
    decreases |rows|
  {
    if rows != [] {
      var prefix := rows[..|rows| - 1];
      var last := rows[|rows| - 1];
      DropDuplicatesKeepsFirstOccurrenceOrder(prefix);
      var kept := DropDuplicates(prefix);
      forall x | x in prefix ensures FirstIndex(rows, x) == FirstIndex(prefix, x) < |prefix| { }
      if last !in prefix {
        assert FirstIndex(rows, last) == |prefix|;
      }
    }
  }

  /** Membership, the absence of duplicates and first-occurrence order
      determine the result: any sequence with all three is DropDuplicates(rows). */
  lemma {:induction false} DropDuplicatesIsUnique<T(!new)>(rows: seq<T>, s: seq<T>)
    requires forall x :: x in s <==> x in rows
    requires NoDuplicates(s)
    requires InFirstOccurrenceOrder(rows, s)
    ensures s == DropDuplicates(rows)
    decreases |rows|
  {
    if rows == [] {
      if s != [] {
        HeadIsMember(s);
        assert false;
      }
    } else {
      var prefix := rows[..|rows| - 1];
      var last := rows[|rows| - 1];
      forall x | x in prefix ensures FirstIndex(rows, x) == FirstIndex(prefix, x) < |prefix| { }
      if last in prefix {
        assert forall x :: x in rows <==> x in prefix;
        DropDuplicatesIsUnique(prefix, s);
      } else {
        var s' := UniqueLastStep(rows, s);
        DropDuplicatesIsUnique(prefix, s');
      }
    }
  }

  /** In a sequence with the rows' members, no duplicates and first-occurrence
      order, a last row that occurs nowhere earlier comes last, and what
      precedes it has the same three properties with respect to the earlier rows. */
  lemma UniqueLastStep<T(!new)>(rows: seq<T>, s: seq<T>) returns (s': seq<T>)
    requires rows != [] && rows[|rows| - 1] !in rows[..|rows| - 1]
    requires forall x :: x in s <==> x in rows
    requires NoDuplicates(s)
    requires InFirstOccurrenceOrder(rows, s)
    ensures s == s' + [rows[|rows| - 1]]
    ensures forall x :: x in s' <==> x in rows[..|rows| - 1]
    ensures NoDuplicates(s')
    ensures InFirstOccurrenceOrder(rows[..|rows| - 1], s')
  {
    var prefix := rows[..|rows| - 1];
    var last := rows[|rows| - 1];
    forall x | x in prefix ensures FirstIndex(rows, x) == FirstIndex(prefix, x) < |prefix| { }
    assert last in rows;
    var m :| 0 <= m < |s| && s[m] == last;
    assert FirstIndex(rows, last) == |prefix|;
    assert forall x | x in rows && x != last :: x in prefix;
    if m < |s| - 1 {
      OrderAt(rows, s, m, m + 1);
      assert false;
    }
    s' := s[..|s| - 1];
    assert s == s' + [last];
    forall x ensures x in s' <==> x in prefix {
      if x in s' {
        var k :| 0 <= k < |s'| && s'[k] == x;
        assert s[k] != s[|s| - 1];
      }
      if x in prefix {
        assert x in s;
        assert x != last;
      }
    }
    assert InFirstOccurrenceOrder(prefix, s') by {
      forall a, b | 0 <= a < b < |s'| ensures FirstIndex(prefix, s'[a]) < FirstIndex(prefix, s'[b]) {
        assert s'[a] == s[a] && s'[b] == s[b];
      }
    }
  }

  /** Dropping duplicates never adds rows. */
  lemma {:induction false} DropDuplicatesIsShorter<T(!new)>(rows: seq<T>)
    ensures |DropDuplicates(rows)| <= |rows|
    decreases |rows|
  {
    if rows != [] {
      DropDuplicatesIsShorter(rows[..|rows| - 1]);
    }
  }
}
