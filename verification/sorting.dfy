/**
 * `sortItems`: orders the filtered records by the configured key, ascending
 * when the order is "asc" and descending for any other value. Its comparator
 * never answers "equal", so the relative order of records with equal
 * keys is left to the host's sort; this model takes a stable insertion
 * sort, and its contract promises only a permutation in key order.
 */
module Sorting {
  import opened Text
  import opened Records

  /** A comparison key: a date as an instant, or a lower-cased string. */
  datatype Key = Instant(ms: int) | Word(s: string)

  /** `a < b` on keys; instants are all placed before words, a case no single sort field produces. */
  predicate KeyLess(a: Key, b: Key) {
    match (a, b)
    case (Instant(x), Instant(y)) => x < y
    case (Word(x), Word(y)) => LexLess(x, y)
    case (Instant(_), Word(_)) => true
    case (Word(_), Instant(_)) => false
  }

  /** The key of item under sortBy; an unrecognised field falls back to the creation date. */
  function SortKey(item: Request, sortBy: string): Key {
    if sortBy == "dateModified" then Instant(item.dateModified)
    else if sortBy == "title" then Word(ToLower(item.title))
    else if sortBy == "type" then Word(ToLower(item.kind))
    else Instant(item.dateCreated)
  }

  /** a must come before b: its key is strictly smaller (ascending) or strictly larger (descending). */
  predicate Ahead(a: Request, b: Request, sortBy: string, ascending: bool) {
    if ascending then KeyLess(SortKey(a, sortBy), SortKey(b, sortBy))
    else KeyLess(SortKey(b, sortBy), SortKey(a, sortBy))
  }

  /** No record is placed after one it must come before. */
  predicate InOrder(s: seq<Request>, sortBy: string, ascending: bool) {
    forall i, j :: 0 <= i < j < |s| ==> !Ahead(s[j], s[i], sortBy, ascending)
  }

  lemma KeyLessIrreflexive(a: Key)
    ensures !KeyLess(a, a)
  {
    if a.Word? {
      LexLessIrreflexive(a.s);
    }
  }

  lemma KeyLessTransitive(a: Key, b: Key, c: Key)
    requires KeyLess(a, b) && KeyLess(b, c)
    ensures KeyLess(a, c)
  {
    if a.Word? && b.Word? && c.Word? {
      LexLessTransitive(a.s, b.s, c.s);
    }
  }

  /** Not-less is transitive: keys form a total order. */
  lemma KeyNotLessTransitive(a: Key, b: Key, c: Key)
    requires !KeyLess(a, b) && !KeyLess(b, c)
    ensures !KeyLess(a, c)
  {
    if a != b {
      KeyLessTotal(a, b);
      if KeyLess(a, c) {
        KeyLessTransitive(b, a, c);
      }
    }
  }

  lemma KeyLessAsymmetric(a: Key, b: Key)
    requires KeyLess(a, b)
    ensures !KeyLess(b, a)
  {
    if KeyLess(b, a) {
      KeyLessTransitive(a, b, a);
      KeyLessIrreflexive(a);
    }
  }

  lemma KeyLessTotal(a: Key, b: Key)
    requires a != b
    ensures KeyLess(a, b) || KeyLess(b, a)
  {
    if a.Word? && b.Word? {
      LexLessTotal(a.s, b.s);
    }
  }

  /** If x need not follow the first record of an ordered s, it need not follow any. */
  lemma NotBehindFirst(x: Request, s: seq<Request>, sortBy: string, ascending: bool)
    requires InOrder(s, sortBy, ascending) && |s| > 0
    requires !Ahead(s[0], x, sortBy, ascending)
    ensures forall j :: 0 <= j < |s| ==> !Ahead(s[j], x, sortBy, ascending)
  {
    forall j | 0 < j < |s|
      ensures !Ahead(s[j], x, sortBy, ascending)
    {
      if ascending {
        KeyNotLessTransitive(SortKey(s[j], sortBy), SortKey(s[0], sortBy), SortKey(x, sortBy));
      } else {
        KeyNotLessTransitive(SortKey(x, sortBy), SortKey(s[0], sortBy), SortKey(s[j], sortBy));
      }
    }
  }

  /**
   * The first record of an ordered s may stay in front of any rearrangement
   * of the other records together with a record x that must follow it.
   */
  lemma HeadStaysAhead(x: Request, s: seq<Request>, rest: seq<Request>, sortBy: string, ascending: bool)
    requires InOrder(s, sortBy, ascending) && |s| > 0
    requires Ahead(s[0], x, sortBy, ascending)
    requires multiset(rest) == multiset(s[1..]) + multiset{x}
    ensures forall j :: 0 <= j < |rest| ==> !Ahead(rest[j], s[0], sortBy, ascending)
  {
    if ascending {
      KeyLessAsymmetric(SortKey(s[0], sortBy), SortKey(x, sortBy));
    } else {
      KeyLessAsymmetric(SortKey(x, sortBy), SortKey(s[0], sortBy));
    }
    forall j | 0 <= j < |rest|
      ensures !Ahead(rest[j], s[0], sortBy, ascending)
    {
      assert rest[j] in multiset(rest);
      if rest[j] != x {
        assert rest[j] in multiset(s[1..]);
        var k :| 0 <= k < |s[1..]| && s[1..][k] == rest[j];
        assert s[k + 1] == rest[j];
      }
    }
  }

  /** Putting in front a record that no later record must precede keeps the order. */
  lemma ConsInOrder(y: Request, t: seq<Request>, sortBy: string, ascending: bool)
    requires InOrder(t, sortBy, ascending)
    requires forall j :: 0 <= j < |t| ==> !Ahead(t[j], y, sortBy, ascending)
    ensures InOrder([y] + t, sortBy, ascending)
  {
    var r := [y] + t;
    forall i, j | 0 <= i < j < |r| ensures !Ahead(r[j], r[i], sortBy, ascending) {
      assert r[j] == t[j - 1];
      if i > 0 {
        assert r[i] == t[i - 1];
      }
    }
  }

  /** Inserts x before the first record it need not follow. */
  function Insert(x: Request, s: seq<Request>, sortBy: string, ascending: bool): (r: seq<Request>)
    requires InOrder(s, sortBy, ascending)
    ensures multiset(r) == multiset(s) + multiset{x}
    ensures InOrder(r, sortBy, ascending)
  {
    if |s| == 0 then [x]
    else if !Ahead(s[0], x, sortBy, ascending) then
      NotBehindFirst(x, s, sortBy, ascending);
      ConsInOrder(x, s, sortBy, ascending);
      [x] + s
    else
      var rest := Insert(x, s[1..], sortBy, ascending);
      assert s == [s[0]] + s[1..];
      HeadStaysAhead(x, s, rest, sortBy, ascending);
      ConsInOrder(s[0], rest, sortBy, ascending);
      [s[0]] + rest
  }

  /** Insertion sort of s. */
  function SortBy(s: seq<Request>, sortBy: string, ascending: bool): (r: seq<Request>)
    ensures multiset(r) == multiset(s)
    ensures InOrder(r, sortBy, ascending)
  {
    if |s| == 0 then []
    else
      assert s == [s[0]] + s[1..];
      Insert(s[0], SortBy(s[1..], sortBy, ascending), sortBy, ascending)
  }

  /**
   * `sortItems`: a permutation of the records; with order "asc" no key is
   * smaller than an earlier one, with any other order no key is larger than an
   * earlier one.
   */
  function SortItems(items: seq<Request>, sortBy: string, sortOrder: string): (r: seq<Request>)
    ensures multiset(r) == multiset(items)
    ensures |r| == |items|
    ensures sortOrder == "asc" ==>
      forall i, j :: 0 <= i < j < |r| ==> !KeyLess(SortKey(r[j], sortBy), SortKey(r[i], sortBy))
    ensures sortOrder != "asc" ==>
      forall i, j :: 0 <= i < j < |r| ==> !KeyLess(SortKey(r[i], sortBy), SortKey(r[j], sortBy))
  {
    var r := SortBy(items, sortBy, sortOrder == "asc");
    assert |r| == |multiset(r)| == |multiset(items)| == |items|;
    r
  }

  /** An unrecognised sort field orders exactly like "dateCreated". */
  lemma {:induction false} UnknownFieldSortsByCreation(items: seq<Request>, sortBy: string, sortOrder: string)
    requires sortBy != "dateCreated" && sortBy != "dateModified" && sortBy != "title" && sortBy != "type"
    ensures SortItems(items, sortBy, sortOrder) == SortItems(items, "dateCreated", sortOrder)
  {
    SameKeysSameOrder(items, sortBy, "dateCreated", sortOrder == "asc");
  }

  /** Two fields that give every record the same key sort identically. */
  lemma {:induction false} SameKeysSameOrder(items: seq<Request>, by1: string, by2: string, ascending: bool)
    requires forall x :: SortKey(x, by1) == SortKey(x, by2)
    ensures SortBy(items, by1, ascending) == SortBy(items, by2, ascending)
  {
    if |items| > 0 {
      SameKeysSameOrder(items[1..], by1, by2, ascending);
      InsertSameKeys(items[0], SortBy(items[1..], by1, ascending), by1, by2, ascending);
    }
  }

  lemma {:induction false} InsertSameKeys(x: Request, s: seq<Request>, by1: string, by2: string, ascending: bool)
    requires forall y :: SortKey(y, by1) == SortKey(y, by2)
    requires InOrder(s, by1, ascending) && InOrder(s, by2, ascending)
    ensures Insert(x, s, by1, ascending) == Insert(x, s, by2, ascending)
  {
    if |s| > 0 {
      assert Ahead(s[0], x, by1, ascending) == Ahead(s[0], x, by2, ascending);
      if Ahead(s[0], x, by1, ascending) {
        InsertSameKeys(x, s[1..], by1, by2, ascending);
      }
    }
  }

  /** Within items, records with the same key are the same record. */
  predicate KeysIdentify(items: seq<Request>, sortBy: string) {
    forall x, y :: x in items && y in items && SortKey(x, sortBy) == SortKey(y, sortBy) ==> x == y
  }

  /** s backwards. */
  function Reverse<T>(s: seq<T>): (r: seq<T>)
    ensures |r| == |s|
    ensures forall i :: 0 <= i < |s| ==> r[i] == s[|s| - 1 - i]
    ensures multiset(r) == multiset(s)
  {
    if |s| == 0 then []
    else
      assert s == [s[0]] + s[1..];
      Reverse(s[1..]) + [s[0]]
  }

  /** Dropping the first record keeps a sequence in order. */
  lemma TailInOrder(s: seq<Request>, sortBy: string, ascending: bool)
    requires |s| > 0 && InOrder(s, sortBy, ascending)
    ensures InOrder(s[1..], sortBy, ascending)
  {
    forall i, j | 0 <= i < j < |s| - 1 ensures !Ahead(s[1..][j], s[1..][i], sortBy, ascending) {
      assert s[1..][j] == s[j + 1] && s[1..][i] == s[i + 1];
    }
  }

  /** Of two records, one must come first unless their keys are equal. */
  lemma AheadOneWay(x: Request, y: Request, sortBy: string, ascending: bool)
    ensures SortKey(x, sortBy) == SortKey(y, sortBy) || Ahead(x, y, sortBy, ascending) || Ahead(y, x, sortBy, ascending)
  {
    if SortKey(x, sortBy) != SortKey(y, sortBy) {
      KeyLessTotal(SortKey(x, sortBy), SortKey(y, sortBy));
    }
  }

  /** Two sorted permutations of records identified by their keys start with the same record. */
  lemma SortedHeadsAgree(a: seq<Request>, b: seq<Request>, sortBy: string, ascending: bool)
    requires |a| > 0 && |b| > 0
    requires multiset(a) == multiset(b)
    requires InOrder(a, sortBy, ascending) && InOrder(b, sortBy, ascending)
    requires KeysIdentify(a, sortBy)
    ensures a[0] == b[0]
  {
    assert a[0] in multiset(b) && b[0] in multiset(a);
    var k :| 0 <= k < |a| && a[k] == b[0];
    var m :| 0 <= m < |b| && b[m] == a[0];
    AheadOneWay(a[0], b[0], sortBy, ascending);
    KeyLessIrreflexive(SortKey(a[0], sortBy));
    KeyLessIrreflexive(SortKey(b[0], sortBy));
    assert !Ahead(b[0], a[0], sortBy, ascending) by {
      if k > 0 {
        assert !Ahead(a[k], a[0], sortBy, ascending);
      }
    }
    assert !Ahead(a[0], b[0], sortBy, ascending) by {
      if m > 0 {
        assert !Ahead(b[m], b[0], sortBy, ascending);
      }
    }
  }

  /**
   * When keys identify records, there is only one arrangement in key order:
   * two sorted permutations of the same records are equal.
   */
  lemma {:induction false} SortedIsUnique(a: seq<Request>, b: seq<Request>, sortBy: string, ascending: bool)
    requires multiset(a) == multiset(b)
    requires InOrder(a, sortBy, ascending) && InOrder(b, sortBy, ascending)
    requires KeysIdentify(a, sortBy)
    ensures a == b
    decreases |a|
  {
    assert |a| == |multiset(a)| == |multiset(b)| == |b|;
    if |a| > 0 {
      SortedHeadsAgree(a, b, sortBy, ascending);
      assert a == [a[0]] + a[1..] && b == [b[0]] + b[1..];
      assert multiset(a[1..]) == multiset(a) - multiset{a[0]};
      assert multiset(b[1..]) == multiset(b) - multiset{b[0]};
      TailInOrder(a, sortBy, ascending);
      TailInOrder(b, sortBy, ascending);
      assert forall x :: x in a[1..] ==> x in a;
      SortedIsUnique(a[1..], b[1..], sortBy, ascending);
    }
  }

  /** Reversing an ascending sequence gives a descending one. */
  lemma ReverseInOrder(s: seq<Request>, sortBy: string)
    requires InOrder(s, sortBy, true)
    ensures InOrder(Reverse(s), sortBy, false)
  {
    var rev := Reverse(s);
    forall i, j | 0 <= i < j < |rev| ensures !Ahead(rev[j], rev[i], sortBy, false) {
      assert rev[j] == s[|s| - 1 - j] && rev[i] == s[|s| - 1 - i];
    }
  }

  /**
   * When keys identify records, any non-"asc" order lists exactly the reverse
   * of the "asc" order.
   */
  lemma {:induction false} DescendingReversesAscending(items: seq<Request>, sortBy: string, sortOrder: string)
    requires sortOrder != "asc"
    requires KeysIdentify(items, sortBy)
    ensures SortItems(items, sortBy, sortOrder) == Reverse(SortItems(items, sortBy, "asc"))
  {
    var up := SortBy(items, sortBy, true);
    var down := SortBy(items, sortBy, false);
    ReverseInOrder(up, sortBy);
    assert forall x :: x in down ==> x in multiset(items);
    SortedIsUnique(down, Reverse(up), sortBy, false);
  }
}
