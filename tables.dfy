/** Generic operations on tables held as sequences of rows: the shapes the ORM queries take
    once they are read as operations on plain collections (`findFirst`, `findMany` with a
    `where`, `orderBy`), and the uniqueness invariants of keyed columns. */
module Tables {
  import opened Wrappers

  /** Index of the first row satisfying `p` (`findFirst` / `findUnique`), if any. */
  function FindFirst<T>(rows: seq<T>, p: T -> bool): (r: Option<nat>)
    ensures r.Some? ==> r.value < |rows| && p(rows[r.value])
    ensures r.Some? ==> forall j :: 0 <= j < r.value ==> !p(rows[j])
    ensures r.None? <==> forall j :: 0 <= j < |rows| ==> !p(rows[j])
  {
    if rows == [] then None
    else if p(rows[0]) then Some(0)
    else match FindFirst(rows[1..], p)
      case None => None
      case Some(k) => Some(k + 1)
  }

  /** The rows satisfying `keep`, in stored order (`findMany` with a `where`). */
  function Filter<T(!new)>(rows: seq<T>, keep: T -> bool): (r: seq<T>)
    ensures |r| <= |rows|
    ensures forall x :: x in r <==> x in rows && keep(x)
    ensures forall x :: multiset(r)[x] == if keep(x) then multiset(rows)[x] else 0
  {
    if rows == [] then []
    else
      assert rows == [rows[0]] + rows[1..];
      if keep(rows[0]) then [rows[0]] + Filter(rows[1..], keep)
      else Filter(rows[1..], keep)
  }

  /** The table without the row at index `i` (a hard delete). */
  function RemoveAt<T>(rows: seq<T>, i: nat): (r: seq<T>)
    requires i < |rows|
    ensures |r| == |rows| - 1
    ensures forall j :: 0 <= j < i ==> r[j] == rows[j]
    ensures forall j :: i <= j < |r| ==> r[j] == rows[j + 1]
    ensures multiset(r) + multiset{rows[i]} == multiset(rows)
  {
    assert rows == rows[..i] + [rows[i]] + rows[i + 1..];
    rows[..i] + rows[i + 1..]
  }

  /** No two rows share a key. */
  ghost predicate UniqueBy<T, K>(rows: seq<T>, key: T -> K)
  {
    forall i, j :: 0 <= i < j < |rows| ==> key(rows[i]) != key(rows[j])
  }

  /** Every key is a positive number below `next`: the autoincrement counter is fresh. */
  ghost predicate KeysBelow<T>(rows: seq<T>, key: T -> int, next: int)
  {
    forall i :: 0 <= i < |rows| ==> 0 < key(rows[i]) < next
  }

  lemma AppendFreshKey<T>(rows: seq<T>, key: T -> int, next: int, x: T)
    requires UniqueBy(rows, key) && KeysBelow(rows, key, next)
    requires key(x) == next && next > 0
    ensures UniqueBy(rows + [x], key) && KeysBelow(rows + [x], key, next + 1)
  {
  }

  lemma AppendNewKey<T, K>(rows: seq<T>, key: T -> K, x: T)
    requires UniqueBy(rows, key)
    requires forall j :: 0 <= j < |rows| ==> key(rows[j]) != key(x)
    ensures UniqueBy(rows + [x], key)
  {
  }

  lemma ReplaceSameKey<T, K>(rows: seq<T>, key: T -> K, i: nat, x: T)
    requires i < |rows| && UniqueBy(rows, key)
    requires key(x) == key(rows[i])
    ensures UniqueBy(rows[i := x], key)
  {
    var r := rows[i := x];
    forall a, b | 0 <= a < b < |r| ensures key(r[a]) != key(r[b]) {
      assert key(r[a]) == key(rows[a]) && key(r[b]) == key(rows[b]);
    }
  }

  lemma RemoveKeepsKeys<T>(rows: seq<T>, key: T -> int, next: int, i: nat)
    requires i < |rows| && UniqueBy(rows, key) && KeysBelow(rows, key, next)
    ensures UniqueBy(RemoveAt(rows, i), key) && KeysBelow(RemoveAt(rows, i), key, next)
  {
    var r := RemoveAt(rows, i);
    forall a, b | 0 <= a < b < |r| ensures key(r[a]) != key(r[b]) {
      var a' := if a < i then a else a + 1;
      var b' := if b < i then b else b + 1;
      assert r[a] == rows[a'] && r[b] == rows[b'];
    }
  }

  /** `le` orders every pair and is transitive: a valid `orderBy`. */
  ghost predicate TotalPreorder<T(!new)>(le: (T, T) -> bool)
  {
    && (forall a, b :: le(a, b) || le(b, a))
    && (forall a, b, c :: le(a, b) && le(b, c) ==> le(a, c))
  }

  predicate SortedBy<T>(s: seq<T>, le: (T, T) -> bool)
  {
    forall i, j :: 0 <= i < j < |s| ==> le(s[i], s[j])
  }

  function Insert<T>(x: T, s: seq<T>, le: (T, T) -> bool): (r: seq<T>)
    ensures |r| == |s| + 1
    ensures multiset(r) == multiset(s) + multiset{x}
  {
    if s == [] then [x]
    else if le(x, s[0]) then [x] + s
    else
      assert s == [s[0]] + s[1..];
      [s[0]] + Insert(x, s[1..], le)
  }

  /** The rows ordered by `le` (`findMany` with an `orderBy`). */
  function SortBy<T>(s: seq<T>, le: (T, T) -> bool): (r: seq<T>)
    ensures |r| == |s|
    ensures multiset(r) == multiset(s)
  {
    if s == [] then []
    else
      assert s == [s[0]] + s[1..];
      Insert(s[0], SortBy(s[1..], le), le)
  }

  lemma {:induction false} InsertSorted<T(!new)>(x: T, s: seq<T>, le: (T, T) -> bool)
    requires TotalPreorder(le) && SortedBy(s, le)
    ensures SortedBy(Insert(x, s, le), le)
  {
    if s == [] {
    } else if le(x, s[0]) {
      var r := [x] + s;
      forall i, j | 0 <= i < j < |r| ensures le(r[i], r[j]) {
        if i == 0 && j > 1 {
          assert le(s[0], s[j - 1]);
        }
      }
    } else {
      assert le(s[0], x);
      var t := Insert(x, s[1..], le);
      InsertSorted(x, s[1..], le);
      var r := [s[0]] + t;
      forall i, j | 0 <= i < j < |r| ensures le(r[i], r[j]) {
        if i == 0 {
          var y := r[j];
          assert y in multiset(t);
          assert y in multiset(s[1..]) + multiset{x};
          if y != x {
            assert y in s[1..];
            var k :| 0 <= k < |s[1..]| && s[1..][k] == y;
            assert le(s[0], s[k + 1]);
          }
        }
      }
    }
  }

  /** SortBy yields a sequence ordered by `le` whenever `le` is a total preorder. */
  lemma {:induction false} SortBySorted<T(!new)>(s: seq<T>, le: (T, T) -> bool)
    requires TotalPreorder(le)
    ensures SortedBy(SortBy(s, le), le)
  {
    if s != [] {
      SortBySorted(s[1..], le);
      InsertSorted(s[0], SortBy(s[1..], le), le);
    }
  }
}
