/**
 * What the storage back ends' queries promise: lexicographic order on TEXT
 * columns (ISO-8601 timestamps are stored as text), `ORDER BY key DESC`,
 * SQLite's `LIMIT n` (a negative limit means no limit), lookup and deletion
 * by an `INTEGER PRIMARY KEY AUTOINCREMENT` id.
 */
module Tables {
  import opened Values

  /** `a <= b` under SQLite's BINARY collation (code-point order). */
  predicate LexLe(a: string, b: string)
    decreases |a|
  {
    a == [] || (b != [] && (a[0] < b[0] || (a[0] == b[0] && LexLe(a[1..], b[1..]))))
  }

  lemma {:induction false} LexTotal(a: string, b: string)
    ensures LexLe(a, b) || LexLe(b, a)
    decreases |a|
  {
    if a != [] && b != [] && a[0] == b[0] {
      LexTotal(a[1..], b[1..]);
    }
  }

  lemma {:induction false} LexTrans(a: string, b: string, c: string)
    requires LexLe(a, b) && LexLe(b, c)
    ensures LexLe(a, c)
    decreases |a|
  {
    if a != [] && b != [] && c != [] && a[0] == b[0] == c[0] {
      LexTrans(a[1..], b[1..], c[1..]);
    }
  }

  /** Ordered by `key` descending, as `ORDER BY key DESC` returns rows. */
  ghost predicate SortedDesc<T>(s: seq<T>, key: T -> string)
  {
    forall i, j | 0 <= i < j < |s| :: LexLe(key(s[j]), key(s[i]))
  }

  /** Inserts `x` before the first element whose key is not greater than its own. */
  function InsertDesc<T>(x: T, s: seq<T>, key: T -> string): (r: seq<T>)
    ensures multiset(r) == multiset(s) + multiset{x}
  {
    if s == [] then [x]
    else if LexLe(key(s[0]), key(x)) then [x] + s
    else
      assert s == [s[0]] + s[1..];
      [s[0]] + InsertDesc(x, s[1..], key)
  }

  /** The rows of `s`, newest (greatest key) first. */
  function SortDesc<T>(s: seq<T>, key: T -> string): (r: seq<T>)
    ensures multiset(r) == multiset(s)
  {
    if s == [] then []
    else
      assert s == [s[0]] + s[1..];
      InsertDesc(s[0], SortDesc(s[1..], key), key)
  }

  lemma {:induction false} InsertDescSorted<T>(x: T, s: seq<T>, key: T -> string)
    requires SortedDesc(s, key)
    ensures SortedDesc(InsertDesc(x, s, key), key)
    decreases |s|
  {
    if s == [] {
    } else if LexLe(key(s[0]), key(x)) {
      var r := [x] + s;
      forall i, j | 0 <= i < j < |r| ensures LexLe(key(r[j]), key(r[i])) {
        if i == 0 && j > 1 {
          LexTrans(key(s[j - 1]), key(s[0]), key(x));
        }
      }
    } else {
      LexTotal(key(s[0]), key(x));
      var rest := InsertDesc(x, s[1..], key);
      InsertDescSorted(x, s[1..], key);
      var r := [s[0]] + rest;
      forall j | 0 <= j < |rest| ensures LexLe(key(rest[j]), key(s[0])) {
        assert rest[j] in multiset(rest);
        if rest[j] != x {
          assert rest[j] in multiset(s[1..]);
          var k :| 0 <= k < |s[1..]| && s[1..][k] == rest[j];
          assert s[k + 1] == rest[j];
        }
      }
      forall i, j | 0 <= i < j < |r| ensures LexLe(key(r[j]), key(r[i])) {
        if i == 0 {
          assert r[j] == rest[j - 1];
        } else {
          assert r[i] == rest[i - 1] && r[j] == rest[j - 1];
        }
      }
    }
  }

  /** `ORDER BY key DESC` yields a permutation of the table ordered newest first. */
  lemma {:induction false} SortDescSorted<T>(s: seq<T>, key: T -> string)
    ensures SortedDesc(SortDesc(s, key), key)
    ensures multiset(SortDesc(s, key)) == multiset(s)
    decreases |s|
  {
    if s != [] {
      SortDescSorted(s[1..], key);
      InsertDescSorted(s[0], SortDesc(s[1..], key), key);
    }
  }

  /** SQLite `LIMIT limit`: at most `limit` rows, all of them when `limit` is negative. */
  function SqlLimit<T>(s: seq<T>, limit: int): (r: seq<T>)
    ensures limit < 0 ==> r == s
    ensures 0 <= limit ==> |r| == if limit < |s| then limit else |s|
    ensures |r| <= |s| && r == s[..|r|]
  {
    if limit < 0 || |s| <= limit then s else s[..limit]
  }

  /** `SELECT ... ORDER BY key DESC LIMIT limit` */
  function Recent<T>(rows: seq<T>, key: T -> string, limit: int): seq<T>
  {
    SqlLimit(SortDesc(rows, key), limit)
  }

  /** No row in `left` sorts after any row of `r`: nothing left out is newer than a row returned. */
  ghost predicate NoneNewer<T>(left: multiset<T>, r: seq<T>, key: T -> string)
  {
    forall x, i | x in left && 0 <= i < |r| :: LexLe(key(x), key(r[i]))
  }

  /**
   * A recent-N query returns at most `limit` rows (all when negative), each a
   * row of the table, newest first, and no row left out is newer than a row
   * returned.
   */
  lemma RecentSpec<T>(rows: seq<T>, key: T -> string, limit: int)
    ensures var r := Recent(rows, key, limit);
      && (0 <= limit ==> |r| <= limit)
      && |r| == (if 0 <= limit && limit < |rows| then limit else |rows|)
      && SortedDesc(r, key)
      && multiset(r) <= multiset(rows)
      && NoneNewer(multiset(rows) - multiset(r), r, key)
  {
    var sorted := SortDesc(rows, key);
    SortDescSorted(rows, key);
    var r := SqlLimit(sorted, limit);
    PrefixSplit(sorted, |r|);
    TailNotNewer(sorted, key, |r|);
  }

  /** Cutting a list after `n` rows: the rows left out are exactly the tail. */
  lemma PrefixSplit<T>(s: seq<T>, n: nat)
    requires n <= |s|
    ensures multiset(s[..n]) <= multiset(s)
    ensures multiset(s) - multiset(s[..n]) == multiset(s[n..])
  {
    assert s == s[..n] + s[n..];
  }

  /** In a list sorted newest first, the first `n` are sorted and nothing after them is newer than any of them. */
  lemma TailNotNewer<T>(sorted: seq<T>, key: T -> string, n: nat)
    requires SortedDesc(sorted, key) && n <= |sorted|
    ensures SortedDesc(sorted[..n], key)
    ensures NoneNewer(multiset(sorted[n..]), sorted[..n], key)
  {
    forall x, i | x in multiset(sorted[n..]) && 0 <= i < n
      ensures LexLe(key(x), key(sorted[..n][i]))
    {
      var j :| 0 <= j < |sorted[n..]| && sorted[n..][j] == x;
      assert sorted[n + j] == x;
    }
  }

  /** The rows whose id is `id` (at most one in a table keyed by id). */
  function FindById<T>(rows: seq<T>, id: T -> int, want: int): (r: seq<T>)
    ensures forall x | x in r :: x in rows && id(x) == want
    ensures forall x | x in rows && id(x) == want :: x in r
  {
    if rows == [] then []
    else (if id(rows[0]) == want then [rows[0]] else []) + FindById(rows[1..], id, want)
  }

  /** `SELECT ... WHERE id = ?` followed by `fetchone()`: the row with that id, or None. */
  function Lookup<T>(rows: seq<T>, id: T -> int, want: int): (r: Option<T>)
    ensures r.Some? ==> r.value in rows && id(r.value) == want
    ensures r.None? ==> forall i | 0 <= i < |rows| :: id(rows[i]) != want
  {
    if rows == [] then None
    else if id(rows[0]) == want then Some(rows[0])
    else Lookup(rows[1..], id, want)
  }

  /**
   * The table as AUTOINCREMENT keeps it: ids are positive, strictly
   * increasing in insertion order, and all below `next`, the id the next
   * insert receives.
   */
  ghost predicate AutoIncrement<T>(rows: seq<T>, id: T -> int, next: int)
  {
    && 1 <= next
    && (forall i, j | 0 <= i < j < |rows| :: id(rows[i]) < id(rows[j]))
    && (forall i | 0 <= i < |rows| :: 1 <= id(rows[i]) < next)
  }

  /** An id at or beyond `next`, or below 1, was never assigned: looking it up finds nothing. */
  lemma LookupNeverAssigned<T>(rows: seq<T>, id: T -> int, next: int, want: int)
    requires AutoIncrement(rows, id, next)
    requires want >= next || want < 1
    ensures Lookup(rows, id, want) == None
  {
  }

  /** Appending a row leaves the lookup of every other id unchanged. */
  lemma {:induction false} LookupAppendOther<T>(rows: seq<T>, id: T -> int, x: T, want: int)
    requires id(x) != want
    ensures Lookup(rows + [x], id, want) == Lookup(rows, id, want)
    decreases |rows|
  {
    if rows != [] {
      assert (rows + [x])[1..] == rows[1..] + [x];
      LookupAppendOther(rows[1..], id, x, want);
    }
  }

  /**
   * An insert under AUTOINCREMENT: the new row gets id `next`, is found by
   * it, every other lookup is unchanged, and the invariant holds with
   * `next + 1`.
   */
  lemma InsertAutoIncrement<T>(rows: seq<T>, id: T -> int, next: int, x: T)
    requires AutoIncrement(rows, id, next) && id(x) == next
    ensures AutoIncrement(rows + [x], id, next + 1)
    ensures Lookup(rows + [x], id, next) == Some(x)
  {
    LookupNeverAssigned(rows, id, next, next);
    LookupFindsLast(rows, id, x);
    var r := rows + [x];
    forall i | 0 <= i < |r| ensures 1 <= id(r[i]) < next + 1 {
      if i < |rows| {
        assert r[i] == rows[i];
      } else {
        assert r[i] == x;
      }
    }
    forall i, j | 0 <= i < j < |r| ensures id(r[i]) < id(r[j]) {
      assert r[i] == rows[i];
      if j < |rows| {
        assert r[j] == rows[j];
      }
    }
  }

  lemma {:induction false} LookupFindsLast<T>(rows: seq<T>, id: T -> int, x: T)
    requires forall i | 0 <= i < |rows| :: id(rows[i]) != id(x)
    ensures Lookup(rows + [x], id, id(x)) == Some(x)
    decreases |rows|
  {
    if rows != [] {
      assert (rows + [x])[1..] == rows[1..] + [x];
      LookupFindsLast(rows[1..], id, x);
    } else {
      assert [x][0] == x;
    }
  }

  /** `DELETE FROM ... WHERE id = ?`: every row with another id, in order. */
  function Remove<T>(rows: seq<T>, id: T -> int, want: int): (r: seq<T>)
    ensures |r| <= |rows|
    ensures forall x | x in r :: x in rows && id(x) != want
    ensures forall x | x in rows && id(x) != want :: x in r
  {
    if rows == [] then []
    else (if id(rows[0]) == want then [] else [rows[0]]) + Remove(rows[1..], id, want)
  }

  /** The number of rows a delete affects: `cursor.rowcount`. */
  function Affected<T>(rows: seq<T>, id: T -> int, want: int): (n: nat)
    ensures n == |rows| - |Remove(rows, id, want)|
  {
    if rows == [] then 0
    else (if id(rows[0]) == want then 1 else 0) + Affected(rows[1..], id, want)
  }

  /** A delete affects at least one row exactly when a row with that id exists. */
  lemma {:induction false} AffectedIffFound<T>(rows: seq<T>, id: T -> int, want: int)
    ensures Affected(rows, id, want) > 0 <==> Lookup(rows, id, want).Some?
    decreases |rows|
  {
    if rows != [] && id(rows[0]) != want {
      AffectedIffFound(rows[1..], id, want);
    }
  }

  /** After a delete no row has that id. */
  lemma RemoveGone<T>(rows: seq<T>, id: T -> int, want: int)
    ensures Lookup(Remove(rows, id, want), id, want) == None
  {
  }

  /** A delete leaves the lookup of every other id as it was. */
  lemma {:induction false} RemoveKeepsOthers<T>(rows: seq<T>, id: T -> int, want: int, other: int)
    requires other != want
    ensures Lookup(Remove(rows, id, want), id, other) == Lookup(rows, id, other)
    decreases |rows|
  {
    if rows != [] {
      var rt := Remove(rows[1..], id, want);
      RemoveKeepsOthers(rows[1..], id, want, other);
      if id(rows[0]) != want {
        var r := [rows[0]] + rt;
        assert Remove(rows, id, want) == r;
        assert r[0] == rows[0] && r[1..] == rt;
      } else {
        assert Remove(rows, id, want) == rt by {
          assert [] + rt == rt;
        }
      }
    }
  }

  /**
   * A delete keeps the AUTOINCREMENT invariant with the same `next`, so a
   * later insert never reuses the deleted id.
   */
  lemma {:induction false} RemoveKeepsAutoIncrement<T>(rows: seq<T>, id: T -> int, next: int, want: int)
    requires AutoIncrement(rows, id, next)
    ensures AutoIncrement(Remove(rows, id, want), id, next)
    decreases |rows|
  {
    if rows != [] {
      var t := rows[1..];
      assert AutoIncrement(t, id, next) by {
        forall i, j | 0 <= i < j < |t| ensures id(t[i]) < id(t[j]) {
          assert t[i] == rows[i + 1] && t[j] == rows[j + 1];
        }
        forall i | 0 <= i < |t| ensures 1 <= id(t[i]) < next {
          assert t[i] == rows[i + 1];
        }
      }
      RemoveKeepsAutoIncrement(t, id, next, want);
      var rt := Remove(t, id, want);
      if id(rows[0]) != want {
        KeptHeadIsSmallest(rows, id, next, rt);
      } else {
        assert Remove(rows, id, want) == [] + rt;
      }
    }
  }

  lemma KeptHeadIsSmallest<T>(rows: seq<T>, id: T -> int, next: int, rt: seq<T>)
    requires rows != [] && AutoIncrement(rows, id, next) && AutoIncrement(rt, id, next)
    requires forall x | x in rt :: x in rows[1..]
    ensures AutoIncrement([rows[0]] + rt, id, next)
  {
    var r := [rows[0]] + rt;
    forall i, j | 0 <= i < j < |r| ensures id(r[i]) < id(r[j]) {
      assert r[j] == rt[j - 1];
      if i == 0 {
        assert rt[j - 1] in rows[1..];
        var k :| 0 <= k < |rows| - 1 && rows[1..][k] == rt[j - 1];
        assert rows[k + 1] == r[j];
      } else {
        assert r[i] == rt[i - 1];
      }
    }
    forall i | 0 <= i < |r| ensures 1 <= id(r[i]) < next {
      if i > 0 {
        assert r[i] == rt[i - 1];
      }
    }
  }
}
