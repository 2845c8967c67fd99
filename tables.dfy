/** A repository table is a map from primary key to row. This module holds
    the one query shape the services issue: select the rows satisfying a
    condition, ordered by creation time, newest first
    (`ORDER BY createdAt DESC`). */
module Tables {

  /** `s` is ordered by `created`, newest first. */
  ghost predicate NewestFirst<T>(s: seq<T>, created: T -> int) {
    forall i, j :: 0 <= i < j < |s| ==> created(s[i]) >= created(s[j])
  }

  /** `r` lists, newest first and each once, the rows of `rows` whose key is
      below `scanned` and that satisfy `keep`; `ids` are their keys. */
  ghost predicate Selected<T>(rows: map<int, T>, keep: T -> bool, created: T -> int,
                              scanned: int, r: seq<T>, ids: seq<int>)
  {
    && |ids| == |r|
    && (forall i :: 0 <= i < |r| ==> ids[i] in rows && r[i] == rows[ids[i]])
    && (forall i, j :: 0 <= i < j < |ids| ==> ids[i] != ids[j])
    && (forall id :: id in ids <==> id in rows && id < scanned && keep(rows[id]))
    && NewestFirst(r, created)
  }

  /** The number of leading rows of `s` created no earlier than `c`: the
      position at which a row created at `c` keeps `s` newest first. */
  function InsertionPoint<T>(s: seq<T>, created: T -> int, c: int): (k: nat)
    requires NewestFirst(s, created)
    ensures k <= |s|
    ensures forall i :: 0 <= i < k ==> created(s[i]) >= c
    ensures forall i :: k <= i < |s| ==> created(s[i]) < c
  {
    if s == [] || created(s[0]) < c then 0 else 1 + InsertionPoint(s[1..], created, c)
  }

  /** `s` with `x` inserted at position `k`. */
  function InsertAt<U>(s: seq<U>, k: nat, x: U): (t: seq<U>)
    requires k <= |s|
    ensures |t| == |s| + 1
    ensures forall i :: 0 <= i < k ==> t[i] == s[i]
    ensures t[k] == x
    ensures forall i :: k < i < |t| ==> t[i] == s[i - 1]
    ensures multiset(t) == multiset(s) + multiset{x}
  {
    assert s == s[..k] + s[k..];
    s[..k] + [x] + s[k..]
  }

  /** Inserting at the insertion point keeps a sequence newest first. */
  lemma InsertKeepsNewestFirst<T>(r: seq<T>, created: T -> int, x: T)
    requires NewestFirst(r, created)
    ensures NewestFirst(InsertAt(r, InsertionPoint(r, created, created(x)), x), created)
  {
  }

  /** Inserting a key not yet present keeps the keys pairwise distinct. */
  lemma InsertKeepsDistinct(ids: seq<int>, k: nat, id: int)
    requires k <= |ids| && id !in ids
    requires forall i, j :: 0 <= i < j < |ids| ==> ids[i] != ids[j]
    ensures var ids' := InsertAt(ids, k, id);
            forall i, j :: 0 <= i < j < |ids'| ==> ids'[i] != ids'[j]
  {
    var ids' := InsertAt(ids, k, id);
    forall i, j | 0 <= i < j < |ids'| ensures ids'[i] != ids'[j] {
      if i == k {
        assert ids'[j] in ids;
      } else if j == k {
        assert ids'[i] in ids;
      }
    }
  }

  /** Inserting a newly scanned matching row at its insertion point keeps the
      selection exact and ordered. */
  lemma InsertKeepsSelected<T>(rows: map<int, T>, keep: T -> bool, created: T -> int,
                               scanned: int, r: seq<T>, ids: seq<int>)
    requires Selected(rows, keep, created, scanned, r, ids)
    requires scanned in rows && keep(rows[scanned])
    ensures var k := InsertionPoint(r, created, created(rows[scanned]));
            Selected(rows, keep, created, scanned + 1,
                     InsertAt(r, k, rows[scanned]), InsertAt(ids, k, scanned))
  {
    var k := InsertionPoint(r, created, created(rows[scanned]));
    var ids' := InsertAt(ids, k, scanned);
    assert scanned !in ids;
    InsertKeepsNewestFirst(r, created, rows[scanned]);
    InsertKeepsDistinct(ids, k, scanned);
    assert forall x :: x in ids' <==> x in multiset(ids');
  }

  /** The keys, under `key`, of the rows listed in `r`. */
  ghost function KeysOf<T>(r: seq<T>, key: T -> int): set<int> {
    set i | 0 <= i < |r| :: key(r[i])
  }

  /** `r` is the answer to `SELECT * FROM rows WHERE keep ORDER BY created DESC`:
      every listed row is a row of the table that satisfies `keep`, no row is
      listed twice, every such row is listed, and the newest come first. */
  ghost predicate Lists<T>(r: seq<T>, rows: map<int, T>, key: T -> int, keep: T -> bool, created: T -> int) {
    && (forall i :: 0 <= i < |r| ==> key(r[i]) in rows && rows[key(r[i])] == r[i] && keep(r[i]))
    && (forall i, j :: 0 <= i < j < |r| ==> key(r[i]) != key(r[j]))
    && (forall id :: id in rows && keep(rows[id]) ==> id in KeysOf(r, key))
    && NewestFirst(r, created)
  }

  /** The rows of `rows` satisfying `keep`, each exactly once, newest first.
      Keys are auto-increment primary keys below `nextId`, so the scan visits
      `0 .. nextId - 1`; `key` gives the primary key stored in a row. */
  method SelectNewestFirst<T>(rows: map<int, T>, nextId: nat, key: T -> int, keep: T -> bool, created: T -> int)
    returns (r: seq<T>)
    requires forall id :: id in rows ==> 0 <= id < nextId && key(rows[id]) == id
    ensures Lists(r, rows, key, keep, created)
  {
    r := [];
    ghost var ids: seq<int> := [];
    var next := 0;
    while next < nextId
      invariant next <= nextId
      invariant Selected(rows, keep, created, next, r, ids)
    {
      if next in rows && keep(rows[next]) {
        InsertKeepsSelected(rows, keep, created, next, r, ids);
        var k := InsertionPoint(r, created, created(rows[next]));
        r, ids := InsertAt(r, k, rows[next]), InsertAt(ids, k, next);
      }
      next := next + 1;
    }
    assert forall i :: 0 <= i < |r| ==> ids[i] == key(r[i]);
    forall id | id in rows && keep(rows[id]) ensures id in KeysOf(r, key) {
      assert id in ids;
      var i :| 0 <= i < |ids| && ids[i] == id;
      assert key(r[i]) == id;
    }
  }
}
