/** Row shapes of the relational tables (src/storage/model.rs and
    src/reception/database/model.rs) and the two list operations every store
    performs on loaded rows: filtering by a column and the stable
    `sort_by(created_at)`.

    Timestamps are a logical clock (`nat`): every store draws a strictly
    larger value for each write, so "ordered by created_at" can be compared
    with "ordered by insertion". */
module Rows {

  import opened Common

  datatype GuestRow = GuestRow(
    id: int, name: string, credit: real, createdAt: nat, updatedAt: nat, admin: bool)

  datatype ConversationRow = ConversationRow(
    id: int, guestId: int, assistantId: int, active: bool, createdAt: nat, updatedAt: nat)

  /** A stored message with separate prompt and completion token counts. */
  datatype MessageRow = MessageRow(
    id: int, conversationId: int, createdAt: nat, content: string, cost: real,
    messageType: int, contentType: int, promptTokens: int, completionTokens: int)

  predicate SortedBy<T>(s: seq<T>, key: T -> int)
  {
    forall i, j :: 0 <= i < j < |s| ==> key(s[i]) <= key(s[j])
  }

  /** Insert `x` after every element whose key is not larger than its own
      (so equal keys keep their order: the sort is stable). */
  function Insert<T>(x: T, s: seq<T>, key: T -> int): (r: seq<T>)
    ensures |r| == |s| + 1
    ensures multiset(r) == multiset(s) + multiset{x}
  {
    if s == [] || key(s[|s| - 1]) <= key(x) then s + [x]
    else
      assert s == s[..|s| - 1] + [s[|s| - 1]];
      Insert(x, s[..|s| - 1], key) + [s[|s| - 1]]
  }

  lemma {:induction false} InsertSorted<T>(x: T, s: seq<T>, key: T -> int)
    requires SortedBy(s, key)
    ensures SortedBy(Insert(x, s, key), key)
  {
    if !(s == [] || key(s[|s| - 1]) <= key(x)) {
      var init, last := s[..|s| - 1], s[|s| - 1];
      InsertSorted(x, init, key);
      var r := Insert(x, init, key);
      forall i | 0 <= i < |r| ensures key(r[i]) <= key(last) {
        assert r[i] in multiset(init) + multiset{x};
      }
    }
  }

  /** Rust's stable `sort_by(|a, b| key(a).cmp(&key(b)))`, as insertion
      sort. What it guarantees is proved in the lemmas below. */
  function SortBy<T>(s: seq<T>, key: T -> int): (r: seq<T>)
    ensures |r| == |s|
  {
    if s == [] then []
    else Insert(s[|s| - 1], SortBy(s[..|s| - 1], key), key)
  }

  /** Sorting only rearranges the rows. */
  lemma {:induction false} SortByPermutes<T>(s: seq<T>, key: T -> int)
    ensures multiset(SortBy(s, key)) == multiset(s)
  {
    if s != [] {
      SortByPermutes(s[..|s| - 1], key);
      assert s == s[..|s| - 1] + [s[|s| - 1]];
    }
  }

  /** Sorting orders the rows by their key. */
  lemma {:induction false} SortBySorted<T>(s: seq<T>, key: T -> int)
    ensures SortedBy(SortBy(s, key), key)
  {
    if s != [] {
      SortBySorted(s[..|s| - 1], key);
      InsertSorted(s[|s| - 1], SortBy(s[..|s| - 1], key), key);
    }
  }

  /** Rows already in key order are left exactly as they are. */
  lemma {:induction false} SortByIdentity<T>(s: seq<T>, key: T -> int)
    requires SortedBy(s, key)
    ensures SortBy(s, key) == s
  {
    if s != [] {
      var init := s[..|s| - 1];
      assert SortedBy(init, key) by {
        forall i, j | 0 <= i < j < |init| ensures key(init[i]) <= key(init[j]) {
          assert init[i] == s[i] && init[j] == s[j];
        }
      }
      SortByIdentity(init, key);
      if init != [] {
        assert key(init[|init| - 1]) <= key(s[|s| - 1]);
      }
      assert s == init + [s[|s| - 1]];
    }
  }

  /** The rows of `s` that satisfy `p`, in their original order. */
  function Filter<T>(s: seq<T>, p: T -> bool): (r: seq<T>)
    ensures |r| <= |s|
  {
    if s == [] then []
    else if p(s[|s| - 1]) then Filter(s[..|s| - 1], p) + [s[|s| - 1]]
    else Filter(s[..|s| - 1], p)
  }

  /** Filtering keeps exactly the rows that satisfy `p`. */
  lemma {:induction false} FilterMembers<T>(s: seq<T>, p: T -> bool)
    ensures forall i :: 0 <= i < |Filter(s, p)| ==> Filter(s, p)[i] in s && p(Filter(s, p)[i])
    ensures forall i :: 0 <= i < |s| && p(s[i]) ==> s[i] in Filter(s, p)
  {
    if s != [] {
      FilterMembers(s[..|s| - 1], p);
      forall i | 0 <= i < |s| - 1 ensures s[i] == s[..|s| - 1][i] {}
    }
  }

  lemma {:induction false} FilterAppend<T>(s: seq<T>, t: seq<T>, p: T -> bool)
    ensures Filter(s + t, p) == Filter(s, p) + Filter(t, p)
  {
    if t != [] {
      var t' := t[..|t| - 1];
      assert (s + t)[..|s + t| - 1] == s + t';
      FilterAppend(s, t', p);
    } else {
      assert s + t == s;
    }
  }

  lemma {:induction false} FilterSorted<T>(s: seq<T>, p: T -> bool, key: T -> int)
    requires SortedBy(s, key)
    ensures SortedBy(Filter(s, p), key)
  {
    if s != [] {
      var init := s[..|s| - 1];
      FilterSorted(init, p, key);
      FilterMembers(init, p);
      var f := Filter(init, p);
      if p(s[|s| - 1]) {
        forall i | 0 <= i < |f| ensures key(f[i]) <= key(s[|s| - 1]) {
          assert f[i] in init;
        }
      }
    }
  }

  /** Positions `i` whose row satisfies `p` (used for "the only active row"). */
  predicate AtMostOne<T>(s: seq<T>, p: T -> bool)
  {
    forall i, j :: 0 <= i < |s| && 0 <= j < |s| && p(s[i]) && p(s[j]) ==> i == j
  }

  /** `.first()` of a filtered query: the earliest row that satisfies `p`. */
  function First<T>(s: seq<T>, p: T -> bool): (r: Option<T>)
    ensures r.None? ==> forall i :: 0 <= i < |s| ==> !p(s[i])
    ensures r.Some? ==> p(r.value)
  {
    if s == [] then None
    else if p(s[0]) then Some(s[0])
    else
      var r := First(s[1..], p);
      assert forall i :: 1 <= i < |s| ==> s[i] == s[1..][i - 1];
      r
  }

  /** The row `.first()` finds is one of the rows. */
  lemma {:induction false} FirstIn<T>(s: seq<T>, p: T -> bool)
    ensures First(s, p).Some? ==> First(s, p).value in s
  {
    if s != [] && !p(s[0]) {
      FirstIn(s[1..], p);
    }
  }

  lemma {:induction false} FilterNone<T>(s: seq<T>, p: T -> bool)
    requires forall i :: 0 <= i < |s| ==> !p(s[i])
    ensures Filter(s, p) == []
  {
    if s != [] {
      FilterNone(s[..|s| - 1], p);
    }
  }

  /** When only the last row satisfies `p`, `.first()` finds that row. */
  lemma {:induction false} FirstOnlyLast<T>(s: seq<T>, p: T -> bool)
    requires |s| > 0 && p(s[|s| - 1])
    requires forall i :: 0 <= i < |s| - 1 ==> !p(s[i])
    ensures First(s, p) == Some(s[|s| - 1])
  {
    if |s| > 1 {
      FirstOnlyLast(s[1..], p);
    }
  }

  /** Every two rows, the earlier first, are related by `ok`. */
  predicate Pairwise<T>(s: seq<T>, ok: (T, T) -> bool)
  {
    forall i, j :: 0 <= i < j < |s| ==> ok(s[i], s[j])
  }

  /** Deleting rows keeps every pairwise property (distinct keys, at most
      one active row per owner). */
  lemma {:induction false} FilterPairwise<T>(s: seq<T>, p: T -> bool, ok: (T, T) -> bool)
    requires Pairwise(s, ok)
    ensures Pairwise(Filter(s, p), ok)
  {
    if s != [] {
      var init, last := s[..|s| - 1], s[|s| - 1];
      assert Pairwise(init, ok) by {
        forall i, j | 0 <= i < j < |init| ensures ok(init[i], init[j]) {
          assert init[i] == s[i] && init[j] == s[j];
        }
      }
      FilterPairwise(init, p, ok);
      FilterMembers(init, p);
      var f := Filter(init, p);
      if p(last) {
        forall i | 0 <= i < |f| ensures ok(f[i], last) {
          var k :| 0 <= k < |init| && init[k] == f[i];
          assert s[k] == f[i];
        }
      }
    }
  }

  /** A row that satisfies the filter and is stamped no earlier than every
      other row comes out last of the sorted selection. */
  lemma SortedFilterAppend<T>(s: seq<T>, row: T, p: T -> bool, key: T -> int)
    requires SortedBy(s + [row], key) && p(row)
    ensures SortBy(Filter(s + [row], p), key) == SortBy(Filter(s, p), key) + [row]
  {
    FilterAppend(s, [row], p);
    assert [row][..0] == [];
    assert s == (s + [row])[..|s|];
    FilterSorted(s, p, key);
    FilterSorted(s + [row], p, key);
    SortByIdentity(Filter(s, p), key);
    SortByIdentity(Filter(s + [row], p), key);
  }

  /** Deleting the rows that match exactly one row removes exactly one. */
  lemma {:induction false} FilterDropsOne<T>(s: seq<T>, keep: T -> bool, k: nat)
    requires k < |s| && !keep(s[k])
    requires forall j :: 0 <= j < |s| && j != k ==> keep(s[j])
    ensures |Filter(s, keep)| == |s| - 1
  {
    var init := s[..|s| - 1];
    if k == |s| - 1 {
      FilterAll(init, keep);
    } else {
      FilterDropsOne(init, keep, k);
    }
  }

  /** Deleting rows none of which match changes nothing. */
  lemma {:induction false} FilterAll<T>(s: seq<T>, keep: T -> bool)
    requires forall j :: 0 <= j < |s| ==> keep(s[j])
    ensures Filter(s, keep) == s
  {
    if s != [] {
      FilterAll(s[..|s| - 1], keep);
    }
  }
}
