/** The total order behind every "ORDER BY t1, t2, id LIMIT n" of the system. */
module Ranking {
  import opened Common

  /** A row's sort key: two instants, then the id, which is unique among the rows. */
  datatype Rank = Rank(first: int, second: int, id: Id)

  predicate IdLess(a: Id, b: Id) {
    b != [] && (a == [] || a[0] < b[0] || (a[0] == b[0] && IdLess(a[1..], b[1..])))
  }

  /** Strings compare by their first different character; a prefix comes first. */
  lemma {:induction false} IdLessExactly(a: Id, b: Id)
    ensures IdLess(a, b) <==> exists k: nat :: AgreeUpTo(a, b, k) && k < |b| && (k == |a| || a[k] < b[k])
  {
    if a == [] || b == [] || a[0] != b[0] {
      AgreeHeads(a, b);
      assert AgreeUpTo(a, b, 0);
    } else {
      IdLessExactly(a[1..], b[1..]);
      if k: nat :| AgreeUpTo(a[1..], b[1..], k) && k < |b[1..]| && (k == |a[1..]| || a[1..][k] < b[1..][k]) {
        assert a[..k + 1] == [a[0]] + a[1..][..k] && b[..k + 1] == [b[0]] + b[1..][..k];
        assert AgreeUpTo(a, b, k + 1);
      }
      if k: nat :| AgreeUpTo(a, b, k) && k < |b| && (k == |a| || a[k] < b[k]) {
        assert k != 0;
        assert a[1..][..k - 1] == a[..k][1..] && b[1..][..k - 1] == b[..k][1..];
        assert AgreeUpTo(a[1..], b[1..], k - 1);
      }
    }
  }

  lemma AgreeHeads(a: Id, b: Id)
    ensures forall k: nat :: AgreeUpTo(a, b, k) && k > 0 ==> a != [] && b != [] && a[0] == b[0]
  {
    forall k: nat | AgreeUpTo(a, b, k) && k > 0 ensures a != [] && b != [] && a[0] == b[0] {
      assert a[..k][0] == b[..k][0];
    }
  }

  predicate AgreeUpTo(a: Id, b: Id, k: nat) {
    k <= |a| && k <= |b| && a[..k] == b[..k]
  }

  predicate Less(a: Rank, b: Rank) {
    || a.first < b.first
    || (a.first == b.first && (a.second < b.second || (a.second == b.second && IdLess(a.id, b.id))))
  }

  lemma {:induction false} IdTotal(a: Id, b: Id)
    ensures a == b || IdLess(a, b) || IdLess(b, a)
    ensures !(IdLess(a, b) && IdLess(b, a))
    ensures !IdLess(a, a)
  {
    if a != [] && b != [] && a[0] == b[0] {
      IdTotal(a[1..], b[1..]);
      assert a == [a[0]] + a[1..] && b == [b[0]] + b[1..];
    }
    if a != [] {
      IdTotal(a[1..], a[1..]);
    }
  }

  lemma {:induction false} IdTransitive(a: Id, b: Id, c: Id)
    requires IdLess(a, b) && IdLess(b, c)
    ensures IdLess(a, c)
  {
    if a != [] && b[0] == c[0] && a[0] == b[0] {
      IdTransitive(a[1..], b[1..], c[1..]);
    }
  }

  lemma Total(a: Rank, b: Rank)
    ensures a == b || Less(a, b) || Less(b, a)
    ensures !(Less(a, b) && Less(b, a))
    ensures !Less(a, a)
  {
    IdTotal(a.id, b.id);
    IdTotal(a.id, a.id);
  }

  lemma Transitive(a: Rank, b: Rank, c: Rank)
    requires Less(a, b) && Less(b, c)
    ensures Less(a, c)
  {
    if IdLess(a.id, b.id) && IdLess(b.id, c.id) {
      IdTransitive(a.id, b.id, c.id);
    }
  }

  ghost predicate Ascending(r: seq<Rank>) {
    forall i, j :: 0 <= i < j < |r| ==> Less(r[i], r[j])
  }

  ghost predicate Lists(r: seq<Rank>, s: set<Rank>) {
    forall x :: x in r <==> x in s
  }

  ghost predicate IsLeast(m: Rank, s: set<Rank>) {
    m in s && forall x :: x in s && x != m ==> Less(m, x)
  }

  lemma {:induction false} LeastExists(s: set<Rank>)
    requires s != {}
    ensures exists m :: IsLeast(m, s)
  {
    var x :| x in s;
    if s == {x} {
      assert IsLeast(x, s);
    } else {
      LeastExists(s - {x});
      var m :| IsLeast(m, s - {x});
      Total(x, m);
      if Less(m, x) {
        assert IsLeast(m, s);
      } else {
        forall y | y in s && y != x ensures Less(x, y) {
          if y != m { Transitive(x, m, y); }
        }
        assert IsLeast(x, s);
      }
    }
  }

  /** The rows of a finite set, in order. */
  ghost function Sorted(s: set<Rank>): (r: seq<Rank>)
    ensures |r| == |s| && Ascending(r)
    ensures Lists(r, s)
  {
    if s == {} then []
    else
      LeastExists(s);
      var m :| IsLeast(m, s);
      [m] + Sorted(s - {m})
  }

  lemma TailOf(r: seq<Rank>, s: set<Rank>)
    requires r != [] && Ascending(r)
    requires Lists(r, s)
    ensures IsLeast(r[0], s)
    ensures Lists(r[1..], s - {r[0]})
  {
    assert r == [r[0]] + r[1..];
    forall x | x in r[1..] ensures x in s && Less(r[0], x) && x != r[0] {
      var k :| 0 <= k < |r[1..]| && r[1..][k] == x;
      assert r[k + 1] == x;
      Total(x, x);
    }
  }

  lemma LeastUnique(a: Rank, b: Rank, s: set<Rank>)
    requires IsLeast(a, s) && IsLeast(b, s)
    ensures a == b
  {
    Total(a, b);
  }

  lemma SortedFrom(s: set<Rank>, m: Rank)
    requires IsLeast(m, s)
    ensures Sorted(s) == [m] + Sorted(s - {m})
  {
    LeastExists(s);
    var c :| IsLeast(c, s) && Sorted(s) == [c] + Sorted(s - {c});
    LeastUnique(c, m, s);
  }

  /** A strictly ascending listing of a set is the only one. */
  lemma {:induction false} SortedUnique(r: seq<Rank>, s: set<Rank>)
    requires Ascending(r) && Lists(r, s)
    ensures r == Sorted(s)
    decreases |r|
  {
    hide Less;
    if r == [] {
      assert s == {} by { assert forall x :: x in s ==> x in r; }
    } else {
      TailOf(r, s);
      SortedFrom(s, r[0]);
      SortedUnique(r[1..], s - {r[0]});
    }
  }

  ghost function RankSet(ids: set<Id>, rank: Id -> Rank): set<Rank> {
    set id | id in ids :: rank(id)
  }

  /** Each id's rank ends in the id itself, so ranks tell ids apart. */
  ghost predicate Ranks(ids: set<Id>, rank: Id -> Rank) {
    forall id :: id in ids ==> rank(id).id == id
  }

  lemma {:induction false} RankSetSize(ids: set<Id>, rank: Id -> Rank)
    requires Ranks(ids, rank)
    ensures |RankSet(ids, rank)| == |ids|
    decreases ids
  {
    if ids == {} {
      assert RankSet(ids, rank) == {};
    } else {
      var id :| id in ids;
      RankSetSize(ids - {id}, rank);
      assert RankSet(ids, rank) == RankSet(ids - {id}, rank) + {rank(id)};
    }
  }

  /** The first k ids in rank order: "ORDER BY ... LIMIT k". */
  ghost predicate IsLeastIds(r: seq<Id>, ids: set<Id>, rank: Id -> Rank, k: nat) {
    && |r| == Min(k, |ids|)
    && (forall i :: 0 <= i < |r| ==> r[i] in ids)
    && (forall i, j :: 0 <= i < j < |r| ==> Less(rank(r[i]), rank(r[j])))
    && (forall x, y :: x in r && y in ids && y !in r ==> Less(rank(x), rank(y)))
  }

  ghost function LeastIds(ids: set<Id>, rank: Id -> Rank, k: nat): (r: seq<Id>)
    requires Ranks(ids, rank)
    ensures IsLeastIds(r, ids, rank, k)
  {
    var all := Sorted(RankSet(ids, rank));
    RankSetSize(ids, rank);
    var r := seq(Min(k, |ids|), i requires 0 <= i < |all| => all[i].id);
    PrefixIsLeast(r, ids, rank, k);
    r
  }

  lemma PrefixIsLeast(r: seq<Id>, ids: set<Id>, rank: Id -> Rank, k: nat)
    requires Ranks(ids, rank) && |r| == Min(k, |ids|)
    requires forall i :: 0 <= i < |r| && i < |Sorted(RankSet(ids, rank))| ==> r[i] == Sorted(RankSet(ids, rank))[i].id
    ensures IsLeastIds(r, ids, rank, k)
  {
    var all := Sorted(RankSet(ids, rank));
    RankSetSize(ids, rank);
    forall i | 0 <= i < |r| ensures r[i] in ids && rank(r[i]) == all[i] {
      assert all[i] in RankSet(ids, rank);
    }
    forall x, y | x in r && y in ids && y !in r ensures Less(rank(x), rank(y)) {
      assert rank(y) in all;
      var j :| 0 <= j < |all| && all[j] == rank(y);
      assert j >= |r|;
    }
  }

  lemma DistinctSelection(r: seq<Id>, ids: set<Id>, rank: Id -> Rank, k: nat)
    requires IsLeastIds(r, ids, rank, k)
    ensures |r| <= k && forall i, j :: 0 <= i < j < |r| ==> r[i] != r[j]
  {
    forall i, j | 0 <= i < j < |r| ensures r[i] != r[j] {
      Total(rank(r[i]), rank(r[j]));
    }
  }

  /** A selection stops at its limit, or else it is everything. */
  lemma SelectionBound(r: seq<Id>, ids: set<Id>, rank: Id -> Rank, k: nat)
    requires IsLeastIds(r, ids, rank, k)
    ensures |r| <= k
    ensures |r| < k ==> forall id :: id in ids ==> id in r
  {
    DistinctSelection(r, ids, rank, k);
    if |r| < k {
      DistinctSize(r);
      var taken := set id | id in r;
      SubsetSize(taken, ids);
    }
  }

  /** Any selection with the right properties is the selection. */
  lemma LeastIdsUnique(r: seq<Id>, ids: set<Id>, rank: Id -> Rank, k: nat)
    requires Ranks(ids, rank) && IsLeastIds(r, ids, rank, k)
    ensures r == LeastIds(ids, rank, k)
  {
    var s := RankSet(ids, rank);
    var ranks := seq(|r|, i requires 0 <= i < |r| => rank(r[i]));
    var rest := set x | x in s && x !in ranks;
    var all := ranks + Sorted(rest);
    forall i, x | 0 <= i < |r| && x in rest ensures Less(ranks[i], x) {
      RankAfter(r, ids, rank, k, i, x, ranks);
    }
    ConcatAscending(ranks, rest, s);
    SortedUnique(all, s);
    forall i | 0 <= i < |r| ensures r[i] == LeastIds(ids, rank, k)[i] {
      LeastIdsAt(ids, rank, k, i);
      assert all[i] == ranks[i];
    }
  }

  lemma ConcatAscending(ranks: seq<Rank>, rest: set<Rank>, s: set<Rank>)
    requires Ascending(ranks) && (forall x :: x in ranks ==> x in s)
    requires rest == set x | x in s && x !in ranks
    requires forall i, x :: 0 <= i < |ranks| && x in rest ==> Less(ranks[i], x)
    ensures Ascending(ranks + Sorted(rest)) && Lists(ranks + Sorted(rest), s)
  {
    var tail := Sorted(rest);
    forall i, j | 0 <= i < |ranks| && 0 <= j < |tail| ensures Less(ranks[i], tail[j]) {
      assert tail[j] in rest;
    }
  }

  lemma RankAfter(r: seq<Id>, ids: set<Id>, rank: Id -> Rank, k: nat, i: nat, x: Rank, ranks: seq<Rank>)
    requires Ranks(ids, rank) && IsLeastIds(r, ids, rank, k)
    requires |ranks| == |r| && forall j :: 0 <= j < |r| ==> ranks[j] == rank(r[j])
    requires i < |r| && x in RankSet(ids, rank) && x !in ranks
    ensures Less(ranks[i], x)
  {
    var y :| y in ids && x == rank(y);
    forall j | 0 <= j < |r| ensures r[j] != y {
      assert ranks[j] in ranks;
    }
    assert r[i] in r && y !in r;
  }

  lemma LeastIdsAt(ids: set<Id>, rank: Id -> Rank, k: nat, i: nat)
    requires Ranks(ids, rank) && i < Min(k, |ids|)
    ensures i < |Sorted(RankSet(ids, rank))| && LeastIds(ids, rank, k)[i] == Sorted(RankSet(ids, rank))[i].id
  {
    RankSetSize(ids, rank);
  }

  lemma {:induction false} DistinctSize(ids: seq<Id>)
    requires forall i, j :: 0 <= i < j < |ids| ==> ids[i] != ids[j]
    ensures |set id | id in ids| == |ids|
  {
    var s := set id | id in ids;
    if ids != [] {
      var n := |ids| - 1;
      DistinctSize(ids[..n]);
      assert ids == ids[..n] + [ids[n]];
      assert s == (set id | id in ids[..n]) + {ids[n]};
    }
  }

  /** Taking the selection out leaves all but the first k. */
  lemma TakenSize(all: set<Id>, ids: seq<Id>, rank: Id -> Rank, k: nat)
    requires IsLeastIds(ids, all, rank, k)
    ensures |set id | id in all && id !in ids| == |all| - Min(k, |all|)
  {
    DistinctSelection(ids, all, rank, k);
    DistinctSize(ids);
    var taken := set id | id in ids;
    assert taken <= all;
    assert (set id | id in all && id !in ids) == all - taken;
  }

  /** With no effective limit the selection is everything. */
  lemma FullSelection(r: seq<Id>, ids: set<Id>, rank: Id -> Rank)
    requires IsLeastIds(r, ids, rank, |ids|)
    ensures forall id :: id in r <==> id in ids
    ensures forall i, j :: 0 <= i < j < |r| ==> r[i] != r[j]
  {
    forall i, j | 0 <= i < j < |r| ensures r[i] != r[j] {
      Total(rank(r[i]), rank(r[j]));
    }
    DistinctSize(r);
    var s := set id | id in r;
    assert s <= ids;
    SubsetSize(s, ids);
  }

  lemma SubsetSize(s: set<Id>, t: set<Id>)
    requires s <= t && |s| == |t|
    ensures s == t
  {
    assert |t - s| == |t| - |s|;
    assert t == s + (t - s);
  }

  lemma RanksListed(all: seq<Id>, ids: set<Id>, rank: Id -> Rank)
    requires Ranks(ids, rank)
    requires forall id :: id in all <==> id in ids
    requires forall i, j :: 0 <= i < j < |all| ==> Less(rank(all[i]), rank(all[j]))
    ensures |all| == |ids|
  {
    var ranks := seq(|all|, i requires 0 <= i < |all| => rank(all[i]));
    forall x ensures x in ranks <==> x in RankSet(ids, rank) {
      if x in RankSet(ids, rank) {
        var id :| id in ids && x == rank(id);
        var i :| 0 <= i < |all| && all[i] == id;
        assert ranks[i] == x;
      }
    }
    SortedUnique(ranks, RankSet(ids, rank));
    RankSetSize(ids, rank);
  }

  /** Sorting the matching rows and truncating is the selection. */
  lemma AscendingTruncation(all: seq<Id>, ids: set<Id>, rank: Id -> Rank, k: nat)
    requires Ranks(ids, rank)
    requires forall id :: id in all <==> id in ids
    requires forall i, j :: 0 <= i < j < |all| ==> Less(rank(all[i]), rank(all[j]))
    ensures |all| == |ids|
    ensures IsLeastIds(all[..Min(k, |all|)], ids, rank, k)
  {
    hide Less, Ranks, RankSet;
    RanksListed(all, ids, rank);
    var r := all[..Min(k, |all|)];
    forall x, y | x in r && y in ids && y !in r ensures Less(rank(x), rank(y)) {
      var i :| 0 <= i < |r| && r[i] == x;
      var j :| 0 <= j < |all| && all[j] == y;
      assert |r| <= j;
    }
  }

  ghost predicate AscendingBy<T>(r: seq<T>, rank: T -> Rank) {
    forall i, j :: 0 <= i < j < |r| ==> Less(rank(r[i]), rank(r[j]))
  }

  method Insert<T>(r: seq<T>, x: T, rank: T -> Rank) returns (q: seq<T>)
    requires AscendingBy(r, rank)
    requires forall i :: 0 <= i < |r| ==> rank(r[i]) != rank(x)
    ensures multiset(q) == multiset(r) + multiset{x}
    ensures AscendingBy(q, rank)
  {
    var p := 0;
    while p < |r| && Less(rank(r[p]), rank(x))
      invariant 0 <= p <= |r|
      invariant forall i :: 0 <= i < p ==> Less(rank(r[i]), rank(x))
    {
      p := p + 1;
    }
    forall j | p <= j < |r| ensures Less(rank(x), rank(r[j])) {
      Total(rank(r[p]), rank(x));
      if p < j { Transitive(rank(x), rank(r[p]), rank(r[j])); }
    }
    InsertAscending(r, x, p, rank);
    assert r == r[..p] + r[p..];
    q := r[..p] + [x] + r[p..];
  }

  lemma InsertAscending<T>(r: seq<T>, x: T, p: nat, rank: T -> Rank)
    requires AscendingBy(r, rank) && p <= |r|
    requires forall i :: 0 <= i < p ==> Less(rank(r[i]), rank(x))
    requires forall j :: p <= j < |r| ==> Less(rank(x), rank(r[j]))
    ensures AscendingBy(r[..p] + [x] + r[p..], rank)
  {
    hide Less;
  }

  /** The library sort: the unique ascending arrangement of rows with distinct ranks. */
  method Sort<T>(rows: seq<T>, rank: T -> Rank) returns (r: seq<T>)
    requires forall i, j :: 0 <= i < j < |rows| ==> rank(rows[i]) != rank(rows[j])
    ensures multiset(r) == multiset(rows)
    ensures AscendingBy(r, rank)
  {
    r := [];
    for n := 0 to |rows|
      invariant multiset(r) == multiset(rows[..n])
      invariant AscendingBy(r, rank)
    {
      forall i | 0 <= i < |r| ensures rank(r[i]) != rank(rows[n]) {
        assert r[i] in multiset(rows[..n]);
      }
      r := Insert(r, rows[n], rank);
      assert rows[..n + 1] == rows[..n] + [rows[n]];
    }
    assert rows[..|rows|] == rows;
  }
}
