// Which results a history holds and lists: the fresh ones with an id, at most
// twenty, the latest first.
module Retention {
  import opened Wrappers
  import opened History

  // Thirty days, in nanoseconds, from its finish to now; only results with an id.
  predicate Fresh(parse: Parser, r: Result, now: int) {
    && r.id != ""
    && parse(r.finishedAt).Some?
    && now - parse(r.finishedAt).value <= 30 * 24 * 3600 * 1_000_000_000
  }

  // Where the fresh results of a list stand from k on, and how many there are.
  function FreshPlaces(parse: Parser, rs: seq<Result>, now: int, k: nat): set<int> {
    set i | k <= i < |rs| && Fresh(parse, rs[i], now)
  }

  function CountFresh(parse: Parser, rs: seq<Result>, now: int): nat {
    |FreshPlaces(parse, rs, now, 0)|
  }

  // ---------- the fresh ones are what prune keeps ----------

  lemma {:induction false} KeepHolds(parse: Parser, rs: seq<Result>, now: int, r: Result)
    ensures multiset(Keep(parse, rs, now - MAX_AGE))[r] == if Fresh(parse, r, now) then multiset(rs)[r] else 0
  {
    if rs != [] {
      KeepHolds(parse, rs[1..], now, r);
      assert rs == [rs[0]] + rs[1..];
      assert multiset([rs[0]])[r] == if r == rs[0] then 1 else 0;
    }
  }

  lemma PlacesGrow(parse: Parser, rs: seq<Result>, now: int, k: nat)
    requires k < |rs|
    ensures |FreshPlaces(parse, rs, now, k)| ==
      |FreshPlaces(parse, rs, now, k + 1)| + (if Fresh(parse, rs[k], now) then 1 else 0)
  {
    var here, later := FreshPlaces(parse, rs, now, k), FreshPlaces(parse, rs, now, k + 1);
    if Fresh(parse, rs[k], now) {
      assert here == later + {k};
    } else {
      assert here == later;
    }
  }

  lemma {:induction false} FreshFrom(parse: Parser, rs: seq<Result>, now: int, k: nat)
    requires k <= |rs|
    ensures |FreshPlaces(parse, rs, now, k)| == |Keep(parse, rs[k..], now - MAX_AGE)|
    decreases |rs| - k
  {
    if k < |rs| {
      FreshFrom(parse, rs, now, k + 1);
      PlacesGrow(parse, rs, now, k);
      assert rs[k..][0] == rs[k] && rs[k..][1..] == rs[k + 1..];
    } else {
      assert FreshPlaces(parse, rs, now, k) == {};
    }
  }

  lemma FreshIndices(parse: Parser, rs: seq<Result>, now: int)
    ensures CountFresh(parse, rs, now) == |Keep(parse, rs, now - MAX_AGE)|
  {
    FreshFrom(parse, rs, now, 0);
    assert rs[0..] == rs;
  }

  lemma {:induction false} TakeHolds(rs: seq<Result>, n: nat, r: Result)
    ensures multiset(Take(rs, n))[r] <= multiset(rs)[r]
    ensures |rs| <= n ==> Take(rs, n) == rs
  {
    if |rs| > n { assert rs == rs[..n] + rs[n..]; }
  }

  lemma SortSize(rs: seq<Result>)
    ensures |Sort(rs)| == |rs|
  {
    SortOrders(rs);
    assert |multiset(Sort(rs))| == |Sort(rs)| && |multiset(rs)| == |rs|;
  }

  // Only fresh results of the list, none more often than there.
  lemma PrunedAreFresh(parse: Parser, rs: seq<Result>, now: int, r: Result)
    requires r in Pruned(parse, rs, now)
    ensures r in rs && Fresh(parse, r, now)
    ensures multiset(Pruned(parse, rs, now))[r] <= multiset(rs)[r]
  {
    var kept := Keep(parse, rs, now - MAX_AGE);
    KeepHolds(parse, rs, now, r);
    SortOrders(kept);
    TakeHolds(Sort(kept), MAX_HISTORY, r);
    assert r in multiset(Pruned(parse, rs, now));
    assert r in multiset(rs);
  }

  lemma PrunedSize(parse: Parser, rs: seq<Result>, now: int)
    ensures |Pruned(parse, rs, now)| == if CountFresh(parse, rs, now) <= 20 then CountFresh(parse, rs, now) else 20
  {
    FreshIndices(parse, rs, now);
    SortSize(Keep(parse, rs, now - MAX_AGE));
  }

  // If at most twenty are fresh, all of them, as often as in the list.
  lemma FewAreAllHeld(parse: Parser, rs: seq<Result>, now: int, r: Result)
    requires CountFresh(parse, rs, now) <= 20 && Fresh(parse, r, now)
    ensures multiset(Pruned(parse, rs, now))[r] == multiset(rs)[r]
  {
    var kept := Keep(parse, rs, now - MAX_AGE);
    KeepHolds(parse, rs, now, r);
    FreshIndices(parse, rs, now);
    SortOrders(kept);
    SortSize(kept);
    TakeHolds(Sort(kept), MAX_HISTORY, r);
  }

  // Otherwise no fresh result left out is later than one held.
  lemma LeftOutAreNotLater(parse: Parser, rs: seq<Result>, now: int, out: Result, held: Result)
    requires Fresh(parse, out, now) && multiset(Pruned(parse, rs, now))[out] < multiset(rs)[out]
    requires held in Pruned(parse, rs, now)
    ensures !Less(held.finishedAt, out.finishedAt)
  {
    var sorted := Sort(Keep(parse, rs, now - MAX_AGE));
    KeepHolds(parse, rs, now, out);
    SortOrders(Keep(parse, rs, now - MAX_AGE));
    assert |sorted| > MAX_HISTORY;
    assert sorted == sorted[..MAX_HISTORY] + sorted[MAX_HISTORY..];
    assert out in multiset(sorted[MAX_HISTORY..]);
    var j :| 0 <= j < |sorted[MAX_HISTORY..]| && sorted[MAX_HISTORY..][j] == out;
    var i :| 0 <= i < MAX_HISTORY && sorted[i] == held;
    assert sorted[MAX_HISTORY + j] == out;
  }

  // In time as well, when the timestamps order as their times do.
  lemma LeftOutFinishedNoLater(parse: Parser, rs: seq<Result>, now: int, out: Result, held: Result)
    requires Fresh(parse, out, now) && multiset(Pruned(parse, rs, now))[out] < multiset(rs)[out]
    requires held in Pruned(parse, rs, now) && Chronological(parse, rs)
    ensures parse(held.finishedAt).Some? && parse(out.finishedAt).value <= parse(held.finishedAt).value
  {
    LeftOutAreNotLater(parse, rs, now, out, held);
    PrunedAreFresh(parse, rs, now, held);
    LessIsTotal(out.finishedAt, held.finishedAt);
    assert out in multiset(rs);
    var i :| 0 <= i < |rs| && rs[i] == out;
    var j :| 0 <= j < |rs| && rs[j] == held;
  }

  // A fresh result that is no earlier than any other comes first when it is added.
  lemma NewestComesFirst(parse: Parser, rs: seq<Result>, now: int, r: Result)
    requires Fresh(parse, r, now) && forall i :: 0 <= i < |rs| ==> !Less(r.finishedAt, rs[i].finishedAt)
    ensures |Pruned(parse, [r] + rs, now)| > 0 && Pruned(parse, [r] + rs, now)[0] == r
  {
    var kept := Keep(parse, rs, now - MAX_AGE);
    assert ([r] + rs)[1..] == rs && ([r] + kept)[1..] == kept;
    SortOrders(kept);
    if Sort(kept) != [] {
      var first := Sort(kept)[0];
      assert first in multiset(Sort(kept));
      KeepHolds(parse, rs, now, first);
      var i :| 0 <= i < |rs| && rs[i] == first;
    }
  }

  // The two texts agree up to k, where the first ends or has the smaller character.
  predicate DiffersAt(a: string, b: string, k: nat) {
    k <= |a| && k < |b| && a[..k] == b[..k] && (k == |a| || a[k] < b[k])
  }

  lemma SameStart(a: string, b: string, k: nat)
    ensures k > 0 && DiffersAt(a, b, k) ==> a != "" && b != "" && a[0] == b[0]
  {
    if k > 0 && DiffersAt(a, b, k) { assert a[..k][0] == b[..k][0]; }
  }

  lemma DiffersLater(a: string, b: string, k: nat)
    requires a != "" && b != "" && a[0] == b[0]
    ensures DiffersAt(a, b, k + 1) <==> DiffersAt(a[1..], b[1..], k)
  {
    if k + 1 <= |a| && k + 1 <= |b| {
      assert a[..k + 1] == [a[0]] + a[1..][..k] && b[..k + 1] == [b[0]] + b[1..][..k];
      assert a[1..][..k] == a[..k + 1][1..] && b[1..][..k] == b[..k + 1][1..];
    }
  }

  // The order on timestamps is the order of a dictionary.
  lemma {:induction false} LessIsLexicographic(a: string, b: string)
    ensures Less(a, b) <==> exists k: nat :: DiffersAt(a, b, k)
  {
    if a == "" || b == "" || a[0] != b[0] {
      assert b != "" && (a == "" || a[0] < b[0]) ==> DiffersAt(a, b, 0);
      forall k: nat ensures k > 0 && DiffersAt(a, b, k) ==> a != "" && b != "" && a[0] == b[0] {
        SameStart(a, b, k);
      }
    } else {
      LessIsLexicographic(a[1..], b[1..]);
      forall k: nat ensures DiffersAt(a, b, k + 1) <==> DiffersAt(a[1..], b[1..], k) { DiffersLater(a, b, k); }
      assert !DiffersAt(a, b, 0);
      assert forall k: nat :: DiffersAt(a, b, k) ==> k > 0 && DiffersAt(a[1..], b[1..], k - 1);
    }
  }

  // ---------- what a history lists ----------

  // The list of a history after any calls: of everything added since the last
  // Clear, fresh results only, all of them if there are at most twenty, and
  // otherwise twenty of which none finished before one left out; latest first.
  lemma ListedAreLatest(parse: Parser, from: int, calls: seq<Call>, now: int)
    requires Ordered(calls, from) && AlwaysChronological(parse, [], calls) && LastTime(calls, from) <= now
    ensures var log := LogAfterAll([], calls);
      var listed := Pruned(parse, TestsIn(FileAfterAll(parse, None, calls)), now);
      && (forall r :: r in listed ==> r in log && Fresh(parse, r, now))
      && (forall r :: multiset(listed)[r] <= multiset(log)[r])
      && |listed| == (if CountFresh(parse, log, now) <= 20 then CountFresh(parse, log, now) else 20)
      && (CountFresh(parse, log, now) <= 20 ==>
            forall r :: Fresh(parse, r, now) ==> multiset(listed)[r] == multiset(log)[r])
      && (forall out, held :: Fresh(parse, out, now) && multiset(listed)[out] < multiset(log)[out] && held in listed ==>
            parse(held.finishedAt).Some? && parse(out.finishedAt).value <= parse(held.finishedAt).value)
      && (forall i, j :: 0 <= i < j < |listed| ==> !Less(listed[i].finishedAt, listed[j].finishedAt))
  {
    var log := LogAfterAll([], calls);
    HistoryRefinesLog(parse, None, [], from, calls, now);
    ListedFrom(parse, log, now);
    LogIsChronological(parse, [], calls);
    forall out, held | Fresh(parse, out, now) && held in Pruned(parse, log, now)
        && multiset(Pruned(parse, log, now))[out] < multiset(log)[out]
      ensures parse(held.finishedAt).Some? && parse(out.finishedAt).value <= parse(held.finishedAt).value
    {
      LeftOutFinishedNoLater(parse, log, now, out, held);
    }
  }

  lemma ListedFrom(parse: Parser, log: seq<Result>, now: int)
    ensures var listed := Pruned(parse, log, now);
      && (forall r :: r in listed ==> r in log && Fresh(parse, r, now))
      && (forall r :: multiset(listed)[r] <= multiset(log)[r])
      && |listed| == (if CountFresh(parse, log, now) <= 20 then CountFresh(parse, log, now) else 20)
      && (CountFresh(parse, log, now) <= 20 ==>
            forall r :: Fresh(parse, r, now) ==> multiset(listed)[r] == multiset(log)[r])
      && (forall i, j :: 0 <= i < j < |listed| ==> !Less(listed[i].finishedAt, listed[j].finishedAt))
  {
    var listed := Pruned(parse, log, now);
    PrunedSize(parse, log, now);
    PrunedIsSorted(parse, log, now);
    forall r | r in listed ensures r in log && Fresh(parse, r, now) { PrunedAreFresh(parse, log, now, r); }
    forall r ensures multiset(listed)[r] <= multiset(log)[r] {
      if r in listed { PrunedAreFresh(parse, log, now, r); } else { assert r !in multiset(listed); }
    }
    if CountFresh(parse, log, now) <= 20 {
      forall r | Fresh(parse, r, now) ensures multiset(listed)[r] == multiset(log)[r] {
        FewAreAllHeld(parse, log, now, r);
      }
    }
  }

  lemma {:induction false} LogIsChronological(parse: Parser, log: seq<Result>, calls: seq<Call>)
    requires AlwaysChronological(parse, log, calls)
    ensures Chronological(parse, LogAfterAll(log, calls))
    decreases |calls|
  {
    if calls != [] { LogIsChronological(parse, LogAfter(log, calls[0]), calls[1..]); }
  }
}
