// internal/netcheck/history.go: a bounded file of test results that answers as
// if it kept every result ever added.
module History {
  import opened Wrappers

  const MAX_HISTORY := 20
  const MAX_AGE := 30 * 24 * 3600 * 1_000_000_000  // in nanoseconds

  // The fields prune looks at, and everything else.
  datatype Result = Result(id: string, finishedAt: string, rest: string)

  // time.Parse(time.RFC3339, _), in nanoseconds.
  type Parser = string -> Option<int>

  // Go's < on strings.
  predicate Less(a: string, b: string) {
    b != "" && (a == "" || a[0] < b[0] || (a[0] == b[0] && Less(a[1..], b[1..])))
  }

  lemma {:induction false} LessIsTransitive(a: string, b: string, c: string)
    requires !Less(a, b) && !Less(b, c)
    ensures !Less(a, c)
  {
    if a != "" && b != "" && c != "" && a[0] == b[0] == c[0] { LessIsTransitive(a[1..], b[1..], c[1..]); }
  }

  lemma {:induction false} LessIsTotal(a: string, b: string)
    ensures Less(a, b) || Less(b, a) || a == b
    ensures !(Less(a, b) && Less(b, a))
  {
    if a != "" && b != "" && a[0] == b[0] {
      LessIsTotal(a[1..], b[1..]);
      assert a == [a[0]] + a[1..] && b == [b[0]] + b[1..];
    }
  }

  // ---------- prune ----------

  predicate Alive(parse: Parser, r: Result, cutoff: int) {
    parse(r.finishedAt).Some? && parse(r.finishedAt).value >= cutoff && r.id != ""
  }

  function Keep(parse: Parser, rs: seq<Result>, cutoff: int): seq<Result> {
    if rs == [] then []
    else if Alive(parse, rs[0], cutoff) then [rs[0]] + Keep(parse, rs[1..], cutoff)
    else Keep(parse, rs[1..], cutoff)
  }

  // sort.SliceStable, latest first: a result goes before those it ties with.
  function Insert(r: Result, rs: seq<Result>): seq<Result> {
    if rs != [] && Less(r.finishedAt, rs[0].finishedAt) then [rs[0]] + Insert(r, rs[1..]) else [r] + rs
  }

  function Sort(rs: seq<Result>): seq<Result> {
    if rs == [] then [] else Insert(rs[0], Sort(rs[1..]))
  }

  function Take(rs: seq<Result>, n: nat): seq<Result> {
    if |rs| > n then rs[..n] else rs
  }

  function Pruned(parse: Parser, rs: seq<Result>, now: int): seq<Result> {
    Take(Sort(Keep(parse, rs, now - MAX_AGE)), MAX_HISTORY)
  }

  method Prune(parse: Parser, results: seq<Result>, now: int) returns (pruned: seq<Result>, changed: bool)
    ensures pruned == Pruned(parse, results, now)
    ensures changed == (|pruned| != |results|)
  {
    var cutoff := now - MAX_AGE;
    var filtered: seq<Result> := [];
    for i := 0 to |results|
      invariant filtered + Keep(parse, results[i..], cutoff) == Keep(parse, results, cutoff)
    {
      assert results[i..][1..] == results[i + 1..];
      var finished := parse(results[i].finishedAt);
      if finished.Some? && !(finished.value < cutoff) && results[i].id != "" {
        filtered := filtered + [results[i]];
      }
    }
    assert filtered == Keep(parse, results, cutoff);
    filtered := Sort(filtered);
    if |filtered| > MAX_HISTORY {
      filtered := filtered[..MAX_HISTORY];
    }
    return filtered, |filtered| != |results|;
  }

  // ---------- Sort is the stable sort ----------

  predicate Sorted(rs: seq<Result>) {
    forall i, j :: 0 <= i < j < |rs| ==> !Less(rs[i].finishedAt, rs[j].finishedAt)
  }

  // The results with one timestamp, in order.
  function Ties(rs: seq<Result>, stamp: string): seq<Result> {
    if rs == [] then [] else (if rs[0].finishedAt == stamp then [rs[0]] else []) + Ties(rs[1..], stamp)
  }

  lemma {:induction false} InsertHolds(r: Result, rs: seq<Result>)
    ensures multiset(Insert(r, rs)) == multiset{r} + multiset(rs)
    ensures forall x :: x in Insert(r, rs) ==> x == r || x in rs
  {
    if rs != [] {
      InsertHolds(r, rs[1..]);
      assert rs == [rs[0]] + rs[1..];
    }
  }

  lemma {:induction false} InsertSorts(r: Result, rs: seq<Result>)
    requires Sorted(rs)
    ensures Sorted(Insert(r, rs))
  {
    if rs != [] && Less(r.finishedAt, rs[0].finishedAt) {
      var rest := Insert(r, rs[1..]);
      InsertSorts(r, rs[1..]);
      InsertHolds(r, rs[1..]);
      LessIsTotal(r.finishedAt, rs[0].finishedAt);
      forall j | 0 <= j < |rest| ensures !Less(rs[0].finishedAt, rest[j].finishedAt) {
        assert rest[j] in rest;
        if rest[j] != r {
          var i :| 0 <= i < |rs[1..]| && rs[1..][i] == rest[j];
          assert rs[i + 1] == rest[j];
        }
      }
    } else {
      forall j | 0 <= j < |rs| ensures !Less(r.finishedAt, rs[j].finishedAt) {
        if j > 0 { LessIsTransitive(r.finishedAt, rs[0].finishedAt, rs[j].finishedAt); }
      }
    }
  }

  lemma {:induction false} InsertKeepsTies(r: Result, rs: seq<Result>, stamp: string)
    ensures Ties(Insert(r, rs), stamp) == Ties([r] + rs, stamp)
  {
    assert ([r] + rs)[1..] == rs;
    if rs != [] && Less(r.finishedAt, rs[0].finishedAt) {
      InsertKeepsTies(r, rs[1..], stamp);
      assert ([rs[0]] + Insert(r, rs[1..]))[1..] == Insert(r, rs[1..]);
      assert ([r] + rs[1..])[1..] == rs[1..];
      LessIsTotal(r.finishedAt, rs[0].finishedAt);
    }
  }

  lemma {:induction false} SortOrders(rs: seq<Result>)
    ensures Sorted(Sort(rs)) && multiset(Sort(rs)) == multiset(rs)
  {
    if rs != [] {
      SortOrders(rs[1..]);
      InsertSorts(rs[0], Sort(rs[1..]));
      InsertHolds(rs[0], Sort(rs[1..]));
      assert rs == [rs[0]] + rs[1..];
    }
  }

  lemma {:induction false} SortKeepsTies(rs: seq<Result>, stamp: string)
    ensures Ties(Sort(rs), stamp) == Ties(rs, stamp)
  {
    if rs != [] {
      SortKeepsTies(rs[1..], stamp);
      InsertKeepsTies(rs[0], Sort(rs[1..]), stamp);
      assert ([rs[0]] + Sort(rs[1..]))[1..] == Sort(rs[1..]);
    }
  }

  // Latest first, nothing lost or added, ties in their original order.
  lemma SortIsStable(rs: seq<Result>, stamp: string)
    ensures Sorted(Sort(rs)) && multiset(Sort(rs)) == multiset(rs) && Ties(Sort(rs), stamp) == Ties(rs, stamp)
  {
    SortOrders(rs);
    SortKeepsTies(rs, stamp);
  }

  lemma {:induction false} SortedIsFixed(rs: seq<Result>)
    requires Sorted(rs)
    ensures Sort(rs) == rs
  {
    if rs != [] {
      SortedIsFixed(rs[1..]);
      assert |rs| > 1 ==> rs[1..][0] == rs[1];
    }
  }

  // ---------- filtering, sorting and truncating commute ----------

  lemma {:induction false} KeptAre(parse: Parser, rs: seq<Result>, cutoff: int)
    ensures forall r :: r in Keep(parse, rs, cutoff) <==> r in rs && Alive(parse, r, cutoff)
  {
    if rs != [] { KeptAre(parse, rs[1..], cutoff); }
  }

  lemma {:induction false} KeepKeepsSorted(parse: Parser, rs: seq<Result>, cutoff: int)
    requires Sorted(rs)
    ensures Sorted(Keep(parse, rs, cutoff))
  {
    if rs != [] {
      KeepKeepsSorted(parse, rs[1..], cutoff);
      KeptAre(parse, rs[1..], cutoff);
      var rest := Keep(parse, rs[1..], cutoff);
      forall j | 0 <= j < |rest| ensures !Less(rs[0].finishedAt, rest[j].finishedAt) {
        assert rest[j] in rest && rest[j] in rs[1..];
      }
    }
  }

  lemma {:induction false} KeepTwice(parse: Parser, rs: seq<Result>, early: int, late: int)
    requires early <= late
    ensures Keep(parse, Keep(parse, rs, early), late) == Keep(parse, rs, late)
  {
    if rs != [] {
      KeepTwice(parse, rs[1..], early, late);
      var rest := Keep(parse, rs[1..], early);
      assert ([rs[0]] + rest)[1..] == rest;
    }
  }

  lemma {:induction false} KeepInsert(parse: Parser, r: Result, rs: seq<Result>, cutoff: int)
    requires Sorted(rs)
    ensures Keep(parse, Insert(r, rs), cutoff)
         == if Alive(parse, r, cutoff) then Insert(r, Keep(parse, rs, cutoff)) else Keep(parse, rs, cutoff)
  {
    if rs != [] && Less(r.finishedAt, rs[0].finishedAt) {
      KeepInsert(parse, r, rs[1..], cutoff);
      var whole := Insert(r, rs);
      assert whole[0] == rs[0] && whole[1..] == Insert(r, rs[1..]);
      assert ([rs[0]] + Keep(parse, rs[1..], cutoff))[1..] == Keep(parse, rs[1..], cutoff);
    } else {
      assert ([r] + rs)[1..] == rs;
      var kept := Keep(parse, rs, cutoff);
      KeptAre(parse, rs, cutoff);
      if kept != [] {
        assert kept[0] in kept && kept[0] in rs;
        if kept[0] != rs[0] { LessIsTransitive(r.finishedAt, rs[0].finishedAt, kept[0].finishedAt); }
      }
    }
  }

  lemma {:induction false} KeepSort(parse: Parser, rs: seq<Result>, cutoff: int)
    ensures Keep(parse, Sort(rs), cutoff) == Sort(Keep(parse, rs, cutoff))
  {
    if rs != [] {
      KeepSort(parse, rs[1..], cutoff);
      SortIsStable(rs[1..], "");
      KeepInsert(parse, rs[0], Sort(rs[1..]), cutoff);
      assert ([rs[0]] + Keep(parse, rs[1..], cutoff))[1..] == Keep(parse, rs[1..], cutoff);
    }
  }

  // Timestamps whose string order is their time order, as in UTC (section 5.1
  // of RFC 3339).
  predicate Chronological(parse: Parser, rs: seq<Result>) {
    forall i, j :: 0 <= i < |rs| && 0 <= j < |rs| && parse(rs[i].finishedAt).Some? && parse(rs[j].finishedAt).Some?
      && Less(rs[i].finishedAt, rs[j].finishedAt)
      ==> parse(rs[i].finishedAt).value <= parse(rs[j].finishedAt).value
  }

  // In a sorted list of results alive earlier, those still alive are the first ones.
  lemma {:induction false} KeepTake(parse: Parser, rs: seq<Result>, n: nat, early: int, late: int)
    requires Sorted(rs) && Chronological(parse, rs) && early <= late
    requires forall i :: 0 <= i < |rs| ==> Alive(parse, rs[i], early)
    ensures Keep(parse, Take(rs, n), late) == Take(Keep(parse, rs, late), n)
  {
    if rs != [] && n > 0 {
      TakeRest(rs, n);
      if Alive(parse, rs[0], late) {
        KeepTake(parse, rs[1..], n - 1, early, late);
        var rest := Keep(parse, rs[1..], late);
        assert Take([rs[0]] + rest, n) == [rs[0]] + Take(rest, n - 1);
      } else {
        forall i | 0 <= i < |rs| ensures !Alive(parse, rs[i], late) {
          if i > 0 { LessIsTotal(rs[0].finishedAt, rs[i].finishedAt); }
        }
        NoneKept(parse, rs, late);
        NoneKept(parse, Take(rs, n), late);
      }
    }
  }

  lemma {:induction false} NoneKept(parse: Parser, rs: seq<Result>, cutoff: int)
    requires forall i :: 0 <= i < |rs| ==> !Alive(parse, rs[i], cutoff)
    ensures Keep(parse, rs, cutoff) == []
  {
    if rs != [] { NoneKept(parse, rs[1..], cutoff); }
  }

  lemma TakeRest(rs: seq<Result>, n: nat)
    requires rs != [] && n > 0
    ensures Take(rs, n) != [] && Take(rs, n)[0] == rs[0] && Take(rs, n)[1..] == Take(rs[1..], n - 1)
  {
    if |rs| > n { assert rs[..n][1..] == rs[1..][..n - 1]; }
  }

  lemma {:induction false} TakeInsert(r: Result, rs: seq<Result>, n: nat)
    ensures Take(Insert(r, Take(rs, n)), n) == Take(Insert(r, rs), n)
  {
    if |rs| > n > 0 && Less(r.finishedAt, rs[0].finishedAt) {
      TakeInsert(r, rs[1..], n - 1);
      TakeRest(rs, n);
      var a, b := Insert(r, Take(rs[1..], n - 1)), Insert(r, rs[1..]);
      assert Take([rs[0]] + a, n) == [rs[0]] + Take(a, n - 1);
      assert Take([rs[0]] + b, n) == [rs[0]] + Take(b, n - 1);
    } else if |rs| > n > 0 {
      assert Take([r] + Take(rs, n), n) == Take([r] + rs, n);
    } else if n == 0 {
      assert forall s: seq<Result> :: Take(s, 0) == [];
    }
  }

  // ---------- the key lemmas ----------

  lemma SortedKept(parse: Parser, rs: seq<Result>, cutoff: int)
    requires Chronological(parse, rs)
    ensures var sorted := Sort(Keep(parse, rs, cutoff));
      && Sorted(sorted) && Chronological(parse, sorted)
      && forall i :: 0 <= i < |sorted| ==> Alive(parse, sorted[i], cutoff)
  {
    var kept := Keep(parse, rs, cutoff);
    var sorted := Sort(kept);
    SortIsStable(kept, "");
    KeptAre(parse, rs, cutoff);
    assert forall r :: r in multiset(sorted) ==> r in kept;
    forall i | 0 <= i < |sorted| ensures Alive(parse, sorted[i], cutoff) {
      assert sorted[i] in multiset(sorted);
    }
    ChronologicalSubset(parse, sorted, rs);
  }

  // What is still alive later in a pruned list is what pruning later finds.
  lemma KeepOfPruned(parse: Parser, rs: seq<Result>, early: int, late: int)
    requires Chronological(parse, rs) && early <= late
    ensures Keep(parse, Pruned(parse, rs, early), late - MAX_AGE) == Pruned(parse, rs, late)
  {
    var first, second := early - MAX_AGE, late - MAX_AGE;
    var kept := Keep(parse, rs, first);
    SortedKept(parse, rs, first);
    KeepTake(parse, Sort(kept), MAX_HISTORY, first, second);
    KeepSort(parse, kept, second);
    KeepTwice(parse, rs, first, second);
  }

  lemma PrunedIsSorted(parse: Parser, rs: seq<Result>, now: int)
    ensures Sorted(Pruned(parse, rs, now)) && |Pruned(parse, rs, now)| <= MAX_HISTORY
  {
    SortIsStable(Keep(parse, rs, now - MAX_AGE), "");
  }

  // Pruning again at a later time is pruning once at that time.
  lemma PruneAgain(parse: Parser, rs: seq<Result>, early: int, late: int)
    requires Chronological(parse, rs) && early <= late
    ensures Pruned(parse, Pruned(parse, rs, early), late) == Pruned(parse, rs, late)
  {
    KeepOfPruned(parse, rs, early, late);
    PrunedIsSorted(parse, rs, late);
    SortedIsFixed(Pruned(parse, rs, late));
  }

  lemma ChronologicalSubset(parse: Parser, small: seq<Result>, large: seq<Result>)
    requires Chronological(parse, large) && forall r :: r in multiset(small) ==> r in large
    ensures Chronological(parse, small)
  {
    forall i, j | 0 <= i < |small| && 0 <= j < |small| && parse(small[i].finishedAt).Some?
        && parse(small[j].finishedAt).Some? && Less(small[i].finishedAt, small[j].finishedAt)
      ensures parse(small[i].finishedAt).value <= parse(small[j].finishedAt).value
    {
      assert small[i] in multiset(small) && small[j] in multiset(small);
      var a :| 0 <= a < |large| && large[a] == small[i];
      var b :| 0 <= b < |large| && large[b] == small[j];
    }
  }

  // Adding to a pruned list and pruning is adding to the whole list and pruning.
  lemma PruneAfterAdding(parse: Parser, r: Result, rs: seq<Result>, early: int, late: int)
    requires Chronological(parse, rs) && early <= late
    ensures Pruned(parse, [r] + Pruned(parse, rs, early), late) == Pruned(parse, [r] + rs, late)
  {
    var cutoff := late - MAX_AGE;
    var once := Pruned(parse, rs, early);
    KeepOfPruned(parse, rs, early, late);
    PrunedIsSorted(parse, rs, late);
    SortedIsFixed(Pruned(parse, rs, late));
    assert ([r] + once)[1..] == once && ([r] + rs)[1..] == rs;
    if Alive(parse, r, cutoff) {
      assert ([r] + Keep(parse, once, cutoff))[1..] == Keep(parse, once, cutoff);
      assert ([r] + Keep(parse, rs, cutoff))[1..] == Keep(parse, rs, cutoff);
      TakeInsert(r, Sort(Keep(parse, rs, cutoff)), MAX_HISTORY);
    }
  }

  // ---------- the history object ----------

  // One call: the clock readings it makes, and whether its write succeeds.
  datatype Call =
    | List(now: int, writes: bool)
    | Add(result: Result, now: int, later: int, writes: bool)
    | Clear(now: int, writes: bool)

  function TestsIn(file: Option<seq<Result>>): seq<Result> { if file.Some? then file.value else [] }

  function FileAfter(parse: Parser, file: Option<seq<Result>>, call: Call): Option<seq<Result>> {
    match call
    case List(now, writes) =>
      if file.Some? && writes && |Pruned(parse, file.value, now)| != |file.value|
      then Some(Pruned(parse, file.value, now)) else file
    case Add(r, now, later, writes) =>
      if writes then Some(Pruned(parse, [r] + Pruned(parse, TestsIn(file), now), later)) else file
    case Clear(_, writes) => if writes then Some([]) else file
  }

  class History {
    const parse: Parser
    var file: Option<seq<Result>>

    constructor (parse: Parser, file: Option<seq<Result>>)
      ensures this.parse == parse && this.file == file
    {
      this.parse := parse;
      this.file := file;
    }

    method ReadLocked(now: int) returns (results: seq<Result>, changed: bool)
      ensures results == Pruned(parse, TestsIn(file), now)
      ensures changed == (|results| != |TestsIn(file)|)
    {
      if file.None? {
        return [], false;
      }
      results, changed := Prune(parse, file.value, now);
    }

    // A temporary file renamed over the old one: all or nothing.
    method WriteLocked(results: seq<Result>, writes: bool) returns (ok: bool)
      modifies this
      ensures ok == writes && file == if writes then Some(results) else old(file)
    {
      if writes {
        file := Some(results);
      }
      return writes;
    }

    method ListAll(now: int, writes: bool) returns (results: Option<seq<Result>>)
      modifies this
      ensures file == FileAfter(parse, old(file), List(now, writes))
      ensures results.Some? ==> results.value == Pruned(parse, TestsIn(old(file)), now)
      ensures results.None? <==> !writes && |Pruned(parse, TestsIn(old(file)), now)| != |TestsIn(old(file))|
      ensures results.Some? && file != old(file) ==> file == Some(results.value)
    {
      var pruned, changed := ReadLocked(now);
      if changed {
        var ok := WriteLocked(pruned, writes);
        if !ok {
          return None;
        }
      }
      return Some(pruned);
    }

    method AddResult(result: Result, now: int, later: int, writes: bool) returns (ok: bool)
      modifies this
      ensures ok == writes && file == FileAfter(parse, old(file), Add(result, now, later, writes))
      ensures file == if writes then Some(Pruned(parse, [result] + Pruned(parse, TestsIn(old(file)), now), later))
                      else old(file)
    {
      var results, _ := ReadLocked(now);
      results := [result] + results;
      var pruned, _ := Prune(parse, results, later);
      ok := WriteLocked(pruned, writes);
    }

    method ClearAll(writes: bool) returns (ok: bool)
      modifies this
      ensures forall now :: file == FileAfter(parse, old(file), Clear(now, writes))
      ensures ok == writes && file == if writes then Some([]) else old(file)
    {
      ok := WriteLocked([], writes);
    }
  }

  // ---------- the history refines the full log ----------

  // What a history without bounds would keep: everything added, newest first.
  function LogAfter(log: seq<Result>, call: Call): seq<Result> {
    match call
    case List(_, _) => log
    case Add(r, _, _, writes) => if writes then [r] + log else log
    case Clear(_, writes) => if writes then [] else log
  }

  function Start(call: Call): int { call.now }
  function End(call: Call): int { if call.Add? then call.later else call.now }

  // The clock never runs backwards.
  predicate Ordered(calls: seq<Call>, from: int)
    decreases |calls|
  {
    calls == [] || (from <= Start(calls[0]) <= End(calls[0]) && Ordered(calls[1..], End(calls[0])))
  }

  function LastTime(calls: seq<Call>, from: int): int { if calls == [] then from else End(calls[|calls| - 1]) }

  function FileAfterAll(parse: Parser, file: Option<seq<Result>>, calls: seq<Call>): Option<seq<Result>>
    decreases |calls|
  {
    if calls == [] then file else FileAfterAll(parse, FileAfter(parse, file, calls[0]), calls[1..])
  }

  function LogAfterAll(log: seq<Result>, calls: seq<Call>): seq<Result>
    decreases |calls|
  {
    if calls == [] then log else LogAfterAll(LogAfter(log, calls[0]), calls[1..])
  }

  // Every log on the way has UTC timestamps.
  predicate AlwaysChronological(parse: Parser, log: seq<Result>, calls: seq<Call>)
    decreases |calls|
  {
    Chronological(parse, log) && (calls == [] || AlwaysChronological(parse, LogAfter(log, calls[0]), calls[1..]))
  }

  // The file is a list the log once pruned to, so from then on both prune alike.
  ghost predicate Represents(parse: Parser, file: Option<seq<Result>>, log: seq<Result>, time: int) {
    || TestsIn(file) == log
    || exists early :: early <= time && TestsIn(file) == Pruned(parse, log, early)
  }

  lemma RepresentedPrunesAlike(parse: Parser, file: Option<seq<Result>>, log: seq<Result>, time: int, now: int)
    requires Represents(parse, file, log, time) && time <= now && Chronological(parse, log)
    ensures Pruned(parse, TestsIn(file), now) == Pruned(parse, log, now)
  {
    if TestsIn(file) != log {
      var early :| early <= time && TestsIn(file) == Pruned(parse, log, early);
      PruneAgain(parse, log, early, now);
    }
  }

  lemma CallKeepsRepresentation(parse: Parser, file: Option<seq<Result>>, log: seq<Result>, time: int, call: Call)
    requires Represents(parse, file, log, time) && time <= Start(call) <= End(call)
    requires Chronological(parse, log)
    ensures Represents(parse, FileAfter(parse, file, call), LogAfter(log, call), End(call))
  {
    match call
    case List(now, _) =>
      RepresentedPrunesAlike(parse, file, log, time, now);
    case Add(r, now, later, _) =>
      RepresentedPrunesAlike(parse, file, log, time, now);
      PruneAfterAdding(parse, r, log, now, later);
    case Clear(_, _) =>
  }

  // After any run of calls, with writes failing at will, listing at any later
  // time shows exactly what pruning the full log once would show.
  lemma {:induction false} HistoryRefinesLog(parse: Parser, file: Option<seq<Result>>, log: seq<Result>, from: int,
      calls: seq<Call>, now: int)
    requires Represents(parse, file, log, from) && Ordered(calls, from) && AlwaysChronological(parse, log, calls)
    requires LastTime(calls, from) <= now
    ensures Pruned(parse, TestsIn(FileAfterAll(parse, file, calls)), now) == Pruned(parse, LogAfterAll(log, calls), now)
    decreases |calls|
  {
    if calls == [] {
      RepresentedPrunesAlike(parse, file, log, from, now);
    } else {
      CallKeepsRepresentation(parse, file, log, from, calls[0]);
      HistoryRefinesLog(parse, FileAfter(parse, file, calls[0]), LogAfter(log, calls[0]), End(calls[0]), calls[1..],
          now);
    }
  }
}
