/**
 The persisted client history (internal/clientevents/filesink.go): events are kept oldest
 first although a held-back disconnect is released late, and one client's events fold into
 the stretches it spent on each AP.
 */
module History {
  import opened Options
  import opened Sessions
  import opened Tracker
  import opened TrackerLog

  // ---- the sink ---------------------------------------------------------------------------

  ghost predicate OldestFirst(events: seq<Event>) {
    forall i, j :: 0 <= i < j < |events| ==> events[i].time <= events[j].time
  }

  /** Puts e behind every event that is not younger. */
  function InsertByTime(events: seq<Event>, e: Event): seq<Event> {
    if events == [] || events[|events| - 1].time <= e.time then events + [e]
    else InsertByTime(events[..|events| - 1], e) + [events[|events| - 1]]
  }

  /** The in-memory list between compactions stays within ten percent over the cap. */
  function Bounded(events: seq<Event>, max: nat): seq<Event> {
    if |events| > max + max / 10 then events[|events| - max..] else events
  }

  lemma {:induction false} InsertMembersByTime(events: seq<Event>, e: Event)
    ensures multiset(InsertByTime(events, e)) == multiset(events) + multiset{e}
  {
    if events != [] && events[|events| - 1].time > e.time {
      var init := events[..|events| - 1];
      InsertMembersByTime(init, e);
      assert events == init + [events[|events| - 1]];
    }
  }

  lemma {:induction false} InsertOldestFirst(events: seq<Event>, e: Event)
    requires OldestFirst(events)
    ensures OldestFirst(InsertByTime(events, e))
  {
    if events != [] && events[|events| - 1].time > e.time {
      var init, last := events[..|events| - 1], events[|events| - 1];
      InsertOldestFirst(init, e);
      InsertMembersByTime(init, e);
      var r := InsertByTime(init, e);
      forall i | 0 <= i < |r| ensures r[i].time <= last.time {
        assert r[i] in multiset(r);
        assert r[i] in multiset(init) || r[i] == e;
        if r[i] != e {
          var k :| 0 <= k < |init| && init[k] == r[i];
          assert events[k] == r[i];
        }
      }
    }
  }

  lemma SwapBack(was: seq<Event>, e: Event, i: nat)
    requires 0 < i <= |was| && was[i - 1].time > e.time
    ensures var now := was[..i] + [e] + was[i..];
            && now[i - 1].time > now[i].time
            && now[i - 1 := now[i]][i := now[i - 1]] == was[..i - 1] + [e] + was[i - 1..]
    ensures InsertByTime(was[..i], e) + was[i..] == InsertByTime(was[..i - 1], e) + was[i - 1..]
  {
    assert was[..i][..i - 1] == was[..i - 1] && was[i - 1..] == [was[i - 1]] + was[i..];
  }

  lemma InsertHere(was: seq<Event>, e: Event, i: nat)
    requires i <= |was| && (i > 0 ==> was[i - 1].time <= e.time)
    ensures InsertByTime(was[..i], e) + was[i..] == was[..i] + [e] + was[i..]
  {
  }

  /** A suffix after trimming: what a prune with this cutoff and cap may leave. */
  ghost predicate Pruned(before: seq<Event>, cutoff: int, max: nat, after: seq<Event>) {
    && |after| <= |before| && after == before[|before| - |after|..]
    && |after| <= max
    && (forall i :: 0 <= i < |after| ==> after[i].time >= cutoff)
    && (|after| < |before| ==> |after| == max || before[|before| - |after| - 1].time < cutoff)
  }

  /** The n youngest of a list that is oldest first. */
  function Newest(events: seq<Event>, n: nat): seq<Event> {
    if |events| > n then events[|events| - n..] else events
  }

  /** What an untrimmed sink holds after a log was emitted to it. */
  function Sink(log: seq<Event>): seq<Event> {
    if log == [] then [] else InsertByTime(Sink(log[..|log| - 1]), log[|log| - 1])
  }

  /** The lines load keeps; a line without a time is foreign. */
  function Readable(lines: seq<Event>): seq<Event> {
    if lines == [] then []
    else Readable(lines[..|lines| - 1]) + if lines[|lines| - 1].time != 0 then [lines[|lines| - 1]] else []
  }

  class FileSink {
    const maxEvents: nat
    var events: seq<Event>        // oldest first
    var file: seq<Event>          // the file's lines, in emission order since the last compaction

    /** Memory may have been cut, but its youngest events are always the file's. */
    ghost predicate Valid()
      reads this
    {
      && maxEvents > 0 && OldestFirst(events) && |events| <= |file|
      && (|events| == |file| ==> events == Sink(file))
      && Newest(events, maxEvents) == Newest(Sink(file), maxEvents)
    }

    /** NewFileSink: load, sort, compact. */
    constructor (maxEvents: nat, lines: seq<Event>, cutoff: int)
      requires maxEvents > 0
      ensures this.maxEvents == maxEvents && Valid() && file == events
      ensures Pruned(Sink(Readable(lines)), cutoff, maxEvents, events)
    {
      this.maxEvents, events, file := maxEvents, [], lines;
      new;
      events := Load(lines);
      SinkOldestFirst(Readable(lines));
      Prune(cutoff);
      PrunedOldestFirst(Sink(Readable(lines)), cutoff, maxEvents, events);
      file := events;
      SortedSink(events);
    }

    /** Compact: prune, then rewrite the file; exactly what a restart would have left. */
    method Compact(cutoff: int)
      requires Valid()
      modifies this
      ensures Valid() && file == events
      ensures Pruned(old(events), cutoff, maxEvents, events) && Pruned(Sink(old(file)), cutoff, maxEvents, events)
    {
      ghost var was := events;
      Prune(cutoff);
      PrunedOldestFirst(was, cutoff, maxEvents, events);
      PrunedByNewest(was, Sink(file), cutoff, maxEvents, events);
      file := events;
      SortedSink(events);
    }

    /** Emit: placed by time, memory bounded, the file appended to. */
    method Emit(e: Event)
      requires Valid()
      modifies this
      ensures Valid()
      ensures events == Bounded(InsertByTime(old(events), e), maxEvents)
      ensures file == old(file) + [e]
    {
      hide InsertByTime, OldestFirst, Sink, Newest;
      EmitKeeps(events, file, e, maxEvents);
      Place(e);
      if |events| > maxEvents + maxEvents / 10 {
        events := events[|events| - maxEvents..];
      }
      file := file + [e];
    }

    /** Appended, then swapped back over every younger event. */
    method Place(e: Event)
      modifies this`events
      ensures events == InsertByTime(old(events), e)
    {
      ghost var was := events;
      events := events + [e];
      var i := |events| - 1;
      assert was[..|was|] == was && was[|was|..] == [] && was + [e] == was[..i] + [e] + was[i..];
      hide InsertByTime;
      while i > 0 && events[i - 1].time > events[i].time
        invariant 0 <= i <= |was|
        invariant events == was[..i] + [e] + was[i..]
        invariant InsertByTime(was, e) == InsertByTime(was[..i], e) + was[i..]
      {
        SwapBack(was, e, i);
        events := events[i - 1 := events[i]][i := events[i - 1]];
        i := i - 1;
      }
      InsertHere(was, e, i);
    }

    /** pruneLocked: retention first, found by binary search, then the hard cap. */
    method Prune(cutoff: int)
      requires OldestFirst(events)
      modifies this`events
      ensures Pruned(old(events), cutoff, maxEvents, events)
    {
      ghost var was := events;
      var lo, hi := 0, |events|;
      while lo < hi
        invariant 0 <= lo <= hi <= |events| && events == was
        invariant forall i :: 0 <= i < lo ==> events[i].time < cutoff
        invariant forall i :: hi <= i < |events| ==> events[i].time >= cutoff
      {
        var mid := (lo + hi) / 2;
        if events[mid].time >= cutoff { hi := mid; } else { lo := mid + 1; }
      }
      events := events[lo..];
      if |events| > maxEvents {
        events := events[|events| - maxEvents..];
      }
    }
  }

  /** load: the readable lines, then the library's stable sort by time. */
  method Load(lines: seq<Event>) returns (events: seq<Event>)
    ensures events == Sink(Readable(lines))
  {
    var read: seq<Event> := [];
    for i := 0 to |lines|
      invariant read == Readable(lines[..i])
    {
      assert lines[..i + 1][..i] == lines[..i];
      if lines[i].time != 0 { read := read + [lines[i]]; }
    }
    assert lines[..|lines|] == lines;
    events := SortByTime(read);
    StableSortIsSink(read, events);
  }

  /** sort.SliceStable by time. */
  method SortByTime(events: seq<Event>) returns (sorted: seq<Event>)
    ensures StableSort(events, sorted)
  {
    sorted := [];
    for i := 0 to |events|
      invariant sorted == Sink(events[..i])
    {
      assert events[..i + 1][..i] == events[..i];
      sorted := InsertByTime(sorted, events[i]);
    }
    assert events[..|events|] == events;
    SinkOldestFirst(events);
    forall t ensures AtTime(sorted, t) == AtTime(events, t) { SinkIsStableSort(events, t); }
  }

  lemma SinkSnoc(log: seq<Event>, e: Event)
    ensures Sink(log + [e]) == InsertByTime(Sink(log), e)
  {
    assert (log + [e])[..|log|] == log;
  }

  lemma InsertLast(events: seq<Event>, e: Event)
    requires OldestFirst(events + [e])
    ensures OldestFirst(events) && InsertByTime(events, e) == events + [e]
  {
    var all := events + [e];
    assert forall i :: 0 <= i < |events| ==> all[i] == events[i] && all[|events|] == e;
  }

  /** A list that is oldest first already is its own sink. */
  lemma {:induction false} SortedSink(events: seq<Event>)
    requires OldestFirst(events)
    ensures Sink(events) == events
  {
    hide InsertByTime, OldestFirst;
    if events != [] {
      var init, last := events[..|events| - 1], events[|events| - 1];
      assert events == init + [last];
      InsertLast(init, last);
      SortedSink(init);
    }
  }

  lemma {:induction false} InsertAmong(d: seq<Event>, s: seq<Event>, e: Event)
    requires s != [] && s[0].time <= e.time
    ensures InsertByTime(d + s, e) == d + InsertByTime(s, e)
  {
    var init, last := s[..|s| - 1], s[|s| - 1];
    assert (d + s)[..|d + s| - 1] == d + init && (d + s)[|d + s| - 1] == last;
    if last.time <= e.time {
      assert d + s + [e] == d + (s + [e]);
    } else {
      InsertAmong(d, init, e);
      assert d + InsertByTime(init, e) + [last] == d + (InsertByTime(init, e) + [last]);
    }
  }

  lemma {:induction false} InsertBefore(d: seq<Event>, s: seq<Event>, e: Event)
    requires forall i :: 0 <= i < |s| ==> s[i].time > e.time
    ensures InsertByTime(d + s, e) == InsertByTime(d, e) + s
  {
    if s == [] {
      assert d + s == d && InsertByTime(d, e) + s == InsertByTime(d, e);
    } else {
      var init, last := s[..|s| - 1], s[|s| - 1];
      assert (d + s)[..|d + s| - 1] == d + init && (d + s)[|d + s| - 1] == last;
      InsertBefore(d, init, e);
      assert InsertByTime(d, e) + init + [last] == InsertByTime(d, e) + (init + [last]) && s == init + [last];
    }
  }

  lemma {:induction false} InsertLength(s: seq<Event>, e: Event)
    ensures |InsertByTime(s, e)| == |s| + 1
  {
    if s != [] { InsertLength(s[..|s| - 1], e); }
  }

  lemma NewestTail(d: seq<Event>, s: seq<Event>, n: nat)
    requires |s| >= n
    ensures Newest(d + s, n) == Newest(s, n)
  {
  }

  /** The youngest n after an insertion depend only on the youngest n before it. */
  lemma NewestOfInsert(s: seq<Event>, e: Event, n: nat)
    requires OldestFirst(s) && n > 0
    ensures Newest(InsertByTime(s, e), n) == Newest(InsertByTime(Newest(s, n), e), n)
  {
    hide InsertByTime;
    if |s| > n {
      var d, t := s[..|s| - n], s[|s| - n..];
      assert s == d + t && |t| == n && Newest(s, n) == t;
      if t[0].time <= e.time {
        InsertAmong(d, t, e);
        InsertLength(t, e);
        NewestTail(d, InsertByTime(t, e), n);
      } else {
        InsertBefore(d, t, e);
        InsertBefore([], t, e);
        assert [] + t == t;
        NewestTail(InsertByTime(d, e), t, n);
        NewestTail(InsertByTime([], e), t, n);
      }
    }
  }

  lemma NewestBounded(s: seq<Event>, n: nat)
    ensures Newest(Bounded(s, n), n) == Newest(s, n)
    ensures OldestFirst(s) ==> OldestFirst(Bounded(s, n))
    ensures |Bounded(s, n)| <= |s| && (|Bounded(s, n)| == |s| ==> Bounded(s, n) == s)
  {
  }

  lemma EmitKeeps(events: seq<Event>, file: seq<Event>, e: Event, max: nat)
    requires max > 0 && OldestFirst(events) && |events| <= |file|
    requires |events| == |file| ==> events == Sink(file)
    requires Newest(events, max) == Newest(Sink(file), max)
    ensures var next := Bounded(InsertByTime(events, e), max);
            && OldestFirst(next) && |next| <= |file| + 1
            && (|next| == |file| + 1 ==> next == Sink(file + [e]))
            && Newest(next, max) == Newest(Sink(file + [e]), max)
  {
    hide InsertByTime, Sink, OldestFirst, Newest, Bounded;
    SinkSnoc(file, e);
    SinkOldestFirst(file);
    InsertOldestFirst(events, e);
    InsertLength(events, e);
    NewestOfInsert(events, e, max);
    NewestOfInsert(Sink(file), e, max);
    NewestBounded(InsertByTime(events, e), max);
  }

  lemma PrunedOldestFirst(before: seq<Event>, cutoff: int, max: nat, after: seq<Event>)
    requires OldestFirst(before) && Pruned(before, cutoff, max, after)
    ensures OldestFirst(after)
  {
  }

  /** A prune sees only the youngest events within the cap. */
  lemma PrunedByNewest(a: seq<Event>, b: seq<Event>, cutoff: int, max: nat, after: seq<Event>)
    requires Newest(a, max) == Newest(b, max) && Pruned(a, cutoff, max, after)
    ensures Pruned(b, cutoff, max, after)
  {
    var n := Newest(a, max);
    assert after == n[|n| - |after|..];
    if |after| < |n| { assert n[|n| - |after| - 1] == a[|a| - |after| - 1]; }
    if |after| < |n| { assert n[|n| - |after| - 1] == b[|b| - |after| - 1]; }
  }

  lemma PrunedLongest(before: seq<Event>, cutoff: int, max: nat, a: seq<Event>, b: seq<Event>)
    requires Pruned(before, cutoff, max, a) && Pruned(before, cutoff, max, b)
    ensures |a| >= |b|
  {
    var from := |before| - |b|;
    assert b == before[from..];
    assert forall j :: from <= j < |before| ==> before[j] == b[j - from];
  }

  lemma PrunedUnique(before: seq<Event>, cutoff: int, max: nat, a: seq<Event>, b: seq<Event>)
    requires Pruned(before, cutoff, max, a) && Pruned(before, cutoff, max, b)
    ensures a == b
  {
    PrunedLongest(before, cutoff, max, a, b);
    PrunedLongest(before, cutoff, max, b, a);
  }

  lemma {:induction false} SinkOldestFirst(log: seq<Event>)
    ensures OldestFirst(Sink(log)) && multiset(Sink(log)) == multiset(log)
  {
    hide InsertByTime;
    if log != [] {
      var init, last := log[..|log| - 1], log[|log| - 1];
      SinkOldestFirst(init);
      InsertOldestFirst(Sink(init), last);
      InsertMembersByTime(Sink(init), last);
      assert log == init + [last];
    }
  }

  lemma {:induction false} InsertKeepsClient(events: seq<Event>, e: Event, c: string)
    requires e.client == c ==> forall i :: 0 <= i < |Of(events, c)| ==> Of(events, c)[i].time <= e.time
    ensures Of(InsertByTime(events, e), c) == if e.client == c then Of(events, c) + [e] else Of(events, c)
  {
    if events == [] || events[|events| - 1].time <= e.time {
      OfSnoc(events, e, c);
    } else {
      var init, last := events[..|events| - 1], events[|events| - 1];
      assert events == init + [last];
      OfSnoc(init, last, c);
      if e.client == c {
        assert forall i :: 0 <= i < |Of(init, c)| ==> Of(init, c)[i] == Of(events, c)[i];
      }
      InsertKeepsClient(init, e, c);
      OfSnoc(InsertByTime(init, e), last, c);
    }
  }

  /** Sorting by time never reorders a client whose events left in time order. */
  lemma {:induction false} SinkKeepsClientOrder(log: seq<Event>, c: string)
    requires Chronological(Of(log, c))
    ensures Of(Sink(log), c) == Of(log, c)
  {
    if log != [] {
      var init, last := log[..|log| - 1], log[|log| - 1];
      assert log == init + [last];
      OfSnoc(init, last, c);
      assert Of(init, c) == Of(log, c)[..|Of(init, c)|];
      SinkKeepsClientOrder(init, c);
      InsertKeepsClient(Sink(init), last, c);
    }
  }

  // ---- queries ----------------------------------------------------------------------------------

  /** Zero fields match everything; an AP matches on either side of a roam. */
  datatype Filter = Filter(client: string, ap: string, key: Option<Key>, since: Option<int>, until: Option<int>, limit: nat)

  predicate Matches(f: Filter, e: Event) {
    && (f.client == "" || e.client == f.client)
    && (f.ap == "" || e.ap == f.ap || e.apFrom == f.ap || e.apTo == f.ap)
    && (f.key.None? || e.key == f.key.value)
    && (f.since.None? || e.time >= f.since.value)
    && (f.until.None? || e.time <= f.until.value)
  }

  /** All matching events, newest first. */
  function NewestFirst(events: seq<Event>, f: Filter): seq<Event> {
    if events == [] then []
    else
      var rest := NewestFirst(events[..|events| - 1], f);
      if Matches(f, events[|events| - 1]) then [events[|events| - 1]] + rest else rest
  }

  method Query(events: seq<Event>, f: Filter) returns (out: seq<Event>)
    ensures out == if f.limit > 0 && |NewestFirst(events, f)| > f.limit then NewestFirst(events, f)[..f.limit] else NewestFirst(events, f)
  {
    hide Matches;
    out := [];
    var i := |events|;
    assert events[..i] == events;
    while i > 0
      invariant 0 <= i <= |events|
      invariant NewestFirst(events, f) == out + NewestFirst(events[..i], f)
      invariant f.limit > 0 ==> |out| < f.limit
    {
      i := i - 1;
      assert events[..i + 1][..i] == events[..i];
      if Matches(f, events[i]) {
        out := out + [events[i]];
        if f.limit > 0 && |out| >= f.limit {
          return;
        }
      }
    }
  }

  /** A query answers youngest first with exactly the matching events. */
  lemma {:induction false} NewestFirstMeaning(events: seq<Event>, f: Filter)
    requires OldestFirst(events)
    ensures var out := NewestFirst(events, f);
            && (forall i, j :: 0 <= i < j < |out| ==> out[i].time >= out[j].time)
            && (forall e :: e in out <==> e in events && Matches(f, e))
  {
    if events != [] {
      var init, last := events[..|events| - 1], events[|events| - 1];
      NewestFirstMeaning(init, f);
      assert events == init + [last];
      forall e | e in init ensures e.time <= last.time {
        var k :| 0 <= k < |init| && init[k] == e;
        assert events[k] == e;
      }
    }
  }

  // ---- restart: the file is in emission order and load re-sorts it -------------------------------

  function AtTime(events: seq<Event>, t: int): seq<Event> {
    if events == [] then []
    else AtTime(events[..|events| - 1], t) + if events[|events| - 1].time == t then [events[|events| - 1]] else []
  }

  /** sorted is the stable sort of events by time: sorted, and ties in their original order. */
  ghost predicate StableSort(events: seq<Event>, sorted: seq<Event>) {
    OldestFirst(sorted) && SameByTime(sorted, events)
  }

  ghost predicate SameByTime(a: seq<Event>, b: seq<Event>) {
    forall t :: AtTime(a, t) == AtTime(b, t)
  }

  lemma AtTimeSnoc(events: seq<Event>, e: Event, t: int)
    ensures AtTime(events + [e], t) == AtTime(events, t) + if e.time == t then [e] else []
  {
    assert (events + [e])[..|events|] == events;
  }

  lemma {:induction false} InsertIsStable(events: seq<Event>, e: Event, t: int)
    ensures AtTime(InsertByTime(events, e), t) == AtTime(events, t) + if e.time == t then [e] else []
  {
    hide AtTime;
    if events == [] || events[|events| - 1].time <= e.time {
      AtTimeSnoc(events, e, t);
    } else {
      var init, last := events[..|events| - 1], events[|events| - 1];
      assert events == init + [last];
      AtTimeSnoc(init, last, t);
      InsertIsStable(init, e, t);
      AtTimeSnoc(InsertByTime(init, e), last, t);
    }
  }

  lemma {:induction false} SinkIsStableSort(log: seq<Event>, t: int)
    ensures AtTime(Sink(log), t) == AtTime(log, t)
  {
    if log != [] {
      SinkIsStableSort(log[..|log| - 1], t);
      InsertIsStable(Sink(log[..|log| - 1]), log[|log| - 1], t);
    }
  }

  lemma {:induction false} TimeFound(events: seq<Event>, t: int) returns (i: nat)
    requires AtTime(events, t) != []
    ensures i < |events| && events[i].time == t
  {
    if events[|events| - 1].time == t {
      i := |events| - 1;
    } else {
      i := TimeFound(events[..|events| - 1], t);
    }
  }

  lemma LastAtItsTime(a: seq<Event>)
    requires a != []
    ensures AtTime(a, a[|a| - 1].time) != []
  {
  }

  lemma LastTimes(a: seq<Event>, b: seq<Event>)
    requires a != [] && OldestFirst(b) && SameByTime(a, b)
    ensures b != [] && a[|a| - 1].time <= b[|b| - 1].time
  {
    hide AtTime;
    var t := a[|a| - 1].time;
    LastAtItsTime(a);
    assert AtTime(a, t) == AtTime(b, t);
    hide SameByTime;
    var i := TimeFound(b, t);
  }

  lemma DropLast(a: seq<Event>, x: Event, b: seq<Event>, y: Event)
    requires x.time == y.time && SameByTime(a + [x], b + [y])
    ensures x == y && SameByTime(a, b)
  {
    forall t ensures AtTime(a, t) == AtTime(b, t) && (t == x.time ==> x == y) {
      AtTimeSnoc(a, x, t);
      AtTimeSnoc(b, y, t);
      assert AtTime(a + [x], t) == AtTime(b + [y], t);
      hide AtTime, SameByTime;
      SameLast(AtTime(a, t), if x.time == t then [x] else [], AtTime(b, t), if y.time == t then [y] else []);
    }
    assert x == y by { assert x.time == x.time && AtTime(a, x.time) == AtTime(b, x.time); }
  }

  lemma SameLast(p: seq<Event>, q: seq<Event>, r: seq<Event>, u: seq<Event>)
    requires p + q == r + u && |q| == |u|
    ensures p == r && q == u
  {
    assert p == (p + q)[..|p|] && r == (r + u)[..|r|];
    assert q == (p + q)[|p|..] && u == (r + u)[|r|..];
  }

  lemma {:induction false} StableSortUnique(a: seq<Event>, b: seq<Event>)
    requires OldestFirst(a) && OldestFirst(b) && SameByTime(a, b)
    ensures a == b
  {
    if a != [] { LastTimes(a, b); }
    if b != [] { LastTimes(b, a); }
    hide SameByTime;
    if a != [] {
      var a0, b0, x, y := a[..|a| - 1], b[..|b| - 1], a[|a| - 1], b[|b| - 1];
      assert a == a0 + [x] && b == b0 + [y];
      DropLast(a0, x, b0, y);
      StableSortUnique(a0, b0);
    }
  }

  /** Loading the file after a restart gives back exactly what a sink held that never trimmed. */
  lemma StableSortIsSink(file: seq<Event>, loaded: seq<Event>)
    requires StableSort(file, loaded)
    ensures loaded == Sink(file)
  {
    SinkOldestFirst(file);
    forall t ensures AtTime(loaded, t) == AtTime(Sink(file), t) { SinkIsStableSort(file, t); }
    StableSortUnique(loaded, Sink(file));
  }

  lemma {:induction false} AllReadable(lines: seq<Event>)
    requires forall e :: e in lines ==> e.time != 0
    ensures Readable(lines) == lines
  {
    if lines != [] {
      AllReadable(lines[..|lines| - 1]);
      assert lines == lines[..|lines| - 1] + [lines[|lines| - 1]];
    }
  }

  /**
   Trimmed or not, restarting a running sink and compacting it at the same moment leave the same
   events: what trimming dropped from memory, and late releases inserted since, never show.
   */
  lemma RestartIsCompaction(sink: FileSink, cutoff: int, compacted: seq<Event>, reopened: seq<Event>)
    requires sink.Valid() && forall e :: e in sink.file ==> e.time != 0
    requires Pruned(sink.events, cutoff, sink.maxEvents, compacted)
    requires Pruned(Sink(Readable(sink.file)), cutoff, sink.maxEvents, reopened)
    ensures compacted == reopened
  {
    AllReadable(sink.file);
    PrunedByNewest(sink.events, Sink(sink.file), cutoff, sink.maxEvents, compacted);
    PrunedUnique(Sink(sink.file), cutoff, sink.maxEvents, compacted, reopened);
  }

  // ---- the fold -------------------------------------------------------------------------------

  /** One stretch on one AP; to is 0 while it is ongoing. */
  datatype Interval = Interval(ap: string, ssid: string, channel: int, from: int, to: int)

  /** Intervals so far, and the index of the open one or -1. */
  datatype Folding = Folding(out: seq<Interval>, open: int)

  function Closed(f: Folding, at: int): Folding
    requires -1 <= f.open < |f.out|
  {
    if f.open >= 0 then Folding(f.out[f.open := f.out[f.open].(to := at)], -1) else f
  }

  function OpenedAt(f: Folding, ap: string, e: Event): Folding {
    Folding(f.out + [Interval(ap, e.ssid, e.channel, e.time, 0)], |f.out|)
  }

  function FoldStep(f: Folding, e: Event): (r: Folding)
    requires -1 <= f.open < |f.out|
    ensures -1 <= r.open < |r.out|
  {
    match e.key
    case EvtConnected => OpenedAt(Closed(f, e.time), e.ap, e)
    case EvtRoam => OpenedAt(Closed(f, e.time), e.apTo, e)
    case EvtRoamRadio =>
      if f.open >= 0 && f.out[f.open].ap == e.ap then Folding(f.out[f.open := f.out[f.open].(channel := e.channel)], f.open) else f
    case EvtDisconnected => Closed(f, e.time)
  }

  function FoldAll(events: seq<Event>): (f: Folding)
    ensures -1 <= f.open < |f.out|
  {
    if events == [] then Folding([], -1) else FoldStep(FoldAll(events[..|events| - 1]), events[|events| - 1])
  }

  method FoldHistory(events: seq<Event>) returns (out: seq<Interval>)
    ensures out == FoldAll(events).out
  {
    out := [];
    var open := -1;
    for i := 0 to |events|
      invariant Folding(out, open) == FoldAll(events[..i])
    {
      var e := events[i];
      assert events[..i + 1][..i] == events[..i];
      match e.key {
        case EvtConnected =>
          if open >= 0 { out := out[open := out[open].(to := e.time)]; }
          out := out + [Interval(e.ap, e.ssid, e.channel, e.time, 0)];
          open := |out| - 1;
        case EvtRoam =>
          if open >= 0 { out := out[open := out[open].(to := e.time)]; }
          out := out + [Interval(e.apTo, e.ssid, e.channel, e.time, 0)];
          open := |out| - 1;
        case EvtRoamRadio =>
          if open >= 0 && out[open].ap == e.ap {
            out := out[open := out[open].(channel := e.channel)];
          }
        case EvtDisconnected =>
          if open >= 0 { out := out[open := out[open].(to := e.time)]; }
          open := -1;
      }
    }
    assert events[..|events|] == events;
  }

  /** FileSink.History: one client's events, folded. */
  method ClientHistory(events: seq<Event>, client: string) returns (out: seq<Interval>)
    ensures out == FoldAll(Of(events, client)).out
  {
    var evs: seq<Event> := [];
    for i := 0 to |events|
      invariant evs == Of(events[..i], client)
    {
      assert events[..i + 1][..i] == events[..i];
      if events[i].client == client {
        evs := evs + [events[i]];
      }
    }
    assert events[..|events|] == events;
    out := FoldHistory(evs);
  }

  /** Ordered, non-overlapping stretches; only the last may be ongoing. */
  ghost predicate OrderedStretches(out: seq<Interval>, open: bool) {
    && (forall i :: 0 <= i < |out| ==> out[i].from > 0 && (out[i].to == 0 || out[i].from <= out[i].to))
    && (forall i, j :: 0 <= i < j < |out| ==> out[i].to != 0 && out[i].to <= out[j].from)
    && (open ==> |out| > 0)
    && (|out| > 0 ==> (out[|out| - 1].to == 0 <==> open))
  }

  /** The fold's state matches where the reference machine has the client. */
  ghost predicate FoldMatches(f: Folding, w: Where, c: string, clock: int) {
    && OrderedStretches(f.out, c in w)
    && f.open == (if c in w then |f.out| - 1 else -1)
    && (c in w ==> f.out[f.open].ap == w[c])
    && (forall i :: 0 <= i < |f.out| ==> f.out[i].from <= clock && f.out[i].to <= clock)
  }

  lemma FoldStepMatches(f: Folding, w: Where, c: string, clock: int, e: Event)
    requires FoldMatches(f, w, c, clock) && e.client == c && clock <= e.time && e.time > 0 && Replay1(w, e).Some?
    ensures FoldMatches(FoldStep(f, e), Replay1(w, e).value, c, e.time)
  {
    match e.key
    case EvtConnected =>
    case EvtDisconnected => CloseMatches(f, w, c, clock, e.time);
    case EvtRoam => CloseMatches(f, w, c, clock, e.time); OpenMatches(Closed(f, e.time), w - {c}, c, e.apTo, e);
    case EvtRoamRadio =>
  }

  lemma CloseMatches(f: Folding, w: Where, c: string, clock: int, at: int)
    requires FoldMatches(f, w, c, clock) && clock <= at && at > 0
    ensures FoldMatches(Closed(f, at), w - {c}, c, at)
  {
  }

  lemma OpenMatches(f: Folding, w: Where, c: string, ap: string, e: Event)
    requires FoldMatches(f, w, c, e.time) && c !in w && e.time > 0
    ensures FoldMatches(OpenedAt(f, ap, e), w[c := ap], c, e.time)
  {
  }

  function LastTime(events: seq<Event>): int {
    if events == [] then 0 else events[|events| - 1].time
  }

  lemma {:induction false} FoldMatchesReplay(events: seq<Event>, c: string)
    requires Chronological(events) && Replay(map[], events).Some? && forall i :: 0 <= i < |events| ==> events[i].client == c
    ensures FoldMatches(FoldAll(events), Replay(map[], events).value, c, LastTime(events))
  {
    if events != [] {
      var init, last := events[..|events| - 1], events[|events| - 1];
      FoldMatchesReplay(init, c);
      hide FoldStep, Replay1, FoldMatches;
      assert LastTime(init) <= last.time;
      FoldStepMatches(FoldAll(init), Replay(map[], init).value, c, LastTime(init), last);
    }
  }

  function Only(w: Where, c: string): Where {
    if c in w then map[c := w[c]] else map[]
  }

  lemma OnlyStep(w: Where, e: Event, c: string)
    requires Replay1(w, e).Some?
    ensures e.client == c ==> Replay1(Only(w, c), e) == Some(Only(Replay1(w, e).value, c))
    ensures e.client != c ==> Only(Replay1(w, e).value, c) == Only(w, c)
  {
    assert Only(w, c) - {c} == map[] && Only(w, c)[c := e.ap] == map[c := e.ap] && Only(w, c)[c := e.apTo] == map[c := e.apTo];
  }

  lemma {:induction false} OfIsClients(log: seq<Event>, c: string)
    ensures forall i :: 0 <= i < |Of(log, c)| ==> Of(log, c)[i].client == c
  {
    if log != [] { OfIsClients(log[..|log| - 1], c); }
  }

  lemma ClientReplayStep(init: seq<Event>, last: Event, c: string)
    requires Replay(map[], init).Some? && Replay(map[], init + [last]).Some?
    requires Replay(map[], Of(init, c)) == Some(Only(Replay(map[], init).value, c))
    ensures Replay(map[], Of(init + [last], c)) == Some(Only(Replay(map[], init + [last]).value, c))
  {
    hide Replay, Replay1, Only, Of;
    OfSnoc(init, last, c);
    ReplaySnoc(map[], init, last);
    OnlyStep(Replay(map[], init).value, last, c);
    if last.client == c { ReplaySnoc(map[], Of(init, c), last); }
  }

  /** A legal log is legal client by client. */
  lemma {:induction false} ClientReplay(log: seq<Event>, c: string)
    requires Replay(map[], log).Some?
    ensures Replay(map[], Of(log, c)) == Some(Only(Replay(map[], log).value, c))
  {
    if log == [] {
      assert Only(map[], c) == map[];
    } else {
      hide Replay1, Only, Of;
      ClientReplay(log[..|log| - 1], c);
      assert log == log[..|log| - 1] + [log[|log| - 1]];
      ClientReplayStep(log[..|log| - 1], log[|log| - 1], c);
    }
  }

  /**
   History agrees with the tracker. With observation times nondecreasing and positive, nothing
   seeded and nothing trimmed, the sink is sorted by time, keeps every client's own order, and a
   client's history is a list of ordered, non-overlapping stretches whose last one is ongoing
   exactly when the tracker holds the client, on that very AP.
   */
  lemma HistoryAgreesWithTracker(steps: seq<Step>, c: string)
    requires ClockMonotone(steps)
    ensures var s := DoAll(State(map[], map[], []), steps); var out := FoldAll(Of(Sink(s.log), c)).out;
            && OldestFirst(Sink(s.log)) && Of(Sink(s.log), c) == Of(s.log, c)
            && OrderedStretches(out, c in s.current)
            && (c in s.current ==> out[|out| - 1].ap == s.current[c].ap)
  {
    var s := DoAll(State(map[], map[], []), steps);
    UnseededRun(steps, c);
    hide DoAll, Of, Sink, FoldAll, Replay, Chronological, Located, OldestFirst, OrderedStretches;
    SinkOldestFirst(s.log);
    SinkKeepsClientOrder(s.log, c);
    HistoryOfReplay(s.log, c);
  }

  lemma UnseededRun(steps: seq<Step>, c: string)
    requires ClockMonotone(steps)
    ensures var s := DoAll(State(map[], map[], []), steps);
            Chronological(Of(s.log, c)) && Replay(map[], s.log) == Some(Located(s.current))
  {
    var none: map<string, Presence> := map[];
    RunTimely(none, steps, c);
    LogReplaysToCurrent(none, steps);
    assert Located(none) == map[];
  }

  /** What one client's history says when the log as a whole replays legally. */
  lemma HistoryOfReplay(log: seq<Event>, c: string)
    requires Chronological(Of(log, c)) && Replay(map[], log).Some?
    ensures var w := Replay(map[], log).value; var out := FoldAll(Of(log, c)).out;
            OrderedStretches(out, c in w) && (c in w ==> out[|out| - 1].ap == w[c])
  {
    ClientReplay(log, c);
    OfIsClients(log, c);
    hide Replay, Of, FoldAll, Chronological;
    FoldMatchesReplay(Of(log, c), c);
  }
}
