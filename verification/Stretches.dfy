/**
 A client's history and a query's answer, said from the events themselves: which events begin a
 stretch, which one ends it, and which matching events are returned.
 */
module Stretches {
  import opened Options
  import opened Tracker
  import opened TrackerLog
  import opened History

  // ---- the fold -------------------------------------------------------------------------------------

  /** A connect or a roam puts the client somewhere. */
  predicate Begins(e: Event) {
    e.key == EvtConnected || e.key == EvtRoam
  }

  /** Anything but a radio change ends the stretch before it. */
  predicate Ends(e: Event) {
    e.key != EvtRoamRadio
  }

  /** Nothing between two events ends a stretch. */
  ghost predicate Quiet(events: seq<Event>, after: nat, until: nat)
    requires until <= |events|
  {
    forall j :: after < j < until ==> !Ends(events[j])
  }

  /** The stretch begun by event s ends at this time; 0 when nothing has ended it. */
  ghost predicate EndsAt(events: seq<Event>, s: nat, to: int)
    requires s < |events|
  {
    || (Quiet(events, s, |events|) && to == 0)
    || exists j :: s < j < |events| && Ends(events[j]) && Quiet(events, s, j) && to == events[j].time
  }

  /** Event j is the beginning of the stretch or a radio change during it. */
  ghost predicate Tunes(events: seq<Event>, s: nat, ap: string, j: nat)
    requires s < |events|
  {
    s <= j < |events| && Quiet(events, s, j) && (j == s || (events[j].key == EvtRoamRadio && events[j].ap == ap))
  }

  ghost predicate LastTuned(events: seq<Event>, s: nat, ap: string, j: nat)
    requires s < |events|
  {
    Tunes(events, s, ap, j) && forall m: nat :: j < m ==> !Tunes(events, s, ap, m)
  }

  /** The channel of a stretch is the last one told during it. */
  ghost predicate TunedTo(events: seq<Event>, s: nat, ap: string, channel: int)
    requires s < |events|
  {
    exists j: nat :: LastTuned(events, s, ap, j) && channel == events[j].channel
  }

  ghost predicate Stretch(events: seq<Event>, s: nat, iv: Interval) {
    && s < |events| && Begins(events[s])
    && iv.ap == (if events[s].key == EvtConnected then events[s].ap else events[s].apTo)
    && iv.ssid == events[s].ssid && iv.from == events[s].time
    && EndsAt(events, s, iv.to) && TunedTo(events, s, iv.ap, iv.channel)
  }

  /** Which event begins each stretch. */
  ghost predicate Begun(events: seq<Event>, f: Folding, starts: seq<nat>) {
    && |starts| == |f.out| && -1 <= f.open < |f.out|
    && (forall k :: 0 <= k < |starts| ==> Stretch(events, starts[k], f.out[k]))
    && (forall i, j :: 0 <= i < j < |starts| ==> starts[i] < starts[j])
    && (forall s :: s in starts <==> 0 <= s < |events| && Begins(events[s]))
    && (f.open >= 0 ==> f.open == |f.out| - 1)
    && (forall k :: 0 <= k < |starts| ==> (k == f.open <==> Quiet(events, starts[k], |events|)))
  }

  // One more event leaves an ended stretch as it is.
  lemma EndedStays(init: seq<Event>, e: Event, s: nat, iv: Interval)
    requires Stretch(init, s, iv) && !Quiet(init, s, |init|)
    ensures Stretch(init + [e], s, iv) && !Quiet(init + [e], s, |init| + 1)
  {
    var all := init + [e];
    var j :| s < j < |init| && Ends(init[j]) && Quiet(init, s, j) && iv.to == init[j].time;
    assert Ends(all[j]) && Quiet(all, s, j);
    var t: nat :| LastTuned(init, s, iv.ap, t) && iv.channel == init[t].channel;
    assert Tunes(all, s, iv.ap, t);
    forall m: nat | t < m ensures !Tunes(all, s, iv.ap, m) {
      assert !Tunes(init, s, iv.ap, m);
      if m < |init| {
        assert Quiet(all, s, m) <==> Quiet(init, s, m);
      } else if m == |init| {
        assert !Ends(all[j]) || !Quiet(all, s, m);
      }
    }
    assert LastTuned(all, s, iv.ap, t);
  }

  // An ending event closes the ongoing stretch.
  lemma OpenEnds(init: seq<Event>, e: Event, s: nat, iv: Interval)
    requires Stretch(init, s, iv) && Quiet(init, s, |init|) && Ends(e)
    ensures Stretch(init + [e], s, iv.(to := e.time)) && !Quiet(init + [e], s, |init| + 1)
  {
    var all := init + [e];
    assert Ends(all[|init|]) && Quiet(all, s, |init|);
    var t: nat :| LastTuned(init, s, iv.ap, t) && iv.channel == init[t].channel;
    assert Tunes(all, s, iv.ap, t);
    forall m: nat | t < m ensures !Tunes(all, s, iv.ap, m) {
      assert !Tunes(init, s, iv.ap, m);
      if m < |init| { assert Quiet(all, s, m) <==> Quiet(init, s, m); }
    }
    assert LastTuned(all, s, iv.ap, t);
  }

  // A radio change keeps it ongoing and retunes it when it is about the same access point.
  lemma OpenRetunes(init: seq<Event>, e: Event, s: nat, iv: Interval)
    requires Stretch(init, s, iv) && Quiet(init, s, |init|) && !Ends(e)
    ensures Stretch(init + [e], s, if e.ap == iv.ap then iv.(channel := e.channel) else iv) && Quiet(init + [e], s, |init| + 1)
  {
    var all, n := init + [e], |init|;
    assert Quiet(all, s, n + 1);
    var t: nat :| LastTuned(init, s, iv.ap, t) && iv.channel == init[t].channel;
    if e.ap == iv.ap {
      assert Quiet(all, s, n) && LastTuned(all, s, iv.ap, n);
    } else {
      assert Tunes(all, s, iv.ap, t);
      forall m: nat | t < m ensures !Tunes(all, s, iv.ap, m) {
        assert !Tunes(init, s, iv.ap, m);
        if m < n { assert Quiet(all, s, m) <==> Quiet(init, s, m); }
      }
      assert LastTuned(all, s, iv.ap, t);
    }
  }

  // A beginning event is a stretch of its own.
  lemma NewStretch(init: seq<Event>, e: Event)
    requires Begins(e)
    ensures Stretch(init + [e], |init|, Interval(if e.key == EvtConnected then e.ap else e.apTo, e.ssid, e.channel, e.time, 0))
    ensures Quiet(init + [e], |init|, |init| + 1)
  {
    var all, n := init + [e], |init|;
    var ap := if e.key == EvtConnected then e.ap else e.apTo;
    assert Quiet(all, n, n + 1) && Quiet(all, n, n);
    assert LastTuned(all, n, ap, n);
  }

  /** A folded history has one stretch for every connect and roam, in order, each ended by the next event that is no radio change. */
  lemma {:induction false} FoldIsStretches(events: seq<Event>) returns (starts: seq<nat>)
    ensures Begun(events, FoldAll(events), starts)
  {
    if events == [] {
      starts := [];
    } else {
      var init, e := events[..|events| - 1], events[|events| - 1];
      var before := FoldIsStretches(init);
      assert events == init + [e];
      starts := FoldStepBegun(init, e, FoldAll(init), before);
    }
  }

  lemma FoldStepBegun(init: seq<Event>, e: Event, f: Folding, before: seq<nat>) returns (starts: seq<nat>)
    requires Begun(init, f, before)
    ensures Begun(init + [e], FoldStep(f, e), starts)
  {
    hide Stretch, Quiet;
    var all, n := init + [e], |init|;
    var r := FoldStep(f, e);
    starts := if Begins(e) then before + [n] else before;
    if Begins(e) { NewStretch(init, e); }
    forall k | 0 <= k < |before| ensures Stretch(all, starts[k], r.out[k]) && (k == r.open <==> Quiet(all, starts[k], n + 1)) {
      if k != f.open {
        EndedStays(init, e, before[k], f.out[k]);
      } else if Ends(e) {
        OpenEnds(init, e, before[k], f.out[k]);
      } else {
        OpenRetunes(init, e, before[k], f.out[k]);
      }
    }
    forall s: int ensures s in starts <==> 0 <= s < |all| && Begins(all[s]) {
      if 0 <= s < n { assert s in before <==> Begins(init[s]); }
    }
    forall i | 0 <= i < |before| ensures before[i] < n { assert before[i] in before; }
  }

  // ---- queries ------------------------------------------------------------------------------------------

  /** The event answers this filter: every field that is set has to fit, an access point on any side of the event. */
  predicate Answers(f: Filter, e: Event) {
    && (f.client != "" ==> e.client == f.client)
    && (f.ap != "" ==> f.ap in {e.ap, e.apFrom, e.apTo})
    && (f.key.Some? ==> e.key == f.key.value)
    && (f.since.Some? ==> f.since.value <= e.time)
    && (f.until.Some? ==> e.time <= f.until.value)
  }

  /** Positions of an answer in the stored events: exactly those of events that answer the filter, the last first. */
  ghost predicate Picks(events: seq<Event>, f: Filter, out: seq<Event>, at: seq<nat>) {
    && |at| == |out| && (forall i :: 0 <= i < |at| ==> at[i] < |events| && events[at[i]] == out[i])
    && (forall i, j :: 0 <= i < j < |at| ==> at[j] < at[i])
    && (forall i: nat :: i < |events| ==> (Answers(f, events[i]) <==> i in at))
  }

  lemma PicksOneMore(init: seq<Event>, e: Event, f: Filter, rest: seq<Event>, before: seq<nat>)
    requires Picks(init, f, rest, before)
    ensures if Answers(f, e) then Picks(init + [e], f, [e] + rest, [|init|] + before) else Picks(init + [e], f, rest, before)
  {
    hide Answers;
    var all, n := init + [e], |init|;
    assert forall i :: 0 <= i < |before| ==> before[i] < n;
    forall i: nat | i < n ensures Answers(f, all[i]) <==> i in before {
      assert Answers(f, init[i]) <==> i in before;
    }
    assert n !in before;
  }

  /** A query picks exactly the events that answer it, each once, the youngest first. */
  lemma {:induction false} QueryPicks(events: seq<Event>, f: Filter) returns (at: seq<nat>)
    ensures Picks(events, f, NewestFirst(events, f), at)
  {
    hide Picks, Answers, Matches;
    if events == [] {
      at := [];
      NothingToPick(f);
    } else {
      var init, e := events[..|events| - 1], events[|events| - 1];
      assert events == init + [e];
      var before := QueryPicks(init, f);
      AnswersIs(f, e);
      PicksOneMore(init, e, f, NewestFirst(init, f), before);
      at := if Answers(f, e) then [|init|] + before else before;
    }
  }

  lemma NothingToPick(f: Filter)
    ensures Picks([], f, [], [])
  {
  }

  lemma AnswersIs(f: Filter, e: Event)
    ensures Answers(f, e) <==> Matches(f, e)
  {
  }
}
