/**
 Client session rows of one device (internal/store/sessions.go): how a station table turns
 the stored rows into new rows, typed transitions and the armed disconnect flag, and how the
 row cap evicts.
 */
module Sessions {
  import opened Options
  import opened Text
  import opened Sorting

  const ROW_CAP: nat := 2048

  /** One stored row; zero values stand for unknown. */
  datatype Row = Row(connected: bool, lastSeen: int, since: int,
                     hostname: string, ip: string, essid: string, radio: string, channel: int, bytes: int)

  const NoRow := Row(false, 0, 0, "", "", "", "", 0, 0)

  /** One decoded station-table row, its MAC in any spelling. */
  datatype Station = Station(mac: string, hostname: string, ip: string, essid: string, radio: string, channel: int, bytes: int)

  datatype Kind = Connect | Disconnect | RadioChange

  datatype Transition = Transition(mac: string, kind: Kind, at: int, session: Row, prev: Row)

  type Rows = map<string, Row>

  // ---- what one table says ------------------------------------------------------------------

  /** The clients of a table; of several rows for one client the first counts. */
  function Present(stations: seq<Station>): map<string, Station> {
    if stations == [] then map[]
    else
      var before := Present(stations[..|stations| - 1]);
      var st := stations[|stations| - 1];
      var c := CanonicalMac(st.mac);
      if c.None? || c.value in before then before else before[c.value := st]
  }

  predicate Fresh(prev: Rows, mac: string) {
    mac !in prev || !prev[mac].connected
  }

  function PrevRow(prev: Rows, mac: string): Row {
    if mac in prev then prev[mac] else NoRow
  }

  function KnownText(known: string, kept: string): string {
    if known != "" then known else kept
  }

  function KnownNumber(known: int, kept: int): int {
    if known != 0 then known else kept
  }

  /** A new association takes only what the table reports; a surviving one keeps earlier context. */
  function Sighted(prev: Rows, mac: string, st: Station, now: int): Row {
    var base := if Fresh(prev, mac) then Row(true, now, now, "", "", "", "", 0, 0) else prev[mac].(lastSeen := now);
    Row(base.connected, base.lastSeen, base.since, KnownText(st.hostname, base.hostname), KnownText(st.ip, base.ip),
        KnownText(st.essid, base.essid), KnownText(st.radio, base.radio), KnownNumber(st.channel, base.channel), KnownNumber(st.bytes, base.bytes))
  }

  function RowAfter(prev: Rows, present: map<string, Station>, now: int, mac: string): Row
    requires mac in prev || mac in present
  {
    if mac in present then Sighted(prev, mac, present[mac], now) else prev[mac].(connected := false)
  }

  /** Every row of the refresh, before the cap. */
  function Refreshed(prev: Rows, present: map<string, Station>, now: int): Rows {
    map mac | mac in prev.Keys + present.Keys :: RowAfter(prev, present, now, mac)
  }

  predicate Moved(before: Row, next: Row) {
    || (before.radio != "" && next.radio != "" && before.radio != next.radio)
    || (before.channel != 0 && next.channel != 0 && before.channel != next.channel)
  }

  /** The one transition a client may yield. */
  function TransitionOf(prev: Rows, present: map<string, Station>, now: int, mac: string): Option<Transition> {
    if mac in present then
      var next := Sighted(prev, mac, present[mac], now);
      if Fresh(prev, mac) then Some(Transition(mac, Connect, now, next, PrevRow(prev, mac)))
      else if Moved(prev[mac], next) then Some(Transition(mac, RadioChange, now, next, prev[mac]))
      else None
    else if mac in prev && prev[mac].connected then
      Some(Transition(mac, Disconnect, now, prev[mac].(connected := false), prev[mac]))
    else None
  }

  predicate IsTransition(prev: Rows, present: map<string, Station>, now: int, t: Transition) {
    TransitionOf(prev, present, now, t.mac) == Some(t)
  }

  predicate SomeoneLeft(prev: Rows, present: map<string, Station>) {
    exists mac :: mac in prev && prev[mac].connected && mac !in present
  }

  // ---- the cap --------------------------------------------------------------------------------

  /** Eviction order: older proof first, the MAC breaking ties. */
  predicate Older(rows: Rows, a: string, b: string) {
    var x, y := PrevRow(rows, a).lastSeen, PrevRow(rows, b).lastSeen;
    x < y || (x == y && Less(a, b))
  }

  function CapSize(n: nat): nat {
    if n <= ROW_CAP then n else ROW_CAP
  }

  /** kept is what the cap leaves of rows: the newest ones, unchanged. */
  ghost predicate Capped(rows: Rows, kept: Rows) {
    && kept.Keys <= rows.Keys && (forall m :: m in kept ==> kept[m] == rows[m])
    && |kept| == CapSize(|rows|)
    && (forall e, m :: e in rows && e !in kept && m in kept ==> Older(rows, e, m))
  }

  function EvictFirst(rows: Rows): (string, string) -> bool {
    (a: string, b: string) => Older(rows, a, b)
  }

  function ByMac(): (Transition, Transition) -> bool {
    (a: Transition, b: Transition) => Less(a.mac, b.mac)
  }

  lemma LessIsStrict()
    ensures forall a, b, c :: Less(a, b) && Less(b, c) ==> Less(a, c)
    ensures forall a, b :: a != b ==> Less(a, b) || Less(b, a)
    ensures forall a :: !Less(a, a)
  {
    forall a, b, c | Less(a, b) && Less(b, c) ensures Less(a, c) { LessTransitive(a, b, c); }
    forall a: string, b: string | a != b ensures Less(a, b) || Less(b, a) { LessTotal(a, b); }
    forall a ensures !Less(a, a) { LessIrreflexive(a); }
  }

  lemma EvictFirstIsStrict(rows: Rows, macs: seq<string>)
    requires Distinct(macs)
    ensures StrictOrder(EvictFirst(rows)) && Comparable(EvictFirst(rows), macs)
  {
    LessIsStrict();
    hide Less;
  }

  lemma DropCount(rows: Rows, order: seq<string>, over: nat)
    requires Distinct(order) && over <= |order| && (forall m :: m in order ==> m in rows)
    ensures |rows - (set m | m in order[..over])| == |rows| - over
  {
    var gone := set m | m in order[..over];
    DistinctCount(order[..over]);
    assert (rows - gone).Keys == rows.Keys - gone && gone <= rows.Keys;
    assert |rows.Keys| == |rows| && |(rows - gone).Keys| == |rows - gone|;
  }

  lemma DroppedFirst(rows: Rows, order: seq<string>, over: nat, e: string, m: string)
    requires Ascending(EvictFirst(rows), order) && over <= |order|
    requires e in rows && e in order[..over] && m in rows && m in order && m !in order[..over]
    ensures Older(rows, e, m)
  {
    hide Less;
    assert forall k :: 0 <= k < over ==> order[k] in order[..over];
    var i :| 0 <= i < over && order[i] == e;
    var j :| 0 <= j < |order| && order[j] == m;
    assert EvictFirst(rows)(e, m);
  }

  lemma DropOldest(rows: Rows, order: seq<string>, over: nat)
    requires Ascending(EvictFirst(rows), order) && Distinct(order)
    requires forall m :: m in order <==> m in rows
    requires |order| == |rows| == over + ROW_CAP
    ensures Capped(rows, rows - (set m | m in order[..over]))
  {
    DropCount(rows, order, over);
    hide Ascending, Distinct, EvictFirst, Older;
    var kept := rows - (set m | m in order[..over]);
    forall e, m | e in rows && e !in kept && m in kept ensures Older(rows, e, m) {
      DroppedFirst(rows, order, over, e, m);
    }
  }

  method DropAll(rows: Rows, order: seq<string>) returns (kept: Rows)
    ensures kept == rows - (set m | m in order)
  {
    kept := rows;
    for i := 0 to |order|
      invariant kept == rows - (set m | m in order[..i])
    {
      assert order[..i + 1] == order[..i] + [order[i]];
      kept := kept - {order[i]};
    }
    assert order[..|order|] == order;
  }

  /** enforceSessionRowCap */
  method EnforceRowCap(rows: Rows) returns (kept: Rows)
    ensures Capped(rows, kept)
  {
    if |rows| <= ROW_CAP {
      return rows;
    }
    hide Less, Capped, StrictOrder, Comparable, EvictFirst, Ascending, Distinct;
    var over := |rows| - ROW_CAP;
    var macs := ListOf(rows.Keys);
    EvictFirstIsStrict(rows, macs);
    var order := SortBy(macs, EvictFirst(rows));
    AscendingDistinct(rows, order);
    kept := DropAll(rows, order[..over]);
    assert forall m :: m in order <==> m in rows;
    DropOldest(rows, order, over);
  }

  lemma AscendingDistinct(rows: Rows, s: seq<string>)
    requires StrictOrder(EvictFirst(rows)) && Ascending(EvictFirst(rows), s)
    ensures Distinct(s)
  {
    hide EvictFirst;
    forall i, j | 0 <= i < j < |s| ensures s[i] != s[j] {
      assert EvictFirst(rows)(s[i], s[j]);
    }
  }

  // ---- the refresh ------------------------------------------------------------------------------

  lemma PresentSnoc(stations: seq<Station>, i: nat)
    requires i < |stations|
    ensures var before := Present(stations[..i]); var c := CanonicalMac(stations[i].mac);
            Present(stations[..i + 1]) == if c.None? || c.value in before then before else before[c.value := stations[i]]
  {
    assert stations[..i + 1][..i] == stations[..i];
  }

  /** The rows once only the clients in seen were sighted. */
  function Overlaid(prev: Rows, seen: map<string, Station>, now: int): Rows {
    map mac | mac in prev.Keys + seen.Keys :: if mac in seen then Sighted(prev, mac, seen[mac], now) else prev[mac]
  }

  ghost predicate Sightings(prev: Rows, seen: map<string, Station>, now: int, out: seq<Transition>) {
    && (forall t :: t in out ==> t.mac in seen && IsTransition(prev, seen, now, t))
    && (forall mac :: mac in seen && TransitionOf(prev, seen, now, mac).Some? ==> TransitionOf(prev, seen, now, mac).value in out)
    && (forall i, j :: 0 <= i < j < |out| ==> out[i].mac != out[j].mac)
  }

  lemma SightingStep(prev: Rows, seen: map<string, Station>, now: int, out: seq<Transition>, mac: string, st: Station)
    requires Sightings(prev, seen, now, out) && mac !in seen
    ensures var seen' := seen[mac := st]; var t := TransitionOf(prev, seen', now, mac);
            Sightings(prev, seen', now, if t.Some? then out + [t.value] else out)
  {
    hide Sighted, Moved, Fresh;
    var seen' := seen[mac := st];
    forall m | m in seen ensures m in seen' && TransitionOf(prev, seen', now, m) == TransitionOf(prev, seen, now, m) {}
    assert forall t :: t in out ==> t.mac in seen && t.mac != mac;
  }

  lemma OverlaidStep(prev: Rows, seen: map<string, Station>, now: int, mac: string, st: Station)
    requires mac !in seen
    ensures Overlaid(prev, seen[mac := st], now) == Overlaid(prev, seen, now)[mac := Sighted(prev, mac, st, now)]
  {
    hide Sighted;
  }

  lemma NothingSighted(prev: Rows, now: int)
    ensures Present([]) == map[] && Overlaid(prev, map[], now) == prev && Sightings(prev, map[], now, [])
  {
  }

  /** One sighting: the row as the table leaves it, and whether the client counts as newly associated. */
  method SightOne(prev: Rows, c: string, st: Station, now: int) returns (next: Row, isNew: bool)
    ensures next == Sighted(prev, c, st, now) && isNew == Fresh(prev, c)
  {
    isNew := c !in prev || !prev[c].connected;
    next := NoRow.(connected := true, lastSeen := now);
    if isNew {
      next := next.(since := now);
    } else {
      next := prev[c];
      next := next.(lastSeen := now);
    }
    if st.hostname != "" { next := next.(hostname := st.hostname); }
    if st.ip != "" { next := next.(ip := st.ip); }
    if st.essid != "" { next := next.(essid := st.essid); }
    if st.radio != "" { next := next.(radio := st.radio); }
    if st.channel != 0 { next := next.(channel := st.channel); }
    if st.bytes != 0 { next := next.(bytes := st.bytes); }
  }

  /** First loop of RefreshSessionStations: rows and transitions of the clients in the table. */
  method Sight(prev: Rows, stations: seq<Station>, now: int) returns (rows: Rows, present: map<string, Station>, out: seq<Transition>)
    ensures present == Present(stations) && rows == Overlaid(prev, present, now) && Sightings(prev, present, now, out)
  {
    NothingSighted(prev, now);
    hide CanonicalMac, Present, Sightings, Overlaid, Sighted, Moved;
    rows, present, out := prev, map[], [];
    assert stations[..0] == [];
    for i := 0 to |stations|
      invariant present == Present(stations[..i])
      invariant rows == Overlaid(prev, present, now) && Sightings(prev, present, now, out)
    {
      PresentSnoc(stations, i);
      var st := stations[i];
      var c := CanonicalMac(st.mac);
      if c.Some? && c.value !in present {
        SightingStep(prev, present, now, out, c.value, st);
        OverlaidStep(prev, present, now, c.value, st);
        present := present[c.value := st];
        var next, isNew := SightOne(prev, c.value, st, now);
        rows := rows[c.value := next];
        if isNew {
          out := out + [Transition(c.value, Connect, now, next, PrevRow(prev, c.value))];
        } else if Moved(prev[c.value], next) {
          out := out + [Transition(c.value, RadioChange, now, next, prev[c.value])];
        }
      }
    }
    assert stations[..|stations|] == stations;
  }

  /** The rows once the departures among done were applied too. */
  function Settling(prev: Rows, present: map<string, Station>, now: int, done: set<string>): Rows {
    map mac | mac in prev.Keys + present.Keys ::
      if mac in present then Sighted(prev, mac, present[mac], now)
      else if mac in done && prev[mac].connected then prev[mac].(connected := false) else prev[mac]
  }

  ghost predicate Collected(prev: Rows, present: map<string, Station>, now: int, done: set<string>, out: seq<Transition>) {
    && (forall t :: t in out ==> (t.mac in present || t.mac in done) && IsTransition(prev, present, now, t))
    && (forall mac :: mac in present.Keys + done && TransitionOf(prev, present, now, mac).Some? ==> TransitionOf(prev, present, now, mac).value in out)
    && (forall i, j :: 0 <= i < j < |out| ==> out[i].mac != out[j].mac)
  }

  ghost predicate Leaver(prev: Rows, present: map<string, Station>, done: set<string>) {
    exists mac :: mac in done && mac in prev && prev[mac].connected && mac !in present
  }

  lemma DepartureStep(prev: Rows, present: map<string, Station>, now: int, done: set<string>, out: seq<Transition>, mac: string)
    requires Collected(prev, present, now, done, out) && mac !in done && mac in prev
    ensures Collected(prev, present, now, done + {mac},
              if mac !in present && prev[mac].connected
              then out + [Transition(mac, Disconnect, now, prev[mac].(connected := false), prev[mac])] else out)
  {
    hide Sighted, Moved, Fresh;
  }

  lemma SettlingStep(prev: Rows, present: map<string, Station>, now: int, done: set<string>, mac: string)
    requires mac in prev && mac !in done
    ensures Settling(prev, present, now, done + {mac}) ==
            if prev[mac].connected && mac !in present then Settling(prev, present, now, done)[mac := prev[mac].(connected := false)]
            else Settling(prev, present, now, done)
  {
    hide Sighted;
  }

  lemma LeaverStep(prev: Rows, present: map<string, Station>, done: set<string>, mac: string)
    requires mac in prev
    ensures Leaver(prev, present, done + {mac}) == (Leaver(prev, present, done) || (prev[mac].connected && mac !in present))
  {
    if prev[mac].connected && mac !in present { assert mac in done + {mac}; }
    if Leaver(prev, present, done) {
      var m :| m in done && m in prev && prev[m].connected && m !in present;
      assert m in done + {mac};
    }
  }

  lemma DeparturesStart(prev: Rows, present: map<string, Station>, now: int, out: seq<Transition>)
    requires Sightings(prev, present, now, out)
    ensures Settling(prev, present, now, {}) == Overlaid(prev, present, now) && Collected(prev, present, now, {}, out)
    ensures !Leaver(prev, present, {})
  {
    hide Sighted;
  }

  lemma DeparturesEnd(prev: Rows, present: map<string, Station>, now: int)
    ensures Settling(prev, present, now, prev.Keys) == Refreshed(prev, present, now)
    ensures Leaver(prev, present, prev.Keys) == SomeoneLeft(prev, present)
  {
    hide Sighted;
    if SomeoneLeft(prev, present) {
      var m :| m in prev && prev[m].connected && m !in present;
      assert m in prev.Keys;
    }
    forall mac | mac in prev.Keys + present.Keys
      ensures Settling(prev, present, now, prev.Keys)[mac] == RowAfter(prev, present, now, mac)
    {
      if mac !in present && !prev[mac].connected { assert prev[mac].(connected := false) == prev[mac]; }
    }
  }

  /** What the second loop has done once it visited the stored clients in done. */
  ghost predicate Departed(prev: Rows, present: map<string, Station>, now: int, done: set<string>, rows: Rows, out: seq<Transition>, armed: bool) {
    && rows == Settling(prev, present, now, done) && Collected(prev, present, now, done, out)
    && armed == Leaver(prev, present, done)
  }

  /** One stored client: connected and absent from the table means gone. */
  method DepartOne(prev: Rows, present: map<string, Station>, now: int, ghost done: set<string>, mac: string, rows: Rows, out: seq<Transition>, armed: bool)
    returns (rows': Rows, out': seq<Transition>, armed': bool)
    requires Departed(prev, present, now, done, rows, out, armed) && mac in prev && mac !in done
    ensures Departed(prev, present, now, done + {mac}, rows', out', armed')
  {
    DepartureStep(prev, present, now, done, out, mac);
    SettlingStep(prev, present, now, done, mac);
    LeaverStep(prev, present, done, mac);
    hide Settling, Collected, Leaver;
    rows', out', armed' := rows, out, armed;
    if prev[mac].connected && mac !in present {
      var gone := prev[mac].(connected := false);
      rows' := rows[mac := gone];
      armed' := true;
      out' := out + [Transition(mac, Disconnect, now, gone, prev[mac])];
    }
  }

  /** Second loop: stored connected rows the table does not prove, visited in any order. */
  method DepartAll(prev: Rows, present: map<string, Station>, now: int, sighted: Rows, seen: seq<Transition>)
    returns (rows: Rows, out: seq<Transition>, armed: bool)
    requires Departed(prev, present, now, {}, sighted, seen, false)
    ensures Departed(prev, present, now, prev.Keys, rows, out, armed)
  {
    hide Departed;
    rows, out, armed := sighted, seen, false;
    var rest := prev.Keys;
    ghost var done: set<string> := {};
    while rest != {}
      invariant rest <= prev.Keys && done == prev.Keys - rest
      invariant Departed(prev, present, now, done, rows, out, armed)
      decreases |rest|
    {
      var mac :| mac in rest;
      rows, out, armed := DepartOne(prev, present, now, done, mac, rows, out, armed);
      rest := rest - {mac};
      done := done + {mac};
    }
    assert done == prev.Keys;
  }

  method Depart(prev: Rows, present: map<string, Station>, now: int, sighted: Rows, seen: seq<Transition>)
    returns (rows: Rows, out: seq<Transition>, armed: bool)
    requires sighted == Overlaid(prev, present, now) && Sightings(prev, present, now, seen)
    ensures rows == Refreshed(prev, present, now) && Collected(prev, present, now, prev.Keys, out)
    ensures armed == SomeoneLeft(prev, present)
  {
    DeparturesStart(prev, present, now, seen);
    DeparturesEnd(prev, present, now);
    hide Settling, Collected, Leaver, SomeoneLeft, Refreshed;
    rows, out, armed := DepartAll(prev, present, now, sighted, seen);
  }

  /** What a refresh returns: every client's transition once, ordered by MAC. */
  ghost predicate Report(prev: Rows, present: map<string, Station>, now: int, out: seq<Transition>) {
    && (forall t :: t in out <==> IsTransition(prev, present, now, t))
    && (forall i, j :: 0 <= i < j < |out| ==> Less(out[i].mac, out[j].mac))
  }

  lemma ByMacIsStrict(out: seq<Transition>)
    requires forall i, j :: 0 <= i < j < |out| ==> out[i].mac != out[j].mac
    ensures StrictOrder(ByMac()) && Comparable(ByMac(), out)
  {
    LessIsStrict();
    hide Less;
  }

  lemma ReportOfCollected(prev: Rows, present: map<string, Station>, now: int, seen: seq<Transition>, out: seq<Transition>)
    requires Collected(prev, present, now, prev.Keys, seen) && SameItems(out, seen) && Ascending(ByMac(), out)
    ensures Report(prev, present, now, out)
  {
    hide Less, Sighted, Moved;
    forall i, j | 0 <= i < j < |out| ensures Less(out[i].mac, out[j].mac) {
      assert ByMac()(out[i], out[j]);
    }
  }

  // ---- what a report says, in stored rows and stations --------------------------------------------

  /** The row of a table that counts for c: the first one spelling it. */
  predicate CountsFor(stations: seq<Station>, i: nat, c: string)
    requires i < |stations|
  {
    CanonicalMac(stations[i].mac) == Some(c) && forall j :: 0 <= j < i ==> CanonicalMac(stations[j].mac) != Some(c)
  }

  lemma {:induction false} PresentIsFirst(stations: seq<Station>, i: nat, c: string)
    requires i < |stations| && CountsFor(stations, i, c)
    ensures c in Present(stations) && Present(stations)[c] == stations[i]
  {
    hide CanonicalMac;
    var init := stations[..|stations| - 1];
    if i < |init| {
      PresentIsFirst(init, i, c);
    } else {
      NotPresent(init, c);
    }
  }

  lemma {:induction false} NotPresent(stations: seq<Station>, c: string)
    requires forall j :: 0 <= j < |stations| ==> CanonicalMac(stations[j].mac) != Some(c)
    ensures c !in Present(stations)
  {
    hide CanonicalMac;
    if stations != [] { NotPresent(stations[..|stations| - 1], c); }
  }

  lemma {:induction false} PresentHasRow(stations: seq<Station>, c: string) returns (i: nat)
    requires c in Present(stations)
    ensures i < |stations| && CountsFor(stations, i, c)
  {
    hide CanonicalMac;
    var n := |stations| - 1;
    if c in Present(stations[..n]) {
      i := PresentHasRow(stations[..n], c);
    } else {
      i := n;
      forall j | 0 <= j < n ensures CanonicalMac(stations[j].mac) != Some(c) {
        if CanonicalMac(stations[j].mac) == Some(c) {
          AnyRowIsPresent(stations[..n], j, c);
        }
      }
    }
  }

  lemma {:induction false} AnyRowIsPresent(stations: seq<Station>, j: nat, c: string)
    requires j < |stations| && CanonicalMac(stations[j].mac) == Some(c)
    ensures c in Present(stations)
  {
    hide CanonicalMac;
    if j < |stations| - 1 { AnyRowIsPresent(stations[..|stations| - 1], j, c); }
  }

  /** The radio or the channel of a client is known before and now, and differs. */
  predicate Retuned(was: Row, st: Station) {
    (was.radio != "" && st.radio != "" && st.radio != was.radio) || (was.channel != 0 && st.channel != 0 && st.channel != was.channel)
  }

  /** A row begun by a station: nothing is carried over. */
  predicate Begins(r: Row, st: Station, now: int) {
    r == Row(true, now, now, st.hostname, st.ip, st.essid, st.radio, st.channel, st.bytes)
  }

  /** A row a station continues: what the station leaves out stays. */
  predicate Continues(r: Row, was: Row, st: Station, now: int) {
    && r.connected && r.lastSeen == now && r.since == was.since
    && r.hostname == (if st.hostname == "" then was.hostname else st.hostname)
    && r.ip == (if st.ip == "" then was.ip else st.ip)
    && r.essid == (if st.essid == "" then was.essid else st.essid)
    && r.radio == (if st.radio == "" then was.radio else st.radio)
    && r.channel == (if st.channel == 0 then was.channel else st.channel)
    && r.bytes == (if st.bytes == 0 then was.bytes else st.bytes)
  }

  /** What a table tells about one transition, its two ends included. */
  ghost predicate Tells(prev: Rows, stations: seq<Station>, now: int, t: Transition) {
    var known := t.mac in prev && prev[t.mac].connected;
    && t.at == now && t.prev == (if t.mac in prev then prev[t.mac] else Row(false, 0, 0, "", "", "", "", 0, 0))
    && match t.kind
       case Connect =>
         !known && (exists i :: 0 <= i < |stations| && CountsFor(stations, i, t.mac) && Begins(t.session, stations[i], now))
       case RadioChange =>
         known && (exists i :: 0 <= i < |stations| && CountsFor(stations, i, t.mac)
                               && Retuned(prev[t.mac], stations[i]) && Continues(t.session, prev[t.mac], stations[i], now))
       case Disconnect =>
         known && t.session == prev[t.mac].(connected := false)
         && (forall i :: 0 <= i < |stations| ==> CanonicalMac(stations[i].mac) != Some(t.mac))
  }

  lemma TellsOfSeen(prev: Rows, stations: seq<Station>, now: int, t: Transition, i: nat)
    requires i < |stations| && CountsFor(stations, i, t.mac)
    ensures Tells(prev, stations, now, t) <==> IsTransition(prev, Present(stations), now, t)
  {
    hide CanonicalMac, Present;
    PresentIsFirst(stations, i, t.mac);
    assert forall j :: 0 <= j < |stations| && CountsFor(stations, j, t.mac) ==> j == i;
    assert CanonicalMac(stations[i].mac) == Some(t.mac);
  }

  lemma TellsOfUnseen(prev: Rows, stations: seq<Station>, now: int, t: Transition)
    requires forall j :: 0 <= j < |stations| ==> CanonicalMac(stations[j].mac) != Some(t.mac)
    ensures Tells(prev, stations, now, t) <==> IsTransition(prev, Present(stations), now, t)
  {
    hide CanonicalMac, Present, Begins, Continues, Retuned;
    NotPresent(stations, t.mac);
  }

  /** A report holds exactly the transitions its table tells. */
  lemma ReportTells(prev: Rows, stations: seq<Station>, now: int, out: seq<Transition>)
    requires Report(prev, Present(stations), now, out)
    ensures forall t :: t in out <==> Tells(prev, stations, now, t)
  {
    hide CanonicalMac, Present, Tells, IsTransition, Less;
    forall t ensures t in out <==> Tells(prev, stations, now, t) {
      if j :| 0 <= j < |stations| && CanonicalMac(stations[j].mac) == Some(t.mac) {
        AnyRowIsPresent(stations, j, t.mac);
        var i := PresentHasRow(stations, t.mac);
        TellsOfSeen(prev, stations, now, t, i);
      } else {
        TellsOfUnseen(prev, stations, now, t);
      }
    }
  }

  /** A radio change is reported for exactly the connected clients the table retunes. */
  lemma RetunedAreReported(prev: Rows, stations: seq<Station>, now: int, out: seq<Transition>, c: string)
    requires Report(prev, Present(stations), now, out)
    ensures (exists t :: t in out && t.mac == c && t.kind == RadioChange) <==>
            c in prev && prev[c].connected && exists i :: 0 <= i < |stations| && CountsFor(stations, i, c) && Retuned(prev[c], stations[i])
  {
    hide CanonicalMac, Present, Report, Begins, CountsFor;
    ReportTells(prev, stations, now, out);
    if c in prev && prev[c].connected {
      if i :| 0 <= i < |stations| && CountsFor(stations, i, c) && Retuned(prev[c], stations[i]) {
        var was, st := prev[c], stations[i];
        var next := Row(true, now, was.since, if st.hostname == "" then was.hostname else st.hostname, if st.ip == "" then was.ip else st.ip,
                        if st.essid == "" then was.essid else st.essid, if st.radio == "" then was.radio else st.radio,
                        if st.channel == 0 then was.channel else st.channel, if st.bytes == 0 then was.bytes else st.bytes);
        assert Continues(next, was, st, now);
        assert Tells(prev, stations, now, Transition(c, RadioChange, now, next, was));
      }
    }
  }

  /** The session part of a device record. */
  class SessionRecord {
    var rows: Rows
    var disconnectPending: bool

    constructor (rows: Rows, disconnectPending: bool)
      ensures this.rows == rows && this.disconnectPending == disconnectPending
    {
      this.rows, this.disconnectPending := rows, disconnectPending;
    }

    /** RefreshSessionStations: one station table applied to the record. */
    method Refresh(stations: seq<Station>, now: int) returns (out: seq<Transition>)
      modifies this
      ensures var present := Present(stations);
              && Report(old(rows), present, now, out)
              && Capped(Refreshed(old(rows), present, now), rows)
              && disconnectPending == (old(disconnectPending) || SomeoneLeft(old(rows), present))
      ensures forall t :: t in out <==> Tells(old(rows), stations, now, t)
    {
      hide Tells, Less, Report, Capped, Refreshed, SomeoneLeft, Present, Collected, Sightings, Overlaid, StrictOrder, Comparable, Ascending;
      var prev := rows;
      var sighted, present, seen := Sight(prev, stations, now);
      var refreshed, all, armed := Depart(prev, present, now, sighted, seen);
      CollectedApart(prev, present, now, all);
      ByMacIsStrict(all);
      out := SortBy(all, ByMac());
      ReportOfCollected(prev, present, now, all, out);
      ReportTells(prev, stations, now, out);
      var kept := EnforceRowCap(refreshed);
      rows := kept;
      if armed {
        disconnectPending := true;
      }
    }
  }

  lemma CollectedApart(prev: Rows, present: map<string, Station>, now: int, out: seq<Transition>)
    requires Collected(prev, present, now, prev.Keys, out)
    ensures forall i, j :: 0 <= i < j < |out| ==> out[i].mac != out[j].mac
  {
  }

  // ---- what a refresh means ---------------------------------------------------------------------

  function Connected(rows: Rows): set<string> {
    set m | m in rows && rows[m].connected
  }

  function MacsOf(out: seq<Transition>, kind: Kind): set<string> {
    set t | t in out && t.kind == kind :: t.mac
  }

  /** Before eviction a row is connected exactly when its client is in the table. */
  lemma ConnectedIffPresent(prev: Rows, present: map<string, Station>, now: int)
    ensures Connected(Refreshed(prev, present, now)) == present.Keys
    ensures Refreshed(prev, present, now).Keys == prev.Keys + present.Keys
    ensures forall m :: m in present ==> Refreshed(prev, present, now)[m].lastSeen == now
    ensures forall m :: m in prev && m !in present ==> Refreshed(prev, present, now)[m].lastSeen == prev[m].lastSeen
  {
  }

  lemma ReportedMacs(prev: Rows, present: map<string, Station>, now: int, out: seq<Transition>)
    requires Report(prev, present, now, out)
    ensures MacsOf(out, Connect) == present.Keys - Connected(prev)
    ensures MacsOf(out, Disconnect) == Connected(prev) - present.Keys
    ensures MacsOf(out, RadioChange) <= present.Keys * Connected(prev)
  {
    hide Less, Sighted, Moved;
    forall m | m in present.Keys - Connected(prev) ensures m in MacsOf(out, Connect) {
      assert TransitionOf(prev, present, now, m).value in out;
    }
    forall m | m in Connected(prev) - present.Keys ensures m in MacsOf(out, Disconnect) {
      assert TransitionOf(prev, present, now, m).value in out;
    }
    assert forall t :: t in out ==> IsTransition(prev, present, now, t);
  }

  function CountKind(out: seq<Transition>, kind: Kind): nat {
    if out == [] then 0 else CountKind(out[..|out| - 1], kind) + (if out[|out| - 1].kind == kind then 1 else 0)
  }

  lemma MacsOfSnoc(init: seq<Transition>, last: Transition, kind: Kind)
    ensures MacsOf(init + [last], kind) == MacsOf(init, kind) + (if last.kind == kind then {last.mac} else {})
  {
    assert forall t :: t in init + [last] <==> t in init || t == last;
  }

  /** Each client yields at most one transition, so counting transitions counts clients. */
  lemma {:induction false} CountIsClients(out: seq<Transition>, kind: Kind)
    requires forall i, j :: 0 <= i < j < |out| ==> out[i].mac != out[j].mac
    ensures CountKind(out, kind) == |MacsOf(out, kind)|
  {
    if out == [] {
      assert MacsOf(out, kind) == {};
    } else {
      var init, last := out[..|out| - 1], out[|out| - 1];
      assert out == init + [last];
      CountIsClients(init, kind);
      MacsOfSnoc(init, last, kind);
      assert last.mac !in MacsOf(init, kind);
    }
  }

  lemma ReportApart(prev: Rows, present: map<string, Station>, now: int, out: seq<Transition>)
    requires Report(prev, present, now, out)
    ensures forall i, j :: 0 <= i < j < |out| ==> out[i].mac != out[j].mac
  {
    forall i, j | 0 <= i < j < |out| ensures out[i].mac != out[j].mac {
      LessIrreflexive(out[i].mac);
    }
  }

  lemma CardinalityOfChange(a: set<string>, b: set<string>)
    ensures |b| == |a| + |b - a| - |a - b|
  {
    assert b == (a * b) + (b - a) && a == (a * b) + (a - b);
  }

  /** Conservation: connected rows after = before + connects - disconnects. */
  lemma SessionConservation(prev: Rows, stations: seq<Station>, now: int, out: seq<Transition>)
    requires Report(prev, Present(stations), now, out)
    ensures |Connected(Refreshed(prev, Present(stations), now))| ==
            |Connected(prev)| + CountKind(out, Connect) - CountKind(out, Disconnect)
  {
    var present := Present(stations);
    ConnectedIffPresent(prev, present, now);
    ReportedMacs(prev, present, now, out);
    ReportApart(prev, present, now, out);
    CountIsClients(out, Connect);
    CountIsClients(out, Disconnect);
    CardinalityOfChange(Connected(prev), present.Keys);
  }

  /**
   Eviction never drops a connected client, provided the clock is past every stored proof and
   the table itself fits the cap.
   */
  lemma NoConnectedRowEvicted(prev: Rows, present: map<string, Station>, now: int, kept: Rows, mac: string)
    requires forall m :: m in prev ==> prev[m].lastSeen < now
    requires |present| <= ROW_CAP
    requires Capped(Refreshed(prev, present, now), kept)
    requires mac in present
    ensures mac in kept && kept[mac] == Refreshed(prev, present, now)[mac] && |kept| <= ROW_CAP
  {
    hide Less, Sighted, RowAfter;
    var all := Refreshed(prev, present, now);
    ConnectedIffPresent(prev, present, now);
    hide Refreshed;
    if mac !in kept {
      forall m | m in kept ensures m in present.Keys - {mac} {
        assert Older(all, mac, m);
      }
      SubsetCount(kept.Keys, present.Keys - {mac});
      assert kept == all by { CappedFits(all, kept); }
      assert false;
    }
  }

  lemma SubsetCount(a: set<string>, b: set<string>)
    requires a <= b
    ensures |a| <= |b|
  {
    assert b == a + (b - a);
  }

  /** Below the cap nothing is evicted. */
  lemma CappedFits(rows: Rows, kept: Rows)
    requires Capped(rows, kept) && |kept| < ROW_CAP
    ensures kept == rows
  {
    assert kept.Keys <= rows.Keys && |kept.Keys| == |rows.Keys|;
    assert rows.Keys == kept.Keys + (rows.Keys - kept.Keys);
    assert rows.Keys - kept.Keys == {};
  }

  lemma CapOneWay(rows: Rows, a: Rows, b: Rows, m: string)
    requires Capped(rows, a) && Capped(rows, b) && m in a
    ensures m in b
  {
    if m !in b {
      var n := Missing(b.Keys, a.Keys, m);
      OlderAsymmetric(rows, m, n);
      assert false;
    }
  }

  /** The cap decides the surviving rows: there is only one way to obey it. */
  lemma CapIsUnique(rows: Rows, a: Rows, b: Rows)
    requires Capped(rows, a) && Capped(rows, b)
    ensures a == b
  {
    forall m ensures m in a <==> m in b {
      if m in a { CapOneWay(rows, a, b, m); }
      if m in b { CapOneWay(rows, b, a, m); }
    }
  }

  lemma OlderAsymmetric(rows: Rows, a: string, b: string)
    requires Older(rows, a, b)
    ensures !Older(rows, b, a)
  {
    if Less(a, b) && Less(b, a) { LessTransitive(a, b, a); LessIrreflexive(a); }
  }

  lemma Missing(a: set<string>, b: set<string>, x: string) returns (y: string)
    requires |a| == |b| && x in b && x !in a
    ensures y in a && y !in b
  {
    if a <= b {
      SubsetCount(a, b - {x});
      assert false;
    }
    y :| y in a && y !in b;
  }

  // ---- what the rows remember over many tables ----------------------------------------------------

  /** One station table and its inform time. */
  datatype Table = Table(present: map<string, Station>, now: int)

  /** The rows a list of tables leaves when the cap never evicts. */
  function RowsOf(tables: seq<Table>): Rows {
    if tables == [] then map[]
    else Refreshed(RowsOf(tables[..|tables| - 1]), tables[|tables| - 1].present, tables[|tables| - 1].now)
  }

  /** The optional fields of a station row; zero values stand for unreported. */
  datatype Context = Context(hostname: string, ip: string, essid: string, radio: string, channel: int, bytes: int)

  const Blank := Context("", "", "", "", 0, 0)

  function ContextOf(st: Station): Context {
    Context(st.hostname, st.ip, st.essid, st.radio, st.channel, st.bytes)
  }

  function RowContext(row: Row): Context {
    Context(row.hostname, row.ip, row.essid, row.radio, row.channel, row.bytes)
  }

  /** Field by field the newer value where it is known. */
  function Over(newer: Context, older: Context): Context {
    Context(KnownText(newer.hostname, older.hostname), KnownText(newer.ip, older.ip), KnownText(newer.essid, older.essid),
            KnownText(newer.radio, older.radio), KnownNumber(newer.channel, older.channel), KnownNumber(newer.bytes, older.bytes))
  }

  /** The latest known value of each field in tables first..last (last excluded). */
  function LatestContext(tables: seq<Table>, mac: string, first: nat, last: nat): Context
    requires first <= last <= |tables| && forall i :: first <= i < last ==> mac in tables[i].present
  {
    if last == first then Blank
    else Over(ContextOf(tables[last - 1].present[mac]), LatestContext(tables, mac, first, last - 1))
  }

  /** Tables first..last (last excluded) are mac's most recent uninterrupted association. */
  ghost predicate LastAssociation(tables: seq<Table>, mac: string, first: nat, last: nat) {
    && first < last <= |tables|
    && (forall i :: first <= i < last ==> mac in tables[i].present)
    && (first > 0 ==> mac !in tables[first - 1].present)
    && (forall i :: last <= i < |tables| ==> mac !in tables[i].present)
  }

  /** What a row says about an association: its two ends and the latest known context within it. */
  ghost predicate RowTells(tables: seq<Table>, mac: string, first: nat, last: nat, row: Row)
    requires first < last <= |tables| && forall i :: first <= i < last ==> mac in tables[i].present
  {
    && row.connected == (last == |tables|)
    && row.since == tables[first].now && row.lastSeen == tables[last - 1].now
    && RowContext(row) == LatestContext(tables, mac, first, last)
  }

  lemma {:induction false} LatestOfPrefix(tables: seq<Table>, n: nat, mac: string, first: nat, last: nat)
    requires first <= last <= n <= |tables| && forall i :: first <= i < last ==> mac in tables[i].present
    ensures LatestContext(tables[..n], mac, first, last) == LatestContext(tables, mac, first, last)
  {
    if first < last { LatestOfPrefix(tables, n, mac, first, last - 1); }
  }

  lemma RowsOfSnoc(before: seq<Table>, t: Table)
    ensures RowsOf(before + [t]) == Refreshed(RowsOf(before), t.present, t.now)
  {
    assert (before + [t])[..|before|] == before;
  }

  lemma Reassociated(before: seq<Table>, t: Table, mac: string)
    requires mac in t.present && Fresh(RowsOf(before), mac)
    ensures var tables := before + [t];
            mac in RowsOf(tables) && RowTells(tables, mac, |before|, |tables|, RowsOf(tables)[mac])
  {
    RowsOfSnoc(before, t);
    hide RowsOf;
    assert LatestContext(before + [t], mac, |before|, |before|) == Blank;
  }

  lemma StillAssociated(before: seq<Table>, t: Table, mac: string, first: nat)
    requires mac in t.present && first < |before| && forall i :: first <= i < |before| ==> mac in before[i].present
    requires mac in RowsOf(before) && RowTells(before, mac, first, |before|, RowsOf(before)[mac])
    ensures var tables := before + [t];
            && (forall i :: first <= i < |tables| ==> mac in tables[i].present)
            && mac in RowsOf(tables) && RowTells(tables, mac, first, |tables|, RowsOf(tables)[mac])
  {
    RowsOfSnoc(before, t);
    LatestOfPrefix(before + [t], |before|, mac, first, |before|);
    assert (before + [t])[..|before|] == before;
    hide RowsOf;
  }

  lemma GoneRow(before: seq<Table>, t: Table, mac: string)
    requires mac !in t.present && mac in RowsOf(before)
    ensures mac in RowsOf(before + [t]) && RowsOf(before + [t])[mac] == RowsOf(before)[mac].(connected := false)
  {
    RowsOfSnoc(before, t);
    hide RowsOf;
  }

  lemma NoLongerThere(before: seq<Table>, t: Table, mac: string, first: nat, last: nat)
    requires mac !in t.present && LastAssociation(before, mac, first, last)
    requires mac in RowsOf(before) && RowTells(before, mac, first, last, RowsOf(before)[mac])
    ensures LastAssociation(before + [t], mac, first, last)
    ensures mac in RowsOf(before + [t]) && RowTells(before + [t], mac, first, last, RowsOf(before + [t])[mac])
  {
    GoneRow(before, t, mac);
    hide RowsOf;
    var tables := before + [t];
    assert tables[..|before|] == before;
    assert LastAssociation(tables, mac, first, last);
    LatestOfPrefix(tables, |before|, mac, first, last);
  }

  /**
   A stored row is the record of its client's most recent uninterrupted association: it began
   at since, was last proven at lastSeen, still lasts exactly when connected, and every context
   field is the latest value reported within it, never one from an earlier association.
   */
  lemma {:induction false} RowIsLastAssociation(tables: seq<Table>, mac: string) returns (first: nat, last: nat)
    requires mac in RowsOf(tables)
    ensures LastAssociation(tables, mac, first, last) && RowTells(tables, mac, first, last, RowsOf(tables)[mac])
  {
    hide Refreshed, RowTells, Sighted;
    var n := |tables| - 1;
    var before, t := tables[..n], tables[n];
    assert tables == before + [t];
    if mac in RowsOf(before) {
      first, last := RowIsLastAssociation(before, mac);
      ConnectedAtEnd(before, mac, first, last);
      if mac !in t.present {
        NoLongerThere(before, t, mac, first, last);
      } else if last == n {
        StillAssociated(before, t, mac, first);
        last := n + 1;
      } else {
        Reassociated(before, t, mac);
        first, last := n, n + 1;
      }
    } else {
      NoRowNoSighting(before, mac);
      StoredMeansSeen(tables, mac);
      Reassociated(before, t, mac);
      first, last := n, n + 1;
    }
  }

  lemma ConnectedAtEnd(tables: seq<Table>, mac: string, first: nat, last: nat)
    requires mac in RowsOf(tables) && LastAssociation(tables, mac, first, last) && RowTells(tables, mac, first, last, RowsOf(tables)[mac])
    ensures Fresh(RowsOf(tables), mac) == (last < |tables|)
  {
  }

  lemma StoredMeansSeen(tables: seq<Table>, mac: string)
    requires tables != [] && mac in RowsOf(tables) && mac !in RowsOf(tables[..|tables| - 1])
    ensures mac in tables[|tables| - 1].present
  {
  }

  lemma {:induction false} NoRowNoSighting(tables: seq<Table>, mac: string)
    requires mac !in RowsOf(tables)
    ensures forall i :: 0 <= i < |tables| ==> mac !in tables[i].present
  {
    if tables != [] {
      NoRowNoSighting(tables[..|tables| - 1], mac);
      forall i | 0 <= i < |tables| ensures mac !in tables[i].present {
        if i < |tables| - 1 { assert tables[..|tables| - 1][i] == tables[i]; }
      }
    }
  }
}
