/**
 The provisioning plan of one decision: radios, vaps, placements and drift hash
 (internal/wireless/plan.go), and the evidence a reported vap_table gives
 (internal/wireless/vap_evidence.go).
 */
module Plan {
  import opened Options
  import opened Text
  import opened Wlans
  import TextDigest

  // ---- device-reported rows -----------------------------------------------------

  /** A JSON scalar; a number is kept in the decimal form JSONStr prints. */
  datatype Json = JStr(text: string) | JNum(number: string) | JBool(flag: bool)

  type Row = map<string, Json>

  function JsonStr(m: Row, key: string, def: string): string {
    if key !in m then def
    else match m[key]
      case JStr(t) => if t != "" then t else def
      case JNum(n) => n
      case JBool(b) => if b then "true" else "false"
  }

  function JsonBool(m: Row, key: string): bool {
    key in m && m[key] == JBool(true)
  }

  // ---- radios --------------------------------------------------------------------

  datatype Radio = Radio(name: string, band: string, raw: Row)

  predicate BandKnown(r: Radio) {
    r.band == "na" || r.band == "ng"
  }

  /** Places r after every radio whose name is not greater: a stable sort by name. */
  function InsertRadio(r: Radio, rs: seq<Radio>): seq<Radio> {
    if rs == [] then [r]
    else if Less(r.name, rs[|rs| - 1].name) then InsertRadio(r, rs[..|rs| - 1]) + [rs[|rs| - 1]]
    else rs + [r]
  }

  /** StoredRadios: named radio_table rows sorted by name. */
  function StoredRadios(table: Option<seq<Row>>): seq<Radio> {
    match table case None => [] case Some(rows) => SortedRadios(rows)
  }

  function SortedRadios(rows: seq<Row>): seq<Radio> {
    if rows == [] then []
    else
      var n := |rows| - 1;
      var name := JsonStr(rows[n], "name", "");
      if name == "" then SortedRadios(rows[..n])
      else InsertRadio(Radio(name, JsonStr(rows[n], "radio", ""), rows[n]), SortedRadios(rows[..n]))
  }

  // ---- vap plan -------------------------------------------------------------------

  function SignedItoa(n: int): string {
    if n < 0 then "-" + Itoa(-n) else Itoa(n)
  }

  /** The frozen fallback id, derived from name, SSID or VLAN. */
  function FallbackId(w: Wlan): (id: string)
    ensures |id| == 24 && TextDigest.HexText(id)
  {
    TextDigest.Hex24(if w.name != "" then w.name else if w.ssid != "" then w.ssid else "vlan" + SignedItoa(w.vlan))
  }

  /** WlanID: the persisted id verbatim, or the fallback; both are just text. */
  function WlanIdOf(w: Wlan): string {
    if w.id != "" then w.id else FallbackId(w)
  }

  function WrapVid(vid: int): int {
    if vid < 2 || vid > 4094 then 0 else vid
  }

  datatype VapPlan = VapPlan(wlan: Wlan, id: string, radioN: nat, phyname: string, athN: nat, vid: int)

  datatype Slot = Slot(ssid: string, radio: string)

  predicate Provisionable(r: Radio) {
    BandKnown(r) && !(JsonStr(r.raw, "usage", "") == "uplink" && JsonStr(r.raw, "mode", "") == "managed")
  }

  /** Whether an enabled WLAN is instantiated on a provisionable radio. */
  predicate PlacedOn(w: Wlan, r: Radio) {
    w.enabled && !(EffectiveBand(w) == "2g" && r.band != "ng") && !(EffectiveBand(w) == "5g" && r.band != "na")
  }

  /** Vaps of the first j WLANs on radio number n, counted from devname ath<base>. */
  function VapsOnRadio(r: Radio, n: nat, wls: seq<Wlan>, j: nat, base: nat): seq<VapPlan>
    requires j <= |wls|
  {
    if j == 0 then []
    else
      var before := VapsOnRadio(r, n, wls, j - 1, base);
      var w := wls[j - 1];
      if PlacedOn(w, r)
      then before + [VapPlan(w, WlanIdOf(w), n, r.name, base + |before|, WrapVid(w.vlan))]
      else before
  }

  function VapsOfFirst(radios: seq<Radio>, i: nat, wls: seq<Wlan>): seq<VapPlan>
    requires i <= |radios|
  {
    if i == 0 then []
    else
      var before := VapsOfFirst(radios, i - 1, wls);
      if Provisionable(radios[i - 1])
      then before + VapsOnRadio(radios[i - 1], i, wls, |wls|, |before|)
      else before
  }

  /** PlanVaps: radio-sorted order, one global devname counter. */
  method PlanVaps(radios: seq<Radio>, wls: seq<Wlan>) returns (vaps: seq<VapPlan>)
    ensures vaps == VapsOfFirst(radios, |radios|, wls)
  {
    hide Provisionable, PlacedOn, WlanIdOf, WrapVid;
    vaps := [];
    var ath := 0;
    for i := 0 to |radios|
      invariant vaps == VapsOfFirst(radios, i, wls) && ath == |vaps|
    {
      if !Provisionable(radios[i]) {
        continue;
      }
      ghost var before := vaps;
      for j := 0 to |wls|
        invariant vaps == before + VapsOnRadio(radios[i], i + 1, wls, j, |before|)
        invariant ath == |vaps|
      {
        if PlacedOn(wls[j], radios[i]) {
          vaps := vaps + [VapPlan(wls[j], WlanIdOf(wls[j]), i + 1, radios[i].name, ath, WrapVid(wls[j].vlan))];
          ath := ath + 1;
        }
      }
    }
  }

  function SlotOf(v: VapPlan): Slot {
    Slot(SsidOf(v.wlan), v.phyname)
  }

  function SlotsOf(vaps: seq<VapPlan>): seq<Slot> {
    seq(|vaps|, i requires 0 <= i < |vaps| => SlotOf(vaps[i]))
  }

  /** vapPlacements: how many vaps are planned for each SSID on each radio. */
  function Placements(vaps: seq<VapPlan>): multiset<Slot> {
    multiset(SlotsOf(vaps))
  }

  datatype ProvisioningPlan = ProvisioningPlan(
    driftHash: Hash, wlans: seq<Wlan>, vaps: seq<VapPlan>, radios: seq<Radio>, placements: multiset<Slot>)

  function PlanProvisioning(radioTable: Option<seq<Row>>, wls: seq<Wlan>): ProvisioningPlan {
    var radios := StoredRadios(radioTable);
    var vaps := VapsOfFirst(radios, |radios|, wls);
    ProvisioningPlan(WlanListHash(wls), wls, vaps, radios, Placements(vaps))
  }

  // ---- facts about plans -------------------------------------------------------------

  predicate WellPlanned(v: VapPlan, radios: seq<Radio>, wls: seq<Wlan>) {
    && v.wlan in wls && v.wlan.enabled && v.id == WlanIdOf(v.wlan) && v.vid == WrapVid(v.wlan.vlan)
    && 1 <= v.radioN <= |radios|
    && v.phyname == radios[v.radioN - 1].name
    && Provisionable(radios[v.radioN - 1]) && PlacedOn(v.wlan, radios[v.radioN - 1])
  }

  /** Devnames are handed out by position; every vap is an enabled WLAN on a radio its band allows. */
  ghost predicate SoundPlan(vs: seq<VapPlan>, base: nat, radios: seq<Radio>, wls: seq<Wlan>) {
    forall k :: 0 <= k < |vs| ==> vs[k].athN == base + k && WellPlanned(vs[k], radios, wls)
  }

  lemma SoundConcat(a: seq<VapPlan>, b: seq<VapPlan>, base: nat, radios: seq<Radio>, wls: seq<Wlan>)
    requires SoundPlan(a, base, radios, wls) && SoundPlan(b, base + |a|, radios, wls)
    ensures SoundPlan(a + b, base, radios, wls)
  {
    var vs := a + b;
    forall k | 0 <= k < |vs| ensures vs[k].athN == base + k && WellPlanned(vs[k], radios, wls) {
      if k < |a| { assert vs[k] == a[k]; } else { assert vs[k] == b[k - |a|]; }
    }
  }

  lemma {:induction false} RadioSound(radios: seq<Radio>, n: nat, wls: seq<Wlan>, j: nat, base: nat)
    requires 1 <= n <= |radios| && j <= |wls| && Provisionable(radios[n - 1])
    ensures SoundPlan(VapsOnRadio(radios[n - 1], n, wls, j, base), base, radios, wls)
  {
    if j > 0 {
      RadioSound(radios, n, wls, j - 1, base);
      var r, w := radios[n - 1], wls[j - 1];
      var before := VapsOnRadio(r, n, wls, j - 1, base);
      if PlacedOn(w, r) {
        var v := VapPlan(w, WlanIdOf(w), n, r.name, base + |before|, WrapVid(w.vlan));
        assert WellPlanned(v, radios, wls);
        SoundConcat(before, [v], base, radios, wls);
      }
    }
  }

  lemma {:induction false} PlanSound(radios: seq<Radio>, i: nat, wls: seq<Wlan>)
    requires i <= |radios|
    ensures SoundPlan(VapsOfFirst(radios, i, wls), 0, radios, wls)
  {
    if i > 0 {
      PlanSound(radios, i - 1, wls);
      var before := VapsOfFirst(radios, i - 1, wls);
      if Provisionable(radios[i - 1]) {
        RadioSound(radios, i, wls, |wls|, |before|);
        SoundConcat(before, VapsOnRadio(radios[i - 1], i, wls, |wls|, |before|), 0, radios, wls);
      }
    }
  }

  lemma {:induction false} RadioComplete(r: Radio, n: nat, wls: seq<Wlan>, j: nat, base: nat, m: nat) returns (k: nat)
    requires m < j <= |wls| && PlacedOn(wls[m], r)
    ensures k < |VapsOnRadio(r, n, wls, j, base)|
    ensures VapsOnRadio(r, n, wls, j, base)[k].wlan == wls[m] && VapsOnRadio(r, n, wls, j, base)[k].phyname == r.name
  {
    var before, vs := VapsOnRadio(r, n, wls, j - 1, base), VapsOnRadio(r, n, wls, j, base);
    if m == j - 1 {
      k := |before|;
    } else {
      k := RadioComplete(r, n, wls, j - 1, base, m);
      assert vs[k] == before[k];
    }
  }

  /** Every enabled WLAN has a vap on every provisionable radio its band allows. */
  lemma {:induction false} PlanComplete(radios: seq<Radio>, i: nat, wls: seq<Wlan>, n: nat, m: nat) returns (k: nat)
    requires n < i <= |radios| && m < |wls|
    requires Provisionable(radios[n]) && PlacedOn(wls[m], radios[n])
    ensures var vs := VapsOfFirst(radios, i, wls);
            k < |vs| && vs[k].wlan == wls[m] && vs[k].phyname == radios[n].name
  {
    var before := VapsOfFirst(radios, i - 1, wls);
    if n == i - 1 {
      var here := VapsOnRadio(radios[n], i, wls, |wls|, |before|);
      var h := RadioComplete(radios[n], i, wls, |wls|, |before|, m);
      k := |before| + h;
      assert (before + here)[k] == here[h];
    } else {
      k := PlanComplete(radios, i - 1, wls, n, m);
    }
  }

  // ---- vap_table evidence --------------------------------------------------------------

  datatype VapRun = VapRun(name: string, ssid: string, radio: string)

  predicate IsRunRow(m: Row) {
    Lower(JsonStr(m, "state", JsonStr(m, "status", ""))) == "run"
  }

  function RunOf(m: Row): VapRun {
    VapRun(JsonStr(m, "name", ""),
           JsonStr(m, "essid", JsonStr(m, "ssid", "")),
           JsonStr(m, "radio_name", JsonStr(m, "parent", "")))
  }

  function RunningRows(rows: seq<Row>): seq<VapRun> {
    if rows == [] then []
    else
      var n := |rows| - 1;
      RunningRows(rows[..n]) + (if IsRunRow(rows[n]) then [RunOf(rows[n])] else [])
  }

  datatype Evidence = Evidence(present: bool, rows: nat, running: seq<VapRun>)

  /** ReadVapEvidence: an absent table is not present; an empty one is present but not known. */
  function EvidenceOf(table: Option<seq<Row>>): Evidence {
    match table
    case None => Evidence(false, 0, [])
    case Some(rows) => Evidence(true, |rows|, RunningRows(rows))
  }

  method ReadVapEvidence(table: Option<seq<Row>>) returns (ev: Evidence)
    ensures ev == EvidenceOf(table)
  {
    if table.None? {
      return Evidence(false, 0, []);
    }
    var running: seq<VapRun> := [];
    for i := 0 to |table.value|
      invariant running == RunningRows(table.value[..i])
    {
      assert table.value[..i + 1][..i] == table.value[..i];
      if IsRunRow(table.value[i]) {
        running := running + [RunOf(table.value[i])];
      }
    }
    assert table.value[..|table.value|] == table.value;
    ev := Evidence(true, |table.value|, running);
  }

  function Devname(ath: nat): string {
    "ath" + Itoa(ath)
  }

  /** The planned devnames no RUN row carries. */
  function MissingVaps(vaps: seq<VapPlan>, table: Option<seq<Row>>): set<string> {
    var ev := EvidenceOf(table);
    if ev.rows == 0 then {}
    else
      (set i | 0 <= i < |vaps| && vaps[i].wlan.enabled :: Devname(vaps[i].athN))
      - (set i | 0 <= i < |ev.running| :: ev.running[i].name)
  }

  /** A reported row in state RUN, in any case of letters, under this devname. */
  predicate RunsAs(row: Row, name: string) {
    Lower(JsonStr(row, "state", JsonStr(row, "status", ""))) == "run" && JsonStr(row, "name", "") == name
  }

  /** A reported row in state RUN with this SSID. */
  predicate RunsSsid(row: Row, ssid: string) {
    Lower(JsonStr(row, "state", JsonStr(row, "status", ""))) == "run" && JsonStr(row, "essid", JsonStr(row, "ssid", "")) == ssid
  }

  predicate NameRuns(rows: seq<Row>, name: string) {
    exists i :: 0 <= i < |rows| && RunsAs(rows[i], name)
  }

  predicate SsidRuns(rows: seq<Row>, ssid: string) {
    exists i :: 0 <= i < |rows| && RunsSsid(rows[i], ssid)
  }

  predicate RunsNamed(runs: seq<VapRun>, name: string) {
    exists k :: 0 <= k < |runs| && runs[k].name == name
  }

  predicate RunsCarrying(runs: seq<VapRun>, ssid: string) {
    exists k :: 0 <= k < |runs| && runs[k].ssid == ssid
  }

  lemma RunsSnoc(runs: seq<VapRun>, r: VapRun, name: string, ssid: string)
    ensures RunsNamed(runs + [r], name) <==> RunsNamed(runs, name) || r.name == name
    ensures RunsCarrying(runs + [r], ssid) <==> RunsCarrying(runs, ssid) || r.ssid == ssid
  {
    var all := runs + [r];
    assert all[|runs|] == r && forall k :: 0 <= k < |runs| ==> all[k] == runs[k];
  }

  lemma RowsSnoc(rows: seq<Row>, last: Row, name: string, ssid: string)
    ensures NameRuns(rows + [last], name) <==> NameRuns(rows, name) || RunsAs(last, name)
    ensures SsidRuns(rows + [last], ssid) <==> SsidRuns(rows, ssid) || RunsSsid(last, ssid)
  {
    hide RunsAs, RunsSsid;
    var all := rows + [last];
    assert all[|rows|] == last && forall k :: 0 <= k < |rows| ==> all[k] == rows[k];
  }

  lemma {:induction false} RunningByRow(rows: seq<Row>, name: string, ssid: string)
    ensures RunsNamed(RunningRows(rows), name) <==> NameRuns(rows, name)
    ensures RunsCarrying(RunningRows(rows), ssid) <==> SsidRuns(rows, ssid)
  {
    hide JsonStr, Lower;
    if rows != [] {
      var init, last := rows[..|rows| - 1], rows[|rows| - 1];
      RunningByRow(init, name, ssid);
      assert rows == init + [last];
      RowsSnoc(init, last, name, ssid);
      if IsRunRow(last) {
        RunsSnoc(RunningRows(init), RunOf(last), name, ssid);
        assert RunningRows(rows) == RunningRows(init) + [RunOf(last)];
      } else {
        assert RunningRows(rows) == RunningRows(init);
      }
      hide NameRuns, SsidRuns, RunsNamed, RunsCarrying;
    }
  }

  /** On a table with rows, a planned devname is missing exactly when no RUN row carries it; nothing else is. */
  lemma MissingExactly(vaps: seq<VapPlan>, rows: seq<Row>, name: string)
    requires rows != [] && forall k :: 0 <= k < |vaps| ==> vaps[k].wlan.enabled
    ensures name in MissingVaps(vaps, Some(rows)) <==> (exists k :: 0 <= k < |vaps| && Devname(vaps[k].athN) == name) && !NameRuns(rows, name)
  {
    hide Devname, RunningRows, NameRuns;
    RunningByRow(rows, name, "");
    assert RunsNamed(RunningRows(rows), name) <==> name in (set i | 0 <= i < |RunningRows(rows)| :: RunningRows(rows)[i].name);
  }

  /** MissingVaps of the source: collect, delete what runs, sort. */
  method FindMissing(vaps: seq<VapPlan>, table: Option<seq<Row>>) returns (out: seq<string>)
    ensures Increasing(out) && forall n :: n in out <==> n in MissingVaps(vaps, table)
  {
    hide Devname;
    var ev := ReadVapEvidence(table);
    if ev.rows == 0 {
      return [];
    }
    var need: set<string> := {};
    for i := 0 to |vaps|
      invariant need == set k | 0 <= k < i && vaps[k].wlan.enabled :: Devname(vaps[k].athN)
    {
      if vaps[i].wlan.enabled { need := need + {Devname(vaps[i].athN)}; }
    }
    ghost var all := need;
    for i := 0 to |ev.running|
      invariant need == all - (set k | 0 <= k < i :: ev.running[k].name)
    {
      need := need - {ev.running[i].name};
    }
    out := [];
    var rest := need;
    while rest != {}
      invariant Increasing(out) && rest <= need && forall n :: n in out <==> n in need && n !in rest
      decreases |rest|
    {
      var n :| n in rest;
      InsertMembers(n, out);
      InsertIncreasing(n, out);
      out := Insert(n, out);
      rest := rest - {n};
    }
  }
}
