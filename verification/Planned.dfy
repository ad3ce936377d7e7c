/**
 What a provisioning plan holds, said from the radio table and the WLAN list: which radios count, in
 which order, which pair of radio and WLAN gets a vap, and what that vap carries.
 */
module Planned {
  import opened Options
  import opened Text
  import opened Wlans
  import opened Plan
  import TextDigest

  // ---- radios ------------------------------------------------------------------------------------

  /** This radio is read off this row of the radio table. */
  predicate ReadOff(r: Radio, row: Row) {
    JsonStr(row, "name", "") != "" && r == Radio(JsonStr(row, "name", ""), JsonStr(row, "radio", ""), row)
  }

  ghost predicate ByName(rs: seq<Radio>) {
    forall i, j :: 0 <= i < j < |rs| ==> !Less(rs[j].name, rs[i].name)
  }

  lemma {:induction false} InsertedByName(r: Radio, rs: seq<Radio>)
    requires ByName(rs)
    ensures ByName(InsertRadio(r, rs)) && multiset(InsertRadio(r, rs)) == multiset(rs) + multiset{r}
  {
    hide Less;
    if rs != [] {
      var init, last := rs[..|rs| - 1], rs[|rs| - 1];
      assert rs == init + [last];
      if Less(r.name, last.name) {
        InsertedByName(r, init);
        NotGreater(r, init, last);
      } else {
        forall i | 0 <= i < |rs| ensures !Less(r.name, rs[i].name) {
          if i < |rs| - 1 && Less(r.name, rs[i].name) { Between(r.name, rs[i].name, last.name); }
        }
      }
    }
  }

  lemma Between(a: string, b: string, c: string)
    requires Less(a, b) && !Less(c, b)
    ensures Less(a, c)
  {
    LessTotal(b, c);
    if Less(b, c) { LessTransitive(a, b, c); }
  }

  lemma NotGreater(r: Radio, init: seq<Radio>, last: Radio)
    requires Less(r.name, last.name) && multiset(InsertRadio(r, init)) == multiset(init) + multiset{r}
    requires forall i :: 0 <= i < |init| ==> !Less(last.name, init[i].name)
    ensures forall i :: 0 <= i < |InsertRadio(r, init)| ==> !Less(last.name, InsertRadio(r, init)[i].name)
  {
    hide Less, InsertRadio;
    var all := InsertRadio(r, init);
    forall i | 0 <= i < |all| ensures !Less(last.name, all[i].name) {
      assert all[i] in multiset(all);
      if all[i] != r { assert all[i] in init; }
      if Less(last.name, r.name) {
        LessTransitive(last.name, r.name, last.name);
        LessIrreflexive(last.name);
      }
    }
  }

  /** How many rows of the table this radio is read off. */
  function RowsOf(rows: seq<Row>, r: Radio): nat {
    |set i | 0 <= i < |rows| && ReadOff(r, rows[i])|
  }

  lemma RowsOfSnoc(rows: seq<Row>, r: Radio)
    requires rows != []
    ensures RowsOf(rows, r) == RowsOf(rows[..|rows| - 1], r) + if ReadOff(r, rows[|rows| - 1]) then 1 else 0
  {
    hide ReadOff;
    var n := |rows| - 1;
    var here := set i | 0 <= i < |rows| && ReadOff(r, rows[i]);
    var before := set i | 0 <= i < n && ReadOff(r, rows[..n][i]);
    assert here == if ReadOff(r, rows[n]) then before + {n} else before;
  }

  /** The radios of a device are exactly the named rows of its table, by name. */
  lemma {:induction false} RadiosAreNamedRows(rows: seq<Row>, r: Radio)
    ensures ByName(StoredRadios(Some(rows)))
    ensures multiset(StoredRadios(Some(rows)))[r] == RowsOf(rows, r)
  {
    hide JsonStr, ByName, InsertRadio;
    if rows == [] {
      NoRadios(r);
    } else {
      hide RowsOf;
      var n := |rows| - 1;
      RadiosAreNamedRows(rows[..n], r);
      RowsOfSnoc(rows, r);
      InsertedByName(Radio(JsonStr(rows[n], "name", ""), JsonStr(rows[n], "radio", ""), rows[n]), SortedRadios(rows[..n]));
    }
  }

  lemma NoRadios(r: Radio)
    ensures ByName([]) && RowsOf([], r) == 0
  {
    var none: seq<Row> := [];
    assert (set i | 0 <= i < |none| && ReadOff(r, none[i])) == {};
  }

  // ---- vaps ----------------------------------------------------------------------------------------

  /** Where a vap goes: a radio and a WLAN, by position. */
  datatype Place = Place(radio: nat, wlan: nat)

  /** Radios first, then WLANs. */
  predicate Before(a: Place, b: Place) {
    a.radio < b.radio || (a.radio == b.radio && a.wlan < b.wlan)
  }

  /** The radio is a usable 2.4 or 5 GHz radio, not the managed uplink, and the WLAN is on and not kept to the other band. */
  predicate Takes(r: Radio, w: Wlan) {
    && w.enabled && (r.band == "na" || r.band == "ng")
    && !(JsonStr(r.raw, "usage", "") == "uplink" && JsonStr(r.raw, "mode", "") == "managed")
    && (w.band == "2g" ==> r.band == "ng") && (w.band == "5g" ==> r.band == "na")
  }

  /** The id a vap of this WLAN carries. */
  function CarriedId(w: Wlan): string {
    if w.id != "" then w.id
    else TextDigest.Hex24(if w.name != "" then w.name else if w.ssid != "" then w.ssid else "vlan" + SignedItoa(w.vlan))
  }

  /** The k-th vap of a plan stands at this place, with what its radio and its WLAN give it. */
  ghost predicate StandsAt(v: VapPlan, k: nat, radios: seq<Radio>, wls: seq<Wlan>, p: Place) {
    && p.radio < |radios| && p.wlan < |wls|
    && v.wlan == wls[p.wlan] && v.radioN == p.radio + 1 && v.phyname == radios[p.radio].name && v.athN == k
    && v.id == CarriedId(wls[p.wlan])
    && v.vid == if 2 <= wls[p.wlan].vlan <= 4094 then wls[p.wlan].vlan else 0
  }

  /** The places of a list of vaps, in order, the first being vap number base. */
  ghost predicate StandAt(vs: seq<VapPlan>, base: nat, radios: seq<Radio>, wls: seq<Wlan>, at: seq<Place>) {
    && |at| == |vs|
    && (forall k :: 0 <= k < |vs| ==> StandsAt(vs[k], base + k, radios, wls, at[k]))
    && (forall i, j :: 0 <= i < j < |at| ==> Before(at[i], at[j]))
  }

  lemma TakesIs(r: Radio, w: Wlan)
    ensures Takes(r, w) <==> Provisionable(r) && PlacedOn(w, r)
  {
    hide JsonStr;
  }

  lemma StandConcat(a: seq<VapPlan>, b: seq<VapPlan>, base: nat, radios: seq<Radio>, wls: seq<Wlan>, p: seq<Place>, q: seq<Place>)
    requires StandAt(a, base, radios, wls, p) && StandAt(b, base + |a|, radios, wls, q)
    requires forall i, j :: 0 <= i < |p| && 0 <= j < |q| ==> Before(p[i], q[j])
    ensures StandAt(a + b, base, radios, wls, p + q)
  {
    hide StandsAt, Before;
    var vs, at := a + b, p + q;
    forall k | 0 <= k < |vs| ensures StandsAt(vs[k], base + k, radios, wls, at[k]) {
      if k >= |a| { assert StandsAt(b[k - |a|], base + |a| + (k - |a|), radios, wls, q[k - |a|]); }
    }
    forall i, j | 0 <= i < j < |at| ensures Before(at[i], at[j]) {
      if j < |p| {
        assert Before(p[i], p[j]);
      } else if i >= |p| {
        assert Before(q[i - |p|], q[j - |p|]);
      } else {
        assert Before(p[i], q[j - |p|]);
      }
    }
  }

  lemma {:induction false} RadioPlaces(radios: seq<Radio>, n: nat, wls: seq<Wlan>, j: nat, base: nat) returns (at: seq<Place>)
    requires n < |radios| && j <= |wls| && Provisionable(radios[n])
    ensures StandAt(VapsOnRadio(radios[n], n + 1, wls, j, base), base, radios, wls, at)
    ensures forall p :: p in at <==> p.radio == n && p.wlan < j && Takes(radios[n], wls[p.wlan])
  {
    hide JsonStr, Provisionable, PlacedOn, Takes, WlanIdOf, CarriedId;
    if j == 0 {
      at := [];
    } else {
      var before := RadioPlaces(radios, n, wls, j - 1, base);
      var vs := VapsOnRadio(radios[n], n + 1, wls, j - 1, base);
      TakesIs(radios[n], wls[j - 1]);
      if PlacedOn(wls[j - 1], radios[n]) {
        at := before + [Place(n, j - 1)];
        IdIsCarried(wls[j - 1]);
        assert forall i :: 0 <= i < |before| ==> before[i] in before;
        StandConcat(vs, [VapPlan(wls[j - 1], WlanIdOf(wls[j - 1]), n + 1, radios[n].name, base + |vs|, WrapVid(wls[j - 1].vlan))],
                    base, radios, wls, before, [Place(n, j - 1)]);
      } else {
        at := before;
      }
    }
  }

  lemma IdIsCarried(w: Wlan)
    ensures WlanIdOf(w) == CarriedId(w)
  {
  }

  lemma {:induction false} FirstPlaces(radios: seq<Radio>, i: nat, wls: seq<Wlan>) returns (at: seq<Place>)
    requires i <= |radios|
    ensures StandAt(VapsOfFirst(radios, i, wls), 0, radios, wls, at)
    ensures forall p :: p in at <==> p.radio < i && p.wlan < |wls| && Takes(radios[p.radio], wls[p.wlan])
  {
    hide Provisionable, Takes, StandsAt;
    if i == 0 {
      at := [];
    } else {
      var before := FirstPlaces(radios, i - 1, wls);
      var vs := VapsOfFirst(radios, i - 1, wls);
      if Provisionable(radios[i - 1]) {
        var here := RadioPlaces(radios, i - 1, wls, |wls|, |vs|);
        at := before + here;
        assert forall k :: 0 <= k < |before| ==> before[k] in before;
        assert forall k :: 0 <= k < |here| ==> here[k] in here;
        StandConcat(vs, VapsOnRadio(radios[i - 1], i, wls, |wls|, |vs|), 0, radios, wls, before, here);
      } else {
        at := before;
        forall m | 0 <= m < |wls| ensures !Takes(radios[i - 1], wls[m]) { TakesIs(radios[i - 1], wls[m]); }
      }
    }
  }

  /** A plan has one vap for every radio and WLAN that go together and no other, radio by radio, numbered through. */
  lemma PlanIsExact(radios: seq<Radio>, wls: seq<Wlan>) returns (at: seq<Place>)
    ensures StandAt(VapsOfFirst(radios, |radios|, wls), 0, radios, wls, at)
    ensures forall p :: p in at <==> p.radio < |radios| && p.wlan < |wls| && Takes(radios[p.radio], wls[p.wlan])
  {
    at := FirstPlaces(radios, |radios|, wls);
  }

  // ---- placements --------------------------------------------------------------------------------------

  /** A planned vap broadcasts this SSID on this radio. */
  predicate Fills(v: VapPlan, ssid: string, radio: string) {
    (if v.wlan.ssid != "" then v.wlan.ssid else v.wlan.name) == ssid && v.phyname == radio
  }

  function Filling(vaps: seq<VapPlan>, ssid: string, radio: string): set<nat> {
    set k: nat | k < |vaps| && Fills(vaps[k], ssid, radio)
  }

  function FillsOf(vaps: seq<VapPlan>, ssid: string, radio: string): nat {
    |Filling(vaps, ssid, radio)|
  }

  lemma FillsOfSnoc(vaps: seq<VapPlan>, ssid: string, radio: string)
    requires vaps != []
    ensures FillsOf(vaps, ssid, radio) == FillsOf(vaps[..|vaps| - 1], ssid, radio) + if Fills(vaps[|vaps| - 1], ssid, radio) then 1 else 0
  {
    hide Fills;
    var n := |vaps| - 1;
    var before := Filling(vaps[..n], ssid, radio);
    assert Filling(vaps, ssid, radio) == if Fills(vaps[n], ssid, radio) then before + {n} else before;
  }

  lemma PlacementsSnoc(vaps: seq<VapPlan>)
    requires vaps != []
    ensures Placements(vaps) == Placements(vaps[..|vaps| - 1]) + multiset{SlotOf(vaps[|vaps| - 1])}
  {
    hide SlotOf;
    assert SlotsOf(vaps) == SlotsOf(vaps[..|vaps| - 1]) + [SlotOf(vaps[|vaps| - 1])];
  }

  /** The recorded placements count the planned vaps of each SSID on each radio. */
  lemma {:induction false} PlacementsCount(vaps: seq<VapPlan>, ssid: string, radio: string)
    ensures Placements(vaps)[Slot(ssid, radio)] == FillsOf(vaps, ssid, radio)
  {
    if vaps == [] {
      assert Filling(vaps, ssid, radio) == {};
    } else {
      hide Placements, FillsOf;
      PlacementsCount(vaps[..|vaps| - 1], ssid, radio);
      FillsOfSnoc(vaps, ssid, radio);
      PlacementsSnoc(vaps);
    }
  }
}
