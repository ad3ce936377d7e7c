/**
 The drift hash against the rendered config. Rows and views decide each other on every device,
 so a hash never misses a render change; the other way round it moves exactly for the edits a
 view does not keep, and not at all on envelopes in normal form.
 */
module DriftHash {
  import opened Options
  import opened Text
  import opened Wlans
  import opened Plan
  import TextDigest
  import opened Render
  import opened Visible
  import opened ReadConfig

  // ---- equal views, equal rows -------------------------------------------------------------------

  ghost predicate SameVaps(a: seq<VapPlan>, b: seq<VapPlan>, f: Facts) {
    |a| == |b| && forall k :: 0 <= k < |a| ==> SameVap(a[k], b[k], f)
  }

  lemma SameBlock(f: Facts, a: VapPlan, b: VapPlan, n: nat, dadDone: bool)
    requires SameVap(a, b, f)
    ensures VapBlock(f, a, n, dadDone) == VapBlock(f, b, n, dadDone)
  {
    hide SameVap, AaaSettings, WirelessSettings, Written, Alike;
    AaaAlike(a, b, f, n, dadDone);
    WirelessAlike(a, b, f);
    AlikeWritten(AaaPrefix(n), AaaSettings(a, f, n, dadDone), AaaSettings(b, f, n, dadDone));
    AlikeWritten(WirelessPrefix(n), WirelessSettings(a, f), WirelessSettings(b, f));
  }

  lemma SameGate(a: VapPlan, b: VapPlan, f: Facts)
    requires SameVap(a, b, f)
    ensures DasGate(a.wlan, f) == DasGate(b.wlan, f)
  {
    hide HasBit, SlotViews, WlanIdOf, WrapVid, OneLine, Psk, DynamicVlan;
  }

  lemma SameDadDone(a: seq<VapPlan>, b: seq<VapPlan>, k: nat, f: Facts)
    requires SameVaps(a, b, f) && k <= |a|
    ensures DadDone(a, k, f) == DadDone(b, k, f)
  {
    hide SameVap, DasGate;
    forall i | 0 <= i < k ensures DasGate(a[i].wlan, f) == DasGate(b[i].wlan, f) {
      SameGate(a[i], b[i], f);
    }
  }

  lemma {:induction false} SameVapLines(f: Facts, a: seq<VapPlan>, b: seq<VapPlan>, k: nat)
    requires SameVaps(a, b, f) && k <= |a|
    ensures VapLines(f, a, k) == VapLines(f, b, k)
  {
    hide SameVap, VapBlock, DadDone;
    if k > 0 {
      SameVapLines(f, a, b, k - 1);
      SameDadDone(a, b, k - 1, f);
      SameBlock(f, a[k - 1], b[k - 1], k, DadDone(a, k - 1, f));
    }
  }

  /** The wiring rows read only radio, devname and tag of a vap. */
  ghost predicate SameWires(a: seq<VapPlan>, b: seq<VapPlan>) {
    |a| == |b| && forall k :: 0 <= k < |a| ==> a[k].radioN == b[k].radioN && a[k].athN == b[k].athN && a[k].vid == b[k].vid
  }

  lemma WiresOf(a: seq<VapPlan>, b: seq<VapPlan>, f: Facts)
    requires SameVaps(a, b, f)
    ensures SameWires(a, b)
  {
    hide ViewOf, WlanIdOf, WrapVid;
    forall k | 0 <= k < |a| ensures a[k].vid == b[k].vid {
      assert SameVap(a[k], b[k], f);
      SameTag(a[k], b[k], f);
    }
  }

  lemma SameTag(a: VapPlan, b: VapPlan, f: Facts)
    requires SameVap(a, b, f)
    ensures a.vid == b.vid
  {
    assert ViewOf(a.wlan, SupportsDas(f)).vid == WrapVid(a.wlan.vlan);
  }

  lemma {:induction false} SameCompanions(a: seq<VapPlan>, b: seq<VapPlan>, n: nat, k: nat)
    requires SameWires(a, b) && k <= |a|
    ensures OnRadio(a, n, k) == OnRadio(b, n, k) && CompanionSettings(a, n, k) == CompanionSettings(b, n, k)
  {
    hide Devname, Itoa;
    if k > 0 { SameCompanions(a, b, n, k - 1); }
  }

  lemma {:induction false} SameRadioLines(f: Facts, a: seq<VapPlan>, b: seq<VapPlan>, i: nat)
    requires SameWires(a, b) && i <= |f.radios|
    ensures RadioLines(f, a, i) == RadioLines(f, b, i)
  {
    hide RadioSettings, CompanionSettings, Written, RadioPrefix;
    if i > 0 {
      SameRadioLines(f, a, b, i - 1);
      SameCompanions(a, b, i, |a|);
    }
  }

  lemma {:induction false} SameTags(a: seq<VapPlan>, b: seq<VapPlan>, vid: int, k: nat)
    requires SameWires(a, b) && k <= |a|
    ensures TaggedVids(a, k) == TaggedVids(b, k) && AthsOn(a, vid, k) == AthsOn(b, vid, k)
  {
    hide Devname, InsertVid;
    if k > 0 { SameTags(a, b, vid, k - 1); }
  }

  lemma {:induction false} SameBridges(f: Facts, a: seq<VapPlan>, b: seq<VapPlan>, vids: seq<int>, i: nat)
    requires SameWires(a, b) && i <= |vids|
    ensures BridgesSettings(f, a, vids, i) == BridgesSettings(f, b, vids, i)
  {
    hide BridgeSettings, SubInterfaces, AthsOn;
    if i > 0 {
      SameBridges(f, a, b, vids, i - 1);
      SameTags(a, b, vids[i - 1], |a|);
    } else {
      SameTags(a, b, 0, |a|);
    }
  }

  lemma SameWiring(f: Facts, a: seq<VapPlan>, b: seq<VapPlan>)
    requires SameWires(a, b)
    ensures WiringLines(f, a) == WiringLines(f, b)
  {
    hide Written, VlanBlock, BridgesSettings, NetconfLines, DhcpcSettings, TaggedVids;
    SameTags(a, b, 0, |a|);
    SameBridges(f, a, b, TaggedVids(a, |a|), |TaggedVids(a, |a|)|);
  }

  lemma SameRows(f: Facts, x: seq<VapPlan>, y: seq<VapPlan>)
    requires SameVaps(x, y, f)
    ensures WirelessCfg(f, x) == WirelessCfg(f, y)
  {
    WiresOf(x, y, f);
    assert |x| == |y|;
    hide SameVaps, RadioLines, VapLines, WiringLines, NetconfLines, Written;
    SameRadioLines(f, x, y, |f.radios|);
    SameVapLines(f, x, y, |x|);
    SameWiring(f, x, y);
  }

  lemma PlansOfViews(f: Facts, a: seq<Wlan>, b: seq<Wlan>, x: seq<VapPlan>, y: seq<VapPlan>)
    requires SoundPlan(x, 0, f.radios, a) && SoundPlan(y, 0, f.radios, b) && VapViews(x, SupportsDas(f)) == VapViews(y, SupportsDas(f))
    ensures SameVaps(x, y, f)
  {
    hide ViewOf, WlanIdOf, WrapVid, HasBit, Provisionable, PlacedOn;
    assert |VapViews(x, SupportsDas(f))| == |VapViews(y, SupportsDas(f))|;
    forall k | 0 <= k < |x| ensures SameVap(x[k], y[k], f) {
      assert VapViews(x, SupportsDas(f))[k] == VapViews(y, SupportsDas(f))[k];
      assert WellPlanned(x[k], f.radios, a) && WellPlanned(y[k], f.radios, b);
    }
  }

  /** What a device shows of an envelope. */
  function Views(f: Facts, wls: seq<Wlan>): seq<VapView> {
    DeviceViews(f.radios, |f.radios|, wls, SupportsDas(f))
  }

  lemma ViewsDecideRows(f: Facts, a: seq<Wlan>, b: seq<Wlan>)
    requires Views(f, a) == Views(f, b)
    ensures Rendered(f, a) == Rendered(f, b)
  {
    hide VapsOfFirst, SoundPlan, SameVaps, WirelessCfg, DeviceViews, HasBit, VapViews;
    var n := |f.radios|;
    PlanViews(f.radios, n, a, SupportsDas(f));
    PlanViews(f.radios, n, b, SupportsDas(f));
    PlanSound(f.radios, n, a);
    PlanSound(f.radios, n, b);
    PlansOfViews(f, a, b, VapsOfFirst(f.radios, n, a), VapsOfFirst(f.radios, n, b));
    SameRows(f, VapsOfFirst(f.radios, n, a), VapsOfFirst(f.radios, n, b));
  }

  /** Rows and views decide each other, on every device and for all envelopes. */
  lemma RowsAreViews(f: Facts, a: seq<Wlan>, b: seq<Wlan>)
    ensures Rendered(f, a) == Rendered(f, b) <==> Views(f, a) == Views(f, b)
  {
    hide Rendered, DeviceViews, HasBit;
    if Rendered(f, a) == Rendered(f, b) { ConfigShowsViews(f, a, b); }
    if Views(f, a) == Views(f, b) { ViewsDecideRows(f, a, b); }
  }

  // ---- the hash decides the views -------------------------------------------------------------------

  ghost predicate SameCanons(a: seq<Wlan>, b: seq<Wlan>) {
    |a| == |b| && forall k :: 0 <= k < |a| ==> CanonOf(a[k]) == CanonOf(b[k])
  }

  lemma HashIsCanon(a: seq<Wlan>, b: seq<Wlan>)
    ensures WlanListHash(a) == WlanListHash(b) <==> SameCanons(a, b)
  {
    if WlanListHash(a) == WlanListHash(b) {
      forall k | 0 <= k < |a| ensures CanonOf(a[k]) == CanonOf(b[k]) {
        assert CanonList(a)[k] == CanonList(b)[k];
      }
    }
    if SameCanons(a, b) {
      assert CanonList(a) == CanonList(b);
    }
  }

  lemma SamePorts(a: seq<Server>, b: seq<Server>, fallback: int, i: nat, secret: string)
    requires EffectivePorts(a, fallback) == EffectivePorts(b, fallback)
    ensures SlotViewOf(SlotAt(a, i), fallback, secret) == SlotViewOf(SlotAt(b, i), fallback, secret)
  {
    hide OneLine;
    assert |EffectivePorts(a, fallback)| == |EffectivePorts(b, fallback)|;
    if i < |a| { assert EffectivePorts(a, fallback)[i] == EffectivePorts(b, fallback)[i]; }
  }

  lemma SameSlots(a: seq<Server>, b: seq<Server>, fallback: int, secret: string)
    requires EffectivePorts(a, fallback) == EffectivePorts(b, fallback)
    ensures SlotViews(a, fallback, secret) == SlotViews(b, fallback, secret)
  {
    hide SlotViewOf, SlotAt, EffectivePorts;
    forall i | 0 <= i < MAX_SLOTS ensures SlotViews(a, fallback, secret)[i] == SlotViews(b, fallback, secret)[i] {
      SamePorts(a, b, fallback, i, secret);
    }
  }

  lemma SameRadius(a: Wlan, b: Wlan)
    requires CanonOf(a).radius == CanonOf(b).radius
    ensures EffectivePorts(a.profile.servers, AUTH_PORT) == EffectivePorts(b.profile.servers, AUTH_PORT)
    ensures a.profile.secret == b.profile.secret && DynamicVlan(a.profile.vlanMode) == DynamicVlan(b.profile.vlanMode)
  {
    if CanonOf(a).radius.NoRadius? {
      assert EffectivePorts(a.profile.servers, AUTH_PORT) == [] == EffectivePorts(b.profile.servers, AUTH_PORT);
    }
  }

  lemma CanonDecidesEap(a: Wlan, b: Wlan, das: bool)
    requires CanonOf(a) == CanonOf(b)
    ensures EapViewOf(a.profile, das) == EapViewOf(b.profile, das)
  {
    SameRadius(a, b);
    SameSlots(a.profile.servers, b.profile.servers, AUTH_PORT, a.profile.secret);
    if a.profile.accounting {
      assert CanonOf(a).acct == CanonOf(b).acct;
      SameSlots(a.profile.acctServers, b.profile.acctServers, ACCT_PORT, a.profile.secret);
    }
    assert CanonOf(a).acct.NoAcct? == !a.profile.accounting && CanonOf(b).acct.NoAcct? == !b.profile.accounting;
    hide SlotViews, EffectivePorts, DynamicVlan, OneLine;
  }

  /** What the hash keeps of a WLAN decides its view and its bands. */
  lemma CanonDecidesView(a: Wlan, b: Wlan, band: string, das: bool)
    requires CanonOf(a) == CanonOf(b)
    ensures ViewOf(a, das) == ViewOf(b, das) && OnBand(a, band) == OnBand(b, band)
  {
    hide EapViewOf, Shown, TextDigest.Hex24, SignedItoa, WrapVid, EffectivePorts;
    CanonDecidesEap(a, b, das);
  }

  lemma {:induction false} CanonsDecideViews(a: seq<Wlan>, b: seq<Wlan>, band: string, das: bool)
    requires SameCanons(a, b)
    ensures ViewsOn(a, band, das) == ViewsOn(b, band, das)
  {
    hide CanonOf, ViewOf, OnBand;
    if a != [] {
      CanonsDecideViews(a[..|a| - 1], b[..|b| - 1], band, das);
      CanonDecidesView(a[|a| - 1], b[|b| - 1], band, das);
    }
  }

  // ---- what one device tells ------------------------------------------------------------------------

  function OfRadio(vs: seq<VapView>, n: nat): seq<View> {
    if vs == [] then []
    else OfRadio(vs[..|vs| - 1], n) + if vs[|vs| - 1].radioN == n then [vs[|vs| - 1].view] else []
  }

  lemma OfNoRadio(n: nat)
    ensures OfRadio([], n) == []
  {
  }

  lemma {:induction false} OfRadioConcat(a: seq<VapView>, b: seq<VapView>, n: nat)
    ensures OfRadio(a + b, n) == OfRadio(a, n) + OfRadio(b, n)
  {
    if b == [] {
      assert a + b == a;
    } else {
      var init, last := b[..|b| - 1], b[|b| - 1];
      OfRadioConcat(a, init, n);
      assert (a + b)[..|a + b| - 1] == a + init && (a + b)[|a + b| - 1] == last;
    }
  }

  lemma {:induction false} OfRadioNumbered(views: seq<View>, m: nat, n: nat)
    ensures OfRadio(Numbered(views, m), n) == if m == n then views else []
  {
    if views != [] {
      var init := views[..|views| - 1];
      OfRadioNumbered(init, m, n);
      assert Numbered(views, m)[..|views| - 1] == Numbered(init, m) && views == init + [views[|views| - 1]];
    }
  }

  /** The part of radio number n + 1 among the views of the first i radios. */
  lemma {:induction false} RadioTells(radios: seq<Radio>, i: nat, n: nat, wls: seq<Wlan>, das: bool)
    requires i <= |radios| && n < |radios|
    ensures OfRadio(DeviceViews(radios, i, wls, das), n + 1) ==
            if n < i && Provisionable(radios[n]) then ViewsOn(wls, radios[n].band, das) else []
  {
    hide ViewsOn, Numbered, Provisionable, OfRadio;
    OfNoRadio(n + 1);
    if i > 0 {
      RadioTells(radios, i - 1, n, wls, das);
      var views := ViewsOn(wls, radios[i - 1].band, das);
      OfRadioNumbered(views, i, n + 1);
      OfRadioConcat(DeviceViews(radios, i - 1, wls, das), Numbered(views, i), n + 1);
    }
  }

  /** Two envelopes look alike on every band a device provisions. */
  ghost predicate SameOnRadios(radios: seq<Radio>, i: nat, a: seq<Wlan>, b: seq<Wlan>, das: bool)
    requires i <= |radios|
  {
    forall n :: 0 <= n < i && Provisionable(radios[n]) ==> ViewsOn(a, radios[n].band, das) == ViewsOn(b, radios[n].band, das)
  }

  lemma {:induction false} RadiosDecideViews(radios: seq<Radio>, i: nat, a: seq<Wlan>, b: seq<Wlan>, das: bool)
    requires i <= |radios| && SameOnRadios(radios, i, a, b, das)
    ensures DeviceViews(radios, i, a, das) == DeviceViews(radios, i, b, das)
  {
    hide ViewsOn, Provisionable;
    if i > 0 { RadiosDecideViews(radios, i - 1, a, b, das); }
  }

  /** One device renders two envelopes alike exactly when they look alike on each band it provisions. */
  lemma DeviceIff(f: Facts, a: seq<Wlan>, b: seq<Wlan>)
    ensures Rendered(f, a) == Rendered(f, b) <==> SameOnRadios(f.radios, |f.radios|, a, b, SupportsDas(f))
  {
    hide Rendered, ViewsOn, DeviceViews, HasBit, Provisionable;
    var das, n := SupportsDas(f), |f.radios|;
    RowsAreViews(f, a, b);
    if Views(f, a) == Views(f, b) {
      forall k | 0 <= k < n && Provisionable(f.radios[k]) ensures ViewsOn(a, f.radios[k].band, das) == ViewsOn(b, f.radios[k].band, das) {
        RadioTells(f.radios, n, k, a, das);
        RadioTells(f.radios, n, k, b, das);
      }
    }
    if SameOnRadios(f.radios, n, a, b, das) { RadiosDecideViews(f.radios, n, a, b, das); }
  }

  /** A provisionable radio is of one band or the other. */
  lemma TwoBands(f: Facts, a: seq<Wlan>, b: seq<Wlan>)
    requires ViewsOn(a, "ng", SupportsDas(f)) == ViewsOn(b, "ng", SupportsDas(f))
    requires ViewsOn(a, "na", SupportsDas(f)) == ViewsOn(b, "na", SupportsDas(f))
    ensures Rendered(f, a) == Rendered(f, b)
  {
    hide Rendered, ViewsOn, HasBit;
    DeviceIff(f, a, b);
  }

  /**
   The drift hash never misses a render change: on every device, two envelopes with the same
   hash render to the same rows.
   */
  lemma EqualHashesRenderEqually(f: Facts, a: seq<Wlan>, b: seq<Wlan>)
    requires WlanListHash(a) == WlanListHash(b)
    ensures Rendered(f, a) == Rendered(f, b)
  {
    hide Rendered, ViewsOn, HasBit, SameCanons, WlanListHash;
    HashIsCanon(a, b);
    CanonsDecideViews(a, b, "ng", SupportsDas(f));
    CanonsDecideViews(a, b, "na", SupportsDas(f));
    TwoBands(f, a, b);
  }

  // ---- the same rows on every device ------------------------------------------------------------------

  /** All that rows can tell of an envelope: what a radio of each band shows of it. */
  datatype VisibleForm = VisibleForm(ng: seq<View>, na: seq<View>)

  function FormOf(wls: seq<Wlan>): VisibleForm {
    VisibleForm(ViewsOn(wls, "ng", true), ViewsOn(wls, "na", true))
  }

  /** A device without dynamic authorization shows the same but for the das flag. */
  function Masked(v: View): View {
    if v.security.WpaEapView? then v.(security := v.security.(eap := v.security.eap.(das := false))) else v
  }

  lemma MaskDecides(a: seq<Wlan>, b: seq<Wlan>, band: string)
    requires ViewsOn(a, band, true) == ViewsOn(b, band, true)
    ensures ViewsOn(a, band, false) == ViewsOn(b, band, false)
  {
    MaskedViews(a, band);
    MaskedViews(b, band);
    hide ViewsOn, Masked;
    var x, y := ViewsOn(a, band, false), ViewsOn(b, band, false);
    assert |x| == |y|;
    assert forall i :: 0 <= i < |x| ==> x[i] == y[i];
  }

  lemma {:induction false} MaskedViews(wls: seq<Wlan>, band: string)
    ensures var x, y := ViewsOn(wls, band, true), ViewsOn(wls, band, false);
            |x| == |y| && forall i :: 0 <= i < |x| ==> y[i] == Masked(x[i])
  {
    hide OnBand, SlotViews, WlanIdOf, WrapVid, OneLine, Psk, DynamicVlan, SsidOf;
    if wls != [] { MaskedViews(wls[..|wls| - 1], band); }
  }

  /** A device with both bands and dynamic authorization tells the whole form. */
  lemma FullDeviceIff(f: Facts, g: nat, n: nat, a: seq<Wlan>, b: seq<Wlan>)
    requires SupportsDas(f) && g < |f.radios| && n < |f.radios| && Provisionable(f.radios[g]) && Provisionable(f.radios[n])
    requires f.radios[g].band == "ng" && f.radios[n].band == "na"
    ensures Rendered(f, a) == Rendered(f, b) <==> FormOf(a) == FormOf(b)
  {
    hide Rendered, ViewsOn, HasBit;
    DeviceIff(f, a, b);
    if FormOf(a) == FormOf(b) { TwoBands(f, a, b); }
  }

  function RadioRow(name: string, band: string, caps: string): Row {
    map["name" := JStr(name), "radio" := JStr(band), "builtin_antenna" := JBool(true), "builtin_ant_gain" := JNum("3"),
        "max_txpower" := JNum("22"), "min_txpower" := JNum("6"), "nss" := JNum("3"), "radio_caps" := JNum(caps)]
  }

  /** A dual-band U7PG2: two radios, one wired port, the capability words it reports. */
  const DualBand := Facts(
    [Radio("wifi0", "ng", RadioRow("wifi0", "ng", "16420")), Radio("wifi1", "na", RadioRow("wifi1", "na", "50479140"))],
    map[], "br0", 840, Some(559857373), Some(3892247871), ["eth0"])

  lemma DualBandIsFull()
    ensures SupportsDas(DualBand) && Provisionable(DualBand.radios[0]) && Provisionable(DualBand.radios[1])
  {
    assert forall name, band, caps :: "usage" !in RadioRow(name, band, caps) by {
      assert |"usage"| == 5 && |"radio"| == 5 && "usage"[0] != "radio"[0];
    }
    assert JsonStr(DualBand.radios[0].raw, "usage", "") == "" && JsonStr(DualBand.radios[1].raw, "usage", "") == "";
  }

  /** Two envelopes render alike on every device exactly when their visible forms agree. */
  lemma EveryDeviceIff(a: seq<Wlan>, b: seq<Wlan>)
    ensures (forall f: Facts :: Rendered(f, a) == Rendered(f, b)) <==> FormOf(a) == FormOf(b)
  {
    hide Rendered, ViewsOn, Provisionable, HasBit;
    if FormOf(a) == FormOf(b) {
      MaskDecides(a, b, "ng");
      MaskDecides(a, b, "na");
      forall f: Facts ensures Rendered(f, a) == Rendered(f, b) { TwoBands(f, a, b); }
    }
    if forall f: Facts :: Rendered(f, a) == Rendered(f, b) {
      assert Rendered(DualBand, a) == Rendered(DualBand, b);
      DualBandIsFull();
      FullDeviceIff(DualBand, 0, 1, a, b);
    }
  }

  // ---- when the hash follows the rows ---------------------------------------------------------------------

  predicate NormalServers(ss: seq<Server>) {
    0 < |ss| <= MAX_SLOTS && forall i :: 0 <= i < |ss| ==> ss[i].ip != "" && OneLine(ss[i].ip)
  }

  predicate NormalProfile(p: Profile) {
    && NormalServers(p.servers) && OneLine(p.secret) && p.vlanMode in ["", "disabled", "optional", "required"]
    && (p.accounting ==> NormalServers(p.acctServers))
  }

  predicate NormalSecurity(w: Wlan) {
    if w.security == "wpa-eap" then w.passphrase == "" && NormalProfile(w.profile)
    else
      && |w.profile.servers| == 0 && w.profile.secret == "" && w.profile.vlanMode == "" && !w.profile.accounting
      && (if w.security == "open" then w.passphrase == ""
          else w.security in ["wpa-p", "wpa3-p", "wpa2-wpa3"] && w.passphrase != "" && OneLine(w.passphrase))
  }

  /**
   A WLAN in normal form: on, on both bands, an id of its own, the SSID given by its name, a tag
   that is used as it stands, one-line texts, and no setting its security mode does not use.
   */
  predicate Normal(w: Wlan) {
    && w.enabled && EffectiveBand(w) == "both"
    && w.ssid == "" && OneLine(w.name)
    && w.id != "" && OneLine(w.id)
    && WrapVid(w.vlan) == w.vlan
    && NormalSecurity(w)
  }

  lemma NotLonger(a: seq<Server>, b: seq<Server>, fallback: int, s: string, t: string)
    requires NormalServers(a) && NormalServers(b) && SlotViews(a, fallback, s) == SlotViews(b, fallback, t)
    ensures |b| <= |a|
  {
    hide OneLine, Shown;
    if |a| < MAX_SLOTS {
      assert SlotViews(a, fallback, s)[|a|] == NoSlot;
      assert SlotViews(b, fallback, t)[|a|] == SlotViewOf(SlotAt(b, |a|), fallback, t);
    }
  }

  lemma SlotsDecideServers(a: seq<Server>, b: seq<Server>, fallback: int, s: string, t: string)
    requires NormalServers(a) && NormalServers(b) && OneLine(s) && OneLine(t)
    requires SlotViews(a, fallback, s) == SlotViews(b, fallback, t)
    ensures EffectivePorts(a, fallback) == EffectivePorts(b, fallback) && s == t
  {
    hide OneLine;
    NotLonger(a, b, fallback, s, t);
    NotLonger(b, a, fallback, t, s);
    forall i | 0 <= i < |a|
      ensures SlotViewOf(a[i], fallback, s) == SlotViewOf(b[i], fallback, t)
    {
      assert SlotViews(a, fallback, s)[i] == SlotViews(b, fallback, t)[i];
    }
    assert SlotViewOf(a[0], fallback, s) == SlotViewOf(b[0], fallback, t);
    forall i | 0 <= i < |a| ensures EffectivePorts(a, fallback)[i] == EffectivePorts(b, fallback)[i] {
      assert SlotViewOf(a[i], fallback, s) == SlotViewOf(b[i], fallback, t);
    }
  }

  lemma ModesDecide(a: string, b: string)
    requires a in ["", "disabled", "optional", "required"] && b in ["", "disabled", "optional", "required"]
    requires DynamicVlan(a) == DynamicVlan(b)
    ensures (if a == "" then "disabled" else a) == (if b == "" then "disabled" else b)
  {
    assert "0"[0] != "1"[0] && "1"[0] != "2"[0] && "0"[0] != "2"[0];
  }

  lemma ProfileDecided(a: Wlan, b: Wlan)
    requires NormalProfile(a.profile) && NormalProfile(b.profile) && EapViewOf(a.profile, true) == EapViewOf(b.profile, true)
    ensures CanonOf(a).radius == CanonOf(b).radius && CanonOf(a).acct == CanonOf(b).acct
  {
    var p, q := a.profile, b.profile;
    SlotsDecideServers(p.servers, q.servers, AUTH_PORT, p.secret, q.secret);
    ModesDecide(p.vlanMode, q.vlanMode);
    hide OneLine, DynamicVlan;
    if p.accounting { SlotShown(p.acctServers, p.secret); }
    if q.accounting { SlotShown(q.acctServers, q.secret); }
    assert p.accounting == q.accounting by {
      assert EapViewOf(p, true).acct[0] == EapViewOf(q, true).acct[0];
    }
    if p.accounting { SlotsDecideServers(p.acctServers, q.acctServers, ACCT_PORT, p.secret, q.secret); }
  }

  lemma SlotShown(ss: seq<Server>, secret: string)
    requires NormalServers(ss)
    ensures SlotViews(ss, ACCT_PORT, secret)[0] != NoSlot
  {
  }

  /** Among WLANs in normal form the view decides what is hashed. */
  lemma ViewDecidesCanon(a: Wlan, b: Wlan)
    requires Normal(a) && Normal(b) && ViewOf(a, true) == ViewOf(b, true)
    ensures CanonOf(a) == CanonOf(b)
  {
    if a.security == "wpa-eap" && b.security == "wpa-eap" { ProfileDecided(a, b); }
    hide OneLine, NormalProfile, EapViewOf;
    SecurityDecided(a, b);
  }

  lemma SecurityDecided(a: Wlan, b: Wlan)
    requires NormalSecurity(a) && NormalSecurity(b) && SecurityViewOf(a, true) == SecurityViewOf(b, true)
    ensures a.security == b.security && a.passphrase == b.passphrase
  {
    hide NormalProfile, EapViewOf, OneLine;
  }

  ghost predicate AllNormal(wls: seq<Wlan>) {
    forall i :: 0 <= i < |wls| ==> Normal(wls[i])
  }

  /** Every radio shows every WLAN of an envelope in normal form. */
  lemma {:induction false} NormalViews(wls: seq<Wlan>, band: string)
    requires AllNormal(wls)
    ensures ViewsOn(wls, band, true) == seq(|wls|, i requires 0 <= i < |wls| => ViewOf(wls[i], true))
  {
    hide ViewOf, NormalSecurity;
    if wls != [] {
      NormalViews(wls[..|wls| - 1], band);
      assert Normal(wls[|wls| - 1]);
    }
  }

  lemma NormalFormDecides(a: seq<Wlan>, b: seq<Wlan>, band: string)
    requires AllNormal(a) && AllNormal(b) && ViewsOn(a, band, true) == ViewsOn(b, band, true)
    ensures SameCanons(a, b)
  {
    NormalViews(a, band);
    NormalViews(b, band);
    hide ViewsOn, ViewOf, Normal, CanonOf;
    assert |ViewsOn(a, band, true)| == |ViewsOn(b, band, true)|;
    forall k | 0 <= k < |a| ensures CanonOf(a[k]) == CanonOf(b[k]) {
      assert ViewsOn(a, band, true)[k] == ViewsOn(b, band, true)[k];
      ViewDecidesCanon(a[k], b[k]);
    }
  }

  /**
   Where the hash follows the rows: for envelopes in normal form, on any device with dynamic
   authorization and at least one provisionable radio, equal rows and equal hashes are one thing.
   */
  lemma NormalHashIffRows(f: Facts, a: seq<Wlan>, b: seq<Wlan>)
    requires AllNormal(a) && AllNormal(b) && SupportsDas(f) && exists n :: 0 <= n < |f.radios| && Provisionable(f.radios[n])
    ensures Rendered(f, a) == Rendered(f, b) <==> WlanListHash(a) == WlanListHash(b)
  {
    hide Rendered, ViewsOn, Normal, HasBit, SameCanons, WlanListHash, Provisionable;
    if WlanListHash(a) == WlanListHash(b) { EqualHashesRenderEqually(f, a, b); }
    if Rendered(f, a) == Rendered(f, b) {
      DeviceIff(f, a, b);
      var n :| 0 <= n < |f.radios| && Provisionable(f.radios[n]);
      NormalFormDecides(a, b, f.radios[n].band);
      HashIsCanon(a, b);
    }
  }
}
