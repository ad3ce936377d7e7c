/**
 What a rendered config shows of an envelope. A view keeps of a WLAN exactly what its rows
 depend on: values as they are printed, nothing that is defaulted, folded, skipped or inert.
 Equal views give equal rows.
 */
module Visible {
  import opened Options
  import opened Text
  import opened Wlans
  import opened Plan
  import opened Render

  // ---- views -------------------------------------------------------------------------------------

  /** A printed value; one with a line break is not printed. */
  function Shown(v: string): Option<string> {
    if OneLine(v) then Some(v) else None
  }

  /** One RADIUS slot; the port is the effective one. */
  datatype SlotView = NoSlot | SlotView(ip: Option<string>, port: int, secret: Option<string>)

  const NoSlots := [NoSlot, NoSlot, NoSlot, NoSlot]

  datatype EapView = EapView(auth: seq<SlotView>, acct: seq<SlotView>, das: bool, interim: bool, dynamicVlan: string)

  datatype SecurityView =
    | OpenView
    | PskView(psk: Option<string>)
    | Wpa3View(transition: bool, psk: Option<string>)
    | WpaEapView(psk: Option<string>, eap: EapView)

  datatype View = View(vid: int, id: Option<string>, ssid: Option<string>, security: SecurityView)

  function SlotViewOf(s: Server, fallback: int, secret: string): SlotView {
    if s.ip == "" then NoSlot else SlotView(Shown(s.ip), EffectivePort(s, fallback).port, Shown(secret))
  }

  function SlotViews(ss: seq<Server>, fallback: int, secret: string): seq<SlotView> {
    seq(MAX_SLOTS, i requires 0 <= i < MAX_SLOTS => SlotViewOf(SlotAt(ss, i), fallback, secret))
  }

  /** das says whether the device supports dynamic authorization. */
  function EapViewOf(p: Profile, das: bool): EapView {
    EapView(SlotViews(p.servers, AUTH_PORT, p.secret),
            if p.accounting then SlotViews(p.acctServers, ACCT_PORT, p.secret) else NoSlots,
            p.accounting && p.das && das, p.accounting && p.interim, DynamicVlan(p.vlanMode))
  }

  function SecurityViewOf(w: Wlan, das: bool): SecurityView {
    if w.security == "open" then OpenView
    else if w.security == "wpa-eap" then WpaEapView(Shown(Psk(w)), EapViewOf(w.profile, das))
    else if IsWpa3(w) then Wpa3View(w.security == "wpa2-wpa3", Shown(Psk(w)))
    else PskView(Shown(Psk(w)))
  }

  function ViewOf(w: Wlan, das: bool): View {
    View(WrapVid(w.vlan), Shown(WlanIdOf(w)), Shown(SsidOf(w)), SecurityViewOf(w, das))
  }

  predicate SupportsDas(f: Facts) {
    HasBit(f.fwCaps, 0x100000)
  }

  // ---- views of an envelope ----------------------------------------------------------------------

  /** Whether an enabled WLAN is instantiated on a radio of this band. */
  predicate OnBand(w: Wlan, band: string) {
    w.enabled && !(EffectiveBand(w) == "2g" && band != "ng") && !(EffectiveBand(w) == "5g" && band != "na")
  }

  /** Views of the WLANs instantiated on a band, in list order. */
  function ViewsOn(wls: seq<Wlan>, band: string, das: bool): seq<View> {
    if wls == [] then []
    else
      var init, w := wls[..|wls| - 1], wls[|wls| - 1];
      if OnBand(w, band) then ViewsOn(init, band, das) + [ViewOf(w, das)] else ViewsOn(init, band, das)
  }

  /** One vap as the rows show it: its radio's number and its WLAN's view. */
  datatype VapView = VapView(radioN: nat, view: View)

  function Numbered(views: seq<View>, n: nat): seq<VapView> {
    seq(|views|, i requires 0 <= i < |views| => VapView(n, views[i]))
  }

  /** What the first i radios of a device show of an envelope. */
  function DeviceViews(radios: seq<Radio>, i: nat, wls: seq<Wlan>, das: bool): seq<VapView>
    requires i <= |radios|
  {
    if i == 0 then []
    else
      var before := DeviceViews(radios, i - 1, wls, das);
      if Provisionable(radios[i - 1]) then before + Numbered(ViewsOn(wls, radios[i - 1].band, das), i) else before
  }

  function VapViews(vaps: seq<VapPlan>, das: bool): seq<VapView> {
    seq(|vaps|, i requires 0 <= i < |vaps| => VapView(vaps[i].radioN, ViewOf(vaps[i].wlan, das)))
  }

  lemma {:induction false} RadioViews(r: Radio, n: nat, wls: seq<Wlan>, j: nat, base: nat, das: bool)
    requires j <= |wls|
    ensures VapViews(VapsOnRadio(r, n, wls, j, base), das) == Numbered(ViewsOn(wls[..j], r.band, das), n)
  {
    hide ViewOf;
    if j > 0 {
      RadioViews(r, n, wls, j - 1, base, das);
      var before, w := VapsOnRadio(r, n, wls, j - 1, base), wls[j - 1];
      var shown := ViewsOn(wls[..j - 1], r.band, das);
      assert wls[..j][..j - 1] == wls[..j - 1] && wls[..j][j - 1] == w;
      assert PlacedOn(w, r) == OnBand(w, r.band);
      if PlacedOn(w, r) {
        assert Numbered(shown + [ViewOf(w, das)], n) == Numbered(shown, n) + [VapView(n, ViewOf(w, das))];
        assert VapViews(VapsOnRadio(r, n, wls, j, base), das) == VapViews(before, das) + [VapView(n, ViewOf(w, das))];
      }
    }
  }

  /** The views of a device's plan are what its radios show. */
  lemma {:induction false} PlanViews(radios: seq<Radio>, i: nat, wls: seq<Wlan>, das: bool)
    requires i <= |radios|
    ensures VapViews(VapsOfFirst(radios, i, wls), das) == DeviceViews(radios, i, wls, das)
  {
    hide ViewOf;
    if i > 0 {
      PlanViews(radios, i - 1, wls, das);
      var before := VapsOfFirst(radios, i - 1, wls);
      RadioViews(radios[i - 1], i, wls, |wls|, |before|, das);
      assert wls[..|wls|] == wls;
    }
  }

  // ---- equal views, equal rows ---------------------------------------------------------------------

  /** Two rows that print alike. */
  predicate AlikeOne(s: Setting, t: Setting) {
    t.key == s.key && Shown(t.value) == Shown(s.value)
  }

  ghost predicate Alike(a: seq<Setting>, b: seq<Setting>) {
    |a| == |b| && forall i :: 0 <= i < |a| ==> AlikeOne(a[i], b[i])
  }

  lemma AlikeConcat(a: seq<Setting>, b: seq<Setting>, c: seq<Setting>, d: seq<Setting>)
    requires Alike(a, b) && Alike(c, d)
    ensures Alike(a + c, b + d)
  {
    hide AlikeOne;
  }

  lemma {:induction false} AlikeWritten(prefix: string, a: seq<Setting>, b: seq<Setting>)
    requires Alike(a, b)
    ensures Written(prefix, a) == Written(prefix, b)
  {
    if a != [] {
      AlikeWritten(prefix, a[..|a| - 1], b[..|b| - 1]);
      assert AlikeOne(a[|a| - 1], b[|b| - 1]);
    }
  }

  lemma ServerAlike(kind: string, a: Server, b: Server, i: nat, fallback: nat, text: string, s: string, t: string)
    requires SlotViewOf(a, fallback, s) == SlotViewOf(b, fallback, t) && text == SignedItoa(fallback)
    ensures Alike(ServerSettings(kind, a, i, text, s), ServerSettings(kind, b, i, text, t))
  {
    hide SignedItoa, Itoa, OneLine;
  }

  lemma DefaultPorts()
    ensures SignedItoa(AUTH_PORT) == "1812" && SignedItoa(ACCT_PORT) == "1813"
  {
    assert Itoa(1) == "1" && Itoa(18) == "18" && Itoa(181) == "181";
  }

  lemma {:induction false} AuthAlike(a: Profile, b: Profile, k: nat)
    requires SlotViews(a.servers, AUTH_PORT, a.secret) == SlotViews(b.servers, AUTH_PORT, b.secret) && k <= MAX_SLOTS
    ensures Alike(AuthSettings(a, k), AuthSettings(b, k))
  {
    hide ServerSettings, SignedItoa, SlotViewOf, SlotAt, Alike;
    if k > 0 {
      AuthAlike(a, b, k - 1);
      DefaultPorts();
      assert SlotViews(a.servers, AUTH_PORT, a.secret)[k - 1] == SlotViews(b.servers, AUTH_PORT, b.secret)[k - 1];
      var s, t := SlotAt(a.servers, k - 1), SlotAt(b.servers, k - 1);
      ServerAlike("auth", s, t, k - 1, AUTH_PORT, "1812", a.secret, b.secret);
      AlikeConcat(AuthSettings(a, k - 1), AuthSettings(b, k - 1),
                  ServerSettings("auth", s, k - 1, "1812", a.secret), ServerSettings("auth", t, k - 1, "1812", b.secret));
    } else {
      assert Alike([], []) by { NothingAlike(); }
    }
  }

  lemma NothingAlike()
    ensures Alike([], [])
  {
  }

  /** Appending a text without line breaks does not change whether a value is printed. */
  lemma ShownSuffix(v: string, w: string, suffix: string)
    requires Shown(v) == Shown(w) && OneLine(suffix)
    ensures Shown(v + suffix) == Shown(w + suffix)
  {
    LineSuffix(v, suffix);
    LineSuffix(w, suffix);
  }

  lemma LineSuffix(v: string, suffix: string)
    requires OneLine(suffix)
    ensures OneLine(v + suffix) == OneLine(v)
  {
    forall i | 0 <= i < |v| ensures v[i] == (v + suffix)[i] {}
  }

  lemma DasClientAlike(a: Profile, b: Profile, k: nat)
    requires SlotViews(a.acctServers, ACCT_PORT, a.secret) == SlotViews(b.acctServers, ACCT_PORT, b.secret) && k < MAX_SLOTS
    ensures Alike(DasClientSettings(a, k), DasClientSettings(b, k))
  {
    forall i | 0 <= i <= k
      ensures SlotViewOf(SlotAt(a.acctServers, i), ACCT_PORT, a.secret) == SlotViewOf(SlotAt(b.acctServers, i), ACCT_PORT, b.secret)
    {
      assert SlotViews(a.acctServers, ACCT_PORT, a.secret)[i] == SlotViews(b.acctServers, ACCT_PORT, b.secret)[i];
    }
    assert ClientDone(a, k) == ClientDone(b, k);
    hide ClientDone, Itoa, OneLine, SlotAt;
    if SlotAt(a.acctServers, k).ip != "" {
      assert OneLine("/32") by { SlashIsOneLine(); }
      ShownSuffix(SlotAt(a.acctServers, k).ip, SlotAt(b.acctServers, k).ip, "/32");
    }
  }

  lemma SlashIsOneLine()
    ensures OneLine("/32")
  {
  }

  lemma {:induction false} AcctAlike(a: Profile, b: Profile, k: nat, das: bool)
    requires SlotViews(a.acctServers, ACCT_PORT, a.secret) == SlotViews(b.acctServers, ACCT_PORT, b.secret) && k <= MAX_SLOTS
    ensures Alike(AcctSettings(a, k, das), AcctSettings(b, k, das))
  {
    hide ServerSettings, DasClientSettings, SignedItoa, SlotViewOf, SlotAt, Alike;
    NothingAlike();
    if k > 0 {
      AcctAlike(a, b, k - 1, das);
      DefaultPorts();
      assert SlotViews(a.acctServers, ACCT_PORT, a.secret)[k - 1] == SlotViews(b.acctServers, ACCT_PORT, b.secret)[k - 1];
      var s, t := SlotAt(a.acctServers, k - 1), SlotAt(b.acctServers, k - 1);
      var x, y := ServerSettings("acct", s, k - 1, "1813", a.secret), ServerSettings("acct", t, k - 1, "1813", b.secret);
      ServerAlike("acct", s, t, k - 1, ACCT_PORT, "1813", a.secret, b.secret);
      AlikeConcat(AcctSettings(a, k - 1, das), AcctSettings(b, k - 1, das), x, y);
      DasClientAlike(a, b, k - 1);
      AlikeConcat(AcctSettings(a, k - 1, das) + x, AcctSettings(b, k - 1, das) + y,
                  if das then DasClientSettings(a, k - 1) else [], if das then DasClientSettings(b, k - 1) else []);
    }
  }

  /** Slots that show nothing have no rows. */
  lemma {:induction false} NoSlotsNoRows(p: Profile, k: nat, das: bool)
    requires SlotViews(p.acctServers, ACCT_PORT, p.secret) == NoSlots && k <= MAX_SLOTS
    ensures AcctSettings(p, k, das) == []
  {
    if k > 0 {
      NoSlotsNoRows(p, k - 1, das);
      assert SlotViews(p.acctServers, ACCT_PORT, p.secret)[k - 1] == NoSlots[k - 1] == NoSlot;
    }
  }

  /** Accounting that shows nothing renders like accounting switched off. */
  lemma InertAccounting(w: Wlan, f: Facts, n: nat, dadDone: bool)
    requires w.security == "wpa-eap"
    requires var e := EapViewOf(w.profile, SupportsDas(f)); e.acct == NoSlots && !e.das && !e.interim
    ensures AccountingSettings(w, f, n, dadDone) == []
  {
    hide HasBit, DasSettings;
    if w.profile.accounting { NoSlotsNoRows(w.profile, MAX_SLOTS, false); }
  }

  lemma AccountingAlike(a: Wlan, b: Wlan, f: Facts, n: nat, dadDone: bool)
    requires a.security == "wpa-eap" == b.security
    requires EapViewOf(a.profile, SupportsDas(f)) == EapViewOf(b.profile, SupportsDas(f))
    ensures Alike(AccountingSettings(a, f, n, dadDone), AccountingSettings(b, f, n, dadDone))
  {
    hide HasBit, AcctSettings, DasSettings, DynamicVlan, SlotViews, Alike;
    NothingAlike();
    if a.profile.accounting && b.profile.accounting {
      var das := DasGate(a, f);
      var x, y := AcctSettings(a.profile, MAX_SLOTS, das), AcctSettings(b.profile, MAX_SLOTS, das);
      AcctAlike(a.profile, b.profile, MAX_SLOTS, das);
      var head := if das then DasSettings(n, dadDone) else [];
      var tail := if a.profile.interim then [Set("interim_update.status", "enabled"), Set("interim_update.interval", "3600")] else [];
      AlikeItself(head);
      AlikeItself(tail);
      AlikeConcat(head, head, x, y);
      AlikeConcat(head + x, head + y, tail, tail);
    } else {
      InertAccounting(a, f, n, dadDone);
      InertAccounting(b, f, n, dadDone);
    }
  }

  lemma AlikeItself(a: seq<Setting>)
    ensures Alike(a, a)
  {
    hide Shown;
  }

  lemma EapAlike(a: Wlan, b: Wlan, f: Facts, n: nat, dadDone: bool)
    requires SecurityViewOf(a, SupportsDas(f)) == SecurityViewOf(b, SupportsDas(f))
    ensures Alike(EapSettings(a, f, n, dadDone), EapSettings(b, f, n, dadDone))
  {
    hide HasBit, AuthSettings, AccountingSettings, DynamicVlan, SlotViews, Alike, Psk;
    NothingAlike();
    if a.security == "wpa-eap" {
      var head, vlan := [Set("auth_cache", "enabled")], [Set("dynamic_vlan", DynamicVlan(a.profile.vlanMode))];
      AlikeItself(head);
      AlikeItself(vlan);
      AuthAlike(a.profile, b.profile, MAX_SLOTS);
      AccountingAlike(a, b, f, n, dadDone);
      var x, y := AuthSettings(a.profile, MAX_SLOTS), AuthSettings(b.profile, MAX_SLOTS);
      AlikeConcat(head, head, x, y);
      AlikeConcat(head + x, head + y, AccountingSettings(a, f, n, dadDone), AccountingSettings(b, f, n, dadDone));
      AlikeConcat(head + x + AccountingSettings(a, f, n, dadDone), head + y + AccountingSettings(b, f, n, dadDone), vlan, vlan);
    }
  }

  /** Two vaps of equal views in the same place. */
  predicate SameVap(a: VapPlan, b: VapPlan, f: Facts) {
    && ViewOf(a.wlan, SupportsDas(f)) == ViewOf(b.wlan, SupportsDas(f))
    && a.id == WlanIdOf(a.wlan) && b.id == WlanIdOf(b.wlan) && a.vid == WrapVid(a.wlan.vlan) && b.vid == WrapVid(b.wlan.vlan)
    && a.radioN == b.radioN && a.phyname == b.phyname && a.athN == b.athN
  }

  lemma SecurityAlike(a: VapPlan, b: VapPlan, f: Facts, n: nat, dadDone: bool)
    requires SameVap(a, b, f)
    ensures Alike(SecuritySettings(a, f, n, dadDone), SecuritySettings(b, f, n, dadDone))
  {
    EapAlike(a.wlan, b.wlan, f, n, dadDone);
    assert Shown(a.id) == Shown(b.id);
    hide HasBit, EapSettings, EapViewOf, WlanIdOf, WrapVid, OneLine, Alike, Psk;
    var v, w := a.wlan, b.wlan;
    assert IsWpa3(v) == IsWpa3(w) && (v.security == "open") == (w.security == "open");
    if v.security == "open" {
      assert Alike(OpenSettings(a, f), OpenSettings(b, f)) by { OpenAlike(a, b, f); }
    } else {
      FixedAlike(a, b);
      AlikeItself(Cipher);
      AlikeConcat(WpaSettings(a), WpaSettings(b), Wpa3Settings(v), Wpa3Settings(w));
      AlikeConcat(WpaSettings(a) + Wpa3Settings(v), WpaSettings(b) + Wpa3Settings(w), KeySettings(v), KeySettings(w));
      AlikeConcat(WpaSettings(a) + Wpa3Settings(v) + KeySettings(v), WpaSettings(b) + Wpa3Settings(w) + KeySettings(w),
                  EapSettings(v, f, n, dadDone), EapSettings(w, f, n, dadDone));
      AlikeConcat(WpaSettings(a) + Wpa3Settings(v) + KeySettings(v) + EapSettings(v, f, n, dadDone),
                  WpaSettings(b) + Wpa3Settings(w) + KeySettings(w) + EapSettings(w, f, n, dadDone), Cipher, Cipher);
    }
  }

  lemma OpenAlike(a: VapPlan, b: VapPlan, f: Facts)
    requires Shown(a.id) == Shown(b.id)
    ensures Alike(OpenSettings(a, f), OpenSettings(b, f))
  {
    hide HasBit, OneLine;
  }

  /** The secured rows outside the RADIUS part. */
  lemma FixedAlike(a: VapPlan, b: VapPlan)
    requires Shown(a.id) == Shown(b.id)
    requires IsWpa3(a.wlan) == IsWpa3(b.wlan) && Shown(Psk(a.wlan)) == Shown(Psk(b.wlan))
    requires (a.wlan.security == "wpa2-wpa3") == (b.wlan.security == "wpa2-wpa3")
    requires (a.wlan.security == "wpa-eap") == (b.wlan.security == "wpa-eap")
    ensures Alike(WpaSettings(a), WpaSettings(b)) && Alike(Wpa3Settings(a.wlan), Wpa3Settings(b.wlan))
    ensures Alike(KeySettings(a.wlan), KeySettings(b.wlan))
  {
    hide OneLine, Psk;
  }

  /** Equal views give equal aaa rows. */
  lemma AaaAlike(a: VapPlan, b: VapPlan, f: Facts, n: nat, dadDone: bool)
    requires SameVap(a, b, f)
    ensures Alike(AaaSettings(a, f, n, dadDone), AaaSettings(b, f, n, dadDone))
  {
    SecurityAlike(a, b, f, n, dadDone);
    HeadAlike(a, b, f);
    AlikeItself(Tail);
    hide HeadSettings, SecuritySettings, SameVap, Alike;
    AlikeConcat(HeadSettings(a), HeadSettings(b), SecuritySettings(a, f, n, dadDone), SecuritySettings(b, f, n, dadDone));
    AlikeConcat(HeadSettings(a) + SecuritySettings(a, f, n, dadDone), HeadSettings(b) + SecuritySettings(b, f, n, dadDone), Tail, Tail);
  }

  lemma HeadAlike(a: VapPlan, b: VapPlan, f: Facts)
    requires SameVap(a, b, f)
    ensures Alike(HeadSettings(a), HeadSettings(b))
  {
    hide HasBit, EapViewOf, WlanIdOf, WrapVid, OneLine, Psk, Devname, AaaBridge, SsidOf;
  }

  lemma WirelessAlike(a: VapPlan, b: VapPlan, f: Facts)
    requires SameVap(a, b, f)
    ensures Alike(WirelessSettings(a, f), WirelessSettings(b, f))
  {
    WirelessHeadAlike(a, b, f);
    AlikeItself(WirelessRest(a.phyname, f));
    hide WirelessHead, WirelessRest, Alike, ViewOf;
    AlikeConcat(WirelessHead(a), WirelessHead(b), WirelessRest(a.phyname, f), WirelessRest(a.phyname, f));
  }

  lemma WirelessHeadAlike(a: VapPlan, b: VapPlan, f: Facts)
    requires SameVap(a, b, f)
    ensures Alike(WirelessHead(a), WirelessHead(b))
  {
    hide HasBit, EapViewOf, WlanIdOf, WrapVid, OneLine, Psk, Devname, SsidOf;
  }
}
