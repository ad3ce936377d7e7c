/**
 Edits that move the drift hash but no row: the exact condition for whole envelopes and for one
 WLAN in place, and the edits that meet it.
 */
module Residuals {
  import opened Options
  import opened Text
  import opened Wlans
  import opened Plan
  import opened Render
  import opened Visible
  import opened DriftHash

  /** Every device renders two envelopes alike. */
  ghost predicate RenderAlike(a: seq<Wlan>, b: seq<Wlan>) {
    forall f: Facts :: Rendered(f, a) == Rendered(f, b)
  }

  /** The hash moves with no row moving anywhere exactly when forms agree and canonical lists do not. */
  lemma SpuriousIff(a: seq<Wlan>, b: seq<Wlan>)
    ensures RenderAlike(a, b) && WlanListHash(a) != WlanListHash(b) <==> FormOf(a) == FormOf(b) && CanonList(a) != CanonList(b)
  {
    hide Rendered, FormOf, CanonList;
    EveryDeviceIff(a, b);
  }

  // ---- one WLAN in place ------------------------------------------------------------------------------

  function Instance(w: Wlan, band: string, das: bool): seq<View> {
    if OnBand(w, band) then [ViewOf(w, das)] else []
  }

  lemma {:induction false} ViewsConcat(a: seq<Wlan>, b: seq<Wlan>, band: string, das: bool)
    ensures ViewsOn(a + b, band, das) == ViewsOn(a, band, das) + ViewsOn(b, band, das)
  {
    hide ViewOf, OnBand;
    if b == [] {
      assert a + b == a;
    } else {
      var init, last := b[..|b| - 1], b[|b| - 1];
      ViewsConcat(a, init, band, das);
      assert (a + b)[..|a + b| - 1] == a + init && (a + b)[|a + b| - 1] == last;
    }
  }

  lemma ViewsAround(before: seq<Wlan>, w: Wlan, after: seq<Wlan>, band: string, das: bool)
    ensures ViewsOn(before + [w] + after, band, das) == ViewsOn(before, band, das) + Instance(w, band, das) + ViewsOn(after, band, das)
  {
    assert ViewsOn([w], band, das) == Instance(w, band, das) by { assert [w][..0] == []; }
    hide ViewsOn, Instance;
    ViewsConcat(before + [w], after, band, das);
    ViewsConcat(before, [w], band, das);
  }

  /** Shown on the same bands, and the same way where shown at all. */
  predicate SeenAlike(w: Wlan, v: Wlan, das: bool) {
    Instance(w, "ng", das) == Instance(v, "ng", das) && Instance(w, "na", das) == Instance(v, "na", das)
  }

  /** Replacing one WLAN by another a device shows the same way changes no row of it. */
  lemma UnseenEdit(f: Facts, before: seq<Wlan>, w: Wlan, v: Wlan, after: seq<Wlan>)
    requires SeenAlike(w, v, SupportsDas(f))
    ensures Rendered(f, before + [w] + after) == Rendered(f, before + [v] + after)
  {
    hide Rendered, ViewsOn, HasBit, Instance;
    var das := SupportsDas(f);
    ViewsAround(before, w, after, "ng", das);
    ViewsAround(before, v, after, "ng", das);
    ViewsAround(before, w, after, "na", das);
    ViewsAround(before, v, after, "na", das);
    TwoBands(f, before + [w] + after, before + [v] + after);
  }

  lemma CancelAround<T>(p: seq<T>, x: seq<T>, y: seq<T>, q: seq<T>)
    requires p + x + q == p + y + q
    ensures x == y
  {
    assert |x| == |y|;
    assert x == (p + x + q)[|p|..|p| + |x|] && y == (p + y + q)[|p|..|p| + |y|];
  }

  /** In any surroundings: no device tells the edit exactly when the two WLANs are seen alike. */
  lemma EditUnseenIff(before: seq<Wlan>, w: Wlan, v: Wlan, after: seq<Wlan>)
    ensures RenderAlike(before + [w] + after, before + [v] + after) <==> SeenAlike(w, v, true)
  {
    hide Rendered, ViewsOn, Instance;
    var a, b := before + [w] + after, before + [v] + after;
    EveryDeviceIff(a, b);
    forall band | band == "ng" || band == "na"
      ensures ViewsOn(a, band, true) == ViewsOn(b, band, true) <==> Instance(w, band, true) == Instance(v, band, true)
    {
      ViewsAround(before, w, after, band, true);
      ViewsAround(before, v, after, band, true);
      if ViewsOn(a, band, true) == ViewsOn(b, band, true) {
        CancelAround(ViewsOn(before, band, true), Instance(w, band, true), Instance(v, band, true), ViewsOn(after, band, true));
      }
    }
  }

  lemma EditHashIff(before: seq<Wlan>, w: Wlan, v: Wlan, after: seq<Wlan>)
    ensures WlanListHash(before + [w] + after) == WlanListHash(before + [v] + after) <==> CanonOf(w) == CanonOf(v)
  {
    hide CanonOf;
    var a, b := before + [w] + after, before + [v] + after;
    HashIsCanon(a, b);
    assert a[|before|] == w && b[|before|] == v;
    assert forall k :: 0 <= k < |a| && k != |before| ==> a[k] == b[k];
  }

  /** An edit of one WLAN that moves the hash and no row. */
  predicate MovesHashOnly(w: Wlan, v: Wlan) {
    SeenAlike(w, v, true) && CanonOf(w) != CanonOf(v)
  }

  /** In any surroundings, an edit of one WLAN mints a drift push for nothing exactly then. */
  lemma ResidualIff(before: seq<Wlan>, w: Wlan, v: Wlan, after: seq<Wlan>)
    ensures var a, b := before + [w] + after, before + [v] + after;
            RenderAlike(a, b) && WlanListHash(a) != WlanListHash(b) <==> MovesHashOnly(w, v)
  {
    hide SeenAlike, CanonOf, WlanListHash, RenderAlike;
    EditUnseenIff(before, w, v, after);
    EditHashIff(before, w, v, after);
  }

  // ---- the id and the names ----------------------------------------------------------------------------

  /** Persisting the id the device already runs. */
  lemma PinnedFallback(w: Wlan)
    requires w.id == ""
    ensures MovesHashOnly(w, w.(id := FallbackId(w)))
  {
    hide TextDigest.Hex24, SignedItoa, EapViewOf, Shown, WrapVid;
  }

  lemma Rename(w: Wlan, name: string)
    requires w.ssid != "" && w.id != "" && name != w.name
    ensures MovesHashOnly(w, w.(name := name))
  {
    hide TextDigest.Hex24, SignedItoa, EapViewOf, Shown, WrapVid;
  }

  /** Spelling the SSID out although the name gives it. */
  lemma SpelledSsid(w: Wlan)
    requires w.ssid == "" && w.name != ""
    ensures MovesHashOnly(w, w.(ssid := w.name))
  {
    hide TextDigest.Hex24, SignedItoa, EapViewOf, Shown, WrapVid;
  }

  // ---- switches, bands and tags --------------------------------------------------------------------------

  /** Any edit of a WLAN that is and stays disabled, if it is hashed at all. */
  lemma DisabledEdit(w: Wlan, v: Wlan)
    requires !w.enabled && !v.enabled && CanonOf(w) != CanonOf(v)
    ensures MovesHashOnly(w, v)
  {
    hide CanonOf, ViewOf;
  }

  lemma UnknownBand(w: Wlan, band: string)
    requires EffectiveBand(w) == "both" && band !in ["", "both", "2g", "5g"]
    ensures MovesHashOnly(w, w.(band := band))
  {
    hide TextDigest.Hex24, SignedItoa, EapViewOf, Shown, WrapVid;
  }

  lemma FoldedTag(w: Wlan, vlan: int)
    requires WrapVid(w.vlan) == WrapVid(vlan) && w.vlan != vlan && (w.id != "" || w.name != "" || w.ssid != "")
    ensures MovesHashOnly(w, w.(vlan := vlan))
  {
    hide TextDigest.Hex24, SignedItoa, EapViewOf, Shown;
  }

  // ---- security ----------------------------------------------------------------------------------------------

  lemma OpenPassphrase(w: Wlan, passphrase: string)
    requires w.security == "open" && passphrase != w.passphrase
    ensures MovesHashOnly(w, w.(passphrase := passphrase))
  {
    hide TextDigest.Hex24, SignedItoa, EapViewOf, Shown, WrapVid;
  }

  lemma DefaultPassphrase(w: Wlan)
    requires w.passphrase == ""
    ensures MovesHashOnly(w, w.(passphrase := FALLBACK_PSK))
  {
    hide TextDigest.Hex24, SignedItoa, EapViewOf, Shown, WrapVid;
  }

  lemma UnknownSecurity(w: Wlan, security: string)
    requires w.security == "wpa-p" && security !in ["open", "wpa-p", "wpa3-p", "wpa2-wpa3", "wpa-eap"]
    ensures MovesHashOnly(w, w.(security := security))
  {
    hide TextDigest.Hex24, SignedItoa, EapViewOf, Shown, WrapVid;
  }

  /** Any change of the profile outside wpa-eap, if it is hashed at all. */
  lemma InertProfile(w: Wlan, p: Profile)
    requires w.security != "wpa-eap" && CanonOf(w) != CanonOf(w.(profile := p))
    ensures MovesHashOnly(w, w.(profile := p))
  {
    hide CanonOf, TextDigest.Hex24, SignedItoa, Shown, WrapVid;
  }

  // ---- inside the RADIUS profile -------------------------------------------------------------------------

  function WithProfile(w: Wlan, p: Profile): Wlan {
    w.(profile := p)
  }

  lemma ProfileEdit(w: Wlan, p: Profile)
    requires w.security == "wpa-eap" && EapViewOf(w.profile, true) == EapViewOf(p, true) && CanonOf(w) != CanonOf(WithProfile(w, p))
    ensures MovesHashOnly(w, WithProfile(w, p))
  {
    hide CanonOf, EapViewOf, TextDigest.Hex24, SignedItoa, Shown, WrapVid;
  }

  predicate NoAddress(ss: seq<Server>) {
    forall i :: 0 <= i < |ss| ==> ss[i].ip == ""
  }

  /** A shared secret nobody is told. */
  lemma SecretWithoutServers(w: Wlan, secret: string)
    requires w.security == "wpa-eap" && NoAddress(w.profile.servers) && NoAddress(w.profile.acctServers) && secret != w.profile.secret
    ensures MovesHashOnly(w, WithProfile(w, w.profile.(secret := secret)))
  {
    var p := w.profile.(secret := secret);
    assert forall i :: 0 <= i < MAX_SLOTS ==> SlotViews(w.profile.servers, AUTH_PORT, w.profile.secret)[i] == NoSlot == SlotViews(p.servers, AUTH_PORT, p.secret)[i];
    assert forall i :: 0 <= i < MAX_SLOTS ==> SlotViews(w.profile.acctServers, ACCT_PORT, w.profile.secret)[i] == NoSlot == SlotViews(p.acctServers, ACCT_PORT, p.secret)[i];
    assert SlotViews(w.profile.servers, AUTH_PORT, w.profile.secret) == SlotViews(p.servers, AUTH_PORT, p.secret);
    hide SlotViews, DynamicVlan, EffectivePorts;
    ProfileEdit(w, p);
  }

  /** Accounting switched on with nobody to account to. */
  lemma IdleAccounting(w: Wlan)
    requires w.security == "wpa-eap" && !w.profile.accounting && NoAddress(w.profile.acctServers) && !w.profile.interim && !w.profile.das
    ensures MovesHashOnly(w, WithProfile(w, w.profile.(accounting := true)))
  {
    var p := w.profile.(accounting := true);
    assert SlotViews(p.acctServers, ACCT_PORT, p.secret) == NoSlots;
    hide SlotViews, DynamicVlan, EffectivePorts;
    ProfileEdit(w, p);
  }

  lemma UnknownVlanMode(w: Wlan, mode: string)
    requires w.security == "wpa-eap" && DynamicVlan(w.profile.vlanMode) == "0" && mode !in ["", "disabled", "optional", "required", w.profile.vlanMode]
    ensures MovesHashOnly(w, WithProfile(w, w.profile.(vlanMode := mode)))
  {
    hide SlotViews, EffectivePorts;
    ProfileEdit(w, w.profile.(vlanMode := mode));
  }

  /** The default VLAN mode spelled out in a profile that says nothing else. */
  lemma SpelledVlanMode(w: Wlan)
    requires w.security == "wpa-eap" && w.profile.servers == [] && w.profile.secret == "" && w.profile.vlanMode == ""
    ensures MovesHashOnly(w, WithProfile(w, w.profile.(vlanMode := "disabled")))
  {
    hide SlotViews, EffectivePorts;
    ProfileEdit(w, w.profile.(vlanMode := "disabled"));
  }

  /** A server the renderer has no slot for, or without an address at the end of the list. */
  lemma UnusedServer(w: Wlan, s: Server)
    requires w.security == "wpa-eap" && (|w.profile.servers| >= MAX_SLOTS || s.ip == "")
    ensures MovesHashOnly(w, WithProfile(w, w.profile.(servers := w.profile.servers + [s])))
  {
    var p := w.profile.(servers := w.profile.servers + [s]);
    assert SlotViews(p.servers, AUTH_PORT, p.secret) == SlotViews(w.profile.servers, AUTH_PORT, w.profile.secret);
    assert |EffectivePorts(p.servers, AUTH_PORT)| != |EffectivePorts(w.profile.servers, AUTH_PORT)|;
    hide SlotViews, EffectivePorts, DynamicVlan;
    ProfileEdit(w, p);
  }

  lemma PortWithoutAddress(w: Wlan, i: nat, port: int)
    requires w.security == "wpa-eap" && i < |w.profile.servers| && w.profile.servers[i].ip == ""
    requires EffectivePort(w.profile.servers[i], AUTH_PORT) != EffectivePort(Server("", port), AUTH_PORT)
    ensures MovesHashOnly(w, WithProfile(w, w.profile.(servers := w.profile.servers[i := Server("", port)])))
  {
    var p := w.profile.(servers := w.profile.servers[i := Server("", port)]);
    assert SlotViews(p.servers, AUTH_PORT, p.secret) == SlotViews(w.profile.servers, AUTH_PORT, w.profile.secret);
    assert EffectivePorts(p.servers, AUTH_PORT)[i] != EffectivePorts(w.profile.servers, AUTH_PORT)[i];
    hide SlotViews, EffectivePorts, DynamicVlan;
    ProfileEdit(w, p);
  }

  // ---- values the renderer drops ------------------------------------------------------------------------------

  // A value holding a line break is not written, so another such value in its place is not seen.

  lemma BrokenIsNotEmpty(v: string)
    requires !OneLine(v)
    ensures v != "" && Shown(v) == None
  {
  }

  lemma BrokenId(w: Wlan, id: string)
    requires !OneLine(id) && !OneLine(w.id) && id != w.id
    ensures MovesHashOnly(w, w.(id := id))
  {
    hide EapViewOf, WrapVid, OneLine, Shown;
    BrokenIsNotEmpty(id);
    BrokenIsNotEmpty(w.id);
  }

  lemma BrokenPassphrase(w: Wlan, passphrase: string)
    requires !OneLine(passphrase) && !OneLine(w.passphrase) && passphrase != w.passphrase
    ensures MovesHashOnly(w, w.(passphrase := passphrase))
  {
    hide TextDigest.Hex24, SignedItoa, EapViewOf, WrapVid, OneLine, Shown;
    BrokenIsNotEmpty(passphrase);
    BrokenIsNotEmpty(w.passphrase);
  }

  lemma BrokenSsid(w: Wlan, ssid: string)
    requires !OneLine(ssid) && !OneLine(w.ssid) && ssid != w.ssid && (w.id != "" || w.name != "")
    ensures MovesHashOnly(w, w.(ssid := ssid))
  {
    hide TextDigest.Hex24, EapViewOf, WrapVid, OneLine, Shown;
    BrokenIsNotEmpty(ssid);
    BrokenIsNotEmpty(w.ssid);
  }

  // ---- lists ------------------------------------------------------------------------------------------------------

  /** Leaving out the disabled WLANs. */
  function EnabledOnly(wls: seq<Wlan>): seq<Wlan> {
    if wls == [] then []
    else if wls[|wls| - 1].enabled then EnabledOnly(wls[..|wls| - 1]) + [wls[|wls| - 1]]
    else EnabledOnly(wls[..|wls| - 1])
  }

  lemma {:induction false} DisabledShowNothing(wls: seq<Wlan>, band: string, das: bool)
    ensures ViewsOn(EnabledOnly(wls), band, das) == ViewsOn(wls, band, das)
  {
    hide ViewOf;
    if wls != [] {
      var init, last := wls[..|wls| - 1], wls[|wls| - 1];
      DisabledShowNothing(init, band, das);
      if last.enabled { assert (EnabledOnly(init) + [last])[..|EnabledOnly(init)|] == EnabledOnly(init); }
    }
  }

  lemma {:induction false} EnabledOnlyLength(wls: seq<Wlan>)
    ensures |EnabledOnly(wls)| <= |wls|
    ensures |EnabledOnly(wls)| == |wls| <==> forall i :: 0 <= i < |wls| ==> wls[i].enabled
  {
    if wls != [] { EnabledOnlyLength(wls[..|wls| - 1]); }
  }

  /** Dropping the disabled WLANs changes no row anywhere, and moves the hash as soon as there was one. */
  lemma DisabledAreHashed(wls: seq<Wlan>)
    ensures RenderAlike(EnabledOnly(wls), wls)
    ensures (exists i :: 0 <= i < |wls| && !wls[i].enabled) ==> WlanListHash(EnabledOnly(wls)) != WlanListHash(wls)
  {
    hide Rendered, ViewsOn;
    DisabledShowNothing(wls, "ng", true);
    DisabledShowNothing(wls, "na", true);
    EveryDeviceIff(EnabledOnly(wls), wls);
    EnabledOnlyLength(wls);
    HashIsCanon(EnabledOnly(wls), wls);
  }

  lemma SwapUnseen(before: seq<Wlan>, w: Wlan, v: Wlan, after: seq<Wlan>, band: string)
    requires !(OnBand(w, band) && OnBand(v, band))
    ensures ViewsOn(before + [w] + [v] + after, band, true) == ViewsOn(before + [v] + [w] + after, band, true)
  {
    TwoInPlace(before, w, v, after, band);
    TwoInPlace(before, v, w, after, band);
    assert Instance(w, band, true) == [] || Instance(v, band, true) == [];
    hide ViewsOn, Instance;
  }

  /** Swapping a WLAN of one band with its neighbour of the other. */
  lemma SwappedBands(before: seq<Wlan>, w: Wlan, v: Wlan, after: seq<Wlan>)
    requires EffectiveBand(w) == "2g" && EffectiveBand(v) == "5g"
    ensures var a, b := before + [w] + [v] + after, before + [v] + [w] + after;
            RenderAlike(a, b) && WlanListHash(a) != WlanListHash(b)
  {
    hide Rendered, ViewsOn;
    var a, b := before + [w] + [v] + after, before + [v] + [w] + after;
    SwapUnseen(before, w, v, after, "ng");
    SwapUnseen(before, w, v, after, "na");
    EveryDeviceIff(a, b);
    HashIsCanon(a, b);
    assert a[|before|] == w && b[|before|] == v && CanonOf(w) != CanonOf(v);
  }

  lemma TwoInPlace(before: seq<Wlan>, w: Wlan, v: Wlan, after: seq<Wlan>, band: string)
    ensures ViewsOn(before + [w] + [v] + after, band, true) ==
            ViewsOn(before, band, true) + (Instance(w, band, true) + Instance(v, band, true)) + ViewsOn(after, band, true)
  {
    hide ViewsOn, Instance;
    ViewsAround(before + [w], v, after, band, true);
    assert before + [w] + [] == before + [w];
    ViewsAround(before, w, [], band, true);
    assert ViewsOn([], band, true) == [] by { NoViews(band); }
  }

  lemma NoViews(band: string)
    ensures ViewsOn([], band, true) == []
  {
  }

  // ---- on one device ---------------------------------------------------------------------------------------------

  lemma UnplacedOnBand(before: seq<Wlan>, w: Wlan, after: seq<Wlan>, band: string, das: bool)
    requires !OnBand(w, band)
    ensures ViewsOn(before + [w] + after, band, das) == ViewsOn(before + after, band, das)
  {
    hide ViewsOn, OnBand;
    ViewsAround(before, w, after, band, das);
    ViewsConcat(before, after, band, das);
    assert ViewsOn(before, band, das) + [] == ViewsOn(before, band, das);
  }

  /** A WLAN none of a device's radios takes changes no row of that device. */
  lemma Unplaced(f: Facts, before: seq<Wlan>, w: Wlan, after: seq<Wlan>)
    requires forall n :: 0 <= n < |f.radios| && Provisionable(f.radios[n]) ==> !OnBand(w, f.radios[n].band)
    ensures Rendered(f, before + [w] + after) == Rendered(f, before + after)
    ensures WlanListHash(before + [w] + after) != WlanListHash(before + after)
  {
    hide Rendered, ViewsOn, HasBit, OnBand, Provisionable, WlanListHash;
    var a, b, das := before + [w] + after, before + after, SupportsDas(f);
    HashIsCanon(a, b);
    forall n | 0 <= n < |f.radios| && Provisionable(f.radios[n]) ensures ViewsOn(a, f.radios[n].band, das) == ViewsOn(b, f.radios[n].band, das) {
      UnplacedOnBand(before, w, after, f.radios[n].band, das);
    }
    DeviceIff(f, a, b);
  }

  lemma DasUnseen(w: Wlan)
    ensures SeenAlike(w, WithProfile(w, w.profile.(das := !w.profile.das)), false)
  {
    hide TextDigest.Hex24, SignedItoa, SlotViews, DynamicVlan, Shown, WrapVid;
  }

  /** The das flag on a device without the capability; without accounting it is not even hashed. */
  lemma InertDas(f: Facts, before: seq<Wlan>, w: Wlan, after: seq<Wlan>)
    requires !SupportsDas(f)
    ensures var v := WithProfile(w, w.profile.(das := !w.profile.das)); var a, b := before + [w] + after, before + [v] + after;
            Rendered(f, a) == Rendered(f, b) && (WlanListHash(a) != WlanListHash(b) <==> w.profile.accounting)
  {
    var v := WithProfile(w, w.profile.(das := !w.profile.das));
    EditHashIff(before, w, v, after);
    DasUnseen(w);
    hide Rendered, HasBit, EffectivePorts, WlanListHash, SeenAlike;
    UnseenEdit(f, before, w, v, after);
  }
}
