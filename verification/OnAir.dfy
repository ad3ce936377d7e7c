/**
 What a rendered config puts on the air, read off its rows: each vap's bridge, name, SSID, security
 and RADIUS servers, and each radio's vaps and tuning.
 */
module OnAir {
  import opened Options
  import opened Text
  import opened Wlans
  import opened Plan
  import opened Render
  import opened Readback
  import opened Wiring

  // ---- a vap's own rows ------------------------------------------------------------------------------------------

  /** A writable row of a vap's aaa block is in the config, under the vap's number. */
  lemma AaaSays(f: Facts, vaps: seq<VapPlan>, i: nat, key: string, value: string)
    requires |f.radios| > 0 && i < |vaps| && OneLine(value) && Set(key, value) in AaaSettings(vaps[i], f, i + 1, DadDone(vaps, i, f))
    ensures Says(WirelessCfg(f, vaps), AaaPrefix(i + 1) + key, value)
  {
    hide AaaSettings, WirelessSettings, WirelessCfg, OneLine, DadDone, AaaPrefix, WirelessPrefix, Says, Written, VapLines, RadioLines, HeaderSettings, DhcpcSettings, Section;
    WrittenSays(AaaPrefix(i + 1), AaaSettings(vaps[i], f, i + 1, DadDone(vaps, i, f)), key, value);
    BlockSays(f, vaps, i, AaaPrefix(i + 1) + key, value);
  }

  lemma WirelessSays(f: Facts, vaps: seq<VapPlan>, i: nat, key: string, value: string)
    requires |f.radios| > 0 && i < |vaps| && OneLine(value) && Set(key, value) in WirelessSettings(vaps[i], f)
    ensures Says(WirelessCfg(f, vaps), WirelessPrefix(i + 1) + key, value)
  {
    hide AaaSettings, WirelessSettings, WirelessCfg, OneLine, DadDone, AaaPrefix, WirelessPrefix, Says, Written, VapLines, RadioLines, HeaderSettings, DhcpcSettings, Section;
    WrittenSays(WirelessPrefix(i + 1), WirelessSettings(vaps[i], f), key, value);
    BlockSays(f, vaps, i, WirelessPrefix(i + 1) + key, value);
  }

  /** What either half of a vap's block says, the config says. */
  lemma BlockSays(f: Facts, vaps: seq<VapPlan>, i: nat, key: string, value: string)
    requires |f.radios| > 0 && i < |vaps|
    requires Says(Written(AaaPrefix(i + 1), AaaSettings(vaps[i], f, i + 1, DadDone(vaps, i, f))), key, value)
             || Says(Written(WirelessPrefix(i + 1), WirelessSettings(vaps[i], f)), key, value)
    ensures Says(WirelessCfg(f, vaps), key, value)
  {
    hide AaaSettings, WirelessSettings, WirelessCfg, DadDone, AaaPrefix, WirelessPrefix, Says, Written, VapLines, RadioLines, HeaderSettings, DhcpcSettings, Section;
    SaysConcat(Written(AaaPrefix(i + 1), AaaSettings(vaps[i], f, i + 1, DadDone(vaps, i, f))), Written(WirelessPrefix(i + 1), WirelessSettings(vaps[i], f)), key, value);
    BlockInVaps(f, vaps, |vaps|, i, key, value);
    WholeSays(f, vaps, key, value);
  }

  lemma {:induction false} BlockInVaps(f: Facts, vaps: seq<VapPlan>, k: nat, i: nat, key: string, value: string)
    requires i < k <= |vaps| && Says(VapBlock(f, vaps[i], i + 1, DadDone(vaps, i, f)), key, value)
    ensures Says(VapLines(f, vaps, k), key, value)
  {
    hide VapBlock, DadDone;
    if i < k - 1 { BlockInVaps(f, vaps, k - 1, i, key, value); }
  }

  /** The config carries the aaa row of vap number n under this key. */
  ghost predicate Aaa(lines: seq<Line>, n: nat, key: string, value: string) {
    Shows(lines, "aaa." + Itoa(n) + "." + key, value)
  }

  ghost predicate Wireless(lines: seq<Line>, n: nat, key: string, value: string) {
    Shows(lines, "wireless." + Itoa(n) + "." + key, value)
  }

  lemma AaaShown(f: Facts, vaps: seq<VapPlan>, i: nat, key: string, value: string)
    requires |f.radios| > 0 && i < |vaps| && Set(key, value) in AaaSettings(vaps[i], f, i + 1, DadDone(vaps, i, f))
    ensures Aaa(WirelessCfg(f, vaps), i + 1, key, value)
  {
    hide AaaSettings, WirelessCfg, OneLine, DadDone, Says, Itoa;
    if OneLine(value) { AaaSays(f, vaps, i, key, value); }
  }

  lemma WirelessShown(f: Facts, vaps: seq<VapPlan>, i: nat, key: string, value: string)
    requires |f.radios| > 0 && i < |vaps| && Set(key, value) in WirelessSettings(vaps[i], f)
    ensures Wireless(WirelessCfg(f, vaps), i + 1, key, value)
  {
    hide WirelessSettings, WirelessCfg, OneLine, Says, Itoa;
    if OneLine(value) { WirelessSays(f, vaps, i, key, value); }
  }

  lemma HeadHas(v: VapPlan, f: Facts, n: nat, d: bool)
    ensures Set("br.devname", NameFor(v.vid)) in AaaSettings(v, f, n, d) && Set("devname", Devname(v.athN)) in AaaSettings(v, f, n, d)
    ensures Set("ssid", if v.wlan.ssid != "" then v.wlan.ssid else v.wlan.name) in AaaSettings(v, f, n, d)
    ensures Set("id", v.id) in AaaSettings(v, f, n, d)
  {
    hide SecuritySettings, Devname, SignedItoa, WpaSettings, Wpa3Settings, KeySettings, EapSettings, OpenSettings;
    assert HeadSettings(v)[5] == Set("br.devname", AaaBridge(v.vid)) && HeadSettings(v)[6] == Set("devname", Devname(v.athN));
    assert HeadSettings(v)[8] == Set("ssid", SsidOf(v.wlan));
    IdHas(v, f, n, d);
  }

  lemma IdHas(v: VapPlan, f: Facts, n: nat, d: bool)
    ensures Set("id", v.id) in SecuritySettings(v, f, n, d)
  {
    hide Wpa3Settings, KeySettings, EapSettings, Cipher;
    if v.wlan.security == "open" {
      assert OpenSettings(v, f)[1] == Set("id", v.id);
    } else {
      assert WpaSettings(v)[11] == Set("id", v.id);
    }
  }

  /** Every vap's rows carry its bridge, its devname, its SSID, its WLAN id and its radio. */
  lemma VapOnAir(f: Facts, vaps: seq<VapPlan>, i: nat)
    requires |f.radios| > 0 && i < |vaps|
    ensures var lines, v, n := WirelessCfg(f, vaps), vaps[i], i + 1;
            && Aaa(lines, n, "br.devname", NameFor(v.vid)) && Aaa(lines, n, "devname", Devname(v.athN))
            && Aaa(lines, n, "ssid", if v.wlan.ssid != "" then v.wlan.ssid else v.wlan.name) && Aaa(lines, n, "id", v.id)
            && Wireless(lines, n, "devname", Devname(v.athN)) && Wireless(lines, n, "parent", v.phyname)
            && Wireless(lines, n, "ssid", if v.wlan.ssid != "" then v.wlan.ssid else v.wlan.name) && Wireless(lines, n, "id", v.id)
            && Wireless(lines, n, "authmode", if v.wlan.security == "open" then "0" else "1")
  {
    hide AaaSettings, WirelessSettings, WirelessCfg, DadDone, Aaa, Wireless, NameFor, Devname, SsidOf;
    var v, ssid := vaps[i], if vaps[i].wlan.ssid != "" then vaps[i].wlan.ssid else vaps[i].wlan.name;
    HeadHas(v, f, i + 1, DadDone(vaps, i, f));
    WirelessHas(v, f);
    AaaShown(f, vaps, i, "br.devname", NameFor(v.vid));
    AaaShown(f, vaps, i, "devname", Devname(v.athN));
    AaaShown(f, vaps, i, "ssid", ssid);
    AaaShown(f, vaps, i, "id", v.id);
    WirelessShown(f, vaps, i, "devname", Devname(v.athN));
    WirelessShown(f, vaps, i, "parent", v.phyname);
    WirelessShown(f, vaps, i, "ssid", ssid);
    WirelessShown(f, vaps, i, "id", v.id);
    WirelessShown(f, vaps, i, "authmode", if v.wlan.security == "open" then "0" else "1");
  }

  lemma WirelessHas(v: VapPlan, f: Facts)
    ensures Set("devname", Devname(v.athN)) in WirelessSettings(v, f) && Set("id", v.id) in WirelessSettings(v, f)
    ensures Set("authmode", if v.wlan.security == "open" then "0" else "1") in WirelessSettings(v, f)
    ensures Set("ssid", if v.wlan.ssid != "" then v.wlan.ssid else v.wlan.name) in WirelessSettings(v, f)
    ensures Set("parent", v.phyname) in WirelessSettings(v, f)
  {
    hide Devname;
    assert WirelessHead(v)[1] == Set("devname", Devname(v.athN)) && WirelessHead(v)[2] == Set("id", v.id);
    assert WirelessHead(v)[4].key == "authmode" && WirelessHead(v)[9] == Set("ssid", SsidOf(v.wlan));
    assert WirelessRest(v.phyname, f)[5] == Set("parent", v.phyname);
  }

  /** The passphrase a vap of this WLAN asks for. */
  function Asks(w: Wlan): string {
    if w.passphrase == "" then "letmeinnow" else w.passphrase
  }

  lemma KeyHas(v: VapPlan, f: Facts, n: nat, d: bool, row: Setting)
    requires v.wlan.security != "open" && (row in WpaSettings(v) || row in Wpa3Settings(v.wlan) || row in KeySettings(v.wlan) || row in EapSettings(v.wlan, f, n, d))
    ensures row in AaaSettings(v, f, n, d)
  {
    hide WpaSettings, Wpa3Settings, KeySettings, EapSettings, HeadSettings, Cipher, Tail;
  }

  /** How a secured vap is secured: WPA version, key management, passphrase, and the SAE rows of WPA3. */
  lemma VapSecured(f: Facts, vaps: seq<VapPlan>, i: nat)
    requires |f.radios| > 0 && i < |vaps| && vaps[i].wlan.security != "open"
    ensures var lines, w, n := WirelessCfg(f, vaps), vaps[i].wlan, i + 1;
            var wpa3 := w.security == "wpa3-p" || w.security == "wpa2-wpa3";
            && Aaa(lines, n, "wpa", if wpa3 then "2" else "3")
            && Aaa(lines, n, "wpa.key.1.mgmt", if wpa3 then "SAE" else if w.security == "wpa-eap" then "WPA-EAP" else "WPA-PSK")
            && Aaa(lines, n, "wpa.psk", Asks(w))
            && (wpa3 ==> Aaa(lines, n, "wpa3.support", "enabled") && Aaa(lines, n, "wpa3.transition", if w.security == "wpa2-wpa3" then "enabled" else "disabled"))
            && (w.security == "wpa3-p" ==> Aaa(lines, n, "sae.psk.1.psk", Asks(w)))
  {
    hide AaaSettings, WirelessCfg, DadDone, Aaa, EapSettings;
    var v, w := vaps[i], vaps[i].wlan;
    var d := DadDone(vaps, i, f);
    assert WpaSettings(v)[2] in WpaSettings(v) && KeySettings(w)[0] in KeySettings(w) && KeySettings(w)[1] in KeySettings(w);
    SecuredRow(f, vaps, i, WpaSettings(v)[2]);
    SecuredRow(f, vaps, i, KeySettings(w)[0]);
    SecuredRow(f, vaps, i, KeySettings(w)[1]);
    if IsWpa3(w) {
      assert Wpa3Settings(w)[0] in Wpa3Settings(w) && Wpa3Settings(w)[1] in Wpa3Settings(w) && Wpa3Settings(w)[3] in Wpa3Settings(w);
      SecuredRow(f, vaps, i, Wpa3Settings(w)[0]);
      SecuredRow(f, vaps, i, Wpa3Settings(w)[1]);
      SecuredRow(f, vaps, i, Wpa3Settings(w)[3]);
    }
  }

  lemma SecuredRow(f: Facts, vaps: seq<VapPlan>, i: nat, row: Setting)
    requires |f.radios| > 0 && i < |vaps| && vaps[i].wlan.security != "open"
    requires row in WpaSettings(vaps[i]) || row in Wpa3Settings(vaps[i].wlan) || row in KeySettings(vaps[i].wlan)
             || row in EapSettings(vaps[i].wlan, f, i + 1, DadDone(vaps, i, f))
    ensures Aaa(WirelessCfg(f, vaps), i + 1, row.key, row.value)
  {
    hide AaaSettings, WirelessCfg, DadDone, Aaa, EapSettings, WpaSettings, Wpa3Settings, KeySettings;
    KeyHas(vaps[i], f, i + 1, DadDone(vaps, i, f), row);
    AaaShown(f, vaps, i, row.key, row.value);
  }

  /** A RADIUS server's rows in the slot of its array position. */
  ghost predicate ServerShown(lines: seq<Line>, n: nat, kind: string, slot: nat, s: Server, usual: string, secret: string) {
    var at := "radius." + kind + "." + Itoa(slot) + ".";
    && Aaa(lines, n, at + "ip", s.ip)
    && Aaa(lines, n, at + "port", if s.port == 0 then usual else SignedItoa(s.port))
    && Aaa(lines, n, at + "secret", secret)
  }

  lemma {:induction false} AuthHas(p: Profile, k: nat, i: nat, row: Setting)
    requires i < k && row in ServerSettings("auth", SlotAt(p.servers, i), i, "1812", p.secret)
    ensures row in AuthSettings(p, k)
  {
    hide ServerSettings, SlotAt;
    if i < k - 1 { AuthHas(p, k - 1, i, row); }
  }

  lemma {:induction false} AcctHas(p: Profile, k: nat, das: bool, i: nat, row: Setting)
    requires i < k
    requires row in ServerSettings("acct", SlotAt(p.acctServers, i), i, "1813", p.secret) || (das && row in DasClientSettings(p, i))
    ensures row in AcctSettings(p, k, das)
  {
    hide ServerSettings, SlotAt, DasClientSettings;
    if i < k - 1 { AcctHas(p, k - 1, das, i, row); }
  }

  lemma EapHas(w: Wlan, f: Facts, n: nat, d: bool, row: Setting)
    requires w.security == "wpa-eap"
    requires row in AuthSettings(w.profile, MAX_SLOTS) || (w.profile.accounting && row in AcctSettings(w.profile, MAX_SLOTS, DasGate(w, f)))
             || row == Set("dynamic_vlan", DynamicVlan(w.profile.vlanMode))
    ensures row in EapSettings(w, f, n, d)
  {
    hide AuthSettings, AcctSettings, DasSettings, DasGate, DynamicVlan;
    AcctPart(w, f, n, d, row);
  }

  lemma AcctPart(w: Wlan, f: Facts, n: nat, d: bool, row: Setting)
    ensures w.profile.accounting && row in AcctSettings(w.profile, MAX_SLOTS, DasGate(w, f)) ==> row in AccountingSettings(w, f, n, d)
  {
    hide AcctSettings, DasSettings, DasGate;
  }

  /** Each of the first four authentication servers with an address is in the slot of its position. */
  lemma VapAsksServer(f: Facts, vaps: seq<VapPlan>, i: nat, k: nat)
    requires |f.radios| > 0 && i < |vaps| && vaps[i].wlan.security == "wpa-eap"
    requires k < 4 && k < |vaps[i].wlan.profile.servers| && vaps[i].wlan.profile.servers[k].ip != ""
    ensures var p := vaps[i].wlan.profile; ServerShown(WirelessCfg(f, vaps), i + 1, "auth", k + 1, p.servers[k], "1812", p.secret)
  {
    hide AaaSettings, WirelessCfg, DadDone, Aaa, EapSettings, WpaSettings, Wpa3Settings, KeySettings, AuthSettings, Itoa, SignedItoa;
    var p := vaps[i].wlan.profile;
    var rows := ServerSettings("auth", SlotAt(p.servers, k), k, "1812", p.secret);
    forall row | row in rows ensures Aaa(WirelessCfg(f, vaps), i + 1, row.key, row.value) {
      AuthHas(p, MAX_SLOTS, k, row);
      EapHas(vaps[i].wlan, f, i + 1, DadDone(vaps, i, f), row);
      SecuredRow(f, vaps, i, row);
    }
    assert rows[0] in rows && rows[1] in rows && rows[2] in rows;
  }

  /** And with accounting on, so is each accounting server. */
  lemma VapReportsTo(f: Facts, vaps: seq<VapPlan>, i: nat, k: nat)
    requires |f.radios| > 0 && i < |vaps| && vaps[i].wlan.security == "wpa-eap" && vaps[i].wlan.profile.accounting
    requires k < 4 && k < |vaps[i].wlan.profile.acctServers| && vaps[i].wlan.profile.acctServers[k].ip != ""
    ensures var p := vaps[i].wlan.profile; ServerShown(WirelessCfg(f, vaps), i + 1, "acct", k + 1, p.acctServers[k], "1813", p.secret)
  {
    hide AaaSettings, WirelessCfg, DadDone, Aaa, EapSettings, WpaSettings, Wpa3Settings, KeySettings, AcctSettings, DasGate, Itoa, SignedItoa;
    var w, p := vaps[i].wlan, vaps[i].wlan.profile;
    var rows := ServerSettings("acct", SlotAt(p.acctServers, k), k, "1813", p.secret);
    forall row | row in rows ensures Aaa(WirelessCfg(f, vaps), i + 1, row.key, row.value) {
      AcctHas(p, MAX_SLOTS, DasGate(w, f), k, row);
      EapHas(w, f, i + 1, DadDone(vaps, i, f), row);
      SecuredRow(f, vaps, i, row);
    }
    assert rows[0] in rows && rows[1] in rows && rows[2] in rows;
  }

  /** What a wpa-eap vap does with the VLAN the server hands back. */
  lemma VapTakesVlan(f: Facts, vaps: seq<VapPlan>, i: nat)
    requires |f.radios| > 0 && i < |vaps| && vaps[i].wlan.security == "wpa-eap"
    ensures var mode := vaps[i].wlan.profile.vlanMode;
            Aaa(WirelessCfg(f, vaps), i + 1, "dynamic_vlan", if mode == "optional" then "1" else if mode == "required" then "2" else "0")
  {
    hide AaaSettings, WirelessCfg, DadDone, Aaa, EapSettings, WpaSettings, Wpa3Settings, KeySettings, AuthSettings, AcctSettings, DasGate;
    var w := vaps[i].wlan;
    var row := Set("dynamic_vlan", DynamicVlan(w.profile.vlanMode));
    EapHas(w, f, i + 1, DadDone(vaps, i, f), row);
    SecuredRow(f, vaps, i, row);
  }

  /** A device that can, and a profile that wants it, listen for dynamic authorization on a port of the vap's own. */
  lemma VapHearsDas(f: Facts, vaps: seq<VapPlan>, i: nat)
    requires |f.radios| > 0 && i < |vaps| && vaps[i].wlan.security == "wpa-eap"
    requires vaps[i].wlan.profile.accounting && vaps[i].wlan.profile.das && f.fwCaps.Some? && f.fwCaps.value / 0x100000 % 2 == 1
    ensures Aaa(WirelessCfg(f, vaps), i + 1, "radius.das.status", "enabled") && Aaa(WirelessCfg(f, vaps), i + 1, "radius.das.port", Itoa(3800 + i + 1))
  {
    hide AaaSettings, WirelessCfg, DadDone, Aaa, EapSettings, WpaSettings, Wpa3Settings, KeySettings, Itoa;
    var d := DadDone(vaps, i, f);
    var status, port := Set("radius.das.status", "enabled"), Set("radius.das.port", Itoa(3800 + (i + 1)));
    DasHas(vaps[i].wlan, f, i + 1, d);
    SecuredRow(f, vaps, i, status);
    SecuredRow(f, vaps, i, port);
  }

  lemma DasHas(w: Wlan, f: Facts, n: nat, d: bool)
    requires DasGate(w, f)
    ensures Set("radius.das.status", "enabled") in EapSettings(w, f, n, d) && Set("radius.das.port", Itoa(3800 + n)) in EapSettings(w, f, n, d)
  {
    hide AuthSettings, AcctSettings, DynamicVlan, Itoa;
    var rows := DasSettings(n, d);
    assert rows[|rows| - 3] == Set("radius.das.status", "enabled") && rows[|rows| - 2] == Set("radius.das.port", Itoa(3800 + n));
    InAccounting(w, f, n, d, rows[|rows| - 3]);
    InAccounting(w, f, n, d, rows[|rows| - 2]);
  }

  lemma InAccounting(w: Wlan, f: Facts, n: nat, d: bool, row: Setting)
    requires DasGate(w, f) && row in DasSettings(n, d)
    ensures row in AccountingSettings(w, f, n, d)
  {
    hide AcctSettings, DasSettings;
  }

  /** Management frame protection of any vap: required by WPA3 alone, offered in transition, else off. */
  lemma VapProtected(f: Facts, vaps: seq<VapPlan>, i: nat)
    requires |f.radios| > 0 && i < |vaps|
    ensures var lines, mode, n := WirelessCfg(f, vaps), vaps[i].wlan.security, i + 1;
            && Aaa(lines, n, "pmf.status", if mode == "wpa3-p" || mode == "wpa2-wpa3" then "enabled" else "disabled")
            && Aaa(lines, n, "pmf.mode", if mode == "wpa3-p" then "2" else if mode == "wpa2-wpa3" then "1" else "0")
  {
    hide AaaSettings, WirelessCfg, DadDone, Aaa;
    var v, d := vaps[i], DadDone(vaps, i, f);
    PmfHas(v, f, i + 1, d);
    AaaShown(f, vaps, i, "pmf.status", if IsWpa3(v.wlan) then "enabled" else "disabled");
    AaaShown(f, vaps, i, "pmf.mode", if !IsWpa3(v.wlan) then "0" else if v.wlan.security == "wpa2-wpa3" then "1" else "2");
  }

  lemma PmfHas(v: VapPlan, f: Facts, n: nat, d: bool)
    ensures Set("pmf.status", if IsWpa3(v.wlan) then "enabled" else "disabled") in AaaSettings(v, f, n, d)
    ensures Set("pmf.mode", if !IsWpa3(v.wlan) then "0" else if v.wlan.security == "wpa2-wpa3" then "1" else "2") in AaaSettings(v, f, n, d)
  {
    hide SecuritySettings, IsWpa3, SsidOf, AaaBridge, Devname;
    assert HeadSettings(v)[0] == Set("pmf.status", if IsWpa3(v.wlan) then "enabled" else "disabled");
    assert HeadSettings(v)[1] == Set("pmf.mode", if !IsWpa3(v.wlan) then "0" else if v.wlan.security == "wpa2-wpa3" then "1" else "2");
  }

  /** An open vap is started by the device's own hostapd exactly when the device reports it can. */
  lemma VapOpen(f: Facts, vaps: seq<VapPlan>, i: nat)
    requires |f.radios| > 0 && i < |vaps| && vaps[i].wlan.security == "open"
    ensures Aaa(WirelessCfg(f, vaps), i + 1, "status", if f.wifiCaps.Some? && f.wifiCaps.value / 0x2000 % 2 == 1 then "enabled" else "disabled")
  {
    hide AaaSettings, WirelessCfg, DadDone, Aaa;
    OpenHas(vaps[i], f, i + 1, DadDone(vaps, i, f));
    AaaShown(f, vaps, i, "status", if HasBit(f.wifiCaps, 0x2000) then "enabled" else "disabled");
  }

  lemma OpenHas(v: VapPlan, f: Facts, n: nat, d: bool)
    requires v.wlan.security == "open"
    ensures Set("status", if HasBit(f.wifiCaps, 0x2000) then "enabled" else "disabled") in AaaSettings(v, f, n, d)
  {
    hide HeadSettings, Tail, HasBit;
    assert OpenSettings(v, f)[0] == Set("status", if HasBit(f.wifiCaps, 0x2000) then "enabled" else "disabled");
  }

  /** With interim updates on, accounting is repeated every hour. */
  lemma VapRepeatsAccounting(f: Facts, vaps: seq<VapPlan>, i: nat)
    requires |f.radios| > 0 && i < |vaps| && vaps[i].wlan.security == "wpa-eap" && vaps[i].wlan.profile.accounting && vaps[i].wlan.profile.interim
    ensures Aaa(WirelessCfg(f, vaps), i + 1, "interim_update.status", "enabled") && Aaa(WirelessCfg(f, vaps), i + 1, "interim_update.interval", "3600")
  {
    hide AaaSettings, WirelessCfg, DadDone, Aaa, EapSettings, WpaSettings, Wpa3Settings, KeySettings;
    InterimHas(vaps[i].wlan, f, i + 1, DadDone(vaps, i, f));
    SecuredRow(f, vaps, i, Set("interim_update.status", "enabled"));
    SecuredRow(f, vaps, i, Set("interim_update.interval", "3600"));
  }

  lemma InterimHas(w: Wlan, f: Facts, n: nat, d: bool)
    requires w.security == "wpa-eap" && w.profile.accounting && w.profile.interim
    ensures Set("interim_update.status", "enabled") in EapSettings(w, f, n, d) && Set("interim_update.interval", "3600") in EapSettings(w, f, n, d)
  {
    hide AuthSettings, AcctSettings, DasSettings, DasGate, DynamicVlan;
    InterimPart(w, f, n, d);
    hide AccountingSettings;
  }

  lemma InterimPart(w: Wlan, f: Facts, n: nat, d: bool)
    requires w.profile.accounting && w.profile.interim
    ensures Set("interim_update.status", "enabled") in AccountingSettings(w, f, n, d) && Set("interim_update.interval", "3600") in AccountingSettings(w, f, n, d)
  {
    hide AcctSettings, DasSettings, DasGate;
    var rows := [Set("interim_update.status", "enabled"), Set("interim_update.interval", "3600")];
    assert rows[0] in rows && rows[1] in rows;
  }

  /** A vap that listens takes orders from every addressed accounting server, its secret being the profile's. */
  lemma VapObeys(f: Facts, vaps: seq<VapPlan>, i: nat, k: nat)
    requires |f.radios| > 0 && i < |vaps| && vaps[i].wlan.security == "wpa-eap" && vaps[i].wlan.profile.accounting
    requires vaps[i].wlan.profile.das && f.fwCaps.Some? && f.fwCaps.value / 0x100000 % 2 == 1
    requires k < 4 && k < |vaps[i].wlan.profile.acctServers| && vaps[i].wlan.profile.acctServers[k].ip != ""
    ensures var p, at := vaps[i].wlan.profile, "radius.dad.client." + Itoa(k + 1);
            && Aaa(WirelessCfg(f, vaps), i + 1, at + ".cidr", p.acctServers[k].ip + "/32") && Aaa(WirelessCfg(f, vaps), i + 1, at + ".secret", p.secret)
            && ((forall m :: 0 <= m < k ==> p.acctServers[m].ip == "") ==> Aaa(WirelessCfg(f, vaps), i + 1, "radius.das.client", p.acctServers[k].ip))
  {
    hide AaaSettings, WirelessCfg, DadDone, Aaa, EapSettings, WpaSettings, Wpa3Settings, KeySettings, AcctSettings, Itoa;
    var w, p := vaps[i].wlan, vaps[i].wlan.profile;
    var rows := DasClientSettings(p, k);
    forall row | row in rows ensures Aaa(WirelessCfg(f, vaps), i + 1, row.key, row.value) {
      AcctHas(p, MAX_SLOTS, true, k, row);
      EapHas(w, f, i + 1, DadDone(vaps, i, f), row);
      SecuredRow(f, vaps, i, row);
    }
    assert rows[|rows| - 2] in rows && rows[|rows| - 1] in rows && rows[0] in rows;
  }

  // ---- radios -----------------------------------------------------------------------------------------------

  /** How many vaps before i are on the same radio. */
  function Earlier(vaps: seq<VapPlan>, i: nat): nat
    requires i < |vaps|
  {
    |set m | 0 <= m < i && vaps[m].radioN == vaps[i].radioN|
  }

  lemma {:induction false} OnRadioCounts(vaps: seq<VapPlan>, n: nat, k: nat)
    requires k <= |vaps|
    ensures OnRadio(vaps, n, k) == |set m | 0 <= m < k && vaps[m].radioN == n|
  {
    var here := set m | 0 <= m < k && vaps[m].radioN == n;
    if k == 0 {
      assert here == {};
    } else {
      OnRadioCounts(vaps, n, k - 1);
      var before := set m | 0 <= m < k - 1 && vaps[m].radioN == n;
      if vaps[k - 1].radioN == n {
        assert here == before + {k - 1};
      } else {
        assert here == before;
      }
    }
  }

  lemma {:induction false} CompanionHas(vaps: seq<VapPlan>, n: nat, k: nat, i: nat)
    requires i < k <= |vaps| && vaps[i].radioN == n
    ensures var at := if OnRadio(vaps, n, i) > 0 then "virtual." + Itoa(OnRadio(vaps, n, i)) + "." else "";
            Set(at + "devname", Devname(vaps[i].athN)) in CompanionSettings(vaps, n, k) && Set(at + "status", "enabled") in CompanionSettings(vaps, n, k)
  {
    hide OnRadio, Itoa, Devname;
    if i < k - 1 { CompanionHas(vaps, n, k - 1, i); }
  }

  lemma {:induction false} RadioRowsIn(f: Facts, vaps: seq<VapPlan>, k: nat, n: nat, key: string, value: string)
    requires n < k <= |f.radios|
    requires Says(Written(RadioPrefix(n + 1), RadioSettings(f, f.radios[n])), key, value)
             || Says(Written(RadioPrefix(n + 1), CompanionSettings(vaps, n + 1, |vaps|)), key, value)
    ensures Says(RadioLines(f, vaps, k), key, value)
  {
    hide RadioSettings, CompanionSettings, RadioPrefix, Written;
    if n < k - 1 { RadioRowsIn(f, vaps, k - 1, n, key, value); }
  }

  lemma RadioSays(f: Facts, vaps: seq<VapPlan>, n: nat, key: string, value: string)
    requires n < |f.radios| && OneLine(value)
    requires Set(key, value) in RadioSettings(f, f.radios[n]) || Set(key, value) in CompanionSettings(vaps, n + 1, |vaps|)
    ensures Says(WirelessCfg(f, vaps), RadioPrefix(n + 1) + key, value)
  {
    hide WirelessCfg, OneLine, RadioSettings, CompanionSettings, RadioPrefix, Says, Written, VapLines, RadioLines, HeaderSettings, DhcpcSettings, Section;
    WrittenSays(RadioPrefix(n + 1), RadioSettings(f, f.radios[n]), key, value);
    WrittenSays(RadioPrefix(n + 1), CompanionSettings(vaps, n + 1, |vaps|), key, value);
    RadioRowsIn(f, vaps, |f.radios|, n, RadioPrefix(n + 1) + key, value);
    WholeSays(f, vaps, RadioPrefix(n + 1) + key, value);
  }

  /** Every vap is started on its radio: plainly when it is the first there, else as virtual number k, k vaps coming before it. */
  lemma VapOnItsRadio(f: Facts, vaps: seq<VapPlan>, i: nat)
    requires i < |vaps| && 1 <= vaps[i].radioN <= |f.radios|
    ensures var lines, k := WirelessCfg(f, vaps), Earlier(vaps, i);
            var at := "radio." + Itoa(vaps[i].radioN) + "." + if k > 0 then "virtual." + Itoa(k) + "." else "";
            Says(lines, at + "devname", Devname(vaps[i].athN)) && Says(lines, at + "status", "enabled")
  {
    hide WirelessCfg, Says, CompanionSettings, Itoa, Devname, OneLine, RadioSettings;
    var n, k := vaps[i].radioN, Earlier(vaps, i);
    OnRadioCounts(vaps, n, i);
    CompanionHas(vaps, n, |vaps|, i);
    DevnameFacts(vaps[i].athN, 0);
    LiteralLines();
    var at := if k > 0 then "virtual." + Itoa(k) + "." else "";
    RadioSays(f, vaps, n - 1, at + "devname", Devname(vaps[i].athN));
    RadioSays(f, vaps, n - 1, at + "status", "enabled");
    assert RadioPrefix(n) + (at + "devname") == "radio." + Itoa(n) + "." + at + "devname";
    assert RadioPrefix(n) + (at + "status") == "radio." + Itoa(n) + "." + at + "status";
  }

  /** A radio's own rows: what the controller asks for wins over what the device reports. */
  lemma RadioTuned(f: Facts, vaps: seq<VapPlan>, n: nat)
    requires n < |f.radios|
    ensures var lines, r, at := WirelessCfg(f, vaps), f.radios[n], "radio." + Itoa(n + 1) + ".";
            var asked := if r.name in f.intents then f.intents[r.name] else Intent("", "");
            && Shows(lines, at + "phyname", r.name)
            && Shows(lines, at + "channel", if asked.channel != "" then asked.channel else JsonStr(r.raw, "channel", "0"))
            && Shows(lines, at + "txpower", if asked.txpower != "" then asked.txpower else JsonStr(r.raw, "tx_power", "auto"))
            && Shows(lines, at + "ieee_mode", if r.band == "na" then "11naht40" else "11nght20")
            && Shows(lines, at + "countrycode", SignedItoa(f.country))
  {
    hide WirelessCfg, Shows, Itoa, SignedItoa, JsonStr, RadioSettings, IntentOf, Either;
    var r := f.radios[n];
    RadioHas(f, r);
    RadioShown(f, vaps, n, Set("phyname", r.name));
    RadioShown(f, vaps, n, Set("channel", Asked(IntentOf(f, r.name).channel, JsonStr(r.raw, "channel", "0"))));
    RadioShown(f, vaps, n, Set("txpower", Asked(IntentOf(f, r.name).txpower, JsonStr(r.raw, "tx_power", "auto"))));
    RadioShown(f, vaps, n, Set("ieee_mode", if r.band == "na" then "11naht40" else "11nght20"));
    RadioShown(f, vaps, n, Set("countrycode", SignedItoa(f.country)));
    IntentIs(f, r.name);
  }

  function Asked(wanted: string, echo: string): string {
    if wanted != "" then wanted else echo
  }

  lemma IntentIs(f: Facts, name: string)
    ensures IntentOf(f, name) == if name in f.intents then f.intents[name] else Intent("", "")
  {
  }

  lemma RadioHas(f: Facts, r: Radio)
    ensures var rows, asked := RadioSettings(f, r), IntentOf(f, r.name);
            && Set("phyname", r.name) in rows && Set("countrycode", SignedItoa(f.country)) in rows
            && Set("channel", Asked(asked.channel, JsonStr(r.raw, "channel", "0"))) in rows
            && Set("txpower", Asked(asked.txpower, JsonStr(r.raw, "tx_power", "auto"))) in rows
            && Set("ieee_mode", if r.band == "na" then "11naht40" else "11nght20") in rows
  {
    hide RadioSettings, SignedItoa, JsonStr, IntentOf;
    RadioHasName(f, r);
    RadioHasTuning(f, r);
  }

  lemma RadioHasName(f: Facts, r: Radio)
    ensures Set("phyname", r.name) in RadioSettings(f, r) && Set("countrycode", SignedItoa(f.country)) in RadioSettings(f, r)
    ensures Set("ieee_mode", if r.band == "na" then "11naht40" else "11nght20") in RadioSettings(f, r)
  {
    hide SignedItoa, JsonStr, JsonBool, AntennaGain, OnOff, IntentOf, Either;
    var rows := RadioSettings(f, r);
    assert rows[0] == Set("phyname", r.name);
    assert rows[5] == Set("countrycode", SignedItoa(f.country));
    assert rows[11] == Set("ieee_mode", if r.band == "na" then "11naht40" else "11nght20");
  }

  lemma RadioHasTuning(f: Facts, r: Radio)
    ensures Set("channel", Asked(IntentOf(f, r.name).channel, JsonStr(r.raw, "channel", "0"))) in RadioSettings(f, r)
    ensures Set("txpower", Asked(IntentOf(f, r.name).txpower, JsonStr(r.raw, "tx_power", "auto"))) in RadioSettings(f, r)
  {
    hide SignedItoa, JsonStr, JsonBool, AntennaGain, OnOff, IntentOf;
    var rows := RadioSettings(f, r);
    assert rows[9] == Set("channel", Asked(IntentOf(f, r.name).channel, JsonStr(r.raw, "channel", "0")));
    assert rows[21] == Set("txpower", Asked(IntentOf(f, r.name).txpower, JsonStr(r.raw, "tx_power", "auto")));
  }

  lemma RadioShown(f: Facts, vaps: seq<VapPlan>, n: nat, row: Setting)
    requires n < |f.radios| && row in RadioSettings(f, f.radios[n])
    ensures Shows(WirelessCfg(f, vaps), "radio." + Itoa(n + 1) + "." + row.key, row.value)
  {
    hide WirelessCfg, Says, OneLine, Itoa, RadioSettings;
    if OneLine(row.value) { RadioSays(f, vaps, n, row.key, row.value); }
  }
}
