/**
 The config as text. No key holds an equals sign and no printed value a line break, so the text
 determines its rows: what is proved of equal rows holds of byte-identical configs.
 */
module Printed {
  import opened Options
  import opened Text
  import opened Wlans
  import opened Plan
  import opened Render
  import opened DriftHash

  function LineText(l: Line): string {
    match l
    case Heading(t) => t + "\n"
    case KeyValue(k, v) => k + "=" + v + "\n"
  }

  function TextOf(lines: seq<Line>): string {
    if lines == [] then "" else LineText(lines[0]) + TextOf(lines[1..])
  }

  predicate PlainKey(k: string) {
    forall i :: 0 <= i < |k| ==> k[i] != '=' && k[i] != '\n'
  }

  predicate Clean(l: Line) {
    match l
    case Heading(t) => PlainKey(t)
    case KeyValue(k, v) => PlainKey(k) && '\n' !in v
  }

  ghost predicate AllClean(lines: seq<Line>) {
    forall i :: 0 <= i < |lines| ==> Clean(lines[i])
  }

  // ---- text determines lines ---------------------------------------------------------------------------

  lemma SplitsOnce(x: string, a: string, y: string, b: string, c: char)
    requires c !in x && c !in y && x + [c] + a == y + [c] + b
    ensures x == y && a == b
  {
    var s, t := x + [c] + a, y + [c] + b;
    assert forall i :: 0 <= i < |x| ==> s[i] == x[i];
    assert forall i :: 0 <= i < |y| ==> t[i] == y[i];
    assert s[|x|] == c && t[|y|] == c;
    assert |x| == |y|;
    assert x == s[..|x|] && y == t[..|y|] && a == s[|x| + 1..] && b == t[|y| + 1..];
  }

  function BodyOf(l: Line): string {
    match l
    case Heading(t) => t
    case KeyValue(k, v) => k + "=" + v
  }

  lemma BodyOneLine(l: Line)
    requires Clean(l)
    ensures '\n' !in BodyOf(l) && LineText(l) == BodyOf(l) + ['\n']
    ensures '=' in BodyOf(l) <==> l.KeyValue?
  {
    if l.KeyValue? {
      assert BodyOf(l)[|l.key|] == '=';
    }
  }

  lemma BodyDetermines(l: Line, m: Line)
    requires Clean(l) && Clean(m) && BodyOf(l) == BodyOf(m)
    ensures l == m
  {
    BodyOneLine(l);
    BodyOneLine(m);
    if l.KeyValue? && m.KeyValue? {
      assert BodyOf(l) == l.key + ['='] + l.value && BodyOf(m) == m.key + ['='] + m.value;
      SplitsOnce(l.key, l.value, m.key, m.value, '=');
    }
  }

  lemma {:induction false} TextDetermines(a: seq<Line>, b: seq<Line>)
    requires AllClean(a) && AllClean(b) && TextOf(a) == TextOf(b)
    ensures a == b
  {
    if a != [] { BodyOneLine(a[0]); }
    if b != [] { BodyOneLine(b[0]); }
    if a != [] && b != [] {
      hide BodyOf, Clean, LineText;
      var x, y := BodyOf(a[0]), BodyOf(b[0]);
      assert TextOf(a) == x + ['\n'] + TextOf(a[1..]) && TextOf(b) == y + ['\n'] + TextOf(b[1..]);
      SplitsOnce(x, TextOf(a[1..]), y, TextOf(b[1..]), '\n');
      BodyDetermines(a[0], b[0]);
      TextDetermines(a[1..], b[1..]);
      assert a == [a[0]] + a[1..] && b == [b[0]] + b[1..];
    }
  }

  // ---- every rendered line is clean ------------------------------------------------------------------------

  ghost predicate Plain(rows: seq<Setting>) {
    forall i :: 0 <= i < |rows| ==> PlainKey(rows[i].key)
  }

  lemma {:induction false} WrittenClean(prefix: string, rows: seq<Setting>)
    requires PlainKey(prefix) && Plain(rows)
    ensures AllClean(Written(prefix, rows))
  {
    if rows != [] {
      WrittenClean(prefix, rows[..|rows| - 1]);
      var s := rows[|rows| - 1];
      if OneLine(s.value) { assert Clean(KeyValue(prefix + s.key, s.value)); }
    }
  }

  lemma ItoaPlain(n: nat)
    ensures PlainKey(Itoa(n))
  {
    ItoaDigits(n);
    forall i | 0 <= i < |Itoa(n)| ensures IsDigit(Itoa(n)[i]) { assert Itoa(n)[i] in Itoa(n); }
  }

  lemma PrefixesPlain(n: nat)
    ensures PlainKey(RadioPrefix(n)) && PlainKey(AaaPrefix(n)) && PlainKey(WirelessPrefix(n)) && PlainKey(NetconfPrefix(n)) && PlainKey("")
  {
    ItoaPlain(n);
  }

  lemma RadioKeys()
    ensures PlainKey("phyname") && PlainKey("ack.auto") && PlainKey("acktimeout") && PlainKey("ampdu.status")
    ensures PlainKey("clksel") && PlainKey("countrycode") && PlainKey("cwm.enable") && PlainKey("cwm.mode")
    ensures PlainKey("forbiasauto") && PlainKey("channel") && PlainKey("backup_channel") && PlainKey("ieee_mode")
  {
  }

  lemma MoreRadioKeys()
    ensures PlainKey("mode") && PlainKey("rate.auto") && PlainKey("rate.mcs") && PlainKey("rfscan")
    ensures PlainKey("bcmc_l2_filter.status") && PlainKey("bgscan.status") && PlainKey("antenna.gain") && PlainKey("antenna")
    ensures PlainKey("txpower_mode") && PlainKey("txpower") && PlainKey("hard_noisefloor.status")
  {
  }

  lemma RadioPlain(f: Facts, r: Radio)
    ensures Plain(RadioSettings(f, r))
  {
    hide AntennaGain, JsonStr, JsonBool, IntentOf, SignedItoa, OnOff, Either, PlainKey;
    RadioKeys();
    MoreRadioKeys();
  }

  lemma {:induction false} CompanionPlain(vaps: seq<VapPlan>, n: nat, k: nat)
    requires k <= |vaps|
    ensures Plain(CompanionSettings(vaps, n, k))
  {
    hide OnRadio, Devname;
    if k > 0 {
      CompanionPlain(vaps, n, k - 1);
      ItoaPlain(OnRadio(vaps, n, k - 1));
    }
  }

  lemma {:induction false} RadiosClean(f: Facts, vaps: seq<VapPlan>, i: nat)
    requires i <= |f.radios|
    ensures AllClean(RadioLines(f, vaps, i))
  {
    hide RadioSettings, CompanionSettings, RadioPrefix, Written, Clean, Plain;
    if i > 0 {
      RadiosClean(f, vaps, i - 1);
      RadioPlain(f, f.radios[i - 1]);
      CompanionPlain(vaps, i, |vaps|);
      PrefixesPlain(i);
      WrittenClean(RadioPrefix(i), RadioSettings(f, f.radios[i - 1]));
      WrittenClean(RadioPrefix(i), CompanionSettings(vaps, i, |vaps|));
    }
  }

  lemma PlainConcat(a: seq<Setting>, b: seq<Setting>)
    requires Plain(a) && Plain(b)
    ensures Plain(a + b)
  {
  }

  lemma HeadKeys()
    ensures PlainKey("pmf.status") && PlainKey("pmf.mode") && PlainKey("ft.status") && PlainKey("country_beacon")
    ensures PlainKey("11k.status") && PlainKey("br.devname") && PlainKey("devname") && PlainKey("driver") && PlainKey("ssid")
    ensures PlainKey("radius.macacl.status") && PlainKey("hide_ssid")
  {
  }

  lemma HeadPlain(v: VapPlan)
    ensures Plain(HeadSettings(v)) && Plain(Tail)
  {
    hide OnOff, IsWpa3, AaaBridge, Devname, SsidOf, PlainKey;
    HeadKeys();
  }

  lemma WpaKeys()
    ensures PlainKey("status") && PlainKey("verbose") && PlainKey("wpa") && PlainKey("eapol_version")
    ensures PlainKey("wpa.group_rekey") && PlainKey("p2p") && PlainKey("p2p_cross_connect") && PlainKey("proxy_arp")
    ensures PlainKey("is_guest") && PlainKey("tdls_prohibit") && PlainKey("bss_transition") && PlainKey("id")
  {
  }

  lemma MoreWpaKeys()
    ensures PlainKey("wpa3.support") && PlainKey("wpa3.transition") && PlainKey("wpa3.ft.status") && PlainKey("wpa.psk")
    ensures PlainKey("sae.psk.1.psk") && PlainKey("sae.psk.1.mac") && PlainKey("wpa.key.1.mgmt") && PlainKey("wpa.psk")
    ensures PlainKey("wpa.1.pairwise") && PlainKey("pmf.cipher")
  {
  }

  lemma WpaPlain(v: VapPlan, f: Facts)
    ensures Plain(OpenSettings(v, f)) && Plain(WpaSettings(v)) && Plain(Wpa3Settings(v.wlan)) && Plain(KeySettings(v.wlan)) && Plain(Cipher)
  {
    hide OnOff, HasBit, IsWpa3, Psk, PlainKey;
    WpaKeys();
    MoreWpaKeys();
  }

  lemma ServerPlain(kind: string, s: Server, i: nat, fallback: string, secret: string)
    requires PlainKey(kind)
    ensures Plain(ServerSettings(kind, s, i, fallback, secret))
  {
    hide SignedItoa;
    ItoaPlain(i + 1);
  }

  lemma {:induction false} AuthPlain(p: Profile, k: nat)
    ensures Plain(AuthSettings(p, k))
  {
    hide ServerSettings, SlotAt;
    if k > 0 {
      AuthPlain(p, k - 1);
      ServerPlain("auth", SlotAt(p.servers, k - 1), k - 1, "1812", p.secret);
    }
  }

  lemma KeyConcat(a: string, b: string)
    requires PlainKey(a) && PlainKey(b)
    ensures PlainKey(a + b)
  {
  }

  lemma ClientKeys()
    ensures PlainKey("radius.das.client") && PlainKey("radius.das.secret") && PlainKey("radius.dad.client.")
    ensures PlainKey(".cidr") && PlainKey(".secret")
  {
  }

  lemma ClientPlain(p: Profile, k: nat)
    ensures Plain(DasClientSettings(p, k))
  {
    hide SlotAt, ClientDone, PlainKey, Itoa;
    ItoaPlain(k + 1);
    ClientKeys();
    KeyConcat("radius.dad.client.", Itoa(k + 1));
    KeyConcat("radius.dad.client." + Itoa(k + 1), ".cidr");
    KeyConcat("radius.dad.client." + Itoa(k + 1), ".secret");
  }

  lemma {:induction false} AcctPlain(p: Profile, k: nat, das: bool)
    ensures Plain(AcctSettings(p, k, das))
  {
    hide ServerSettings, SlotAt, DasClientSettings;
    if k > 0 {
      AcctPlain(p, k - 1, das);
      ServerPlain("acct", SlotAt(p.acctServers, k - 1), k - 1, "1813", p.secret);
      ClientPlain(p, k - 1);
    }
  }

  lemma EapKeys()
    ensures PlainKey("auth_cache") && PlainKey("dynamic_vlan") && PlainKey("radius.dad.status") && PlainKey("radius.dad.port")
    ensures PlainKey("radius.das.status") && PlainKey("radius.das.port") && PlainKey("interim_update.status") && PlainKey("interim_update.interval")
  {
  }

  lemma EapPlain(w: Wlan, f: Facts, n: nat, dadDone: bool)
    ensures Plain(EapSettings(w, f, n, dadDone))
  {
    hide AcctSettings, AuthSettings, HasBit, DynamicVlan, DasGate, PlainKey, Itoa;
    EapKeys();
    AcctPlain(w.profile, MAX_SLOTS, DasGate(w, f));
    AuthPlain(w.profile, MAX_SLOTS);
    assert Plain(DasSettings(n, dadDone));
    assert Plain(AccountingSettings(w, f, n, dadDone)) by { hide DasSettings; }
    hide AccountingSettings;
  }

  lemma SecurityPlain(v: VapPlan, f: Facts, n: nat, dadDone: bool)
    ensures Plain(SecuritySettings(v, f, n, dadDone))
  {
    hide OpenSettings, WpaSettings, Wpa3Settings, KeySettings, EapSettings, Plain;
    WpaPlain(v, f);
    EapPlain(v.wlan, f, n, dadDone);
    PlainConcat(WpaSettings(v), Wpa3Settings(v.wlan));
    PlainConcat(WpaSettings(v) + Wpa3Settings(v.wlan), KeySettings(v.wlan));
    PlainConcat(WpaSettings(v) + Wpa3Settings(v.wlan) + KeySettings(v.wlan), EapSettings(v.wlan, f, n, dadDone));
    PlainConcat(WpaSettings(v) + Wpa3Settings(v.wlan) + KeySettings(v.wlan) + EapSettings(v.wlan, f, n, dadDone), Cipher);
  }

  lemma WirelessKeys()
    ensures PlainKey("mode") && PlainKey("devname") && PlainKey("id") && PlainKey("status")
    ensures PlainKey("authmode") && PlainKey("l2_isolation") && PlainKey("is_guest") && PlainKey("security")
    ensures PlainKey("addmtikie") && PlainKey("ssid")
  {
  }

  lemma RestKeys()
    ensures PlainKey("hide_ssid") && PlainKey("mac_acl.status") && PlainKey("mac_acl.policy") && PlainKey("wmm")
    ensures PlainKey("uapsd") && PlainKey("parent") && PlainKey("puren") && PlainKey("pureg")
    ensures PlainKey("usage") && PlainKey("wds") && PlainKey("mcast.enhance") && PlainKey("autowds")
    ensures PlainKey("vport") && PlainKey("vwire") && PlainKey("schedule_enabled") && PlainKey("no2ghz_oui")
    ensures PlainKey("element_adopt") && PlainKey("mcastrate") && PlainKey("bga_filter") && PlainKey("dtim_period")
  {
  }

  lemma WirelessPlain(v: VapPlan, f: Facts)
    ensures Plain(WirelessSettings(v, f))
  {
    hide HasBit, Devname, SsidOf, PlainKey;
    WirelessKeys();
    RestKeys();
    assert Plain(WirelessHead(v));
    assert Plain(WirelessRest(v.phyname, f));
    hide WirelessHead, WirelessRest;
  }

  lemma BlockClean(f: Facts, v: VapPlan, n: nat, dadDone: bool)
    ensures AllClean(VapBlock(f, v, n, dadDone))
  {
    hide HeadSettings, SecuritySettings, WirelessSettings, Written, Clean, Plain, AaaPrefix, WirelessPrefix;
    HeadPlain(v);
    SecurityPlain(v, f, n, dadDone);
    PlainConcat(HeadSettings(v), SecuritySettings(v, f, n, dadDone));
    PlainConcat(HeadSettings(v) + SecuritySettings(v, f, n, dadDone), Tail);
    WirelessPlain(v, f);
    PrefixesPlain(n);
    WrittenClean(AaaPrefix(n), AaaSettings(v, f, n, dadDone));
    WrittenClean(WirelessPrefix(n), WirelessSettings(v, f));
  }

  lemma {:induction false} VapsClean(f: Facts, vaps: seq<VapPlan>, k: nat)
    requires k <= |vaps|
    ensures AllClean(VapLines(f, vaps, k))
  {
    hide VapBlock, DadDone, Clean;
    if k > 0 {
      VapsClean(f, vaps, k - 1);
      BlockClean(f, vaps[k - 1], k, DadDone(vaps, k - 1, f));
    }
  }

  // ---- wiring -------------------------------------------------------------------------------------------------

  lemma {:induction false} VlanPlain(ports: seq<string>, vids: seq<int>, i: nat, j: nat)
    requires i <= |vids| && j <= |ports| && (i == |vids| ==> j == 0)
    ensures Plain(VlanSettings(ports, vids, i, j))
    decreases i, j
  {
    hide SignedItoa, VlanIndex;
    if j > 0 {
      VlanPlain(ports, vids, i, j - 1);
      ItoaPlain(VlanIndex(i, |ports|, j));
    } else if i > 0 {
      VlanPlain(ports, vids, i - 1, |ports|);
    }
  }

  lemma {:induction false} PortsPlain(j: nat, ports: seq<string>, k: nat)
    requires k <= |ports|
    ensures Plain(PortSettings(j, ports, k))
  {
    if k > 0 {
      PortsPlain(j, ports, k - 1);
      ItoaPlain(j);
      ItoaPlain(k);
    }
  }

  lemma BridgePlain(j: nat, name: string, ports: seq<string>)
    ensures Plain(BridgeSettings(j, name, ports))
  {
    hide PortSettings;
    ItoaPlain(j);
    PortsPlain(j, ports, |ports|);
  }

  lemma {:induction false} BridgesPlain(f: Facts, vaps: seq<VapPlan>, vids: seq<int>, i: nat)
    requires i <= |vids|
    ensures Plain(BridgesSettings(f, vaps, vids, i))
  {
    hide BridgeSettings, SubInterfaces, AthsOn;
    if i == 0 {
      BridgePlain(1, "br0", f.ethPorts + AthsOn(vaps, 0, |vaps|));
    } else {
      BridgesPlain(f, vaps, vids, i - 1);
      BridgePlain(i + 1, "br0." + SignedItoa(vids[i - 1]), SubInterfaces(f.ethPorts, vids[i - 1]) + AthsOn(vaps, vids[i - 1], |vaps|));
    }
  }

  lemma ConfKeys()
    ensures PlainKey("autoip.status") && PlainKey("devname") && PlainKey("ip") && PlainKey("promisc") && PlainKey("status")
    ensures PlainKey("up") && PlainKey("netmask") && PlainKey("netconf.status")
  {
  }

  lemma ConfKey(n: nat, k: string)
    requires PlainKey(k)
    ensures PlainKey(NetconfPrefix(n) + k)
  {
    PrefixesPlain(n);
    hide NetconfPrefix;
  }

  lemma ConfRows(n: nat)
    ensures var m := NetconfPrefix(n);
            && PlainKey(m + "autoip.status") && PlainKey(m + "devname") && PlainKey(m + "ip") && PlainKey(m + "promisc")
            && PlainKey(m + "status") && PlainKey(m + "up") && PlainKey(m + "netmask")
  {
    hide PlainKey, NetconfPrefix;
    ConfKeys();
    ConfKey(n, "autoip.status");
    ConfKey(n, "devname");
    ConfKey(n, "ip");
    ConfKey(n, "promisc");
    ConfKey(n, "status");
    ConfKey(n, "up");
    ConfKey(n, "netmask");
  }

  lemma ConfPlain(n: nat, dev: string, up: string, vid: int)
    ensures Plain(PortConf(n, dev, up)) && Plain(TaggedConf(n, vid))
  {
    hide NetconfPrefix, SignedItoa, PlainKey;
    ConfRows(n);
  }

  lemma MgmtPlain(f: Facts)
    ensures Plain(MgmtConf(f))
  {
    hide NetconfPrefix, PlainKey;
    ConfKeys();
    ConfRows(1);
  }

  lemma {:induction false} EthPlain(f: Facts, k: nat)
    requires k <= |f.ethPorts|
    ensures Plain(EthConfs(f, k))
  {
    hide PortConf;
    if k > 0 {
      EthPlain(f, k - 1);
      ConfPlain(k + 1, f.ethPorts[k - 1], "enabled", 0);
    }
  }

  lemma {:induction false} RadioConfsPlain(f: Facts, k: nat)
    requires k <= |f.radios|
    ensures Plain(RadioConfs(f, k))
  {
    hide PortConf, Devname;
    if k > 0 {
      RadioConfsPlain(f, k - 1);
      ConfPlain(1 + |f.ethPorts| + k, Devname(k - 1), "disabled", 0);
    }
  }

  lemma {:induction false} TaggedPlain(f: Facts, vids: seq<int>, k: nat)
    requires k <= |vids|
    ensures Plain(TaggedConfs(f, vids, k))
  {
    hide TaggedConf;
    if k > 0 {
      TaggedPlain(f, vids, k - 1);
      ConfPlain(1 + |f.ethPorts| + |f.radios| + k, "", "", vids[k - 1]);
    }
  }

  lemma NetconfClean(f: Facts, vids: seq<int>)
    ensures AllClean(NetconfLines(f, vids))
  {
    hide MgmtConf, EthConfs, RadioConfs, TaggedConfs, Written;
    MgmtPlain(f);
    EthPlain(f, |f.ethPorts|);
    RadioConfsPlain(f, |f.radios|);
    TaggedPlain(f, vids, |vids|);
    WrittenClean("", NetconfSettings(f, vids));
    assert Clean(Heading("# netconf"));
    hide NetconfSettings, Clean;
  }

  lemma CleanConcat(a: seq<Line>, b: seq<Line>)
    requires AllClean(a) && AllClean(b)
    ensures AllClean(a + b)
  {
  }

  lemma HeadingKeys()
    ensures PlainKey("# vlan") && PlainKey("# bridge") && PlainKey("# dhcpc") && PlainKey("# wlans (radio)")
    ensures PlainKey("# no wlan provisioned as no radio found")
  {
  }

  lemma FixedKeys()
    ensures PlainKey("radio.status") && PlainKey("radio.countrycode") && PlainKey("aaa.status") && PlainKey("wireless.status")
    ensures PlainKey("radio.outdoor") && PlainKey("bridge.status") && PlainKey("vlan.status") && PlainKey("")
    ensures PlainKey("dhcpc.status") && PlainKey("dhcpc.1.status") && PlainKey("dhcpc.1.devname")
  {
  }

  lemma Headings()
    ensures AllClean([Heading("# vlan")]) && AllClean([Heading("# bridge")]) && AllClean([Heading("# dhcpc")])
    ensures AllClean([Heading("# wlans (radio)")]) && AllClean([Heading("# no wlan provisioned as no radio found"), KeyValue("radio.status", "disabled")])
  {
    hide PlainKey;
    HeadingKeys();
    FixedKeys();
  }

  lemma FixedPlain(f: Facts)
    ensures Plain(HeaderSettings(f)) && Plain(DhcpcSettings(f)) && Plain([Set("bridge.status", "enabled")])
    ensures PlainKey("vlan.status") && PlainKey("")
  {
    hide SignedItoa, PlainKey;
    FixedKeys();
  }

  lemma WiringClean(f: Facts, vaps: seq<VapPlan>)
    ensures AllClean(WiringLines(f, vaps))
  {
    hide Written, NetconfLines, BridgesSettings, VlanSettings, DhcpcSettings, Clean, TaggedVids, AllClean, PlainKey;
    var vids := TaggedVids(vaps, |vaps|);
    Headings();
    FixedPlain(f);
    VlanPlain(f.ethPorts, vids, |vids|, 0);
    BridgesPlain(f, vaps, vids, |vids|);
    NetconfClean(f, vids);
    var v, b, d := Written("", VlanBlock(f, vids)), Written("", [Set("bridge.status", "enabled")] + BridgesSettings(f, vaps, vids, |vids|)), Written("", DhcpcSettings(f));
    WrittenClean("", VlanBlock(f, vids));
    WrittenClean("", [Set("bridge.status", "enabled")] + BridgesSettings(f, vaps, vids, |vids|));
    WrittenClean("", DhcpcSettings(f));
    hide Plain, VlanBlock;
    CleanConcat([Heading("# vlan")], v);
    CleanConcat([Heading("# vlan")] + v, [Heading("# bridge")]);
    CleanConcat([Heading("# vlan")] + v + [Heading("# bridge")], b);
    CleanConcat([Heading("# vlan")] + v + [Heading("# bridge")] + b, NetconfLines(f, vids));
    CleanConcat([Heading("# vlan")] + v + [Heading("# bridge")] + b + NetconfLines(f, vids), [Heading("# dhcpc")]);
    CleanConcat([Heading("# vlan")] + v + [Heading("# bridge")] + b + NetconfLines(f, vids) + [Heading("# dhcpc")], d);
  }

  lemma CfgClean(f: Facts, vaps: seq<VapPlan>)
    ensures AllClean(WirelessCfg(f, vaps))
  {
    hide Written, NetconfLines, RadioLines, VapLines, WiringLines, HeaderSettings, Clean, AllClean, Plain, PlainKey;
    Headings();
    FixedPlain(f);
    NetconfClean(f, []);
    WrittenClean("", HeaderSettings(f));
    RadiosClean(f, vaps, |f.radios|);
    VapsClean(f, vaps, |vaps|);
    WiringClean(f, vaps);
    CleanConcat([Heading("# no wlan provisioned as no radio found"), KeyValue("radio.status", "disabled")], NetconfLines(f, []));
    var h, r := [Heading("# wlans (radio)")], Written("", HeaderSettings(f));
    CleanConcat(h, r);
    CleanConcat(h + r, RadioLines(f, vaps, |f.radios|));
    CleanConcat(h + r + RadioLines(f, vaps, |f.radios|), VapLines(f, vaps, |vaps|));
    CleanConcat(h + r + RadioLines(f, vaps, |f.radios|) + VapLines(f, vaps, |vaps|), WiringLines(f, vaps));
  }

  // ---- the text of a config -----------------------------------------------------------------------------------

  function ConfigText(f: Facts, wls: seq<Wlan>): string {
    TextOf(Rendered(f, wls))
  }

  /** Byte-identical configs and equal rows are one thing. */
  lemma TextIsRows(f: Facts, a: seq<Wlan>, b: seq<Wlan>)
    ensures ConfigText(f, a) == ConfigText(f, b) <==> Rendered(f, a) == Rendered(f, b)
  {
    hide WirelessCfg, VapsOfFirst, TextOf, AllClean;
    CfgClean(f, VapsOfFirst(f.radios, |f.radios|, a));
    CfgClean(f, VapsOfFirst(f.radios, |f.radios|, b));
    if ConfigText(f, a) == ConfigText(f, b) { TextDetermines(Rendered(f, a), Rendered(f, b)); }
  }

  /** Two envelopes give byte-identical text on every device exactly when their visible forms agree. */
  lemma EveryTextIff(a: seq<Wlan>, b: seq<Wlan>)
    ensures (forall f: Facts :: ConfigText(f, a) == ConfigText(f, b)) <==> FormOf(a) == FormOf(b)
  {
    hide Rendered, ConfigText, FormOf;
    forall f: Facts ensures ConfigText(f, a) == ConfigText(f, b) <==> Rendered(f, a) == Rendered(f, b) { TextIsRows(f, a, b); }
    EveryDeviceIff(a, b);
    assert (forall f: Facts :: ConfigText(f, a) == ConfigText(f, b)) ==> forall f: Facts :: Rendered(f, a) == Rendered(f, b) by {
      forall f: Facts | ConfigText(f, a) == ConfigText(f, b) ensures Rendered(f, a) == Rendered(f, b) {}
    }
  }
}
