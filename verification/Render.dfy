/**
 The wireless part of the rendered system_cfg (internal/server/systemcfg/wireless.go): radio,
 aaa, wireless, vlan, bridge, netconf and dhcpc rows as functions of the device's facts and
 the vap plan, and the emitter that appends them.
 */
module Render {
  import opened Options
  import opened Text
  import opened Wlans
  import opened Plan

  /** One row before it is written: a key relative to its block. */
  datatype Setting = Set(key: string, value: string)

  /** One line of the config text. */
  datatype Line = Heading(text: string) | KeyValue(key: string, value: string)

  datatype Intent = Intent(channel: string, txpower: string)

  /** What the renderer reads from the device record and its configuration. */
  datatype Facts = Facts(
    radios: seq<Radio>, intents: map<string, Intent>, mgmtDev: string, country: int,
    wifiCaps: Option<int>, fwCaps: Option<int>, ethPorts: seq<string>)

  predicate OneLine(v: string) {
    forall i :: 0 <= i < |v| ==> v[i] != '\n' && v[i] != '\r'
  }

  /** LineWriter: a value that would break its row is skipped. */
  function WriteOne(prefix: string, s: Setting): seq<Line> {
    if OneLine(s.value) then [KeyValue(prefix + s.key, s.value)] else []
  }

  function Written(prefix: string, rows: seq<Setting>): seq<Line> {
    if rows == [] then []
    else Written(prefix, rows[..|rows| - 1]) + WriteOne(prefix, rows[|rows| - 1])
  }

  /** caps & 2^bit, the bit test of the source on a reported capability word. */
  predicate HasBit(caps: Option<int>, weight: nat)
    requires weight > 0
  {
    caps.Some? && caps.value / weight % 2 == 1
  }

  function OnOff(b: bool): string {
    if b then "enabled" else "disabled"
  }

  function Either(wanted: string, echo: string): string {
    if wanted != "" then wanted else echo
  }

  // ---- radio rows -----------------------------------------------------------------------------

  function AntennaGain(raw: Row): string {
    if JsonBool(raw, "builtin_antenna") then JsonStr(raw, "builtin_ant_gain", "0") else JsonStr(raw, "antenna_gain", "6")
  }

  function IntentOf(f: Facts, radio: string): Intent {
    if radio in f.intents then f.intents[radio] else Intent("", "")
  }

  function RadioSettings(f: Facts, r: Radio): seq<Setting> {
    [Set("phyname", r.name), Set("ack.auto", "disabled"), Set("acktimeout", "64"), Set("ampdu.status", "enabled"),
     Set("clksel", "1"), Set("countrycode", SignedItoa(f.country)), Set("cwm.enable", "0"), Set("cwm.mode", "0"),
     Set("forbiasauto", "0"),
     Set("channel", Either(IntentOf(f, r.name).channel, JsonStr(r.raw, "channel", "0"))),
     Set("backup_channel", JsonStr(r.raw, "backup_channel", "0")),
     Set("ieee_mode", if r.band == "na" then "11naht40" else "11nght20"),
     Set("mode", "master"), Set("rate.auto", "enabled"), Set("rate.mcs", "auto"),
     Set("rfscan", OnOff(JsonBool(r.raw, "spectrum_enabled"))),
     Set("bcmc_l2_filter.status", "enabled"), Set("bgscan.status", "disabled"),
     Set("antenna.gain", AntennaGain(r.raw)), Set("antenna", JsonStr(r.raw, "antenna_id", "-1")),
     Set("txpower_mode", JsonStr(r.raw, "tx_power_mode", "auto")),
     Set("txpower", Either(IntentOf(f, r.name).txpower, JsonStr(r.raw, "tx_power", "auto"))),
     Set("hard_noisefloor.status", "disabled")]
  }

  /** How many of the first k vaps are on radio number n. */
  function OnRadio(vaps: seq<VapPlan>, n: nat, k: nat): nat
    requires k <= |vaps|
  {
    if k == 0 then 0 else OnRadio(vaps, n, k - 1) + (if vaps[k - 1].radioN == n then 1 else 0)
  }

  /** devname and status of every vap on one radio; the second and later ones are virtual. */
  function CompanionSettings(vaps: seq<VapPlan>, n: nat, k: nat): seq<Setting>
    requires k <= |vaps|
  {
    if k == 0 then []
    else
      var before := CompanionSettings(vaps, n, k - 1);
      var v := vaps[k - 1];
      if v.radioN != n then before
      else
        var p := if OnRadio(vaps, n, k - 1) > 0 then "virtual." + Itoa(OnRadio(vaps, n, k - 1)) + "." else "";
        before + [Set(p + "devname", Devname(v.athN)), Set(p + "status", "enabled")]
  }

  function RadioPrefix(n: nat): string {
    "radio." + Itoa(n) + "."
  }

  /** All rows of the first i radios. */
  function RadioLines(f: Facts, vaps: seq<VapPlan>, i: nat): seq<Line>
    requires i <= |f.radios|
  {
    if i == 0 then []
    else
      RadioLines(f, vaps, i - 1) + Written(RadioPrefix(i), RadioSettings(f, f.radios[i - 1]))
      + Written(RadioPrefix(i), CompanionSettings(vaps, i, |vaps|))
  }

  // ---- aaa rows ----------------------------------------------------------------------------------

  const MAX_SLOTS: nat := 4
  const FALLBACK_PSK := "letmeinnow"

  predicate IsWpa3(w: Wlan) {
    w.security == "wpa3-p" || w.security == "wpa2-wpa3"
  }

  function AaaBridge(vid: int): string {
    if vid == 0 then "br0" else "br0." + SignedItoa(vid)
  }

  function Psk(w: Wlan): string {
    if w.passphrase == "" then FALLBACK_PSK else w.passphrase
  }

  function DynamicVlan(mode: string): string {
    if mode == "optional" then "1" else if mode == "required" then "2" else "0"
  }

  function HeadSettings(v: VapPlan): seq<Setting> {
    var transition := v.wlan.security == "wpa2-wpa3";
    [Set("pmf.status", OnOff(IsWpa3(v.wlan))),
     Set("pmf.mode", if !IsWpa3(v.wlan) then "0" else if transition then "1" else "2"),
     Set("ft.status", "disabled"), Set("country_beacon", "disabled"), Set("11k.status", "disabled"),
     Set("br.devname", AaaBridge(v.vid)), Set("devname", Devname(v.athN)), Set("driver", "madwifi"),
     Set("ssid", SsidOf(v.wlan))]
  }

  function OpenSettings(v: VapPlan, f: Facts): seq<Setting> {
    [Set("status", OnOff(HasBit(f.wifiCaps, 0x2000))), Set("id", v.id)]
  }

  function WpaSettings(v: VapPlan): seq<Setting> {
    [Set("status", "enabled"), Set("verbose", "2"), Set("wpa", if IsWpa3(v.wlan) then "2" else "3"),
     Set("eapol_version", "2"), Set("wpa.group_rekey", "3600"), Set("p2p", "disabled"), Set("p2p_cross_connect", "disabled"),
     Set("proxy_arp", "disabled"), Set("is_guest", "false"), Set("tdls_prohibit", "disabled"), Set("bss_transition", "enabled"),
     Set("id", v.id)]
  }

  function Wpa3Settings(w: Wlan): seq<Setting> {
    if !IsWpa3(w) then []
    else
      [Set("wpa3.support", "enabled"), Set("wpa3.transition", OnOff(w.security == "wpa2-wpa3")), Set("wpa3.ft.status", "disabled")]
      + if w.security == "wpa2-wpa3" then [Set("wpa.psk", Psk(w))]
        else [Set("sae.psk.1.psk", Psk(w)), Set("sae.psk.1.mac", "ff:ff:ff:ff:ff:ff")]
  }

  function KeySettings(w: Wlan): seq<Setting> {
    [Set("wpa.key.1.mgmt", if IsWpa3(w) then "SAE" else if w.security == "wpa-eap" then "WPA-EAP" else "WPA-PSK"),
     Set("wpa.psk", Psk(w))]
  }

  /** One RADIUS server in array position i; an empty address leaves its slot out. */
  function ServerSettings(kind: string, s: Server, i: nat, fallback: string, secret: string): seq<Setting> {
    if s.ip == "" then []
    else
      var p := "radius." + kind + "." + Itoa(i + 1) + ".";
      [Set(p + "ip", s.ip), Set(p + "port", if s.port == 0 then fallback else SignedItoa(s.port)), Set(p + "secret", secret)]
  }

  /** The server in array position i; a position past the list holds no address. */
  function SlotAt(ss: seq<Server>, i: nat): Server {
    if i < |ss| then ss[i] else Server("", 0)
  }

  /** Rows of the first k array positions. */
  function AuthSettings(p: Profile, k: nat): seq<Setting> {
    if k == 0 then [] else AuthSettings(p, k - 1) + ServerSettings("auth", SlotAt(p.servers, k - 1), k - 1, "1812", p.secret)
  }

  /** The device and the profile both allow dynamic authorization. */
  predicate DasGate(w: Wlan, f: Facts) {
    w.security == "wpa-eap" && w.profile.accounting && w.profile.das && HasBit(f.fwCaps, 0x100000)
  }

  function DasSettings(n: nat, dadDone: bool): seq<Setting> {
    (if dadDone then [] else [Set("radius.dad.status", "enabled"), Set("radius.dad.port", "3799")])
    + [Set("radius.das.status", "enabled"), Set("radius.das.port", Itoa(3800 + n)), Set("radius.dad.status", "enabled")]
  }

  /** The das client row belongs to the first accounting server with an address. */
  predicate ClientDone(p: Profile, k: nat) {
    exists i :: 0 <= i < k && SlotAt(p.acctServers, i).ip != ""
  }

  function DasClientSettings(p: Profile, k: nat): seq<Setting> {
    var ip := SlotAt(p.acctServers, k).ip;
    if ip == "" then []
    else
      (if ClientDone(p, k) then [] else [Set("radius.das.client", ip), Set("radius.das.secret", p.secret)])
      + [Set("radius.dad.client." + Itoa(k + 1) + ".cidr", ip + "/32"), Set("radius.dad.client." + Itoa(k + 1) + ".secret", p.secret)]
  }

  function AcctSettings(p: Profile, k: nat, das: bool): seq<Setting> {
    if k == 0 then []
    else
      AcctSettings(p, k - 1, das) + ServerSettings("acct", SlotAt(p.acctServers, k - 1), k - 1, "1813", p.secret)
      + if das then DasClientSettings(p, k - 1) else []
  }

  function AccountingSettings(w: Wlan, f: Facts, n: nat, dadDone: bool): seq<Setting> {
    var p := w.profile;
    if !p.accounting then []
    else
      (if DasGate(w, f) then DasSettings(n, dadDone) else [])
      + AcctSettings(p, MAX_SLOTS, DasGate(w, f))
      + if p.interim then [Set("interim_update.status", "enabled"), Set("interim_update.interval", "3600")] else []
  }

  function EapSettings(w: Wlan, f: Facts, n: nat, dadDone: bool): seq<Setting> {
    if w.security != "wpa-eap" then []
    else
      [Set("auth_cache", "enabled")] + AuthSettings(w.profile, MAX_SLOTS)
      + AccountingSettings(w, f, n, dadDone) + [Set("dynamic_vlan", DynamicVlan(w.profile.vlanMode))]
  }

  const Cipher := [Set("wpa.1.pairwise", "CCMP"), Set("pmf.cipher", "AES-128-CMAC")]
  const Tail := [Set("radius.macacl.status", "disabled"), Set("hide_ssid", "false")]

  function SecuritySettings(v: VapPlan, f: Facts, n: nat, dadDone: bool): seq<Setting> {
    if v.wlan.security == "open" then OpenSettings(v, f)
    else WpaSettings(v) + Wpa3Settings(v.wlan) + KeySettings(v.wlan) + EapSettings(v.wlan, f, n, dadDone) + Cipher
  }

  function AaaSettings(v: VapPlan, f: Facts, n: nat, dadDone: bool): seq<Setting> {
    HeadSettings(v) + SecuritySettings(v, f, n, dadDone) + Tail
  }

  // ---- wireless rows --------------------------------------------------------------------------------

  function WirelessHead(v: VapPlan): seq<Setting> {
    [Set("mode", "master"), Set("devname", Devname(v.athN)), Set("id", v.id), Set("status", "enabled"),
     Set("authmode", if v.wlan.security == "open" then "0" else "1"), Set("l2_isolation", "disabled"), Set("is_guest", "false"),
     Set("security", "none"), Set("addmtikie", "disabled"), Set("ssid", SsidOf(v.wlan))]
  }

  function WirelessRest(phyname: string, f: Facts): seq<Setting> {
    [Set("hide_ssid", "false"),
     Set("mac_acl.status", "enabled"), Set("mac_acl.policy", "deny"), Set("wmm", "enabled"), Set("uapsd", "disabled"),
     Set("parent", phyname), Set("puren", "0"), Set("pureg", "1"), Set("usage", "user"), Set("wds", "disabled"),
     Set("mcast.enhance", "0"), Set("autowds", "disabled"), Set("vport", "disabled"), Set("vwire", "disabled"),
     Set("schedule_enabled", "disabled"), Set("no2ghz_oui", "disabled"), Set("element_adopt", "disabled"), Set("mcastrate", "auto")]
    + (if HasBit(f.wifiCaps, 0x40) then [Set("bga_filter", "enabled")] else [])
    + [Set("dtim_period", "3")]
  }

  function WirelessSettings(v: VapPlan, f: Facts): seq<Setting> {
    WirelessHead(v) + WirelessRest(v.phyname, f)
  }

  /** Whether the once-per-render dad rows are out after the first k vaps. */
  predicate DadDone(vaps: seq<VapPlan>, k: nat, f: Facts)
    requires k <= |vaps|
  {
    exists i :: 0 <= i < k && DasGate(vaps[i].wlan, f)
  }

  function AaaPrefix(n: nat): string {
    "aaa." + Itoa(n) + "."
  }

  function WirelessPrefix(n: nat): string {
    "wireless." + Itoa(n) + "."
  }

  /** aaa and wireless rows of vap number n. */
  function VapBlock(f: Facts, v: VapPlan, n: nat, dadDone: bool): seq<Line> {
    Written(AaaPrefix(n), AaaSettings(v, f, n, dadDone)) + Written(WirelessPrefix(n), WirelessSettings(v, f))
  }

  /** aaa and wireless rows of the first k vaps. */
  function VapLines(f: Facts, vaps: seq<VapPlan>, k: nat): seq<Line>
    requires k <= |vaps|
  {
    if k == 0 then [] else VapLines(f, vaps, k - 1) + VapBlock(f, vaps[k - 1], k, DadDone(vaps, k - 1, f))
  }

  // ---- vlan, bridge, netconf and dhcpc rows ----------------------------------------------------------

  /** Puts a tag into an increasing list unless it is there. */
  function InsertVid(vid: int, vids: seq<int>): seq<int> {
    if vids == [] || vid < vids[0] then [vid] + vids
    else if vid == vids[0] then vids
    else [vids[0]] + InsertVid(vid, vids[1..])
  }

  function TaggedVids(vaps: seq<VapPlan>, k: nat): seq<int>
    requires k <= |vaps|
  {
    if k == 0 then []
    else if vaps[k - 1].vid == 0 then TaggedVids(vaps, k - 1)
    else InsertVid(vaps[k - 1].vid, TaggedVids(vaps, k - 1))
  }

  /** Devnames of the first k vaps on one VLAN; 0 is untagged. */
  function AthsOn(vaps: seq<VapPlan>, vid: int, k: nat): seq<string>
    requires k <= |vaps|
  {
    if k == 0 then []
    else if vaps[k - 1].vid == vid then AthsOn(vaps, vid, k - 1) + [Devname(vaps[k - 1].athN)]
    else AthsOn(vaps, vid, k - 1)
  }

  /** Number of the row pair of port j (from 1) under the VLAN in position i (from 0). */
  function VlanIndex(i: nat, ports: nat, j: nat): nat {
    i * ports + j
  }

  /** One vlan row pair per VLAN and port, ports innermost: all of the first i VLANs and j ports of the next. */
  function VlanSettings(ports: seq<string>, vids: seq<int>, i: nat, j: nat): seq<Setting>
    requires i <= |vids| && j <= |ports| && (i == |vids| ==> j == 0)
    decreases i, j
  {
    if j > 0 then
      var key := "vlan." + Itoa(VlanIndex(i, |ports|, j));
      VlanSettings(ports, vids, i, j - 1) + [Set(key + ".devname", ports[j - 1]), Set(key + ".id", SignedItoa(vids[i]))]
    else if i > 0 then VlanSettings(ports, vids, i - 1, |ports|)
    else []
  }

  function PortSettings(j: nat, ports: seq<string>, k: nat): seq<Setting>
    requires k <= |ports|
  {
    if k == 0 then []
    else PortSettings(j, ports, k - 1) + [Set("bridge." + Itoa(j) + ".port." + Itoa(k) + ".devname", ports[k - 1])]
  }

  function BridgeSettings(j: nat, name: string, ports: seq<string>): seq<Setting> {
    [Set("bridge." + Itoa(j) + ".devname", name), Set("bridge." + Itoa(j) + ".fd", "1"), Set("bridge." + Itoa(j) + ".stp.status", "disabled")]
    + PortSettings(j, ports, |ports|)
  }

  function SubInterfaces(ports: seq<string>, vid: int): seq<string> {
    seq(|ports|, i requires 0 <= i < |ports| => ports[i] + "." + SignedItoa(vid))
  }

  /** br0 carries the ports and the untagged vaps; then one bridge per tag. */
  function BridgesSettings(f: Facts, vaps: seq<VapPlan>, vids: seq<int>, i: nat): seq<Setting>
    requires i <= |vids|
  {
    if i == 0 then BridgeSettings(1, "br0", f.ethPorts + AthsOn(vaps, 0, |vaps|))
    else
      BridgesSettings(f, vaps, vids, i - 1)
      + BridgeSettings(i + 1, "br0." + SignedItoa(vids[i - 1]), SubInterfaces(f.ethPorts, vids[i - 1]) + AthsOn(vaps, vids[i - 1], |vaps|))
  }

  function NetconfPrefix(n: nat): string {
    "netconf." + Itoa(n) + "."
  }

  function PortConf(n: nat, dev: string, up: string): seq<Setting> {
    var m := NetconfPrefix(n);
    [Set(m + "autoip.status", "disabled"), Set(m + "devname", dev), Set(m + "ip", "0.0.0.0"), Set(m + "promisc", "enabled"),
     Set(m + "status", "enabled"), Set(m + "up", up)]
  }

  function TaggedConf(n: nat, vid: int): seq<Setting> {
    var m := NetconfPrefix(n);
    [Set(m + "status", "enabled"), Set(m + "devname", "br0." + SignedItoa(vid)), Set(m + "ip", "0.0.0.0"),
     Set(m + "autoip.status", "disabled"), Set(m + "promisc", "enabled"), Set(m + "up", "enabled")]
  }

  function MgmtConf(f: Facts): seq<Setting> {
    var m := NetconfPrefix(1);
    [Set("netconf.status", "enabled"), Set(m + "autoip.status", "disabled"), Set(m + "devname", f.mgmtDev), Set(m + "ip", "192.168.1.20"),
     Set(m + "netmask", "255.255.255.0"), Set(m + "status", "enabled"), Set(m + "up", "enabled")]
  }

  function EthConfs(f: Facts, k: nat): seq<Setting>
    requires k <= |f.ethPorts|
  {
    if k == 0 then [] else EthConfs(f, k - 1) + PortConf(k + 1, f.ethPorts[k - 1], "enabled")
  }

  function RadioConfs(f: Facts, k: nat): seq<Setting>
    requires k <= |f.radios|
  {
    if k == 0 then [] else RadioConfs(f, k - 1) + PortConf(1 + |f.ethPorts| + k, Devname(k - 1), "disabled")
  }

  function TaggedConfs(f: Facts, vids: seq<int>, k: nat): seq<Setting>
    requires k <= |vids|
  {
    if k == 0 then [] else TaggedConfs(f, vids, k - 1) + TaggedConf(1 + |f.ethPorts| + |f.radios| + k, vids[k - 1])
  }

  function NetconfSettings(f: Facts, vids: seq<int>): seq<Setting> {
    MgmtConf(f) + EthConfs(f, |f.ethPorts|) + RadioConfs(f, |f.radios|) + TaggedConfs(f, vids, |vids|)
  }

  function NetconfLines(f: Facts, vids: seq<int>): seq<Line> {
    [Heading("# netconf")] + Written("", NetconfSettings(f, vids))
  }

  function VlanBlock(f: Facts, vids: seq<int>): seq<Setting> {
    [Set("vlan.status", OnOff(|vids| > 0))] + VlanSettings(f.ethPorts, vids, |vids|, 0)
  }

  function DhcpcSettings(f: Facts): seq<Setting> {
    [Set("dhcpc.status", "enabled"), Set("dhcpc.1.status", "enabled"), Set("dhcpc.1.devname", f.mgmtDev)]
  }

  function WiringLines(f: Facts, vaps: seq<VapPlan>): seq<Line> {
    var vids := TaggedVids(vaps, |vaps|);
    [Heading("# vlan")] + Written("", VlanBlock(f, vids))
    + [Heading("# bridge")] + Written("", [Set("bridge.status", "enabled")] + BridgesSettings(f, vaps, vids, |vids|))
    + NetconfLines(f, vids)
    + [Heading("# dhcpc")] + Written("", DhcpcSettings(f))
  }

  // ---- the whole compound --------------------------------------------------------------------------

  function HeaderSettings(f: Facts): seq<Setting> {
    [Set("radio.status", "enabled"), Set("radio.countrycode", SignedItoa(f.country)), Set("aaa.status", "enabled"),
     Set("wireless.status", "enabled"), Set("radio.outdoor", "disabled")]
  }

  function WirelessCfg(f: Facts, vaps: seq<VapPlan>): seq<Line> {
    if |f.radios| == 0 then
      [Heading("# no wlan provisioned as no radio found"), KeyValue("radio.status", "disabled")] + NetconfLines(f, [])
    else
      [Heading("# wlans (radio)")] + Written("", HeaderSettings(f)) + RadioLines(f, vaps, |f.radios|)
      + VapLines(f, vaps, |vaps|) + WiringLines(f, vaps)
  }

  /** The rendered rows of one envelope on one device. */
  function Rendered(f: Facts, wls: seq<Wlan>): seq<Line> {
    WirelessCfg(f, VapsOfFirst(f.radios, |f.radios|, wls))
  }
}
