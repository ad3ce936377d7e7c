/**
 The emitter of internal/server/systemcfg/wireless.go: rows are appended block by block under
 running counters and the once-per-render dad flag, and come out as Render.WirelessCfg says.
 */
module Emitter {
  import opened Options
  import opened Text
  import opened Sorting
  import opened Wlans
  import opened Plan
  import opened Render

  // ---- server slots -------------------------------------------------------------------------------

  lemma {:induction false} NoAuthBeyond(p: Profile, k: nat)
    requires |p.servers| <= k <= MAX_SLOTS
    ensures AuthSettings(p, MAX_SLOTS) == AuthSettings(p, k)
    decreases MAX_SLOTS - k
  {
    if k < MAX_SLOTS { NoAuthBeyond(p, k + 1); }
  }

  lemma {:induction false} NoAcctBeyond(p: Profile, k: nat, das: bool)
    requires |p.acctServers| <= k <= MAX_SLOTS
    ensures AcctSettings(p, MAX_SLOTS, das) == AcctSettings(p, k, das)
    decreases MAX_SLOTS - k
  {
    if k < MAX_SLOTS { NoAcctBeyond(p, k + 1, das); }
  }

  /** radius.auth rows: position is the slot number, an empty address is skipped, a fifth has no slot. */
  method AuthRows(p: Profile) returns (rows: seq<Setting>)
    ensures rows == AuthSettings(p, MAX_SLOTS)
  {
    hide Itoa, SignedItoa;
    rows := [];
    var idx := 0;
    while idx < |p.servers| && idx < MAX_SLOTS
      invariant idx <= MAX_SLOTS && idx <= |p.servers| && rows == AuthSettings(p, idx)
    {
      var srv := p.servers[idx];
      if srv.ip != "" {
        var rp := "radius." + "auth" + "." + Itoa(idx + 1) + ".";
        var port := if srv.port == 0 then "1812" else SignedItoa(srv.port);
        rows := rows + [Set(rp + "ip", srv.ip), Set(rp + "port", port), Set(rp + "secret", p.secret)];
      }
      idx := idx + 1;
    }
    if idx < MAX_SLOTS { NoAuthBeyond(p, idx); }
  }

  lemma ClientDoneStep(p: Profile, k: nat)
    ensures ClientDone(p, k + 1) == (ClientDone(p, k) || SlotAt(p.acctServers, k).ip != "")
  {
  }

  /** radius.acct rows, the das client pair once per vap. */
  method AcctRows(p: Profile, das: bool) returns (rows: seq<Setting>)
    ensures rows == AcctSettings(p, MAX_SLOTS, das)
  {
    hide Itoa, SignedItoa, ClientDone;
    rows := [];
    var clientDone := false;
    NoClientYet(p);
    var idx := 0;
    while idx < |p.acctServers| && idx < MAX_SLOTS
      invariant idx <= MAX_SLOTS && idx <= |p.acctServers| && rows == AcctSettings(p, idx, das)
      invariant das ==> clientDone == ClientDone(p, idx)
    {
      ClientDoneStep(p, idx);
      var srv := p.acctServers[idx];
      if srv.ip != "" {
        var rp := "radius." + "acct" + "." + Itoa(idx + 1) + ".";
        var port := if srv.port == 0 then "1813" else SignedItoa(srv.port);
        var one := [Set(rp + "ip", srv.ip), Set(rp + "port", port), Set(rp + "secret", p.secret)];
        if das {
          var client: seq<Setting> := [];
          if !clientDone {
            client := [Set("radius.das.client", srv.ip), Set("radius.das.secret", p.secret)];
            clientDone := true;
          }
          var dad := [Set("radius.dad.client." + Itoa(idx + 1) + ".cidr", srv.ip + "/32"),
                      Set("radius.dad.client." + Itoa(idx + 1) + ".secret", p.secret)];
          assert client + dad == DasClientSettings(p, idx);
          rows := rows + one + (client + dad);
        } else {
          rows := rows + one;
        }
      }
      assert rows == AcctSettings(p, idx + 1, das);
      idx := idx + 1;
    }
    if idx < MAX_SLOTS { NoAcctBeyond(p, idx, das); }
  }

  lemma NoClientYet(p: Profile)
    ensures !ClientDone(p, 0)
  {
  }

  // ---- wiring --------------------------------------------------------------------------------------

  /** The vids in first-seen order and the devnames wired to each. */
  ghost predicate Collected(vaps: seq<VapPlan>, k: nat, vids: seq<int>, aths: map<int, seq<string>>)
    requires k <= |vaps|
  {
    && Distinct(vids) && (forall vid :: vid in vids <==> vid in TaggedVids(vaps, k))
    && (forall vid :: vid in vids <==> vid in aths)
    && (forall vid :: vid in aths ==> vid != 0 && aths[vid] == AthsOn(vaps, vid, k))
    && (forall vid :: vid != 0 && vid !in aths ==> AthsOn(vaps, vid, k) == [])
  }

  lemma {:induction false} InsertVidMembers(vid: int, vids: seq<int>)
    ensures forall x :: x in InsertVid(vid, vids) <==> x == vid || x in vids
  {
    if vids != [] && vid > vids[0] {
      InsertVidMembers(vid, vids[1..]);
      assert vids == [vids[0]] + vids[1..];
    }
  }

  function Smaller(): (int, int) -> bool {
    (a: int, b: int) => a < b
  }

  lemma {:induction false} InsertVidAscending(vid: int, vids: seq<int>)
    requires Ascending(Smaller(), vids)
    ensures Ascending(Smaller(), InsertVid(vid, vids))
  {
    if vids == [] || vid <= vids[0] {
    } else {
      InsertVidAscending(vid, vids[1..]);
      InsertVidMembers(vid, vids[1..]);
      var r := InsertVid(vid, vids[1..]);
      forall j | 0 <= j < |r| ensures vids[0] < r[j] {
        assert r[j] in r;
        if r[j] != vid {
          var k :| 0 <= k < |vids[1..]| && vids[1..][k] == r[j];
          assert Smaller()(vids[0], vids[k + 1]);
        }
      }
    }
  }

  lemma {:induction false} TaggedAscending(vaps: seq<VapPlan>, k: nat)
    requires k <= |vaps|
    ensures Ascending(Smaller(), TaggedVids(vaps, k))
  {
    if k > 0 {
      TaggedAscending(vaps, k - 1);
      if vaps[k - 1].vid != 0 { InsertVidAscending(vaps[k - 1].vid, TaggedVids(vaps, k - 1)); }
    }
  }

  lemma CollectedStep(vaps: seq<VapPlan>, k: nat, vids: seq<int>, aths: map<int, seq<string>>)
    requires k < |vaps| && Collected(vaps, k, vids, aths)
    ensures var v := vaps[k]; var dev := Devname(v.athN);
            if v.vid == 0 then Collected(vaps, k + 1, vids, aths)
            else Collected(vaps, k + 1, if v.vid in aths then vids else vids + [v.vid],
                           aths[v.vid := (if v.vid in aths then aths[v.vid] else []) + [dev]])
  {
    hide Devname;
    if vaps[k].vid != 0 { InsertVidMembers(vaps[k].vid, TaggedVids(vaps, k)); }
  }

  method CollectVids(vaps: seq<VapPlan>) returns (vids: seq<int>, aths: map<int, seq<string>>)
    ensures vids == TaggedVids(vaps, |vaps|)
    ensures forall vid :: vid in vids ==> vid in aths && aths[vid] == AthsOn(vaps, vid, |vaps|)
  {
    var found: seq<int> := [];
    aths := map[];
    for k := 0 to |vaps|
      invariant Collected(vaps, k, found, aths)
    {
      CollectedStep(vaps, k, found, aths);
      var v := vaps[k];
      if v.vid != 0 {
        if v.vid !in aths {
          found := found + [v.vid];
          aths := aths[v.vid := []];
        }
        aths := aths[v.vid := aths[v.vid] + [Devname(v.athN)]];
      }
    }
    vids := SortBy(found, Smaller());
    TaggedAscending(vaps, |vaps|);
    AscendingUnique(Smaller(), vids, TaggedVids(vaps, |vaps|));
  }

  /** `# vlan` row pairs under one running counter, VLANs outermost. */
  method VlanRows(ports: seq<string>, vids: seq<int>) returns (rows: seq<Setting>)
    ensures rows == VlanSettings(ports, vids, |vids|, 0)
  {
    hide Itoa, SignedItoa;
    rows := [];
    var i := 0;
    for a := 0 to |vids|
      invariant rows == VlanSettings(ports, vids, a, 0) && i == VlanIndex(a, |ports|, 0)
    {
      for b := 0 to |ports|
        invariant rows == VlanSettings(ports, vids, a, b) && i == VlanIndex(a, |ports|, b)
      {
        i := i + 1;
        rows := rows + [Set("vlan." + Itoa(i) + ".devname", ports[b]), Set("vlan." + Itoa(i) + ".id", SignedItoa(vids[a]))];
      }
      assert VlanIndex(a + 1, |ports|, 0) == VlanIndex(a, |ports|, |ports|);
    }
  }

  /** writeBridge */
  method BridgeRows(j: nat, name: string, ports: seq<string>) returns (rows: seq<Setting>)
    ensures rows == BridgeSettings(j, name, ports)
  {
    hide Itoa;
    rows := [];
    for k := 0 to |ports|
      invariant rows == PortSettings(j, ports, k)
    {
      rows := rows + [Set("bridge." + Itoa(j) + ".port." + Itoa(k + 1) + ".devname", ports[k])];
    }
    rows := [Set("bridge." + Itoa(j) + ".devname", name), Set("bridge." + Itoa(j) + ".fd", "1"),
             Set("bridge." + Itoa(j) + ".stp.status", "disabled")] + rows;
  }

  method Bridges(f: Facts, vaps: seq<VapPlan>, vids: seq<int>, aths: map<int, seq<string>>) returns (rows: seq<Setting>)
    requires forall vid :: vid in vids ==> vid in aths && aths[vid] == AthsOn(vaps, vid, |vaps|)
    ensures rows == BridgesSettings(f, vaps, vids, |vids|)
  {
    hide BridgeSettings, SignedItoa, Devname;
    var untagged := f.ethPorts;
    for k := 0 to |vaps|
      invariant untagged == f.ethPorts + AthsOn(vaps, 0, k)
    {
      if vaps[k].vid == 0 {
        untagged := untagged + [Devname(vaps[k].athN)];
      }
    }
    var j := 1;
    rows := BridgeRows(j, "br0", untagged);
    for i := 0 to |vids|
      invariant rows == BridgesSettings(f, vaps, vids, i) && j == i + 1
    {
      var tagged: seq<string> := [];
      for k := 0 to |f.ethPorts|
        invariant tagged == SubInterfaces(f.ethPorts[..k], vids[i])
      {
        tagged := tagged + [f.ethPorts[k] + "." + SignedItoa(vids[i])];
      }
      assert f.ethPorts[..|f.ethPorts|] == f.ethPorts;
      assert vids[i] in vids;
      tagged := tagged + aths[vids[i]];
      j := j + 1;
      var one := BridgeRows(j, "br0." + SignedItoa(vids[i]), tagged);
      rows := rows + one;
    }
  }

  /** emitNetconfSection: one running counter over management, ports, radios and tags. */
  method NetconfRows(f: Facts, vids: seq<int>) returns (rows: seq<Setting>)
    ensures rows == NetconfSettings(f, vids)
  {
    hide MgmtConf, PortConf, TaggedConf, Devname;
    rows := MgmtConf(f);
    var n := 1;
    for k := 0 to |f.ethPorts|
      invariant rows == MgmtConf(f) + EthConfs(f, k) && n == 1 + k
    {
      n := n + 1;
      rows := rows + PortConf(n, f.ethPorts[k], "enabled");
    }
    ghost var ports := rows;
    for k := 0 to |f.radios|
      invariant rows == ports + RadioConfs(f, k) && n == 1 + |f.ethPorts| + k
    {
      n := n + 1;
      rows := rows + PortConf(n, Devname(k), "disabled");
    }
    ghost var radios := rows;
    for k := 0 to |vids|
      invariant rows == radios + TaggedConfs(f, vids, k) && n == 1 + |f.ethPorts| + |f.radios| + k
    {
      n := n + 1;
      rows := rows + TaggedConf(n, vids[k]);
    }
  }

  /** devname and status rows of one radio's vaps; vIdx counts them. */
  method CompanionRows(vaps: seq<VapPlan>, n: nat) returns (rows: seq<Setting>)
    ensures rows == CompanionSettings(vaps, n, |vaps|)
  {
    hide Itoa, Devname;
    rows := [];
    var vIdx := 0;
    for k := 0 to |vaps|
      invariant rows == CompanionSettings(vaps, n, k) && vIdx == OnRadio(vaps, n, k)
    {
      if vaps[k].radioN == n {
        var p := if vIdx > 0 then "virtual." + Itoa(vIdx) + "." else "";
        rows := rows + [Set(p + "devname", Devname(vaps[k].athN)), Set(p + "status", "enabled")];
        vIdx := vIdx + 1;
      }
    }
  }

  // ---- the renderer ---------------------------------------------------------------------------------

  class Renderer {
    const facts: Facts
    var text: seq<Line>
    var dadDone: bool              // the once-per-render radius.dad flag

    constructor (facts: Facts)
      ensures this.facts == facts && text == [] && !dadDone
    {
      this.facts, text, dadDone := facts, [], false;
    }

    /** The line writer: one row at a time, unwritable values skipped. */
    method Write(prefix: string, rows: seq<Setting>)
      modifies this`text
      ensures text == old(text) + Written(prefix, rows)
    {
      hide OneLine;
      for i := 0 to |rows|
        invariant text == old(text) + Written(prefix, rows[..i])
      {
        assert rows[..i + 1][..i] == rows[..i];
        var row := rows[i];
        if OneLine(row.value) { text := text + [KeyValue(prefix + row.key, row.value)]; }
      }
      assert rows[..|rows|] == rows;
    }

    method Head(heading: string)
      modifies this`text
      ensures text == old(text) + [Heading(heading)]
    {
      text := text + [Heading(heading)];
    }

    /** The accounting part of a wpa-eap vap; the first dynamic-authorization vap sets the dad flag. */
    method AccountingRows(w: Wlan, n: nat) returns (rows: seq<Setting>)
      requires w.security == "wpa-eap"
      modifies this`dadDone
      ensures rows == AccountingSettings(w, facts, n, old(dadDone))
      ensures dadDone == (old(dadDone) || DasGate(w, facts))
    {
      hide AcctSettings, HasBit, Itoa;
      rows := [];
      if w.profile.accounting {
        var gate := w.profile.das && HasBit(facts.fwCaps, 0x100000);
        if gate {
          if !dadDone {
            rows := rows + [Set("radius.dad.status", "enabled"), Set("radius.dad.port", "3799")];
          }
          rows := rows + [Set("radius.das.status", "enabled"), Set("radius.das.port", Itoa(3800 + n)), Set("radius.dad.status", "enabled")];
          assert rows == DasSettings(n, dadDone);
          dadDone := true;
        }
        var acct := AcctRows(w.profile, gate);
        rows := rows + acct;
        if w.profile.interim {
          rows := rows + [Set("interim_update.status", "enabled"), Set("interim_update.interval", "3600")];
        }
      }
    }

    /** emitAaaRows */
    method AaaRows(v: VapPlan, n: nat) returns (rows: seq<Setting>)
      modifies this`dadDone
      ensures rows == AaaSettings(v, facts, n, old(dadDone))
      ensures dadDone == (old(dadDone) || DasGate(v.wlan, facts))
    {
      hide HeadSettings, OpenSettings, WpaSettings, Wpa3Settings, KeySettings, AuthSettings, AccountingSettings, DynamicVlan;
      rows := HeadSettings(v);
      if v.wlan.security == "open" {
        rows := rows + OpenSettings(v, facts);
      } else {
        ghost var before := rows;
        rows := rows + WpaSettings(v);
        if IsWpa3(v.wlan) {
          rows := rows + Wpa3Settings(v.wlan);
        }
        rows := rows + KeySettings(v.wlan);
        assert rows == before + (WpaSettings(v) + Wpa3Settings(v.wlan) + KeySettings(v.wlan)) by { NoWpa3(v.wlan); }
        ghost var keyed := rows;
        var eap: seq<Setting> := [];
        if v.wlan.security == "wpa-eap" {
          var auth := AuthRows(v.wlan.profile);
          var acct := AccountingRows(v.wlan, n);
          eap := [Set("auth_cache", "enabled")] + auth + acct + [Set("dynamic_vlan", DynamicVlan(v.wlan.profile.vlanMode))];
        }
        rows := rows + eap + Cipher;
        assert rows == before + SecuritySettings(v, facts, n, old(dadDone));
      }
      rows := rows + Tail;
    }

    /** Radio rows, each radio followed by its vaps' companions. */
    method EmitRadios(vaps: seq<VapPlan>)
      modifies this`text
      ensures text == old(text) + RadioLines(facts, vaps, |facts.radios|)
    {
      hide RadioSettings, CompanionSettings, Written, RadioPrefix;
      for i := 0 to |facts.radios|
        invariant text == old(text) + RadioLines(facts, vaps, i)
      {
        Write(RadioPrefix(i + 1), RadioSettings(facts, facts.radios[i]));
        var companions := CompanionRows(vaps, i + 1);
        Write(RadioPrefix(i + 1), companions);
      }
    }

    /** aaa and wireless rows under one shared counter, the dad flag threaded through. */
    method EmitVaps(vaps: seq<VapPlan>)
      requires !dadDone
      modifies this`text, this`dadDone
      ensures text == old(text) + VapLines(facts, vaps, |vaps|)
      ensures dadDone == DadDone(vaps, |vaps|, facts)
    {
      hide AaaSettings, WirelessSettings, Written, AaaPrefix, WirelessPrefix, DadDone, DasGate;
      NothingDone(vaps, facts);
      for n := 0 to |vaps|
        invariant text == old(text) + VapLines(facts, vaps, n)
        invariant dadDone == DadDone(vaps, n, facts)
      {
        DadDoneStep(vaps, n, facts);
        var rows := AaaRows(vaps[n], n + 1);
        Write(AaaPrefix(n + 1), rows);
        Write(WirelessPrefix(n + 1), WirelessSettings(vaps[n], facts));
      }
    }

    /** emitVlanBlocks */
    method EmitWiring(vaps: seq<VapPlan>)
      modifies this`text
      ensures text == old(text) + WiringLines(facts, vaps)
    {
      hide Written, TaggedVids, AthsOn, VlanSettings, BridgesSettings, NetconfSettings, DhcpcSettings;
      var vids, aths := CollectVids(vaps);
      Head("# vlan");
      var vlan := VlanRows(facts.ethPorts, vids);
      Write("", [Set("vlan.status", OnOff(|vids| > 0))] + vlan);
      Head("# bridge");
      var bridges := Bridges(facts, vaps, vids, aths);
      Write("", [Set("bridge.status", "enabled")] + bridges);
      ghost var bridged := text;
      assert bridged == old(text) + ([Heading("# vlan")] + Written("", VlanBlock(facts, vids))
        + [Heading("# bridge")] + Written("", [Set("bridge.status", "enabled")] + BridgesSettings(facts, vaps, vids, |vids|)));
      EmitNetconf(vids);
      Head("# dhcpc");
      Write("", DhcpcSettings(facts));
    }

    method EmitNetconf(vids: seq<int>)
      modifies this`text
      ensures text == old(text) + NetconfLines(facts, vids)
    {
      hide Written, NetconfSettings;
      Head("# netconf");
      var rows := NetconfRows(facts, vids);
      Write("", rows);
    }

    /** emitWirelessCfg: the whole wireless compound of one render. */
    method EmitWirelessCfg(vaps: seq<VapPlan>)
      requires !dadDone
      modifies this`text, this`dadDone
      ensures text == old(text) + WirelessCfg(facts, vaps)
    {
      hide Written, RadioLines, VapLines, WiringLines, NetconfLines, HeaderSettings, DadDone;
      if |facts.radios| == 0 {
        text := text + [Heading("# no wlan provisioned as no radio found"), KeyValue("radio.status", "disabled")];
        EmitNetconf([]);
        return;
      }
      Head("# wlans (radio)");
      Write("", HeaderSettings(facts));
      EmitRadios(vaps);
      EmitVaps(vaps);
      EmitWiring(vaps);
    }
  }

  lemma NothingDone(vaps: seq<VapPlan>, f: Facts)
    ensures !DadDone(vaps, 0, f)
  {
  }

  lemma DadDoneStep(vaps: seq<VapPlan>, k: nat, f: Facts)
    requires k < |vaps|
    ensures DadDone(vaps, k + 1, f) == (DadDone(vaps, k, f) || DasGate(vaps[k].wlan, f))
  {
    hide DasGate;
  }

  lemma NoWpa3(w: Wlan)
    ensures !IsWpa3(w) ==> Wpa3Settings(w) == []
  {
  }
}
