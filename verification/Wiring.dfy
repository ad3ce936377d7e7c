/**
 The network a rendered config builds, read off its rows: which interfaces each bridge carries, which
 VLAN sub-interfaces exist, and which interfaces are brought up. Nothing here looks at how the rows
 are produced.
 */
module Wiring {
  import opened Options
  import opened Text
  import opened Sorting
  import opened Wlans
  import opened Plan
  import opened Render
  import opened Readback
  import Emitter

  /** The config holds this row. */
  ghost predicate Says(lines: seq<Line>, key: string, value: string) {
    KeyValue(key, value) in lines
  }

  /** The config carries this row unless its value holds a line break. */
  ghost predicate Shows(lines: seq<Line>, key: string, value: string) {
    OneLine(value) ==> Says(lines, key, value)
  }

  /** Bridge number j has this name. */
  ghost predicate Bridge(lines: seq<Line>, j: nat, name: string) {
    Says(lines, "bridge." + Itoa(j) + ".devname", name)
  }

  /** Port number k of bridge number j is this interface. */
  ghost predicate Port(lines: seq<Line>, j: nat, k: nat, dev: string) {
    Says(lines, "bridge." + Itoa(j) + ".port." + Itoa(k) + ".devname", dev)
  }

  ghost predicate OnBridge(lines: seq<Line>, j: nat, dev: string) {
    exists k :: Port(lines, j, k, dev)
  }

  /** VLAN row pair number i: this tag on this port. */
  ghost predicate TagsPort(lines: seq<Line>, i: nat, port: string, vid: int) {
    Says(lines, "vlan." + Itoa(i) + ".devname", port) && Says(lines, "vlan." + Itoa(i) + ".id", SignedItoa(vid))
  }

  /** The bridge of a tag; 0 is untagged. */
  function NameFor(vid: int): string {
    if vid == 0 then "br0" else "br0." + SignedItoa(vid)
  }

  /** What a wired port is called in the bridge of a tag. */
  function PortFor(port: string, vid: int): string {
    if vid == 0 then port else port + "." + SignedItoa(vid)
  }

  /** Some vap carries this tag. */
  predicate Tagged(vaps: seq<VapPlan>, vid: int) {
    exists i :: 0 <= i < |vaps| && vaps[i].vid == vid
  }

  predicate OnTag(vaps: seq<VapPlan>, dev: string, vid: int) {
    exists i :: 0 <= i < |vaps| && vaps[i].vid == vid && Devname(vaps[i].athN) == dev
  }

  predicate Wired(ports: seq<string>, dev: string, vid: int) {
    exists q :: 0 <= q < |ports| && PortFor(ports[q], vid) == dev
  }

  // ---- finding the rows --------------------------------------------------------------------------------

  lemma {:induction false} WrittenSays(prefix: string, rows: seq<Setting>, key: string, value: string)
    ensures Says(Written(prefix, rows), prefix + key, value) <==> Set(key, value) in rows && OneLine(value)
  {
    hide OneLine;
    if rows != [] {
      var init, last := rows[..|rows| - 1], rows[|rows| - 1];
      WrittenSays(prefix, init, key, value);
      assert rows == init + [last];
      if prefix + last.key == prefix + key {
        assert (prefix + last.key)[|prefix|..] == last.key && (prefix + key)[|prefix|..] == key;
      }
    }
  }

  lemma PlainSays(rows: seq<Setting>, key: string, value: string)
    ensures Says(Written("", rows), key, value) <==> Set(key, value) in rows && OneLine(value)
  {
    WrittenSays("", rows, key, value);
    assert "" + key == key;
  }

  /** No row's key starts with c. */
  ghost predicate Without(lines: seq<Line>, c: char) {
    forall i :: 0 <= i < |lines| && lines[i].KeyValue? ==> lines[i].key != "" && lines[i].key[0] != c
  }

  ghost predicate KeysFrom(rows: seq<Setting>, c: char) {
    forall i :: 0 <= i < |rows| ==> rows[i].key != "" && rows[i].key[0] == c
  }

  ghost predicate KeysNot(rows: seq<Setting>, c: char) {
    forall i :: 0 <= i < |rows| ==> rows[i].key != "" && rows[i].key[0] != c
  }

  lemma {:induction false} WrittenWithout(prefix: string, rows: seq<Setting>, c: char)
    requires if prefix == "" then KeysNot(rows, c) else prefix[0] != c
    ensures Without(Written(prefix, rows), c)
  {
    hide OneLine;
    if rows != [] {
      WrittenWithout(prefix, rows[..|rows| - 1], c);
      var s := rows[|rows| - 1];
      assert prefix != "" ==> (prefix + s.key)[0] == prefix[0];
      assert prefix == "" ==> prefix + s.key == s.key;
    }
  }

  lemma NotSaid(lines: seq<Line>, c: char, key: string, value: string)
    requires Without(lines, c) && key != "" && key[0] == c
    ensures !Says(lines, key, value)
  {
  }

  lemma {:induction false} RadiosWithout(f: Facts, vaps: seq<VapPlan>, i: nat, c: char)
    requires i <= |f.radios| && c != 'r'
    ensures Without(RadioLines(f, vaps, i), c)
  {
    hide RadioSettings, CompanionSettings, Written;
    if i > 0 {
      RadiosWithout(f, vaps, i - 1, c);
      assert RadioPrefix(i)[0] == 'r';
      WrittenWithout(RadioPrefix(i), RadioSettings(f, f.radios[i - 1]), c);
      WrittenWithout(RadioPrefix(i), CompanionSettings(vaps, i, |vaps|), c);
    }
  }

  lemma {:induction false} VapsWithout(f: Facts, vaps: seq<VapPlan>, k: nat, c: char)
    requires k <= |vaps| && c != 'a' && c != 'w'
    ensures Without(VapLines(f, vaps, k), c)
  {
    hide AaaSettings, WirelessSettings, Written, DadDone;
    if k > 0 {
      VapsWithout(f, vaps, k - 1, c);
      assert AaaPrefix(k)[0] == 'a' && WirelessPrefix(k)[0] == 'w';
      WrittenWithout(AaaPrefix(k), AaaSettings(vaps[k - 1], f, k, DadDone(vaps, k - 1, f)), c);
      WrittenWithout(WirelessPrefix(k), WirelessSettings(vaps[k - 1], f), c);
    }
  }

  lemma {:induction false} VlanFrom(ports: seq<string>, vids: seq<int>, i: nat, j: nat)
    requires i <= |vids| && j <= |ports| && (i == |vids| ==> j == 0)
    ensures KeysFrom(VlanSettings(ports, vids, i, j), 'v')
    decreases i, j
  {
    hide SignedItoa, VlanIndex, Itoa;
    if j > 0 {
      VlanFrom(ports, vids, i, j - 1);
      var key := "vlan." + Itoa(VlanIndex(i, |ports|, j));
      assert (key + ".devname")[0] == 'v' && (key + ".id")[0] == 'v';
    } else if i > 0 {
      VlanFrom(ports, vids, i - 1, |ports|);
    }
  }

  lemma {:induction false} PortsFrom(j: nat, ports: seq<string>, k: nat)
    requires k <= |ports|
    ensures KeysFrom(PortSettings(j, ports, k), 'b')
  {
    hide Itoa;
    if k > 0 {
      PortsFrom(j, ports, k - 1);
      assert ("bridge." + Itoa(j) + ".port." + Itoa(k) + ".devname")[0] == 'b';
    }
  }

  lemma {:induction false} BridgesFrom(f: Facts, vaps: seq<VapPlan>, vids: seq<int>, i: nat)
    requires i <= |vids|
    ensures KeysFrom(BridgesSettings(f, vaps, vids, i), 'b')
  {
    hide SubInterfaces, AthsOn, PortSettings, SignedItoa, Itoa;
    var j := i + 1;
    assert ("bridge." + Itoa(j) + ".devname")[0] == 'b' && ("bridge." + Itoa(j) + ".fd")[0] == 'b' && ("bridge." + Itoa(j) + ".stp.status")[0] == 'b';
    if i == 0 {
      var ports := f.ethPorts + AthsOn(vaps, 0, |vaps|);
      PortsFrom(1, ports, |ports|);
    } else {
      BridgesFrom(f, vaps, vids, i - 1);
      var ports := SubInterfaces(f.ethPorts, vids[i - 1]) + AthsOn(vaps, vids[i - 1], |vaps|);
      PortsFrom(j, ports, |ports|);
    }
  }

  lemma ConfFrom(n: nat, dev: string, up: string, vid: int, f: Facts)
    ensures KeysFrom(PortConf(n, dev, up), 'n') && KeysFrom(TaggedConf(n, vid), 'n') && KeysFrom(MgmtConf(f), 'n')
  {
    hide SignedItoa, Itoa;
    assert NetconfPrefix(n)[0] == 'n' && NetconfPrefix(1)[0] == 'n';
    hide NetconfPrefix;
  }

  lemma {:induction false} EthFrom(f: Facts, k: nat)
    requires k <= |f.ethPorts|
    ensures KeysFrom(EthConfs(f, k), 'n')
  {
    hide PortConf;
    if k > 0 {
      EthFrom(f, k - 1);
      ConfFrom(k + 1, f.ethPorts[k - 1], "enabled", 0, f);
    }
  }

  lemma {:induction false} RadioConfsFrom(f: Facts, k: nat)
    requires k <= |f.radios|
    ensures KeysFrom(RadioConfs(f, k), 'n')
  {
    hide PortConf, Devname;
    if k > 0 {
      RadioConfsFrom(f, k - 1);
      ConfFrom(1 + |f.ethPorts| + k, Devname(k - 1), "disabled", 0, f);
    }
  }

  lemma {:induction false} TaggedFrom(f: Facts, vids: seq<int>, k: nat)
    requires k <= |vids|
    ensures KeysFrom(TaggedConfs(f, vids, k), 'n')
  {
    hide TaggedConf;
    if k > 0 {
      TaggedFrom(f, vids, k - 1);
      ConfFrom(1 + |f.ethPorts| + |f.radios| + k, "", "", vids[k - 1], f);
    }
  }

  lemma NetconfFrom(f: Facts, vids: seq<int>)
    ensures KeysFrom(NetconfSettings(f, vids), 'n')
  {
    hide MgmtConf, EthConfs, RadioConfs, TaggedConfs;
    ConfFrom(1, "", "", 0, f);
    EthFrom(f, |f.ethPorts|);
    RadioConfsFrom(f, |f.radios|);
    TaggedFrom(f, vids, |vids|);
  }

  lemma FromIsNot(rows: seq<Setting>, c: char, d: char)
    requires KeysFrom(rows, c) && c != d
    ensures KeysNot(rows, d)
  {
  }

  lemma FixedNot(f: Facts, c: char)
    requires c == 'b' || c == 'v' || c == 'n'
    ensures KeysNot(HeaderSettings(f), c) && KeysNot(DhcpcSettings(f), c)
  {
    hide SignedItoa;
  }

  lemma SaysConcat(a: seq<Line>, b: seq<Line>, key: string, value: string)
    ensures Says(a + b, key, value) <==> Says(a, key, value) || Says(b, key, value)
  {
  }

  /** The rows of one section, and what its first letter is. */
  function Section(f: Facts, vaps: seq<VapPlan>, c: char): seq<Setting> {
    var vids := TaggedVids(vaps, |vaps|);
    if c == 'v' then VlanBlock(f, vids)
    else if c == 'b' then [Set("bridge.status", "enabled")] + BridgesSettings(f, vaps, vids, |vids|)
    else NetconfSettings(f, vids)
  }

  lemma SectionFrom(f: Facts, vaps: seq<VapPlan>, c: char)
    requires c == 'b' || c == 'v' || c == 'n'
    ensures KeysFrom(Section(f, vaps, c), c)
  {
    hide VlanSettings, BridgesSettings, NetconfSettings, TaggedVids;
    var vids := TaggedVids(vaps, |vaps|);
    VlanFrom(f.ethPorts, vids, |vids|, 0);
    BridgesFrom(f, vaps, vids, |vids|);
    NetconfFrom(f, vids);
  }

  lemma SectionWithout(f: Facts, vaps: seq<VapPlan>, c: char, d: char)
    requires (c == 'b' || c == 'v' || c == 'n') && c != d
    ensures Without(Written("", Section(f, vaps, c)), d)
  {
    hide Section, Written;
    SectionFrom(f, vaps, c);
    FromIsNot(Section(f, vaps, c), c, d);
    WrittenWithout("", Section(f, vaps, c), d);
  }

  /** A vlan, bridge or netconf row of a config is one of its section. */
  lemma SectionSays(f: Facts, vaps: seq<VapPlan>, c: char, key: string, value: string)
    requires |f.radios| > 0 && (c == 'b' || c == 'v' || c == 'n') && key != "" && key[0] == c
    ensures Says(WirelessCfg(f, vaps), key, value) <==> Set(key, value) in Section(f, vaps, c) && OneLine(value)
  {
    hide OneLine, HeaderSettings, DhcpcSettings, Written, RadioLines, VapLines, Without, VlanBlock, BridgesSettings, NetconfSettings, TaggedVids;
    FixedNot(f, c);
    RadiosWithout(f, vaps, |f.radios|, c);
    VapsWithout(f, vaps, |vaps|, c);
    WrittenWithout("", HeaderSettings(f), c);
    WrittenWithout("", DhcpcSettings(f), c);
    NotSaid(RadioLines(f, vaps, |f.radios|), c, key, value);
    NotSaid(VapLines(f, vaps, |vaps|), c, key, value);
    NotSaid(Written("", HeaderSettings(f)), c, key, value);
    NotSaid(Written("", DhcpcSettings(f)), c, key, value);
    OtherSection(f, vaps, c, 'v', key, value);
    OtherSection(f, vaps, c, 'b', key, value);
    OtherSection(f, vaps, c, 'n', key, value);
    PlainSays(Section(f, vaps, c), key, value);
    hide Says;
    WholeSays(f, vaps, key, value);
  }

  lemma OtherSection(f: Facts, vaps: seq<VapPlan>, c: char, d: char, key: string, value: string)
    requires (d == 'b' || d == 'v' || d == 'n') && key != "" && key[0] == c
    ensures c != d ==> !Says(Written("", Section(f, vaps, d)), key, value)
  {
    hide Section, Written;
    if c != d {
      SectionWithout(f, vaps, d, c);
      NotSaid(Written("", Section(f, vaps, d)), c, key, value);
    }
  }

  /** A row of the config is a row of one of its parts. */
  lemma WholeSays(f: Facts, vaps: seq<VapPlan>, key: string, value: string)
    requires |f.radios| > 0
    ensures Says(WirelessCfg(f, vaps), key, value) <==>
            || Says(Written("", HeaderSettings(f)), key, value) || Says(RadioLines(f, vaps, |f.radios|), key, value)
            || Says(VapLines(f, vaps, |vaps|), key, value) || Says(Written("", Section(f, vaps, 'v')), key, value)
            || Says(Written("", Section(f, vaps, 'b')), key, value) || Says(Written("", Section(f, vaps, 'n')), key, value)
            || Says(Written("", DhcpcSettings(f)), key, value)
  {
    hide HeaderSettings, DhcpcSettings, Written, RadioLines, VapLines, VlanBlock, BridgesSettings, NetconfSettings, TaggedVids;
  }

  // ---- which keys a bridge row has ----------------------------------------------------------------------

  lemma NoDot(n: nat)
    ensures '.' !in Itoa(n)
  {
    ItoaDigits(n);
  }

  lemma DotSplit(x: string, a: string, y: string, b: string)
    requires '.' !in x && '.' !in y && x + "." + a == y + "." + b
    ensures x == y && a == b
  {
    var s, t := x + "." + a, y + "." + b;
    assert forall i :: 0 <= i < |x| ==> s[i] == x[i];
    assert forall i :: 0 <= i < |y| ==> t[i] == y[i];
    assert s[|x|] == '.' && t[|y|] == '.';
    assert |x| == |y|;
    assert x == s[..|x|] && y == t[..|y|] && a == s[|x| + 1..] && b == t[|y| + 1..];
  }

  function NumberedKey(section: string, j: nat, rest: string): string {
    section + Itoa(j) + "." + rest
  }

  lemma NumberedSplits(section: string, i: nat, a: string, j: nat, b: string)
    requires NumberedKey(section, i, a) == NumberedKey(section, j, b)
    ensures i == j && a == b
  {
    NoDot(i);
    NoDot(j);
    hide Itoa;
    var s, t := NumberedKey(section, i, a), NumberedKey(section, j, b);
    assert s[|section|..] == Itoa(i) + "." + a && t[|section|..] == Itoa(j) + "." + b;
    DotSplit(Itoa(i), a, Itoa(j), b);
    ItoaInjective(i, j);
  }

  function PortRest(k: nat): string {
    NumberedKey("port.", k, "devname")
  }

  lemma PortKey(j: nat, k: nat)
    ensures "bridge." + Itoa(j) + ".port." + Itoa(k) + ".devname" == NumberedKey("bridge.", j, PortRest(k))
  {
    hide Itoa;
    assert "bridge." + Itoa(j) + ".port." + Itoa(k) + ".devname" == "bridge." + Itoa(j) + "." + ("port." + Itoa(k) + "." + "devname");
  }

  lemma NameKey(j: nat)
    ensures "bridge." + Itoa(j) + ".devname" == NumberedKey("bridge.", j, "devname")
    ensures "bridge." + Itoa(j) + ".fd" == NumberedKey("bridge.", j, "fd")
    ensures "bridge." + Itoa(j) + ".stp.status" == NumberedKey("bridge.", j, "stp.status")
  {
    hide Itoa;
  }

  lemma RestsDiffer(k: nat)
    ensures PortRest(k) != "devname" && PortRest(k) != "fd" && PortRest(k) != "stp.status"
  {
    hide Itoa;
    assert PortRest(k)[0] == 'p' && "devname"[0] == 'd' && "fd"[0] == 'f' && "stp.status"[0] == 's';
  }

  /** The port rows among the first k of a bridge. */
  lemma {:induction false} PortsOf(j: nat, ports: seq<string>, k: nat, j': nat, k': nat, dev: string)
    requires k <= |ports|
    ensures Set(NumberedKey("bridge.", j', PortRest(k')), dev) in PortSettings(j, ports, k) <==> j' == j && 1 <= k' <= k && ports[k' - 1] == dev
    ensures Set(NumberedKey("bridge.", j', "devname"), dev) !in PortSettings(j, ports, k)
  {
    hide NumberedKey, Itoa;
    if k > 0 {
      PortsOf(j, ports, k - 1, j', k', dev);
      PortKey(j, k);
      var key := NumberedKey("bridge.", j, PortRest(k));
      if key == NumberedKey("bridge.", j', PortRest(k')) {
        NumberedSplits("bridge.", j, PortRest(k), j', PortRest(k'));
        NumberedSplits("port.", k, "devname", k', "devname");
      }
      if key == NumberedKey("bridge.", j', "devname") {
        NumberedSplits("bridge.", j, PortRest(k), j', "devname");
        RestsDiffer(k);
      }
      assert PortSettings(j, ports, k) == PortSettings(j, ports, k - 1) + [Set(key, ports[k - 1])];
    }
  }

  lemma OneBridge(j: nat, name: string, ports: seq<string>, j': nat, k': nat, dev: string)
    ensures Set(NumberedKey("bridge.", j', PortRest(k')), dev) in BridgeSettings(j, name, ports) <==> j' == j && 1 <= k' <= |ports| && ports[k' - 1] == dev
    ensures Set(NumberedKey("bridge.", j', "devname"), dev) in BridgeSettings(j, name, ports) <==> j' == j && dev == name
  {
    hide NumberedKey, PortSettings, Itoa;
    PortsOf(j, ports, |ports|, j', k', dev);
    NameKey(j);
    RestsDiffer(k');
    assert |"devname"| == 7 && |"fd"| == 2 && |"stp.status"| == 10;
    OtherRest(j, "devname", j', PortRest(k'));
    OtherRest(j, "fd", j', PortRest(k'));
    OtherRest(j, "stp.status", j', PortRest(k'));
    OtherRest(j, "devname", j', "devname");
    OtherRest(j, "fd", j', "devname");
    OtherRest(j, "stp.status", j', "devname");
    hide PortRest;
  }

  lemma OtherRest(j: nat, a: string, j': nat, b: string)
    ensures NumberedKey("bridge.", j, a) == NumberedKey("bridge.", j', b) <==> j == j' && a == b
  {
    if NumberedKey("bridge.", j, a) == NumberedKey("bridge.", j', b) { NumberedSplits("bridge.", j, a, j', b); }
  }

  /** Name and ports of bridge number j. */
  function TagAt(vids: seq<int>, j: nat): int
    requires 1 <= j <= |vids| + 1
  {
    if j == 1 then 0 else vids[j - 2]
  }

  function PortsAt(f: Facts, vaps: seq<VapPlan>, vids: seq<int>, j: nat): seq<string>
    requires 1 <= j <= |vids| + 1
  {
    if j == 1 then f.ethPorts + AthsOn(vaps, 0, |vaps|)
    else SubInterfaces(f.ethPorts, vids[j - 2]) + AthsOn(vaps, vids[j - 2], |vaps|)
  }

  lemma {:induction false} AllBridges(f: Facts, vaps: seq<VapPlan>, vids: seq<int>, i: nat, j: nat, k: nat, dev: string)
    requires i <= |vids| && 0 !in vids
    ensures Set(NumberedKey("bridge.", j, PortRest(k)), dev) in BridgesSettings(f, vaps, vids, i) <==>
            1 <= j <= i + 1 && 1 <= k <= |PortsAt(f, vaps, vids, j)| && PortsAt(f, vaps, vids, j)[k - 1] == dev
    ensures Set(NumberedKey("bridge.", j, "devname"), dev) in BridgesSettings(f, vaps, vids, i) <==>
            1 <= j <= i + 1 && dev == NameFor(TagAt(vids, j))
  {
    hide NumberedKey, PortRest, AthsOn, SubInterfaces, BridgeSettings, Itoa, SignedItoa;
    if i == 0 {
      OneBridge(1, "br0", PortsAt(f, vaps, vids, 1), j, k, dev);
    } else {
      AllBridges(f, vaps, vids, i - 1, j, k, dev);
      assert vids[i - 1] in vids;
      OneBridge(i + 1, NameFor(vids[i - 1]), PortsAt(f, vaps, vids, i + 1), j, k, dev);
    }
  }

  // ---- which interfaces a tag has -------------------------------------------------------------------------

  lemma {:induction false} AthsOfTag(vaps: seq<VapPlan>, vid: int, n: nat, dev: string)
    requires n <= |vaps|
    ensures dev in AthsOn(vaps, vid, n) <==> exists i :: 0 <= i < n && vaps[i].vid == vid && Devname(vaps[i].athN) == dev
  {
    hide Devname;
    if n > 0 { AthsOfTag(vaps, vid, n - 1, dev); }
  }

  lemma {:induction false} TagsListed(vaps: seq<VapPlan>, n: nat, vid: int)
    requires n <= |vaps|
    ensures vid in TaggedVids(vaps, n) <==> vid != 0 && exists i :: 0 <= i < n && vaps[i].vid == vid
  {
    if n > 0 {
      TagsListed(vaps, n - 1, vid);
      if vaps[n - 1].vid != 0 { Emitter.InsertVidMembers(vaps[n - 1].vid, TaggedVids(vaps, n - 1)); }
    }
  }

  lemma TagsOnce(vaps: seq<VapPlan>)
    ensures forall i, j :: 0 <= i < j < |TaggedVids(vaps, |vaps|)| ==> TaggedVids(vaps, |vaps|)[i] != TaggedVids(vaps, |vaps|)[j]
  {
    Emitter.TaggedAscending(vaps, |vaps|);
    var vids := TaggedVids(vaps, |vaps|);
    forall i, j | 0 <= i < j < |vids| ensures vids[i] != vids[j] { assert Emitter.Smaller()(vids[i], vids[j]); }
  }

  lemma PortsOfTag(f: Facts, vaps: seq<VapPlan>, vids: seq<int>, j: nat, dev: string)
    requires 1 <= j <= |vids| + 1 && 0 !in vids
    ensures dev in PortsAt(f, vaps, vids, j) <==> Wired(f.ethPorts, dev, TagAt(vids, j)) || OnTag(vaps, dev, TagAt(vids, j))
  {
    hide Devname, SignedItoa, AthsOn;
    var t := TagAt(vids, j);
    AthsOfTag(vaps, t, |vaps|, dev);
    if j == 1 {
      assert dev in f.ethPorts <==> Wired(f.ethPorts, dev, 0);
    } else {
      assert vids[j - 2] in vids;
      assert dev in SubInterfaces(f.ethPorts, t) <==> Wired(f.ethPorts, dev, t) by {
        if Wired(f.ethPorts, dev, t) {
          var q :| 0 <= q < |f.ethPorts| && PortFor(f.ethPorts[q], t) == dev;
          assert SubInterfaces(f.ethPorts, t)[q] == dev;
        }
      }
    }
  }

  // ---- the bridges of a config ------------------------------------------------------------------------------

  lemma BridgeKey(j: nat, rest: string)
    ensures var key := NumberedKey("bridge.", j, rest); key != "" && key[0] == 'b' && key != "bridge.status"
  {
    StatusApart(j, rest);
  }

  /** A rendered config's bridge ports, number by number. */
  lemma PortsByNumber(f: Facts, vaps: seq<VapPlan>, j: nat, k: nat, dev: string)
    requires |f.radios| > 0
    ensures var lines, vids := WirelessCfg(f, vaps), TaggedVids(vaps, |vaps|);
            Port(lines, j, k, dev) <==> 1 <= j <= |vids| + 1 && 1 <= k <= |PortsAt(f, vaps, vids, j)| && PortsAt(f, vaps, vids, j)[k - 1] == dev && OneLine(dev)
  {
    hide WirelessCfg, TaggedVids, BridgesSettings, PortsAt, OneLine, NumberedKey, PortRest, Itoa, Says;
    var vids, key := TaggedVids(vaps, |vaps|), NumberedKey("bridge.", j, PortRest(k));
    PortKey(j, k);
    TagsListed(vaps, |vaps|, 0);
    BridgeKey(j, PortRest(k));
    SectionSays(f, vaps, 'b', key, dev);
    AllBridges(f, vaps, vids, |vids|, j, k, dev);
  }

  /** And its bridge names. */
  lemma NamesByNumber(f: Facts, vaps: seq<VapPlan>, j: nat, name: string)
    requires |f.radios| > 0
    ensures var lines, vids := WirelessCfg(f, vaps), TaggedVids(vaps, |vaps|);
            Bridge(lines, j, name) <==> 1 <= j <= |vids| + 1 && name == NameFor(TagAt(vids, j)) && OneLine(name)
  {
    hide WirelessCfg, TaggedVids, BridgesSettings, OneLine, NumberedKey, PortRest, Itoa, NameFor, Says;
    var vids, key := TaggedVids(vaps, |vaps|), NumberedKey("bridge.", j, "devname");
    NameKey(j);
    TagsListed(vaps, |vaps|, 0);
    BridgeKey(j, "devname");
    SectionSays(f, vaps, 'b', key, name);
    AllBridges(f, vaps, vids, |vids|, j, 0, name);
  }

  lemma StatusApart(j: nat, rest: string)
    ensures NumberedKey("bridge.", j, rest) != "bridge.status"
  {
    ItoaDigits(j);
    var key := NumberedKey("bridge.", j, rest);
    assert key[7] == Itoa(j)[0] && Itoa(j)[0] in Itoa(j) && IsDigit(key[7]) && "bridge.status"[7] == 's';
  }

  lemma NamesOneLine(vid: int)
    ensures OneLine(NameFor(vid)) && OneLine(SignedItoa(vid))
  {
    SignedItoaLine(vid);
  }

  lemma NamesDiffer(a: int, b: int)
    requires NameFor(a) == NameFor(b)
    ensures a == b
  {
    if a != 0 && b != 0 {
      assert NameFor(a)[4..] == SignedItoa(a) && NameFor(b)[4..] == SignedItoa(b);
      SignedItoaInjective(a, b);
    } else {
      hide SignedItoa;
      assert a != 0 ==> |NameFor(a)| > 3;
      assert b != 0 ==> |NameFor(b)| > 3;
    }
  }

  /** Bridge numbers and tags go together one to one. */
  lemma TagsApart(vaps: seq<VapPlan>, i: nat, j: nat)
    requires var vids := TaggedVids(vaps, |vaps|); 1 <= i <= |vids| + 1 && 1 <= j <= |vids| + 1 && TagAt(vids, i) == TagAt(vids, j)
    ensures i == j
  {
    hide TaggedVids;
    var vids := TaggedVids(vaps, |vaps|);
    TagsOnce(vaps);
    TagsListed(vaps, |vaps|, 0);
    assert i > 1 ==> vids[i - 2] in vids;
    assert j > 1 ==> vids[j - 2] in vids;
  }

  lemma NumberOfTag(vaps: seq<VapPlan>, vid: int) returns (j: nat)
    requires vid == 0 || Tagged(vaps, vid)
    ensures 1 <= j <= |TaggedVids(vaps, |vaps|)| + 1 && TagAt(TaggedVids(vaps, |vaps|), j) == vid
  {
    hide TaggedVids;
    var vids := TaggedVids(vaps, |vaps|);
    TagsListed(vaps, |vaps|, vid);
    if vid == 0 {
      j := 1;
    } else {
      var q :| 0 <= q < |vids| && vids[q] == vid;
      j := q + 2;
    }
  }

  /** A bridge name is written once, by the number of its tag. */
  lemma OneBridgeOfTag(f: Facts, vaps: seq<VapPlan>, j: nat, i: nat)
    requires |f.radios| > 0 && 1 <= j <= |TaggedVids(vaps, |vaps|)| + 1
    ensures Bridge(WirelessCfg(f, vaps), i, NameFor(TagAt(TaggedVids(vaps, |vaps|), j))) <==> i == j
  {
    hide WirelessCfg, TaggedVids, OneLine, NameFor, Bridge, SignedItoa;
    var vids := TaggedVids(vaps, |vaps|);
    var vid := TagAt(vids, j);
    NamesOneLine(vid);
    NamesByNumber(f, vaps, i, NameFor(vid));
    if 1 <= i <= |vids| + 1 && NameFor(vid) == NameFor(TagAt(vids, i)) {
      NamesDiffer(vid, TagAt(vids, i));
      TagsApart(vaps, i, j);
    }
  }

  /** What a bridge carries. */
  lemma PortsOfNumber(f: Facts, vaps: seq<VapPlan>, j: nat, dev: string)
    requires |f.radios| > 0 && 1 <= j <= |TaggedVids(vaps, |vaps|)| + 1
    ensures var vid := TagAt(TaggedVids(vaps, |vaps|), j);
            OnBridge(WirelessCfg(f, vaps), j, dev) <==> OneLine(dev) && (Wired(f.ethPorts, dev, vid) || OnTag(vaps, dev, vid))
  {
    hide WirelessCfg, TaggedVids, OneLine, OnBridge, PortsAt, Wired, OnTag;
    TagsListed(vaps, |vaps|, 0);
    PortsOfTag(f, vaps, TaggedVids(vaps, |vaps|), j, dev);
    PortIsListed(f, vaps, j, dev);
  }

  lemma PortIsListed(f: Facts, vaps: seq<VapPlan>, j: nat, dev: string)
    requires |f.radios| > 0 && 1 <= j <= |TaggedVids(vaps, |vaps|)| + 1
    ensures OnBridge(WirelessCfg(f, vaps), j, dev) <==> dev in PortsAt(f, vaps, TaggedVids(vaps, |vaps|), j) && OneLine(dev)
  {
    hide WirelessCfg, TaggedVids, PortsAt, OneLine, Port;
    var lines, ports := WirelessCfg(f, vaps), PortsAt(f, vaps, TaggedVids(vaps, |vaps|), j);
    if dev in ports && OneLine(dev) {
      var q :| 0 <= q < |ports| && ports[q] == dev;
      PortsByNumber(f, vaps, j, q + 1, dev);
    }
    if k :| Port(lines, j, k, dev) { PortsByNumber(f, vaps, j, k, dev); }
  }

  /**
   Untagged traffic and every tag some vap carries have exactly one bridge, and it carries exactly the
   wired ports, as sub-interfaces of the tag, and the vaps of that tag.
   */
  lemma BridgesOfTags(f: Facts, vaps: seq<VapPlan>, vid: int) returns (j: nat)
    requires |f.radios| > 0 && (vid == 0 || Tagged(vaps, vid))
    ensures forall i :: Bridge(WirelessCfg(f, vaps), i, NameFor(vid)) <==> i == j
    ensures forall dev :: OnBridge(WirelessCfg(f, vaps), j, dev) <==> OneLine(dev) && (Wired(f.ethPorts, dev, vid) || OnTag(vaps, dev, vid))
  {
    hide WirelessCfg, TaggedVids, OneLine, OnBridge, Bridge, NameFor, Wired, OnTag, Tagged;
    j := NumberOfTag(vaps, vid);
    forall i ensures Bridge(WirelessCfg(f, vaps), i, NameFor(vid)) <==> i == j { OneBridgeOfTag(f, vaps, j, i); }
    forall dev ensures OnBridge(WirelessCfg(f, vaps), j, dev) <==> OneLine(dev) && (Wired(f.ethPorts, dev, vid) || OnTag(vaps, dev, vid)) {
      PortsOfNumber(f, vaps, j, dev);
    }
  }

  /** Every port of any bridge belongs to untagged traffic or to a tag some vap carries. */
  lemma NoStrayBridge(f: Facts, vaps: seq<VapPlan>, j: nat, dev: string) returns (vid: int)
    requires |f.radios| > 0 && OnBridge(WirelessCfg(f, vaps), j, dev)
    ensures (vid == 0 || Tagged(vaps, vid)) && Bridge(WirelessCfg(f, vaps), j, NameFor(vid))
  {
    hide WirelessCfg, TaggedVids, PortsAt, OneLine, NameFor, Port, Bridge, SignedItoa;
    var vids := TaggedVids(vaps, |vaps|);
    var k :| Port(WirelessCfg(f, vaps), j, k, dev);
    PortsByNumber(f, vaps, j, k, dev);
    vid := TagAt(vids, j);
    assert j > 1 ==> vids[j - 2] in vids;
    TagsListed(vaps, |vaps|, vid);
    OneBridgeOfTag(f, vaps, j, j);
  }

  // ---- each vap on one bridge -----------------------------------------------------------------------------------

  /** Devnames are handed out once, and no wired port is called like one. */
  ghost predicate DevnamesApart(f: Facts, vaps: seq<VapPlan>) {
    && (forall i, k :: 0 <= i < k < |vaps| ==> vaps[i].athN != vaps[k].athN)
    && (forall q, n :: 0 <= q < |f.ethPorts| ==> f.ethPorts[q] != Devname(n))
  }

  lemma DevnameFacts(n: nat, m: nat)
    ensures OneLine(Devname(n)) && '.' !in Devname(n) && (Devname(n) == Devname(m) ==> n == m)
  {
    ItoaLine(n);
    ItoaDigits(n);
    if Devname(n) == Devname(m) {
      assert Devname(n)[3..] == Itoa(n) && Devname(m)[3..] == Itoa(m);
      ItoaInjective(n, m);
    }
  }

  lemma PortForDots(port: string, vid: int)
    ensures if vid == 0 then PortFor(port, vid) == port else '.' in PortFor(port, vid)
  {
    hide SignedItoa;
    if vid != 0 { assert PortFor(port, vid)[|port|] == '.'; }
  }

  lemma NotWired(f: Facts, vaps: seq<VapPlan>, n: nat, vid: int)
    requires DevnamesApart(f, vaps)
    ensures !Wired(f.ethPorts, Devname(n), vid)
  {
    hide Devname, PortFor;
    DevnameFacts(n, n);
    forall q | 0 <= q < |f.ethPorts| ensures PortFor(f.ethPorts[q], vid) != Devname(n) {
      PortForDots(f.ethPorts[q], vid);
    }
  }

  lemma OnlyItsTag(f: Facts, vaps: seq<VapPlan>, i: nat, vid: int)
    requires i < |vaps| && DevnamesApart(f, vaps)
    ensures OnTag(vaps, Devname(vaps[i].athN), vid) <==> vid == vaps[i].vid
  {
    hide Devname;
    forall m | 0 <= m < |vaps| ensures Devname(vaps[m].athN) == Devname(vaps[i].athN) <==> m == i {
      DevnameFacts(vaps[m].athN, vaps[i].athN);
    }
  }

  /** Every vap is on exactly one bridge, the one its tag has. */
  lemma VapOnItsBridge(f: Facts, vaps: seq<VapPlan>, i: nat) returns (j: nat)
    requires |f.radios| > 0 && i < |vaps| && DevnamesApart(f, vaps)
    ensures Bridge(WirelessCfg(f, vaps), j, NameFor(vaps[i].vid))
    ensures forall n :: OnBridge(WirelessCfg(f, vaps), n, Devname(vaps[i].athN)) <==> n == j
  {
    hide WirelessCfg, Devname, NameFor, OneLine, OnBridge, Bridge, DevnamesApart, Wired, OnTag;
    var lines, dev, vid := WirelessCfg(f, vaps), Devname(vaps[i].athN), vaps[i].vid;
    j := BridgesOfTags(f, vaps, vid);
    DevnameFacts(vaps[i].athN, 0);
    OnlyItsTag(f, vaps, i, vid);
    forall n ensures OnBridge(lines, n, dev) <==> n == j {
      if OnBridge(lines, n, dev) {
        var t := NoStrayBridge(f, vaps, n, dev);
        var m := BridgesOfTags(f, vaps, t);
        NotWired(f, vaps, vaps[i].athN, t);
        OnlyItsTag(f, vaps, i, t);
      }
    }
  }

  /** And it is one port of it, not two. */
  lemma OnePort(f: Facts, vaps: seq<VapPlan>, i: nat, j: nat, k: nat, k': nat)
    requires |f.radios| > 0 && i < |vaps| && DevnamesApart(f, vaps)
    requires Port(WirelessCfg(f, vaps), j, k, Devname(vaps[i].athN)) && Port(WirelessCfg(f, vaps), j, k', Devname(vaps[i].athN))
    ensures k == k'
  {
    hide WirelessCfg, TaggedVids, Devname, PortsAt, Port, DevnamesApart, OneLine;
    var vids := TaggedVids(vaps, |vaps|);
    PortsByNumber(f, vaps, j, k, Devname(vaps[i].athN));
    PortsByNumber(f, vaps, j, k', Devname(vaps[i].athN));
    TagsListed(vaps, |vaps|, 0);
    PortsOnce(f, vaps, vids, j, vaps[i].athN, k - 1, k' - 1);
  }

  lemma PortsOnce(f: Facts, vaps: seq<VapPlan>, vids: seq<int>, j: nat, n: nat, a: nat, b: nat)
    requires DevnamesApart(f, vaps) && 1 <= j <= |vids| + 1 && 0 !in vids
    requires a < |PortsAt(f, vaps, vids, j)| && b < |PortsAt(f, vaps, vids, j)|
    requires PortsAt(f, vaps, vids, j)[a] == Devname(n) && PortsAt(f, vaps, vids, j)[b] == Devname(n)
    ensures a == b
  {
    hide Devname, AthsOn, DevnamesApart, PortFor;
    var t := TagAt(vids, j);
    NotWired(f, vaps, n, t);
    AthsOnce(f, vaps, t, |vaps|);
    WiresOf(f, vaps, vids, j, a);
    WiresOf(f, vaps, vids, j, b);
  }

  /** The wired ports of a bridge come before its vaps. */
  lemma WiresOf(f: Facts, vaps: seq<VapPlan>, vids: seq<int>, j: nat, a: nat)
    requires 1 <= j <= |vids| + 1 && 0 !in vids && a < |PortsAt(f, vaps, vids, j)|
    ensures if a < |f.ethPorts| then PortsAt(f, vaps, vids, j)[a] == PortFor(f.ethPorts[a], TagAt(vids, j))
            else a - |f.ethPorts| < |AthsOn(vaps, TagAt(vids, j), |vaps|)| && PortsAt(f, vaps, vids, j)[a] == AthsOn(vaps, TagAt(vids, j), |vaps|)[a - |f.ethPorts|]
  {
    hide AthsOn, SignedItoa;
    if j > 1 { assert vids[j - 2] in vids; }
  }

  lemma {:induction false} AthsOnce(f: Facts, vaps: seq<VapPlan>, vid: int, n: nat)
    requires n <= |vaps| && DevnamesApart(f, vaps)
    ensures forall a, b :: 0 <= a < b < |AthsOn(vaps, vid, n)| ==> AthsOn(vaps, vid, n)[a] != AthsOn(vaps, vid, n)[b]
  {
    if n > 0 {
      AthsOnce(f, vaps, vid, n - 1);
      var last := Devname(vaps[n - 1].athN);
      AthsOfTag(vaps, vid, n - 1, last);
      forall i | 0 <= i < n - 1 ensures Devname(vaps[i].athN) != last {
        assert vaps[i].athN != vaps[n - 1].athN;
        DevnameFacts(vaps[i].athN, vaps[n - 1].athN);
      }
      hide Devname, DevnamesApart;
    }
  }

  // ---- VLAN rows -----------------------------------------------------------------------------------------------------

  lemma VlanKeys(i: nat)
    ensures "vlan." + Itoa(i) + ".devname" == NumberedKey("vlan.", i, "devname") && "vlan." + Itoa(i) + ".id" == NumberedKey("vlan.", i, "id")
  {
    hide Itoa;
  }

  lemma IndexSplits(a: nat, ports: nat, b: nat, c: nat, d: nat)
    requires 1 <= b <= ports && 1 <= d <= ports && VlanIndex(a, ports, b) == VlanIndex(c, ports, d)
    ensures a == c && b == d
  {
    if a < c {
      MulStep(a, c, ports);
    } else if c < a {
      MulStep(c, a, ports);
    }
  }

  lemma Distributes(a: nat, p: nat)
    ensures (a + 1) * p == a * p + p
  {
  }

  lemma {:induction false} MulStep(a: nat, c: nat, p: nat)
    requires a < c
    ensures a * p + p <= c * p
  {
    Distributes(c - 1, p);
    if a < c - 1 { MulStep(a, c - 1, p); }
  }

  /** The VLAN rows written up to tag i and port j. */
  lemma {:induction false} VlanRowsSay(ports: seq<string>, vids: seq<int>, i: nat, j: nat, n: nat, value: string)
    requires i <= |vids| && j <= |ports| && (i == |vids| ==> j == 0)
    ensures Set(NumberedKey("vlan.", n, "devname"), value) in VlanSettings(ports, vids, i, j) <==>
            exists a, b :: 0 <= a < |vids| && 1 <= b <= |ports| && (a < i || (a == i && b <= j)) && n == VlanIndex(a, |ports|, b) && ports[b - 1] == value
    ensures Set(NumberedKey("vlan.", n, "id"), value) in VlanSettings(ports, vids, i, j) <==>
            exists a, b :: 0 <= a < |vids| && 1 <= b <= |ports| && (a < i || (a == i && b <= j)) && n == VlanIndex(a, |ports|, b) && SignedItoa(vids[a]) == value
    decreases i, j
  {
    hide NumberedKey, VlanIndex, SignedItoa, Itoa;
    if j > 0 {
      VlanRowsSay(ports, vids, i, j - 1, n, value);
      var m := VlanIndex(i, |ports|, j);
      VlanKeys(m);
      VlanRest(m, "devname", n, "devname");
      VlanRest(m, "id", n, "devname");
      VlanRest(m, "devname", n, "id");
      VlanRest(m, "id", n, "id");
      assert |"devname"| == 7 && |"id"| == 2;
    } else if i > 0 {
      VlanRowsSay(ports, vids, i - 1, |ports|, n, value);
    }
  }

  lemma VlanRest(i: nat, a: string, j: nat, b: string)
    ensures NumberedKey("vlan.", i, a) == NumberedKey("vlan.", j, b) <==> i == j && a == b
  {
    if NumberedKey("vlan.", i, a) == NumberedKey("vlan.", j, b) { NumberedSplits("vlan.", i, a, j, b); }
  }

  lemma VlanStatusApart(n: nat, rest: string)
    ensures var key := NumberedKey("vlan.", n, rest); key != "" && key[0] == 'v' && key != "vlan.status"
  {
    ItoaDigits(n);
    var key := NumberedKey("vlan.", n, rest);
    assert key[5] == Itoa(n)[0] && Itoa(n)[0] in Itoa(n) && IsDigit(key[5]) && "vlan.status"[5] == 's';
  }

  /** A config's VLAN ports, number by number. */
  lemma VlanPorts(f: Facts, vaps: seq<VapPlan>, n: nat, port: string)
    requires |f.radios| > 0
    ensures var vids := TaggedVids(vaps, |vaps|);
            Says(WirelessCfg(f, vaps), NumberedKey("vlan.", n, "devname"), port) <==>
            OneLine(port) && exists a, b :: 0 <= a < |vids| && 1 <= b <= |f.ethPorts| && n == VlanIndex(a, |f.ethPorts|, b) && f.ethPorts[b - 1] == port
  {
    hide WirelessCfg, TaggedVids, OneLine, NumberedKey, VlanSettings, VlanIndex, SignedItoa, Says;
    var vids := TaggedVids(vaps, |vaps|);
    VlanStatusApart(n, "devname");
    SectionSays(f, vaps, 'v', NumberedKey("vlan.", n, "devname"), port);
    VlanRowsSay(f.ethPorts, vids, |vids|, 0, n, port);
  }

  /** And their tags. */
  lemma VlanTags(f: Facts, vaps: seq<VapPlan>, n: nat, tag: string)
    requires |f.radios| > 0
    ensures var vids := TaggedVids(vaps, |vaps|);
            Says(WirelessCfg(f, vaps), NumberedKey("vlan.", n, "id"), tag) <==>
            OneLine(tag) && exists a, b :: 0 <= a < |vids| && 1 <= b <= |f.ethPorts| && n == VlanIndex(a, |f.ethPorts|, b) && SignedItoa(vids[a]) == tag
  {
    hide WirelessCfg, TaggedVids, OneLine, NumberedKey, VlanSettings, VlanIndex, SignedItoa, Says;
    var vids := TaggedVids(vaps, |vaps|);
    VlanStatusApart(n, "id");
    SectionSays(f, vaps, 'v', NumberedKey("vlan.", n, "id"), tag);
    VlanRowsSay(f.ethPorts, vids, |vids|, 0, n, tag);
  }

  /** Row pair n of a config tags one port with one tag. */
  lemma TagsByNumber(f: Facts, vaps: seq<VapPlan>, n: nat, port: string, vid: int)
    requires |f.radios| > 0
    ensures var vids := TaggedVids(vaps, |vaps|);
            TagsPort(WirelessCfg(f, vaps), n, port, vid) <==>
            OneLine(port) && exists a, b :: 0 <= a < |vids| && 1 <= b <= |f.ethPorts| && n == VlanIndex(a, |f.ethPorts|, b) && f.ethPorts[b - 1] == port && vids[a] == vid
  {
    hide WirelessCfg, TaggedVids, OneLine, NumberedKey, VlanIndex, SignedItoa, Says, Itoa, NameFor;
    var vids := TaggedVids(vaps, |vaps|);
    NamesOneLine(vid);
    VlanKeys(n);
    VlanPorts(f, vaps, n, port);
    VlanTags(f, vaps, n, SignedItoa(vid));
    if TagsPort(WirelessCfg(f, vaps), n, port, vid) {
      var a1, b1 :| 0 <= a1 < |vids| && 1 <= b1 <= |f.ethPorts| && n == VlanIndex(a1, |f.ethPorts|, b1) && f.ethPorts[b1 - 1] == port;
      var a2, b2 :| 0 <= a2 < |vids| && 1 <= b2 <= |f.ethPorts| && n == VlanIndex(a2, |f.ethPorts|, b2) && SignedItoa(vids[a2]) == SignedItoa(vid);
      IndexSplits(a1, |f.ethPorts|, b1, a2, b2);
      SignedItoaInjective(vids[a2], vid);
    }
  }

  /** Each tag some vap carries is put on each wired port by exactly one row pair, distinct ports being called differently. */
  lemma PortsAreTagged(f: Facts, vaps: seq<VapPlan>, q: nat, vid: int) returns (n: nat)
    requires |f.radios| > 0 && q < |f.ethPorts| && OneLine(f.ethPorts[q]) && vid != 0 && Tagged(vaps, vid)
    requires forall a, b :: 0 <= a < b < |f.ethPorts| ==> f.ethPorts[a] != f.ethPorts[b]
    ensures forall m :: TagsPort(WirelessCfg(f, vaps), m, f.ethPorts[q], vid) <==> m == n
  {
    hide WirelessCfg, TaggedVids, OneLine, TagsPort, VlanIndex;
    var vids, port := TaggedVids(vaps, |vaps|), f.ethPorts[q];
    TagsListed(vaps, |vaps|, vid);
    TagsOnce(vaps);
    var a :| 0 <= a < |vids| && vids[a] == vid;
    n := VlanIndex(a, |f.ethPorts|, q + 1);
    assert f.ethPorts[(q + 1) - 1] == port;
    forall m ensures TagsPort(WirelessCfg(f, vaps), m, port, vid) <==> m == n { TagsByNumber(f, vaps, m, port, vid); }
  }

  /** No row pair tags anything else. */
  lemma NoStrayTag(f: Facts, vaps: seq<VapPlan>, n: nat, port: string, vid: int)
    requires |f.radios| > 0 && TagsPort(WirelessCfg(f, vaps), n, port, vid)
    ensures port in f.ethPorts && vid != 0 && Tagged(vaps, vid)
  {
    hide WirelessCfg, TaggedVids, OneLine, TagsPort, VlanIndex;
    TagsByNumber(f, vaps, n, port, vid);
    TagsListed(vaps, |vaps|, vid);
  }

  /** VLANs are switched on exactly when some vap is tagged. */
  lemma VlanSwitch(f: Facts, vaps: seq<VapPlan>)
    requires |f.radios| > 0
    ensures Says(WirelessCfg(f, vaps), "vlan.status", "enabled") <==> exists i :: 0 <= i < |vaps| && vaps[i].vid != 0
  {
    hide WirelessCfg, TaggedVids, VlanSettings, OneLine, Says;
    var vids := TaggedVids(vaps, |vaps|);
    LiteralLines();
    SectionSays(f, vaps, 'v', "vlan.status", "enabled");
    StatusOnce(f.ethPorts, vids, |vids|, 0);
    if |vids| > 0 {
      TagsListed(vaps, |vaps|, vids[0]);
    }
    if i :| 0 <= i < |vaps| && vaps[i].vid != 0 { TagsListed(vaps, |vaps|, vaps[i].vid); }
  }

  lemma {:induction false} StatusOnce(ports: seq<string>, vids: seq<int>, i: nat, j: nat)
    requires i <= |vids| && j <= |ports| && (i == |vids| ==> j == 0)
    ensures forall k :: 0 <= k < |VlanSettings(ports, vids, i, j)| ==> VlanSettings(ports, vids, i, j)[k].key != "vlan.status"
    decreases i, j
  {
    hide SignedItoa, VlanIndex, Itoa;
    if j > 0 {
      StatusOnce(ports, vids, i, j - 1);
      var m := VlanIndex(i, |ports|, j);
      VlanKeys(m);
      VlanStatusApart(m, "devname");
      VlanStatusApart(m, "id");
    } else if i > 0 {
      StatusOnce(ports, vids, i - 1, |ports|);
    }
  }

  // ---- bringing the tagged bridges up ---------------------------------------------------------------------------------

  /** netconf number n brings this interface up, without an address of its own. */
  ghost predicate BringsUp(lines: seq<Line>, n: nat, dev: string) {
    var at := "netconf." + Itoa(n) + ".";
    && Says(lines, at + "devname", dev) && Says(lines, at + "status", "enabled") && Says(lines, at + "up", "enabled")
    && Says(lines, at + "ip", "0.0.0.0")
  }

  lemma {:induction false} TaggedUp(f: Facts, vids: seq<int>, k: nat, q: nat, row: Setting)
    requires q < k <= |vids| && row in TaggedConf(1 + |f.ethPorts| + |f.radios| + q + 1, vids[q])
    ensures row in TaggedConfs(f, vids, k)
  {
    hide TaggedConf;
    if q < k - 1 { TaggedUp(f, vids, k - 1, q, row); }
  }

  lemma {:induction false} EthUp(f: Facts, k: nat, q: nat, row: Setting)
    requires q < k <= |f.ethPorts| && row in PortConf(q + 2, f.ethPorts[q], "enabled")
    ensures row in EthConfs(f, k)
  {
    hide PortConf;
    if q < k - 1 { EthUp(f, k - 1, q, row); }
  }

  lemma NetconfSays(f: Facts, vaps: seq<VapPlan>, row: Setting)
    requires |f.radios| > 0 && row in NetconfSettings(f, TaggedVids(vaps, |vaps|)) && OneLine(row.value)
    ensures Says(WirelessCfg(f, vaps), row.key, row.value)
  {
    hide WirelessCfg, NetconfSettings, TaggedVids, OneLine;
    NetconfFrom(f, TaggedVids(vaps, |vaps|));
    SectionSays(f, vaps, 'n', row.key, row.value);
  }

  /** The bridge of every tag is brought up, and so is every wired port. */
  lemma TagIsUp(f: Facts, vaps: seq<VapPlan>, vid: int) returns (n: nat)
    requires |f.radios| > 0 && vid != 0 && Tagged(vaps, vid)
    ensures BringsUp(WirelessCfg(f, vaps), n, NameFor(vid))
  {
    hide WirelessCfg, TaggedVids, Says, SignedItoa, Itoa, MgmtConf, EthConfs, RadioConfs, TaggedConfs, OneLine;
    var vids := TaggedVids(vaps, |vaps|);
    TagsListed(vaps, |vaps|, vid);
    var q :| 0 <= q < |vids| && vids[q] == vid;
    n := 1 + |f.ethPorts| + |f.radios| + q + 1;
    LiteralLines();
    AddressLine();
    NamesOneLine(vid);
    var rows := TaggedConf(n, vid);
    assert rows[0] in rows && rows[1] in rows && rows[2] in rows && rows[5] in rows;
    forall row | row in rows ensures row in NetconfSettings(f, vids) { TaggedUp(f, vids, |vids|, q, row); }
    NetconfSays(f, vaps, rows[0]);
    NetconfSays(f, vaps, rows[1]);
    NetconfSays(f, vaps, rows[2]);
    NetconfSays(f, vaps, rows[5]);
  }

  lemma AddressLine()
    ensures OneLine("0.0.0.0")
  {
  }

  lemma PortIsUp(f: Facts, vaps: seq<VapPlan>, q: nat)
    requires |f.radios| > 0 && q < |f.ethPorts| && OneLine(f.ethPorts[q])
    ensures BringsUp(WirelessCfg(f, vaps), q + 2, f.ethPorts[q])
  {
    hide WirelessCfg, TaggedVids, Says, Itoa, MgmtConf, EthConfs, RadioConfs, TaggedConfs, OneLine;
    var vids := TaggedVids(vaps, |vaps|);
    LiteralLines();
    AddressLine();
    var rows := PortConf(q + 2, f.ethPorts[q], "enabled");
    assert rows[1] in rows && rows[2] in rows && rows[4] in rows && rows[5] in rows;
    forall row | row in rows ensures row in NetconfSettings(f, vids) { EthUp(f, |f.ethPorts|, q, row); }
    NetconfSays(f, vaps, rows[1]);
    NetconfSays(f, vaps, rows[2]);
    NetconfSays(f, vaps, rows[4]);
    NetconfSays(f, vaps, rows[5]);
  }

  /** The management interface keeps its own netconf instance and asks DHCP for its address. */
  lemma ManagementUp(f: Facts, vaps: seq<VapPlan>)
    requires |f.radios| > 0
    ensures var lines := WirelessCfg(f, vaps);
            && Shows(lines, "netconf.1.devname", f.mgmtDev) && Says(lines, "netconf.1.up", "enabled") && Says(lines, "netconf.1.status", "enabled")
            && Says(lines, "dhcpc.1.status", "enabled") && Shows(lines, "dhcpc.1.devname", f.mgmtDev)
  {
    hide WirelessCfg, TaggedVids, Says, NetconfSettings, OneLine, DhcpcSettings;
    LiteralLines();
    MgmtHas(f, TaggedVids(vaps, |vaps|));
    NetconfSays(f, vaps, Set("netconf.1.up", "enabled"));
    NetconfSays(f, vaps, Set("netconf.1.status", "enabled"));
    DhcpcSays(f, vaps, Set("dhcpc.1.status", "enabled"));
    if OneLine(f.mgmtDev) {
      NetconfSays(f, vaps, Set("netconf.1.devname", f.mgmtDev));
      DhcpcSays(f, vaps, Set("dhcpc.1.devname", f.mgmtDev));
    }
  }

  lemma MgmtHas(f: Facts, vids: seq<int>)
    ensures var rows := NetconfSettings(f, vids);
            Set("netconf.1.devname", f.mgmtDev) in rows && Set("netconf.1.status", "enabled") in rows && Set("netconf.1.up", "enabled") in rows
    ensures Set("dhcpc.1.status", "enabled") in DhcpcSettings(f) && Set("dhcpc.1.devname", f.mgmtDev) in DhcpcSettings(f)
  {
    hide EthConfs, RadioConfs, TaggedConfs;
    var rows := MgmtConf(f);
    assert NetconfPrefix(1) == "netconf.1." by { assert Itoa(1) == "1"; }
    assert "netconf.1." + "devname" == "netconf.1.devname" && "netconf.1." + "status" == "netconf.1.status" && "netconf.1." + "up" == "netconf.1.up";
    assert rows[2] in rows && rows[5] in rows && rows[6] in rows;
    assert DhcpcSettings(f)[1] in DhcpcSettings(f) && DhcpcSettings(f)[2] in DhcpcSettings(f);
  }

  lemma DhcpcSays(f: Facts, vaps: seq<VapPlan>, row: Setting)
    requires |f.radios| > 0 && row in DhcpcSettings(f) && OneLine(row.value)
    ensures Says(WirelessCfg(f, vaps), row.key, row.value)
  {
    hide WirelessCfg, Says, OneLine, DhcpcSettings, HeaderSettings, RadioLines, VapLines, Section, Written;
    PlainSays(DhcpcSettings(f), row.key, row.value);
    WholeSays(f, vaps, row.key, row.value);
  }

  /** A device without radios is told that its radio is off and nothing of any vap, bridge or VLAN. */
  lemma NoRadios(f: Facts, vaps: seq<VapPlan>, key: string, value: string)
    requires |f.radios| == 0
    ensures Says(WirelessCfg(f, vaps), "radio.status", "disabled")
    ensures Says(WirelessCfg(f, vaps), key, value) ==> (key == "radio.status" && value == "disabled") || (key != "" && key[0] == 'n')
  {
    hide Written, NetconfSettings, OneLine;
    var rows := NetconfSettings(f, []);
    NetconfFrom(f, []);
    PlainSays(rows, key, value);
    assert WirelessCfg(f, vaps)[1] == KeyValue("radio.status", "disabled");
    if Set(key, value) in rows { var i :| 0 <= i < |rows| && rows[i] == Set(key, value); }
  }

  // ---- configs the planner makes --------------------------------------------------------------------------------------

  /** A rendered plan hands every devname out once, so only the wired ports have to be called otherwise. */
  lemma PlansApart(f: Facts, wls: seq<Wlan>)
    requires forall q, n :: 0 <= q < |f.ethPorts| ==> f.ethPorts[q] != Devname(n)
    ensures DevnamesApart(f, VapsOfFirst(f.radios, |f.radios|, wls))
  {
    hide VapsOfFirst, Devname, WellPlanned;
    PlanSound(f.radios, |f.radios|, wls);
  }
}
