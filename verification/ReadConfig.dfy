/** A whole rendered config read back: which vap sits on which radio, and each vap's view. */
module ReadConfig {
  import opened Options
  import opened Text
  import opened Wlans
  import opened Plan
  import opened Render
  import opened Visible
  import opened Readback
  import opened ReadEap
  import opened ReadVap

  // ---- blocks apart ------------------------------------------------------------------------------------

  ghost predicate PrefixesApart(p: string, q: string) {
    forall k: string :: !(p <= q + k)
  }

  lemma NumbersApart(head: string, n: nat, m: nat)
    requires n != m
    ensures PrefixesApart(head + Itoa(n) + ".", head + Itoa(m) + ".")
  {
    hide Itoa;
    forall k: string ensures !(head + Itoa(n) + "." <= head + Itoa(m) + "." + k) {
      if head + Itoa(n) + "." <= head + Itoa(m) + "." + k {
        assert (head + Itoa(n) + ".")[|head|..] == Itoa(n) + ".";
        assert (head + Itoa(m) + "." + k)[|head|..] == Itoa(m) + "." + k;
        DottedPrefix(n, m, k);
        assert false;
      }
    }
  }

  lemma HeadsApart(p: string, q: string)
    requires |p| > 0 && |q| > 0 && p[0] != q[0]
    ensures PrefixesApart(p, q)
  {
    forall k: string ensures !(p <= q + k) {
      assert (q + k)[0] == q[0];
    }
  }

  lemma WrittenApart(prefix: string, rows: seq<Setting>, p: string)
    requires PrefixesApart(p, prefix)
    ensures Pick(Written(prefix, rows), p) == []
  {
    hide Written, Pick;
    WrittenUnder(prefix, rows);
    var lines := Written(prefix, rows);
    forall i | 0 <= i < |lines| ensures !(p <= KeyOf(lines[i])) {
      var key := KeyOf(lines[i]);
      assert key == prefix + key[|prefix|..];
    }
    PickNone(lines, p);
  }

  lemma WrittenPicked(prefix: string, rows: seq<Setting>)
    ensures Pick(Written(prefix, rows), prefix) == Written(prefix, rows)
  {
    WrittenUnder(prefix, rows);
    PickAll(Written(prefix, rows), prefix);
  }

  lemma PrefixHeads(n: nat)
    ensures |AaaPrefix(n)| > 0 && AaaPrefix(n)[0] == 'a' && |RadioPrefix(n)| > 0 && RadioPrefix(n)[0] == 'r'
    ensures |WirelessPrefix(n)| > 0 && WirelessPrefix(n)[0] == 'w'
  {
    hide Itoa;
  }

  // ---- picking a block ------------------------------------------------------------------------------------

  lemma PickBlock(f: Facts, v: VapPlan, n: nat, c: bool, m: nat)
    ensures Pick(VapBlock(f, v, n, c), AaaPrefix(m)) == if n == m then Written(AaaPrefix(n), AaaSettings(v, f, n, c)) else []
    ensures Pick(VapBlock(f, v, n, c), RadioPrefix(m)) == []
  {
    PrefixHeads(n);
    PrefixHeads(m);
    if n != m { NumbersApart("aaa.", m, n); }
    hide Pick, Written, AaaSettings, WirelessSettings, AaaPrefix, RadioPrefix, WirelessPrefix, PrefixesApart;
    var a, w := Written(AaaPrefix(n), AaaSettings(v, f, n, c)), Written(WirelessPrefix(n), WirelessSettings(v, f));
    PickConcat(a, w, AaaPrefix(m));
    PickConcat(a, w, RadioPrefix(m));
    HeadsApart(AaaPrefix(m), WirelessPrefix(n));
    HeadsApart(RadioPrefix(m), WirelessPrefix(n));
    HeadsApart(RadioPrefix(m), AaaPrefix(n));
    WrittenApart(WirelessPrefix(n), WirelessSettings(v, f), AaaPrefix(m));
    WrittenApart(WirelessPrefix(n), WirelessSettings(v, f), RadioPrefix(m));
    WrittenApart(AaaPrefix(n), AaaSettings(v, f, n, c), RadioPrefix(m));
    if n == m {
      WrittenPicked(AaaPrefix(n), AaaSettings(v, f, n, c));
    } else {
      assert PrefixesApart(AaaPrefix(m), AaaPrefix(n)) by { AaaApart(m, n); }
      WrittenApart(AaaPrefix(n), AaaSettings(v, f, n, c), AaaPrefix(m));
    }
  }

  lemma AaaApart(n: nat, m: nat)
    requires n != m
    ensures PrefixesApart(AaaPrefix(n), AaaPrefix(m)) && PrefixesApart(RadioPrefix(n), RadioPrefix(m))
  {
    NumbersApart("aaa.", n, m);
    NumbersApart("radio.", n, m);
  }

  lemma EmptyPick(p: string)
    ensures Pick([], p) == []
  {
  }

  lemma {:induction false} PickVapLines(f: Facts, vaps: seq<VapPlan>, k: nat, n: nat)
    requires k <= |vaps|
    ensures Pick(VapLines(f, vaps, k), AaaPrefix(n)) ==
            if 1 <= n <= k then Written(AaaPrefix(n), AaaSettings(vaps[n - 1], f, n, DadDone(vaps, n - 1, f))) else []
    ensures Pick(VapLines(f, vaps, k), RadioPrefix(n)) == []
  {
    hide Pick, VapBlock, Written, AaaSettings, DadDone, AaaPrefix, RadioPrefix;
    EmptyPick(AaaPrefix(n));
    EmptyPick(RadioPrefix(n));
    if k > 0 {
      PickVapLines(f, vaps, k - 1, n);
      var block := VapBlock(f, vaps[k - 1], k, DadDone(vaps, k - 1, f));
      PickConcat(VapLines(f, vaps, k - 1), block, AaaPrefix(n));
      PickConcat(VapLines(f, vaps, k - 1), block, RadioPrefix(n));
      PickBlock(f, vaps[k - 1], k, DadDone(vaps, k - 1, f), n);
    }
  }

  /** The rows of one radio: its own, then its vaps'. */
  function RadioBlock(f: Facts, vaps: seq<VapPlan>, n: nat): seq<Line>
    requires 1 <= n <= |f.radios|
  {
    Written(RadioPrefix(n), RadioSettings(f, f.radios[n - 1])) + Written(RadioPrefix(n), CompanionSettings(vaps, n, |vaps|))
  }

  lemma PickRadioBlock(f: Facts, vaps: seq<VapPlan>, i: nat, n: nat)
    requires 1 <= i <= |f.radios|
    ensures Pick(RadioBlock(f, vaps, i), AaaPrefix(n)) == []
    ensures Pick(RadioBlock(f, vaps, i), RadioPrefix(n)) == if n == i then RadioBlock(f, vaps, i) else []
  {
    PrefixHeads(n);
    PrefixHeads(i);
    hide Pick, Written, RadioSettings, CompanionSettings, AaaPrefix, RadioPrefix, PrefixesApart;
    var s, c := RadioSettings(f, f.radios[i - 1]), CompanionSettings(vaps, i, |vaps|);
    PickConcat(Written(RadioPrefix(i), s), Written(RadioPrefix(i), c), AaaPrefix(n));
    PickConcat(Written(RadioPrefix(i), s), Written(RadioPrefix(i), c), RadioPrefix(n));
    HeadsApart(AaaPrefix(n), RadioPrefix(i));
    WrittenApart(RadioPrefix(i), s, AaaPrefix(n));
    WrittenApart(RadioPrefix(i), c, AaaPrefix(n));
    if n == i {
      WrittenPicked(RadioPrefix(i), s);
      WrittenPicked(RadioPrefix(i), c);
    } else {
      AaaApart(n, i);
      WrittenApart(RadioPrefix(i), s, RadioPrefix(n));
      WrittenApart(RadioPrefix(i), c, RadioPrefix(n));
    }
  }

  lemma {:induction false} PickRadioLines(f: Facts, vaps: seq<VapPlan>, i: nat, n: nat)
    requires i <= |f.radios|
    ensures Pick(RadioLines(f, vaps, i), AaaPrefix(n)) == []
    ensures Pick(RadioLines(f, vaps, i), RadioPrefix(n)) == if 1 <= n <= i then RadioBlock(f, vaps, n) else []
  {
    hide Pick, Written, RadioSettings, CompanionSettings, AaaPrefix, RadioPrefix;
    EmptyPick(AaaPrefix(n));
    EmptyPick(RadioPrefix(n));
    if i > 0 {
      PickRadioLines(f, vaps, i - 1, n);
      PickRadioBlock(f, vaps, i, n);
      var before := RadioLines(f, vaps, i - 1);
      Group3(before, Written(RadioPrefix(i), RadioSettings(f, f.radios[i - 1])), Written(RadioPrefix(i), CompanionSettings(vaps, i, |vaps|)));
      PickConcat(before, RadioBlock(f, vaps, i), AaaPrefix(n));
      PickConcat(before, RadioBlock(f, vaps, i), RadioPrefix(n));
    }
  }

  // ---- the part before the wiring --------------------------------------------------------------------------

  ghost predicate NoHeading(lines: seq<Line>) {
    forall i :: 0 <= i < |lines| ==> !lines[i].Heading?
  }

  lemma CutHeading(a: seq<Line>, x: seq<Line>, b: seq<Line>, y: seq<Line>)
    requires NoHeading(a) && NoHeading(b) && a + x == b + y && |x| > 0 && |y| > 0 && x[0].Heading? && y[0].Heading?
    ensures a == b && x == y
  {
    assert (a + x)[|a|] == x[0] && (b + y)[|b|] == y[0];
    assert forall i :: 0 <= i < |a| ==> (a + x)[i] == a[i];
    assert forall i :: 0 <= i < |b| ==> (b + y)[i] == b[i];
    assert |a| == |b|;
    Cancel(a, x, b, y);
  }

  lemma {:induction false} RadioLinesPlain(f: Facts, vaps: seq<VapPlan>, i: nat)
    requires i <= |f.radios|
    ensures NoHeading(RadioLines(f, vaps, i))
  {
    hide Written, RadioSettings, CompanionSettings, RadioPrefix;
    if i > 0 {
      RadioLinesPlain(f, vaps, i - 1);
      WrittenUnder(RadioPrefix(i), RadioSettings(f, f.radios[i - 1]));
      WrittenUnder(RadioPrefix(i), CompanionSettings(vaps, i, |vaps|));
    }
  }

  lemma {:induction false} VapLinesPlain(f: Facts, vaps: seq<VapPlan>, k: nat)
    requires k <= |vaps|
    ensures NoHeading(VapLines(f, vaps, k))
  {
    hide Written, AaaSettings, WirelessSettings, AaaPrefix, WirelessPrefix, DadDone;
    if k > 0 {
      VapLinesPlain(f, vaps, k - 1);
      WrittenUnder(AaaPrefix(k), AaaSettings(vaps[k - 1], f, k, DadDone(vaps, k - 1, f)));
      WrittenUnder(WirelessPrefix(k), WirelessSettings(vaps[k - 1], f));
    }
  }

  lemma WiringStarts(f: Facts, vaps: seq<VapPlan>)
    ensures |WiringLines(f, vaps)| > 0 && WiringLines(f, vaps)[0].Heading?
  {
    hide Written, TaggedVids, VlanBlock, BridgesSettings, NetconfLines, DhcpcSettings;
  }

  function Body(f: Facts, vaps: seq<VapPlan>): seq<Line> {
    RadioLines(f, vaps, |f.radios|) + VapLines(f, vaps, |vaps|)
  }

  lemma CfgGrouped(f: Facts, x: seq<VapPlan>)
    requires |f.radios| > 0
    ensures WirelessCfg(f, x) == [Heading("# wlans (radio)")] + Written("", HeaderSettings(f)) + (Body(f, x) + WiringLines(f, x))
  {
    hide Written, RadioLines, VapLines, WiringLines, HeaderSettings, NetconfLines;
    var head := [Heading("# wlans (radio)")] + Written("", HeaderSettings(f));
    Group4(head, RadioLines(f, x, |f.radios|), VapLines(f, x, |x|), WiringLines(f, x));
    Group3(RadioLines(f, x, |f.radios|), VapLines(f, x, |x|), WiringLines(f, x));
  }

  lemma BodyPlain(f: Facts, x: seq<VapPlan>)
    ensures NoHeading(Body(f, x))
  {
    RadioLinesPlain(f, x, |f.radios|);
    VapLinesPlain(f, x, |x|);
    hide RadioLines, VapLines;
  }

  lemma SameBody(f: Facts, x: seq<VapPlan>, y: seq<VapPlan>)
    requires |f.radios| > 0 && WirelessCfg(f, x) == WirelessCfg(f, y)
    ensures Body(f, x) == Body(f, y)
  {
    hide Written, Body, WiringLines, HeaderSettings, WirelessCfg, NoHeading;
    CfgGrouped(f, x);
    CfgGrouped(f, y);
    BodyPlain(f, x);
    BodyPlain(f, y);
    WiringStarts(f, x);
    WiringStarts(f, y);
    var head := [Heading("# wlans (radio)")] + Written("", HeaderSettings(f));
    Cancel(head, Body(f, x) + WiringLines(f, x), head, Body(f, y) + WiringLines(f, y));
    CutHeading(Body(f, x), WiringLines(f, x), Body(f, y), WiringLines(f, y));
  }

  lemma PickBody(f: Facts, vaps: seq<VapPlan>, n: nat)
    ensures Pick(Body(f, vaps), AaaPrefix(n)) ==
            if 1 <= n <= |vaps| then Written(AaaPrefix(n), AaaSettings(vaps[n - 1], f, n, DadDone(vaps, n - 1, f))) else []
    ensures Pick(Body(f, vaps), RadioPrefix(n)) == if 1 <= n <= |f.radios| then RadioBlock(f, vaps, n) else []
  {
    hide Pick, RadioLines, VapLines, RadioBlock, Written, AaaSettings, DadDone, AaaPrefix, RadioPrefix;
    PickConcat(RadioLines(f, vaps, |f.radios|), VapLines(f, vaps, |vaps|), AaaPrefix(n));
    PickConcat(RadioLines(f, vaps, |f.radios|), VapLines(f, vaps, |vaps|), RadioPrefix(n));
    PickRadioLines(f, vaps, |f.radios|, n);
    PickVapLines(f, vaps, |vaps|, n);
  }

  // ---- how many vaps, and where ---------------------------------------------------------------------------------

  lemma AaaNonempty(v: VapPlan, f: Facts, n: nat, c: bool)
    ensures Written(AaaPrefix(n), AaaSettings(v, f, n, c)) != []
  {
    WrittenIsPrefixed(AaaPrefix(n), AaaSettings(v, f, n, c));
    AaaRowsOf(v, f, n, c);
    SecurityStart(v, f, n, c);
    hide Written, Rows, HeadSettings, SecuritySettings, AaaSettings, AaaPrefix;
  }

  lemma SameCount(f: Facts, x: seq<VapPlan>, y: seq<VapPlan>)
    requires Body(f, x) == Body(f, y)
    ensures |x| <= |y|
  {
    if |x| > |y| {
      var n := |y| + 1;
      PickBody(f, x, n);
      PickBody(f, y, n);
      AaaNonempty(x[n - 1], f, n, DadDone(x, n - 1, f));
      assert false;
    }
  }

  lemma CompanionStep(vaps: seq<VapPlan>, n: nat, k: nat)
    requires 0 < k <= |vaps|
    ensures var p := if OnRadio(vaps, n, k - 1) > 0 then "virtual." + Itoa(OnRadio(vaps, n, k - 1)) + "." else "";
            Rows(CompanionSettings(vaps, n, k)) ==
            if vaps[k - 1].radioN != n then Rows(CompanionSettings(vaps, n, k - 1))
            else Rows(CompanionSettings(vaps, n, k - 1)) + ([KeyValue(p + "devname", Devname(vaps[k - 1].athN))] + [KeyValue(p + "status", "enabled")])
  {
    if vaps[k - 1].radioN == n {
      var p := if OnRadio(vaps, n, k - 1) > 0 then "virtual." + Itoa(OnRadio(vaps, n, k - 1)) + "." else "";
      var dev, st := [Set(p + "devname", Devname(vaps[k - 1].athN))], [Set(p + "status", "enabled")];
      assert CompanionSettings(vaps, n, k) == CompanionSettings(vaps, n, k - 1) + (dev + st);
      hide Rows, CompanionSettings, Itoa, OnRadio, Devname;
      RowsConcat(CompanionSettings(vaps, n, k - 1), dev + st);
      RowsConcat(dev, st);
      RowsOfOne(p + "devname", Devname(vaps[k - 1].athN));
      RowsOfOne(p + "status", "enabled");
      LiteralLines();
      DevnameLine(vaps[k - 1].athN);
    }
  }

  lemma DevnameLine(ath: nat)
    ensures OneLine(Devname(ath)) && Devname(ath) != "enabled"
  {
    ItoaLine(ath);
    hide Itoa;
    var d := Devname(ath);
    assert "enabled"[0] == 'e' && d[0] == 'a';
    forall i | 0 <= i < |d| ensures d[i] != '\n' && d[i] != '\r' {
      if i >= 3 { assert d[i] == Itoa(ath)[i - 3]; } else { assert d[i] == "ath"[i]; }
    }
  }

  /** A companion row other than a status row names a vap of that radio. */
  ghost predicate Names(vaps: seq<VapPlan>, n: nat, k: nat, l: Line)
    requires k <= |vaps|
  {
    exists j :: 0 <= j < k && vaps[j].radioN == n && l.KeyValue? && l.value == Devname(vaps[j].athN)
  }

  lemma {:induction false} CompanionNames(vaps: seq<VapPlan>, n: nat, k: nat, i: nat)
    requires k <= |vaps| && i < |Rows(CompanionSettings(vaps, n, k))|
    ensures var l := Rows(CompanionSettings(vaps, n, k))[i];
            l.KeyValue? && (l.value == "enabled" || Names(vaps, n, k, l))
  {
    hide CompanionSettings, OnRadio, Devname;
    NoCompanions(vaps, n);
    if k > 0 {
      CompanionStep(vaps, n, k);
      hide Rows;
      var before := Rows(CompanionSettings(vaps, n, k - 1));
      if i < |before| {
        CompanionNames(vaps, n, k - 1, i);
        if Names(vaps, n, k - 1, before[i]) {
          var j :| 0 <= j < k - 1 && vaps[j].radioN == n && before[i].value == Devname(vaps[j].athN);
          assert Names(vaps, n, k, before[i]);
        }
      } else if i == |before| {
        assert Names(vaps, n, k, Rows(CompanionSettings(vaps, n, k))[i]);
      }
    }
  }

  lemma NoCompanions(vaps: seq<VapPlan>, n: nat)
    ensures Rows(CompanionSettings(vaps, n, 0)) == []
  {
    EmptyRows("");
  }

  lemma {:induction false} CompanionListed(vaps: seq<VapPlan>, n: nat, k: nat, j: nat) returns (i: nat)
    requires j < k <= |vaps| && vaps[j].radioN == n
    ensures i < |Rows(CompanionSettings(vaps, n, k))|
    ensures var l := Rows(CompanionSettings(vaps, n, k))[i]; l.KeyValue? && l.value == Devname(vaps[j].athN)
  {
    CompanionStep(vaps, n, k);
    hide CompanionSettings, OnRadio, Devname, Rows;
    if j == k - 1 {
      i := |Rows(CompanionSettings(vaps, n, k - 1))|;
    } else {
      i := CompanionListed(vaps, n, k - 1, j);
    }
  }

  /** Devnames tell the vaps apart, so equal companion rows put every vap on the same radio. */
  lemma SamePlace(x: seq<VapPlan>, y: seq<VapPlan>, n: nat, j: nat)
    requires j < |x| && x[j].radioN == n && Rows(CompanionSettings(x, n, |x|)) == Rows(CompanionSettings(y, n, |y|))
    requires forall k :: 0 <= k < |x| ==> x[k].athN == k
    requires forall k :: 0 <= k < |y| ==> y[k].athN == k
    ensures j < |y| && y[j].radioN == n
  {
    hide CompanionSettings, Rows, Devname;
    var i := CompanionListed(x, n, |x|, j);
    DevnameLine(x[j].athN);
    CompanionNames(y, n, |y|, i);
    var k :| 0 <= k < |y| && y[k].radioN == n && Devname(x[j].athN) == Devname(y[k].athN);
    DevnameInjective(x[j].athN, y[k].athN);
  }

  lemma DevnameInjective(m: nat, n: nat)
    requires Devname(m) == Devname(n)
    ensures m == n
  {
    assert Devname(m)[3..] == Itoa(m) && Devname(n)[3..] == Itoa(n);
    ItoaInjective(m, n);
  }

  // ---- the config shows the views ----------------------------------------------------------------------------------

  lemma SameCompanionRows(f: Facts, x: seq<VapPlan>, y: seq<VapPlan>, n: nat)
    requires Body(f, x) == Body(f, y) && 1 <= n <= |f.radios|
    ensures Rows(CompanionSettings(x, n, |x|)) == Rows(CompanionSettings(y, n, |y|))
  {
    hide Body, Pick, Written, RadioSettings, CompanionSettings, RadioPrefix, Rows, AaaSettings, DadDone, AaaPrefix;
    PickBody(f, x, n);
    PickBody(f, y, n);
    var own := Written(RadioPrefix(n), RadioSettings(f, f.radios[n - 1]));
    Cancel(own, Written(RadioPrefix(n), CompanionSettings(x, n, |x|)), own, Written(RadioPrefix(n), CompanionSettings(y, n, |y|)));
    Unprefixed(RadioPrefix(n), CompanionSettings(x, n, |x|), CompanionSettings(y, n, |y|));
  }

  /** Devnames number the vaps. */
  ghost predicate Counted(x: seq<VapPlan>) {
    forall k :: 0 <= k < |x| ==> x[k].athN == k
  }

  lemma SameRadioOf(f: Facts, x: seq<VapPlan>, y: seq<VapPlan>, j: nat)
    requires Body(f, x) == Body(f, y) && j < |x| && 1 <= x[j].radioN <= |f.radios| && Counted(x) && Counted(y)
    ensures j < |y| && y[j].radioN == x[j].radioN
  {
    hide Body, Rows, CompanionSettings;
    SameCompanionRows(f, x, y, x[j].radioN);
    SamePlace(x, y, x[j].radioN, j);
  }

  lemma SameViewOf(f: Facts, x: seq<VapPlan>, y: seq<VapPlan>, j: nat)
    requires Body(f, x) == Body(f, y) && j < |x| && j < |y| && x[j].athN == y[j].athN
    requires x[j].vid == WrapVid(x[j].wlan.vlan) && y[j].vid == WrapVid(y[j].wlan.vlan)
    requires x[j].id == WlanIdOf(x[j].wlan) && y[j].id == WlanIdOf(y[j].wlan)
    ensures ViewOf(x[j].wlan, SupportsDas(f)) == ViewOf(y[j].wlan, SupportsDas(f))
  {
    hide Body, Pick, Written, AaaSettings, DadDone, ViewOf, AaaPrefix, RadioPrefix, RadioBlock, Rows, WrapVid, WlanIdOf, HasBit;
    PickBody(f, x, j + 1);
    PickBody(f, y, j + 1);
    var c, d := DadDone(x, j, f), DadDone(y, j, f);
    Unprefixed(AaaPrefix(j + 1), AaaSettings(x[j], f, j + 1, c), AaaSettings(y[j], f, j + 1, d));
    AaaShows(x[j], y[j], f, j + 1, c, d);
  }

  lemma PlacedWell(v: VapPlan, radios: seq<Radio>, wls: seq<Wlan>)
    requires WellPlanned(v, radios, wls)
    ensures 1 <= v.radioN <= |radios| && v.vid == WrapVid(v.wlan.vlan) && v.id == WlanIdOf(v.wlan)
  {
  }

  lemma BodyShowsViews(f: Facts, x: seq<VapPlan>, y: seq<VapPlan>, a: seq<Wlan>, b: seq<Wlan>)
    requires Body(f, x) == Body(f, y) && SoundPlan(x, 0, f.radios, a) && SoundPlan(y, 0, f.radios, b)
    ensures VapViews(x, SupportsDas(f)) == VapViews(y, SupportsDas(f))
  {
    hide Body, ViewOf, WellPlanned, HasBit, WrapVid, WlanIdOf;
    SameCount(f, x, y);
    SameCount(f, y, x);
    forall j | 0 <= j < |x| ensures VapViews(x, SupportsDas(f))[j] == VapViews(y, SupportsDas(f))[j] {
      PlacedWell(x[j], f.radios, a);
      PlacedWell(y[j], f.radios, b);
      SameRadioOf(f, x, y, j);
      SameViewOf(f, x, y, j);
    }
  }

  /** Equal rows come from equal views. */
  lemma ConfigShowsViews(f: Facts, a: seq<Wlan>, b: seq<Wlan>)
    requires Rendered(f, a) == Rendered(f, b)
    ensures DeviceViews(f.radios, |f.radios|, a, SupportsDas(f)) == DeviceViews(f.radios, |f.radios|, b, SupportsDas(f))
  {
    hide WirelessCfg, VapsOfFirst, Body, ViewOf, WellPlanned, HasBit, VapViews, SoundPlan;
    var n := |f.radios|;
    if n > 0 {
      hide DeviceViews;
      PlanViews(f.radios, n, a, SupportsDas(f));
      PlanViews(f.radios, n, b, SupportsDas(f));
      PlanSound(f.radios, n, a);
      PlanSound(f.radios, n, b);
      SameBody(f, VapsOfFirst(f.radios, n, a), VapsOfFirst(f.radios, n, b));
      BodyShowsViews(f, VapsOfFirst(f.radios, n, a), VapsOfFirst(f.radios, n, b), a, b);
    }
  }
}
