/**
 The pending-candidate note: printed from a discovery datagram (internal/server/discovery.go,
 discoveryNote) and parsed back into a push target (internal/app/setinform.go,
 setInformCandidate).
 */
module Note {
  import opened Options
  import opened Text

  datatype Info = Info(
    uptime: int, version: string, model: string, hostname: string, sshdPort: nat, ip: string,
    shortVer: string, platform: string, essid: string, wmode: int, hasFactory: bool, factory: bool)

  const PREFIX := "discovery:"

  // ---- printer -----------------------------------------------------------------------------

  function StripCommas(v: string): string {
    if v == "" then ""
    else if v[0] == ',' then StripCommas(v[1..])
    else [v[0]] + StripCommas(v[1..])
  }

  function Part(k: string, v: string): string {
    k + "=" + v
  }

  /** addString: a value never contains a comma; an empty one is left out. */
  function StringPart(k: string, v: string): seq<string> {
    if StripCommas(v) != "" then [Part(k, StripCommas(v))] else []
  }

  function IntPart(k: string, v: int): seq<string> {
    if v > 0 then [Part(k, Itoa(v))] else []
  }

  function FactoryPart(info: Info): seq<string> {
    if info.hasFactory then [Part("factory", if info.factory then "true" else "false")] else []
  }

  function HeadParts(info: Info): seq<string> {
    IntPart("uptime", info.uptime) + StringPart("version", info.version)
    + StringPart("model", info.model) + StringPart("hostname", info.hostname)
  }

  function TailParts(info: Info): seq<string> {
    StringPart("shortversion", info.shortVer) + StringPart("platform", info.platform)
    + StringPart("essid", info.essid) + IntPart("wmode", info.wmode)
  }

  function Parts(info: Info): seq<string> {
    HeadParts(info) + (IntPart("sshd_port", info.sshdPort) + (StringPart("ip", info.ip) + (TailParts(info) + FactoryPart(info))))
  }

  function JoinCommas(parts: seq<string>): string {
    if parts == [] then ""
    else if |parts| == 1 then parts[0]
    else parts[0] + "," + JoinCommas(parts[1..])
  }

  function DiscoveryNote(info: Info): string {
    PREFIX + JoinCommas(Parts(info))
  }

  lemma Regroup(h: seq<string>, p: seq<string>, i: seq<string>, t: seq<string>, f: seq<string>)
    ensures h + p + i + t + f == h + (p + (i + (t + f)))
  {
  }

  /** discoveryNote: parts appended one by one, then joined. */
  method PrintNote(info: Info) returns (note: string)
    ensures note == DiscoveryNote(info)
  {
    hide StringPart, JoinCommas, Itoa, StripCommas, Part;
    var parts: seq<string> := [];
    if info.uptime > 0 { parts := parts + [Part("uptime", Itoa(info.uptime))]; }
    parts := parts + StringPart("version", info.version);
    parts := parts + StringPart("model", info.model);
    parts := parts + StringPart("hostname", info.hostname);
    assert parts == HeadParts(info);
    hide HeadParts;
    if info.sshdPort > 0 { parts := parts + [Part("sshd_port", Itoa(info.sshdPort))]; }
    parts := parts + StringPart("ip", info.ip);
    assert parts == HeadParts(info) + IntPart("sshd_port", info.sshdPort) + StringPart("ip", info.ip);
    var tail := PrintTail(info);
    parts := parts + tail;
    if info.hasFactory { parts := parts + [Part("factory", if info.factory then "true" else "false")]; }
    hide TailParts, IntPart;
    assert parts == HeadParts(info) + IntPart("sshd_port", info.sshdPort) + StringPart("ip", info.ip) + TailParts(info) + FactoryPart(info);
    Regroup(HeadParts(info), IntPart("sshd_port", info.sshdPort), StringPart("ip", info.ip), TailParts(info), FactoryPart(info));
    note := PREFIX + JoinCommas(parts);
  }

  method PrintTail(info: Info) returns (parts: seq<string>)
    ensures parts == TailParts(info)
  {
    hide StringPart, JoinCommas, Itoa, StripCommas, Part;
    parts := StringPart("shortversion", info.shortVer);
    parts := parts + StringPart("platform", info.platform);
    parts := parts + StringPart("essid", info.essid);
    if info.wmode > 0 { parts := parts + [Part("wmode", Itoa(info.wmode))]; }
  }

  // ---- parser --------------------------------------------------------------------------------

  datatype Target = Target(ip: string, sshdPort: int)

  datatype ParseError = NonDialablePort(text: string) | NoIp

  /** (target, applies, error) as the source returns them. */
  datatype Candidate = Candidate(target: Target, applies: bool, error: Option<ParseError>)

  /** The loop's state: the target so far and whether the factory mark was seen, or the early refusal. */
  datatype Scan = Scan(target: Target, marked: bool) | Refused(reached: Target, text: string)

  function IndexOf(s: string, c: char): (i: nat)
    ensures i <= |s|
  {
    if s == "" || s[0] == c then 0 else 1 + IndexOf(s[1..], c)
  }

  function KeyOf(part: string): string {
    part[..IndexOf(part, '=')]
  }

  function ValueOf(part: string): string {
    var i := IndexOf(part, '=');
    if i < |part| then part[i + 1..] else ""
  }

  function Digest(st: Scan, part: string): Scan
    requires st.Scan?
  {
    var k, v := KeyOf(part), ValueOf(part);
    if k == "factory" then if v == "true" then st.(marked := true) else st
    else if k == "ip" then st.(target := st.target.(ip := v))
    else if k == "sshd_port" then
      var n := Atoi(v);
      if n.None? || n.value < 1 || n.value > 65535 then Refused(st.target, v)
      else st.(target := st.target.(sshdPort := n.value))
    else st
  }

  function ScanBody(body: string, st: Scan): Scan
    decreases |body|
  {
    if body == "" || st.Refused? then st
    else
      var i := IndexOf(body, ',');
      ScanBody(if i < |body| then body[i + 1..] else "", Digest(st, body[..i]))
  }

  const Unset := Scan(Target("", 22), false)

  function Finish(body: string, st: Scan): Candidate {
    match st
    case Refused(t, text) => Candidate(t, true, Some(NonDialablePort(text)))
    case Scan(t, marked) =>
      if body == "" then Candidate(t, false, None)
      else if marked && t.ip == "" then Candidate(t, true, Some(NoIp))
      else Candidate(t, marked, None)
  }

  function SetInformCandidate(note: string): Candidate {
    if !(PREFIX <= note) then Candidate(Unset.target, false, None)
    else Finish(note[|PREFIX|..], ScanBody(note[|PREFIX|..], Unset))
  }

  lemma ScanStep(body: string, st: Scan)
    requires body != "" && st.Scan?
    ensures var i := IndexOf(body, ',');
            ScanBody(body, st) == ScanBody(if i < |body| then body[i + 1..] else "", Digest(st, body[..i]))
  {
  }

  lemma ScanEnds(body: string, st: Scan)
    ensures body == "" || st.Refused? ==> ScanBody(body, st) == st
  {
  }

  /** setInformCandidate: consumes the note part by part. */
  method ParseNote(note: string) returns (c: Candidate)
    ensures c == SetInformCandidate(note)
  {
    hide Atoi, IndexOf, ScanBody;
    var target, marked, partCount := Target("", 22), false, 0;
    if !(PREFIX <= note) {
      return Candidate(target, false, None);
    }
    var body := note[|PREFIX|..];
    while |body| > 0
      invariant partCount >= 0 && (partCount == 0 <==> body == note[|PREFIX|..])
      invariant |body| <= |note| - |PREFIX| && (partCount > 0 ==> |body| < |note| - |PREFIX|)
      invariant ScanBody(note[|PREFIX|..], Unset) == ScanBody(body, Scan(target, marked))
      decreases |body|
    {
      ScanStep(body, Scan(target, marked));
      partCount := partCount + 1;
      var i := IndexOf(body, ',');
      var part := body[..i];
      ghost var st := Digest(Scan(target, marked), part);
      body := if i < |body| then body[i + 1..] else "";
      var j := IndexOf(part, '=');
      var key, val := part[..j], if j < |part| then part[j + 1..] else "";
      if key == "factory" {
        if val == "true" {
          marked := true;
        }
      } else if key == "ip" {
        target := target.(ip := val);
      } else if key == "sshd_port" {
        var n := Atoi(val);
        if n.None? || n.value < 1 || n.value > 65535 {
          assert st == Refused(target, val);
          ScanEnds(body, st);
          return Candidate(target, true, Some(NonDialablePort(val)));
        }
        target := target.(sshdPort := n.value);
      }
      assert st == Scan(target, marked);
    }
    ScanEnds(body, Scan(target, marked));
    if partCount == 0 {
      return Candidate(target, false, None);
    }
    if marked && target.ip == "" {
      return Candidate(target, true, Some(NoIp));
    }
    c := Candidate(target, marked, None);
  }

  // ---- the two sides agree ---------------------------------------------------------------------

  predicate CommaFree(s: string) {
    forall i :: 0 <= i < |s| ==> s[i] != ','
  }

  lemma {:induction false} StripMeaning(v: string)
    ensures CommaFree(StripCommas(v))
    ensures CommaFree(v) ==> StripCommas(v) == v
  {
    if v != "" {
      StripMeaning(v[1..]);
      if CommaFree(v) {
        assert v[0] != ',' && CommaFree(v[1..]) && v == [v[0]] + v[1..];
      }
    }
  }

  lemma {:induction false} IndexOfAbsent(s: string, c: char)
    requires forall i :: 0 <= i < |s| ==> s[i] != c
    ensures IndexOf(s, c) == |s|
  {
    if s != "" { IndexOfAbsent(s[1..], c); }
  }

  lemma {:induction false} IndexOfFirst(s: string, c: char, rest: string)
    requires forall i :: 0 <= i < |s| ==> s[i] != c
    ensures IndexOf(s + [c] + rest, c) == |s|
  {
    if s == "" {
      assert ("" + [c] + rest)[0] == c;
    } else {
      IndexOfFirst(s[1..], c, rest);
      assert (s + [c] + rest)[1..] == s[1..] + [c] + rest && (s + [c] + rest)[0] == s[0];
    }
  }

  lemma PartSplits(k: string, v: string)
    requires forall i :: 0 <= i < |k| ==> k[i] != '='
    ensures KeyOf(Part(k, v)) == k && ValueOf(Part(k, v)) == v
  {
    IndexOfFirst(k, '=', v);
    assert Part(k, v) == k + ['='] + v;
  }

  /** The parser's state after a list of parts. */
  function Fold(parts: seq<string>, st: Scan): Scan {
    if parts == [] || st.Refused? then st else Fold(parts[1..], Digest(st, parts[0]))
  }

  lemma {:induction false} FoldConcat(a: seq<string>, b: seq<string>, st: Scan)
    ensures Fold(a + b, st) == Fold(b, Fold(a, st))
  {
    if a == [] {
      assert a + b == b;
    } else if st.Scan? {
      FoldConcat(a[1..], b, Digest(st, a[0]));
      assert (a + b)[1..] == a[1..] + b;
    }
  }

  ghost predicate PlainParts(parts: seq<string>) {
    forall i :: 0 <= i < |parts| ==> parts[i] != "" && CommaFree(parts[i])
  }

  /** No value can introduce a part: the parser sees exactly the printed parts. */
  lemma {:induction false} ScanSeesTheParts(parts: seq<string>, st: Scan)
    requires PlainParts(parts)
    ensures ScanBody(JoinCommas(parts), st) == Fold(parts, st)
  {
    if parts == [] || st.Refused? {
    } else if |parts| == 1 {
      IndexOfAbsent(parts[0], ',');
      assert parts[0][..|parts[0]|] == parts[0] && parts[1..] == [];
    } else {
      var body := JoinCommas(parts);
      var rest := JoinCommas(parts[1..]);
      IndexOfFirst(parts[0], ',', rest);
      assert body == parts[0] + [','] + rest;
      assert body[..|parts[0]|] == parts[0] && body[|parts[0]| + 1..] == rest;
      ScanSeesTheParts(parts[1..], Digest(st, parts[0]));
    }
  }

  /** A key the parser only reads past. */
  predicate Informational(k: string) {
    k != "factory" && k != "ip" && k != "sshd_port" && CommaFree(k) && forall i :: 0 <= i < |k| ==> k[i] != '='
  }

  lemma DigitsArePlain(n: nat)
    ensures CommaFree(Itoa(n)) && Itoa(n) != ""
  {
    ItoaDigits(n);
    forall i | 0 <= i < |Itoa(n)| ensures Itoa(n)[i] != ',' { assert Itoa(n)[i] in Itoa(n); }
  }

  lemma StringPartPlain(k: string, v: string)
    requires CommaFree(k)
    ensures PlainParts(StringPart(k, v))
  {
    StripMeaning(v);
  }

  lemma IntPartPlain(k: string, v: int)
    requires CommaFree(k)
    ensures PlainParts(IntPart(k, v))
  {
    if v > 0 { DigitsArePlain(v); }
  }

  lemma StringPartIgnored(k: string, v: string, st: Scan)
    requires Informational(k) && st.Scan?
    ensures Fold(StringPart(k, v), st) == st
  {
    PartSplits(k, StripCommas(v));
    if StripCommas(v) != "" { assert [Part(k, StripCommas(v))][1..] == []; }
  }

  lemma IntPartIgnored(k: string, v: int, st: Scan)
    requires Informational(k) && st.Scan?
    ensures Fold(IntPart(k, v), st) == st
  {
    if v > 0 {
      PartSplits(k, Itoa(v));
      assert [Part(k, Itoa(v))][1..] == [];
    }
  }

  lemma InformationalKeys()
    ensures Informational("uptime") && Informational("version") && Informational("model") && Informational("hostname")
    ensures Informational("shortversion") && Informational("platform") && Informational("essid") && Informational("wmode")
  {
    assert "version"[0] == 'v' && "factory"[0] == 'f';
  }

  lemma HeadIgnored(info: Info, st: Scan)
    requires st.Scan?
    ensures Fold(HeadParts(info), st) == st && PlainParts(HeadParts(info))
  {
    InformationalKeys();
    hide Informational, Fold, StringPart, IntPart;
    var a, b, c, d := IntPart("uptime", info.uptime), StringPart("version", info.version), StringPart("model", info.model), StringPart("hostname", info.hostname);
    IntPartIgnored("uptime", info.uptime, st);
    StringPartIgnored("version", info.version, st);
    StringPartIgnored("model", info.model, st);
    StringPartIgnored("hostname", info.hostname, st);
    FoldConcat(a, b, st);
    FoldConcat(a + b, c, st);
    FoldConcat(a + b + c, d, st);
    IntPartPlain("uptime", info.uptime);
    StringPartPlain("version", info.version);
    StringPartPlain("model", info.model);
    StringPartPlain("hostname", info.hostname);
  }

  lemma TailIgnored(info: Info, st: Scan)
    requires st.Scan?
    ensures Fold(TailParts(info), st) == st && PlainParts(TailParts(info))
  {
    InformationalKeys();
    hide Informational, Fold, StringPart, IntPart;
    var a, b, c, d := StringPart("shortversion", info.shortVer), StringPart("platform", info.platform), StringPart("essid", info.essid), IntPart("wmode", info.wmode);
    StringPartIgnored("shortversion", info.shortVer, st);
    StringPartIgnored("platform", info.platform, st);
    StringPartIgnored("essid", info.essid, st);
    IntPartIgnored("wmode", info.wmode, st);
    FoldConcat(a, b, st);
    FoldConcat(a + b, c, st);
    FoldConcat(a + b + c, d, st);
    StringPartPlain("shortversion", info.shortVer);
    StringPartPlain("platform", info.platform);
    StringPartPlain("essid", info.essid);
    IntPartPlain("wmode", info.wmode);
  }

  function PortOf(info: Info): nat {
    if info.sshdPort == 0 then 22 else info.sshdPort
  }

  /** What the announced port makes of a scan; TLV28 carries 32 bits, so it may be no port at all. */
  function PortRead(info: Info, st: Scan): Scan
    requires st.Scan?
  {
    if info.sshdPort == 0 then st
    else if info.sshdPort > 65535 then Refused(st.target, Itoa(info.sshdPort))
    else st.(target := st.target.(sshdPort := info.sshdPort))
  }

  lemma PortScanned(info: Info, st: Scan)
    requires st.Scan?
    ensures var parts := IntPart("sshd_port", info.sshdPort); Fold(parts, st) == PortRead(info, st) && PlainParts(parts)
  {
    IntPartPlain("sshd_port", info.sshdPort);
    if info.sshdPort > 0 {
      PartSplits("sshd_port", Itoa(info.sshdPort));
      AtoiItoa(info.sshdPort);
      assert [Part("sshd_port", Itoa(info.sshdPort))][1..] == [];
    }
  }

  lemma IpScanned(info: Info, st: Scan)
    requires st.Scan?
    ensures var parts := StringPart("ip", info.ip);
            Fold(parts, st) == (if StripCommas(info.ip) == "" then st else st.(target := st.target.(ip := StripCommas(info.ip)))) && PlainParts(parts)
  {
    StringPartPlain("ip", info.ip);
    if StripCommas(info.ip) != "" {
      PartSplits("ip", StripCommas(info.ip));
      assert [Part("ip", StripCommas(info.ip))][1..] == [];
    }
  }

  lemma FactoryScanned(info: Info, st: Scan)
    requires st.Scan?
    ensures var parts := FactoryPart(info);
            Fold(parts, st) == (if info.hasFactory && info.factory then st.(marked := true) else st) && PlainParts(parts)
  {
    if info.hasFactory {
      var v := if info.factory then "true" else "false";
      PartSplits("factory", v);
      assert "true"[0] == 't' && "false"[0] == 'f';
      assert [Part("factory", v)][1..] == [];
    }
  }

  /** The whole printed note as the parser's loop leaves it. */
  function NoteRead(info: Info): Scan {
    if info.sshdPort > 65535 then Refused(Unset.target, Itoa(info.sshdPort))
    else Scan(Target(StripCommas(info.ip), PortOf(info)), info.hasFactory && info.factory)
  }

  /** The parts behind the port. */
  lemma RestScanned(info: Info, st: Scan)
    requires st.Scan? && st.target.ip == "" && !st.marked
    ensures var rest := StringPart("ip", info.ip) + (TailParts(info) + FactoryPart(info));
            && PlainParts(rest)
            && Fold(rest, st) == Scan(st.target.(ip := StripCommas(info.ip)), info.hasFactory && info.factory)
  {
    hide Fold, TailParts, StringPart, FactoryPart, StripCommas;
    var i, t, f := StringPart("ip", info.ip), TailParts(info), FactoryPart(info);
    IpScanned(info, st);
    FoldConcat(i, t + f, st);
    var st' := Fold(i, st);
    TailIgnored(info, st');
    FoldConcat(t, f, st');
    FactoryScanned(info, st');
  }

  lemma PrintedPartsScanned(info: Info)
    ensures PlainParts(Parts(info)) && Fold(Parts(info), Unset) == NoteRead(info)
  {
    hide Fold, HeadParts, TailParts, StringPart, IntPart, FactoryPart, StripCommas, Itoa;
    var h, p, rest := HeadParts(info), IntPart("sshd_port", info.sshdPort), StringPart("ip", info.ip) + (TailParts(info) + FactoryPart(info));
    HeadIgnored(info, Unset);
    FoldConcat(h, p + rest, Unset);
    PortScanned(info, Unset);
    FoldConcat(p, rest, Unset);
    if info.sshdPort > 65535 {
      RestScanned(info, Unset);
      RefusedStays(rest, PortRead(info, Unset));
    } else {
      RestScanned(info, PortRead(info, Unset));
    }
  }

  lemma RefusedStays(parts: seq<string>, st: Scan)
    requires st.Refused?
    ensures Fold(parts, st) == st
  {
  }

  lemma NonemptyBody(info: Info)
    requires PlainParts(Parts(info))
    ensures StripCommas(info.ip) != "" || info.sshdPort != 0 || info.hasFactory ==> JoinCommas(Parts(info)) != ""
  {
    hide HeadParts, TailParts, StripCommas, Itoa;
    var parts := Parts(info);
    if parts != [] {
      assert parts[0] != "";
    }
  }

  /**
   For every announcement: the push lane fires exactly when the device carried a true factory
   mark or announced a number no port can have. In the second case it fires with that number as
   the error and no address; otherwise it dials exactly the address and port that were announced,
   whatever the device put into its strings.
   */
  lemma PrinterAndParserAgree(info: Info)
    ensures var c := SetInformCandidate(DiscoveryNote(info)); var ip := StripCommas(info.ip);
            && (c.applies <==> info.sshdPort > 65535 || (info.hasFactory && info.factory))
            && (info.sshdPort > 65535 ==> c == Candidate(Target("", 22), true, Some(NonDialablePort(Itoa(info.sshdPort)))))
            && (info.sshdPort <= 65535 ==> c.target.ip == ip && c.error == if c.applies && ip == "" then Some(NoIp) else None)
            && (info.sshdPort <= 65535 && (ip != "" || info.sshdPort != 0 || info.hasFactory) ==> c.target.sshdPort == PortOf(info))
  {
    PrintedPartsScanned(info);
    hide Fold, Parts, JoinCommas, ScanBody;
    ScanSeesTheParts(Parts(info), Unset);
    var note := DiscoveryNote(info);
    assert note[|PREFIX|..] == JoinCommas(Parts(info));
    NonemptyBody(info);
  }

  /** Exactly the announcements with a true mark, a comma-free address and a possible port are dialled as announced. */
  lemma AddressVerbatim(info: Info)
    ensures SetInformCandidate(DiscoveryNote(info)) == Candidate(Target(info.ip, PortOf(info)), true, None)
        <==> info.sshdPort <= 65535 && info.hasFactory && info.factory && info.ip != "" && CommaFree(info.ip)
  {
    PrinterAndParserAgree(info);
    StripMeaning(info.ip);
  }
}
