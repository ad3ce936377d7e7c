/** One vap's aaa rows read back: radio-independent parts of its view. */
module ReadVap {
  import opened Options
  import opened Text
  import opened Wlans
  import opened Plan
  import opened Render
  import opened Visible
  import opened Readback
  import opened ReadEap

  // ---- grouping ----------------------------------------------------------------------------------------

  lemma Group3<T>(a: seq<T>, b: seq<T>, c: seq<T>)
    ensures a + b + c == a + (b + c)
  {
  }

  lemma Group4<T>(a: seq<T>, b: seq<T>, c: seq<T>, d: seq<T>)
    ensures a + b + c + d == a + (b + (c + d)) && a + b + c + d == a + (b + c + d)
  {
  }

  lemma Group7<T>(a: seq<T>, b: seq<T>, c: seq<T>, d: seq<T>, e: seq<T>, g: seq<T>, h: seq<T>)
    ensures (a + (b + (c + (d + (e + g))))) + h == a + (b + (c + (d + (e + (g + h)))))
  {
    Group3(e, g, h);
    Group3(d, e + g, h);
    Group3(c, d + (e + g), h);
    Group3(b, c + (d + (e + g)), h);
    Group3(a, b + (c + (d + (e + g))), h);
  }

  // ---- RADIUS ----------------------------------------------------------------------------------------

  function PortText(s: Server, text: string): string {
    if s.port == 0 then text else SignedItoa(s.port)
  }

  lemma ServerRows(kind: string, s: Server, i: nat, text: string, secret: string)
    requires s.ip != ""
    ensures var rp := SlotKey(kind, i);
            Rows(ServerSettings(kind, s, i, text, secret)) ==
            One(rp + "ip", s.ip) + (One(rp + "port", PortText(s, text)) + One(rp + "secret", secret))
  {
    var rp := SlotKey(kind, i);
    var a, b, c := [Set(rp + "ip", s.ip)], [Set(rp + "port", PortText(s, text))], [Set(rp + "secret", secret)];
    assert ServerSettings(kind, s, i, text, secret) == a + (b + c);
    hide Rows, One, ServerSettings, SlotKey;
    RowsConcat(a, b + c);
    RowsConcat(b, c);
    RowsOfOne(rp + "ip", s.ip);
    RowsOfOne(rp + "port", PortText(s, text));
    RowsOfOne(rp + "secret", secret);
  }

  lemma PortLine(s: Server, fallback: nat, text: string)
    requires text == SignedItoa(fallback)
    ensures OneLine(PortText(s, text)) && PortText(s, text) == SignedItoa(EffectivePort(s, fallback).port)
  {
    SignedItoaLine(EffectivePort(s, fallback).port);
  }

  lemma EmptySlot(kind: string, s: Server, i: nat, fallback: nat, text: string, secret: string)
    requires text == SignedItoa(fallback)
    ensures Rows(ServerSettings(kind, s, i, text, secret)) == [] <==> s.ip == ""
  {
    if s.ip == "" {
      EmptyRows("");
    } else {
      ServerRows(kind, s, i, text, secret);
      PortLine(s, fallback, text);
    }
  }

  lemma KeysDiffer(rp: string)
    ensures rp + "ip" != rp + "port"
  {
    assert |rp + "ip"| != |rp + "port"|;
  }

  /** A slot's rows show its view. */
  lemma SlotShows(kind: string, s: Server, t: Server, i: nat, fallback: nat, text: string, x: string, y: string)
    requires text == SignedItoa(fallback)
    requires Rows(ServerSettings(kind, s, i, text, x)) == Rows(ServerSettings(kind, t, i, text, y))
    ensures SlotViewOf(s, fallback, x) == SlotViewOf(t, fallback, y)
  {
    EmptySlot(kind, s, i, fallback, text, x);
    EmptySlot(kind, t, i, fallback, text, y);
    if s.ip != "" {
      var rp := SlotKey(kind, i);
      ServerRows(kind, s, i, text, x);
      ServerRows(kind, t, i, text, y);
      PortLine(s, fallback, text);
      PortLine(t, fallback, text);
      KeysDiffer(rp);
      var p, q := One(rp + "port", PortText(s, text)), One(rp + "port", PortText(t, text));
      hide Rows, ServerSettings, SlotKey, SignedItoa, OneLine;
      PeelOptional(One(rp + "ip", s.ip), p + One(rp + "secret", x), One(rp + "ip", t.ip), q + One(rp + "secret", y), rp + "ip");
      OneShows(rp + "ip", s.ip, t.ip);
      Cancel(p, One(rp + "secret", x), q, One(rp + "secret", y));
      OneShows(rp + "port", PortText(s, text), PortText(t, text));
      OneShows(rp + "secret", x, y);
      SignedItoaInjective(EffectivePort(s, fallback).port, EffectivePort(t, fallback).port);
    }
  }

  /** The rows between auth_cache and dynamic_vlan show the slots and flags. */
  lemma MiddleShows(a: Wlan, b: Wlan, f: Facts, n: nat, c: bool, d: bool)
    requires a.security == "wpa-eap" == b.security && DynamicVlan(a.profile.vlanMode) == DynamicVlan(b.profile.vlanMode)
    requires Rows(MiddleSettings(a, f, n, c)) == Rows(MiddleSettings(b, f, n, d))
    ensures EapViewOf(a.profile, SupportsDas(f)) == EapViewOf(b.profile, SupportsDas(f))
  {
    var p, q := a.profile, b.profile;
    DefaultPorts();
    MiddleDas(a, f, n, c);
    MiddleDas(b, f, n, d);
    MiddleInterim(a, f, n, c);
    MiddleInterim(b, f, n, d);
    hide Rows, Pick, MiddleSettings, SlotAt, SlotViewOf, ServerSettings, SignedItoa, DynamicVlan, HasBit, SlotKey;
    forall i | 0 <= i < MAX_SLOTS
      ensures SlotViews(p.servers, AUTH_PORT, p.secret)[i] == SlotViews(q.servers, AUTH_PORT, q.secret)[i]
      ensures EapViewOf(p, false).acct[i] == EapViewOf(q, false).acct[i]
    {
      MiddleAuth(a, f, n, c, i);
      MiddleAuth(b, f, n, d, i);
      SlotShows("auth", SlotAt(p.servers, i), SlotAt(q.servers, i), i, AUTH_PORT, "1812", p.secret, q.secret);
      MiddleAcct(a, f, n, c, i);
      MiddleAcct(b, f, n, d, i);
      AcctSlotShows(p, q, i);
    }
    assert SlotViews(p.servers, AUTH_PORT, p.secret) == SlotViews(q.servers, AUTH_PORT, q.secret);
    assert EapViewOf(p, false).acct == EapViewOf(q, false).acct;
  }

  function AcctRowsOf(p: Profile, i: nat): seq<Line> {
    if p.accounting then Rows(ServerSettings("acct", SlotAt(p.acctServers, i), i, "1813", p.secret)) else []
  }

  lemma AcctSlotShows(p: Profile, q: Profile, i: nat)
    requires i < MAX_SLOTS && AcctRowsOf(p, i) == AcctRowsOf(q, i)
    ensures EapViewOf(p, false).acct[i] == EapViewOf(q, false).acct[i]
  {
    DefaultPorts();
    hide Rows, SlotAt, ServerSettings, SignedItoa, DynamicVlan;
    var s, t := SlotAt(p.acctServers, i), SlotAt(q.acctServers, i);
    EmptySlot("acct", s, i, ACCT_PORT, "1813", p.secret);
    EmptySlot("acct", t, i, ACCT_PORT, "1813", q.secret);
    if p.accounting && q.accounting {
      SlotShows("acct", s, t, i, ACCT_PORT, "1813", p.secret, q.secret);
    }
  }

  lemma EapSettingsGrouped(w: Wlan, f: Facts, n: nat, c: bool)
    requires w.security == "wpa-eap"
    ensures EapSettings(w, f, n, c) ==
            [Set("auth_cache", "enabled")] + (MiddleSettings(w, f, n, c) + [Set("dynamic_vlan", DynamicVlan(w.profile.vlanMode))])
  {
    hide AuthSettings, AccountingSettings, DynamicVlan;
    Group4([Set("auth_cache", "enabled")], AuthSettings(w.profile, MAX_SLOTS), AccountingSettings(w, f, n, c),
           [Set("dynamic_vlan", DynamicVlan(w.profile.vlanMode))]);
  }

  lemma EapRows(w: Wlan, f: Facts, n: nat, c: bool)
    requires w.security == "wpa-eap"
    ensures Rows(EapSettings(w, f, n, c)) ==
            One("auth_cache", "enabled") + (Rows(MiddleSettings(w, f, n, c)) + One("dynamic_vlan", DynamicVlan(w.profile.vlanMode)))
  {
    hide Rows, One, EapSettings, MiddleSettings, DynamicVlan;
    var head, vlan, middle := [Set("auth_cache", "enabled")], [Set("dynamic_vlan", DynamicVlan(w.profile.vlanMode))], MiddleSettings(w, f, n, c);
    EapSettingsGrouped(w, f, n, c);
    RowsConcat(head, middle + vlan);
    RowsConcat(middle, vlan);
    RowsOfOne("auth_cache", "enabled");
    RowsOfOne("dynamic_vlan", DynamicVlan(w.profile.vlanMode));
  }

  lemma EapShows(a: Wlan, b: Wlan, f: Facts, n: nat, c: bool, d: bool)
    requires a.security == "wpa-eap" == b.security
    requires Rows(EapSettings(a, f, n, c)) == Rows(EapSettings(b, f, n, d))
    ensures EapViewOf(a.profile, SupportsDas(f)) == EapViewOf(b.profile, SupportsDas(f))
  {
    LiteralLines();
    EapRows(a, f, n, c);
    EapRows(b, f, n, d);
    var x, y := One("dynamic_vlan", DynamicVlan(a.profile.vlanMode)), One("dynamic_vlan", DynamicVlan(b.profile.vlanMode));
    assert |x| == 1 == |y|;
    hide Rows, EapSettings, MiddleSettings, DynamicVlan, EapViewOf, OneLine;
    Cancel(One("auth_cache", "enabled"), Rows(MiddleSettings(a, f, n, c)) + x, One("auth_cache", "enabled"), Rows(MiddleSettings(b, f, n, d)) + y);
    CancelEnd(Rows(MiddleSettings(a, f, n, c)), x, Rows(MiddleSettings(b, f, n, d)), y);
    MiddleShows(a, b, f, n, c, d);
  }

  // ---- security ----------------------------------------------------------------------------------------

  function MgmtOf(w: Wlan): string {
    if IsWpa3(w) then "SAE" else if w.security == "wpa-eap" then "WPA-EAP" else "WPA-PSK"
  }

  /** The secured rows before the id. */
  function WpaFixed(wpa3: bool): seq<Setting> {
    [Set("status", "enabled"), Set("verbose", "2"), Set("wpa", if wpa3 then "2" else "3"),
     Set("eapol_version", "2"), Set("wpa.group_rekey", "3600"), Set("p2p", "disabled"), Set("p2p_cross_connect", "disabled"),
     Set("proxy_arp", "disabled"), Set("is_guest", "false"), Set("tdls_prohibit", "disabled"), Set("bss_transition", "enabled")]
  }

  /** What follows the WPA3 rows. */
  function KeyAndRest(w: Wlan, f: Facts, n: nat, c: bool): seq<Line> {
    One("wpa.key.1.mgmt", MgmtOf(w)) + (One("wpa.psk", Psk(w)) + (Rows(EapSettings(w, f, n, c)) + Rows(Cipher)))
  }

  lemma KeyRows(w: Wlan, f: Facts, n: nat, c: bool)
    ensures Rows(KeySettings(w) + (EapSettings(w, f, n, c) + Cipher)) == KeyAndRest(w, f, n, c)
  {
    var m, p := [Set("wpa.key.1.mgmt", MgmtOf(w))], [Set("wpa.psk", Psk(w))];
    assert KeySettings(w) == m + p;
    hide Rows, One, EapSettings, MgmtOf, KeySettings, Psk;
    var rest := EapSettings(w, f, n, c) + Cipher;
    RowsConcat(m + p, rest);
    RowsConcat(m, p);
    RowsConcat(EapSettings(w, f, n, c), Cipher);
    RowsOfOne("wpa.key.1.mgmt", MgmtOf(w));
    RowsOfOne("wpa.psk", Psk(w));
  }

  lemma SecuredGrouped(v: VapPlan, f: Facts, n: nat, c: bool)
    requires v.wlan.security != "open"
    ensures SecuritySettings(v, f, n, c) ==
            WpaFixed(IsWpa3(v.wlan)) + ([Set("id", v.id)] + (Wpa3Settings(v.wlan) + (KeySettings(v.wlan) + (EapSettings(v.wlan, f, n, c) + Cipher))))
  {
    hide EapSettings, KeySettings, Wpa3Settings, IsWpa3;
    var w := v.wlan;
    assert WpaSettings(v) == WpaFixed(IsWpa3(w)) + [Set("id", v.id)];
    hide WpaSettings, WpaFixed;
    Group4(WpaSettings(v), Wpa3Settings(w), KeySettings(w), EapSettings(w, f, n, c));
    Group3(KeySettings(w), EapSettings(w, f, n, c), Cipher);
    Group3(Wpa3Settings(w), KeySettings(w) + EapSettings(w, f, n, c), Cipher);
    Group3(WpaSettings(v), Wpa3Settings(w) + (KeySettings(w) + EapSettings(w, f, n, c)), Cipher);
    Group3(WpaFixed(IsWpa3(w)), [Set("id", v.id)], Wpa3Settings(w) + (KeySettings(w) + (EapSettings(w, f, n, c) + Cipher)));
  }

  lemma SecuredRows(v: VapPlan, f: Facts, n: nat, c: bool)
    requires v.wlan.security != "open"
    ensures Rows(SecuritySettings(v, f, n, c)) ==
            Rows(WpaFixed(IsWpa3(v.wlan))) + (One("id", v.id) + (Rows(Wpa3Settings(v.wlan)) + KeyAndRest(v.wlan, f, n, c)))
  {
    hide Rows, EapSettings, KeySettings, Wpa3Settings, WpaFixed, KeyAndRest, SecuritySettings, IsWpa3;
    SecuredGrouped(v, f, n, c);
    var w := v.wlan;
    var fixed, id, tail := WpaFixed(IsWpa3(w)), [Set("id", v.id)], KeySettings(w) + (EapSettings(w, f, n, c) + Cipher);
    RowsConcat(fixed, id + (Wpa3Settings(w) + tail));
    RowsConcat(id, Wpa3Settings(w) + tail);
    RowsConcat(Wpa3Settings(w), tail);
    RowsOfOne("id", v.id);
    KeyRows(w, f, n, c);
  }

  /** The PSK row of the plain and EAP modes, and the EAP rows behind it. */
  lemma KeyShows(a: Wlan, b: Wlan, f: Facts, n: nat, c: bool, d: bool)
    requires !IsWpa3(a) && !IsWpa3(b) && a.security != "open" && b.security != "open"
    requires KeyAndRest(a, f, n, c) == KeyAndRest(b, f, n, d)
    ensures SecurityViewOf(a, SupportsDas(f)) == SecurityViewOf(b, SupportsDas(f))
  {
    LiteralLines();
    var x, y := Rows(EapSettings(a, f, n, c)), Rows(EapSettings(b, f, n, d));
    var m, k := One("wpa.key.1.mgmt", MgmtOf(a)), One("wpa.key.1.mgmt", MgmtOf(b));
    assert m == [KeyValue("wpa.key.1.mgmt", MgmtOf(a))] && k == [KeyValue("wpa.key.1.mgmt", MgmtOf(b))];
    EapStart(a, f, n, c);
    EapStart(b, f, n, d);
    hide Rows, EapSettings, OneLine, Psk, EapViewOf, One;
    Cancel(m, One("wpa.psk", Psk(a)) + (x + Rows(Cipher)), k, One("wpa.psk", Psk(b)) + (y + Rows(Cipher)));
    MgmtTells(a, b);
    PeelOptional(One("wpa.psk", Psk(a)), x + Rows(Cipher), One("wpa.psk", Psk(b)), y + Rows(Cipher), "wpa.psk");
    OneShows("wpa.psk", Psk(a), Psk(b));
    CancelEnd(x, Rows(Cipher), y, Rows(Cipher));
    if a.security == "wpa-eap" { EapShows(a, b, f, n, c, d); }
  }

  lemma MgmtTells(a: Wlan, b: Wlan)
    requires !IsWpa3(a) && !IsWpa3(b) && MgmtOf(a) == MgmtOf(b)
    ensures (a.security == "wpa-eap") == (b.security == "wpa-eap")
  {
    assert "WPA-EAP"[4] != "WPA-PSK"[4];
  }

  /** What follows a PSK row starts with another key. */
  lemma EapStart(w: Wlan, f: Facts, n: nat, c: bool)
    ensures StartsOtherwise(Rows(EapSettings(w, f, n, c)) + Rows(Cipher), "wpa.psk")
  {
    LiteralLines();
    CipherRows();
    assert "auth_cache"[0] == 'a' && "wpa.1.pairwise"[4] == '1' && "wpa.psk"[0] == 'w' && "wpa.psk"[4] == 'p';
    if w.security == "wpa-eap" {
      EapRows(w, f, n, c);
    } else {
      EmptyRows("");
    }
    hide MiddleSettings, EapSettings;
  }

  lemma CipherRows()
    ensures |Rows(Cipher)| > 0 && KeyOf(Rows(Cipher)[0]) == "wpa.1.pairwise"
  {
    LiteralLines();
    var a, b := [Set("wpa.1.pairwise", "CCMP")], [Set("pmf.cipher", "AES-128-CMAC")];
    assert Cipher == a + b;
    hide Rows;
    RowsConcat(a, b);
    RowsOfOne("wpa.1.pairwise", "CCMP");
  }

  // ---- WPA3 -----------------------------------------------------------------------------------------------

  function Wpa3Fixed(transition: bool): seq<Setting> {
    [Set("wpa3.support", "enabled"), Set("wpa3.transition", OnOff(transition)), Set("wpa3.ft.status", "disabled")]
  }

  function PskKey(transition: bool): string {
    if transition then "wpa.psk" else "sae.psk.1.psk"
  }

  function SaeMac(transition: bool): seq<Line> {
    if transition then [] else One("sae.psk.1.mac", "ff:ff:ff:ff:ff:ff")
  }

  lemma Wpa3Rows(w: Wlan)
    requires IsWpa3(w)
    ensures var t := w.security == "wpa2-wpa3";
            Rows(Wpa3Settings(w)) == Rows(Wpa3Fixed(t)) + (One(PskKey(t), Psk(w)) + SaeMac(t))
  {
    var t := w.security == "wpa2-wpa3";
    var psk, mac := [Set(PskKey(t), Psk(w))], if t then [] else [Set("sae.psk.1.mac", "ff:ff:ff:ff:ff:ff")];
    assert Wpa3Settings(w) == Wpa3Fixed(t) + (psk + mac) by { hide Psk; }
    EmptyRows("");
    hide Rows, One, Wpa3Settings, Wpa3Fixed, PskKey, Psk;
    RowsConcat(Wpa3Fixed(t), psk + mac);
    RowsConcat(psk, mac);
    RowsOfOne(PskKey(t), Psk(w));
    RowsOfOne("sae.psk.1.mac", "ff:ff:ff:ff:ff:ff");
  }

  lemma AfterPsk(w: Wlan, f: Facts, n: nat, c: bool)
    requires IsWpa3(w)
    ensures var t := w.security == "wpa2-wpa3"; StartsOtherwise(SaeMac(t) + KeyAndRest(w, f, n, c), PskKey(t))
  {
    LiteralLines();
    assert |"sae.psk.1.mac"| == 13 == |"sae.psk.1.psk"| && "sae.psk.1.mac"[10] == 'm' && "sae.psk.1.psk"[10] == 'p';
    assert "wpa.key.1.mgmt"[4] == 'k' && "wpa.psk"[4] == 'p';
    assert |One("wpa.key.1.mgmt", MgmtOf(w))| == 1;
    hide Rows, EapSettings, Psk;
  }

  lemma Wpa3Shows(a: Wlan, b: Wlan, f: Facts, n: nat, c: bool, d: bool)
    requires IsWpa3(a) && IsWpa3(b) && (a.security == "wpa2-wpa3") == (b.security == "wpa2-wpa3")
    requires Rows(Wpa3Settings(a)) + KeyAndRest(a, f, n, c) == Rows(Wpa3Settings(b)) + KeyAndRest(b, f, n, d)
    ensures SecurityViewOf(a, SupportsDas(f)) == SecurityViewOf(b, SupportsDas(f))
  {
    var t := a.security == "wpa2-wpa3";
    Wpa3Rows(a);
    Wpa3Rows(b);
    AfterPsk(a, f, n, c);
    AfterPsk(b, f, n, d);
    var x, y := SaeMac(t) + KeyAndRest(a, f, n, c), SaeMac(t) + KeyAndRest(b, f, n, d);
    var p, q := One(PskKey(t), Psk(a)), One(PskKey(t), Psk(b));
    hide Rows, Wpa3Settings, KeyAndRest, SaeMac, Wpa3Fixed, PskKey, Psk, One, OneLine, EapViewOf;
    var fixed := Rows(Wpa3Fixed(t));
    Group4(fixed, p, SaeMac(t), KeyAndRest(a, f, n, c));
    Group4(fixed, q, SaeMac(t), KeyAndRest(b, f, n, d));
    Group3(fixed, p, SaeMac(t));
    Group3(fixed, q, SaeMac(t));
    Cancel(fixed, p + x, fixed, q + y);
    PeelOptional(p, x, q, y, PskKey(t));
    OneShows(PskKey(t), Psk(a), Psk(b));
  }

  // ---- open against secured -----------------------------------------------------------------------------------

  lemma OpenRows(v: VapPlan, f: Facts)
    ensures Rows(OpenSettings(v, f)) == One("status", OnOff(HasBit(f.wifiCaps, 0x2000))) + One("id", v.id)
  {
    var s := OnOff(HasBit(f.wifiCaps, 0x2000));
    assert OpenSettings(v, f) == [Set("status", s)] + [Set("id", v.id)];
    hide Rows, One, OpenSettings;
    RowsConcat([Set("status", s)], [Set("id", v.id)]);
    RowsOfOne("status", s);
    RowsOfOne("id", v.id);
  }

  lemma FixedIsLong(wpa3: bool)
    ensures |Rows(WpaFixed(wpa3))| >= 3
  {
    LiteralLines();
    var w := if wpa3 then "2" else "3";
    var a, b, c := [Set("status", "enabled")], [Set("verbose", "2")], [Set("wpa", w)];
    var rest := WpaFixed(wpa3)[3..];
    assert WpaFixed(wpa3) == a + (b + (c + rest));
    hide Rows, WpaFixed;
    RowsConcat(a, b + (c + rest));
    RowsConcat(b, c + rest);
    RowsConcat(c, rest);
    RowsOfOne("status", "enabled");
    RowsOfOne("verbose", "2");
    RowsOfOne("wpa", w);
  }

  lemma OpenTells(a: VapPlan, b: VapPlan, f: Facts, n: nat, c: bool, d: bool)
    requires Rows(SecuritySettings(a, f, n, c)) == Rows(SecuritySettings(b, f, n, d)) && a.wlan.security == "open"
    ensures b.wlan.security == "open"
  {
    OpenRows(a, f);
    if b.wlan.security != "open" {
      SecuredRows(b, f, n, d);
      FixedIsLong(IsWpa3(b.wlan));
      hide Rows, WpaFixed, KeyAndRest, Wpa3Settings, OpenSettings;
      assert false;
    }
  }

  lemma SecurityShows(a: VapPlan, b: VapPlan, f: Facts, n: nat, c: bool, d: bool)
    requires IsWpa3(a.wlan) == IsWpa3(b.wlan) && (a.wlan.security == "wpa2-wpa3") == (b.wlan.security == "wpa2-wpa3")
    requires Rows(SecuritySettings(a, f, n, c)) == Rows(SecuritySettings(b, f, n, d))
    ensures SecurityViewOf(a.wlan, SupportsDas(f)) == SecurityViewOf(b.wlan, SupportsDas(f)) && Shown(a.id) == Shown(b.id)
  {
    if a.wlan.security == "open" {
      OpenTells(a, b, f, n, c, d);
      OpenRows(a, f);
      OpenRows(b, f);
      hide Rows, OpenSettings, HasBit, OneLine, One;
      var s := One("status", OnOff(HasBit(f.wifiCaps, 0x2000)));
      Cancel(s, One("id", a.id), s, One("id", b.id));
    } else if b.wlan.security == "open" {
      OpenTells(b, a, f, n, d, c);
      assert false;
    } else {
      SecuredShows(a, b, f, n, c, d);
    }
  }

  lemma AfterId(w: Wlan, f: Facts, n: nat, c: bool)
    ensures StartsOtherwise(Rows(Wpa3Settings(w)) + KeyAndRest(w, f, n, c), "id")
  {
    LiteralLines();
    assert |"id"| == 2 && |"wpa3.support"| == 12 && |"wpa.key.1.mgmt"| == 14;
    if IsWpa3(w) {
      Wpa3Rows(w);
      var t := w.security == "wpa2-wpa3";
      var a, rest := [Set("wpa3.support", "enabled")], Wpa3Fixed(t)[1..];
      assert Wpa3Fixed(t) == a + rest;
      hide Rows, Wpa3Fixed, KeyAndRest;
      RowsConcat(a, rest);
      RowsOfOne("wpa3.support", "enabled");
    } else {
      EmptyRows("");
      hide Rows, EapSettings;
      assert |One("wpa.key.1.mgmt", MgmtOf(w))| == 1;
    }
  }

  lemma SecuredShows(a: VapPlan, b: VapPlan, f: Facts, n: nat, c: bool, d: bool)
    requires a.wlan.security != "open" && b.wlan.security != "open"
    requires IsWpa3(a.wlan) == IsWpa3(b.wlan) && (a.wlan.security == "wpa2-wpa3") == (b.wlan.security == "wpa2-wpa3")
    requires Rows(SecuritySettings(a, f, n, c)) == Rows(SecuritySettings(b, f, n, d))
    ensures SecurityViewOf(a.wlan, SupportsDas(f)) == SecurityViewOf(b.wlan, SupportsDas(f)) && Shown(a.id) == Shown(b.id)
  {
    SecuredRows(a, f, n, c);
    SecuredRows(b, f, n, d);
    AfterId(a.wlan, f, n, c);
    AfterId(b.wlan, f, n, d);
    if !IsWpa3(a.wlan) { EmptyRows(""); assert Wpa3Settings(a.wlan) == [] == Wpa3Settings(b.wlan); }
    hide Rows, WpaFixed, KeyAndRest, Wpa3Settings, SecuritySettings, SecurityViewOf, OneLine;
    var fixed := Rows(WpaFixed(IsWpa3(a.wlan)));
    var x, y := Rows(Wpa3Settings(a.wlan)) + KeyAndRest(a.wlan, f, n, c), Rows(Wpa3Settings(b.wlan)) + KeyAndRest(b.wlan, f, n, d);
    Cancel(fixed, One("id", a.id) + x, fixed, One("id", b.id) + y);
    PeelOptional(One("id", a.id), x, One("id", b.id), y, "id");
    if IsWpa3(a.wlan) {
      Wpa3Shows(a.wlan, b.wlan, f, n, c, d);
    } else {
      assert x == KeyAndRest(a.wlan, f, n, c) && y == KeyAndRest(b.wlan, f, n, d);
      KeyShows(a.wlan, b.wlan, f, n, c, d);
    }
  }

  // ---- the head and the whole block ---------------------------------------------------------------------------

  function PmfMode(w: Wlan): string {
    if !IsWpa3(w) then "0" else if w.security == "wpa2-wpa3" then "1" else "2"
  }

  const HeadFixed := [Set("ft.status", "disabled"), Set("country_beacon", "disabled"), Set("11k.status", "disabled")]

  function HeadDev(ath: nat): seq<Setting> {
    [Set("devname", Devname(ath)), Set("driver", "madwifi")]
  }

  lemma HeadRows(v: VapPlan)
    ensures Rows(HeadSettings(v)) ==
            One("pmf.status", OnOff(IsWpa3(v.wlan))) + (One("pmf.mode", PmfMode(v.wlan)) + (Rows(HeadFixed)
            + (One("br.devname", AaaBridge(v.vid)) + (Rows(HeadDev(v.athN)) + One("ssid", SsidOf(v.wlan))))))
  {
    var a, b := [Set("pmf.status", OnOff(IsWpa3(v.wlan)))], [Set("pmf.mode", PmfMode(v.wlan))];
    var br, ssid := [Set("br.devname", AaaBridge(v.vid))], [Set("ssid", SsidOf(v.wlan))];
    assert HeadSettings(v) == a + (b + (HeadFixed + (br + (HeadDev(v.athN) + ssid)))) by { hide IsWpa3, AaaBridge, Devname, SsidOf; }
    hide Rows, One, HeadSettings, HeadDev, PmfMode, IsWpa3, AaaBridge, SsidOf;
    RowsConcat(a, b + (HeadFixed + (br + (HeadDev(v.athN) + ssid))));
    RowsConcat(b, HeadFixed + (br + (HeadDev(v.athN) + ssid)));
    RowsConcat(HeadFixed, br + (HeadDev(v.athN) + ssid));
    RowsConcat(br, HeadDev(v.athN) + ssid);
    RowsConcat(HeadDev(v.athN), ssid);
    RowsOfOne("pmf.status", OnOff(IsWpa3(v.wlan)));
    RowsOfOne("pmf.mode", PmfMode(v.wlan));
    RowsOfOne("br.devname", AaaBridge(v.vid));
    RowsOfOne("ssid", SsidOf(v.wlan));
  }

  lemma PmfTells(a: Wlan, b: Wlan)
    requires PmfMode(a) == PmfMode(b)
    ensures IsWpa3(a) == IsWpa3(b) && (a.security == "wpa2-wpa3") == (b.security == "wpa2-wpa3")
  {
    assert "0"[0] != "1"[0] && "1"[0] != "2"[0] && "0"[0] != "2"[0];
  }

  lemma SecurityStart(v: VapPlan, f: Facts, n: nat, c: bool)
    ensures StartsOtherwise(Rows(SecuritySettings(v, f, n, c)), "ssid")
  {
    LiteralLines();
    assert |"ssid"| == 4 && |"status"| == 6;
    if v.wlan.security == "open" {
      OpenRows(v, f);
      assert |One("status", OnOff(HasBit(f.wifiCaps, 0x2000)))| == 1;
    } else {
      SecuredRows(v, f, n, c);
      FixedStart(IsWpa3(v.wlan));
      hide Rows, WpaFixed, KeyAndRest, Wpa3Settings, SecuritySettings;
    }
  }

  lemma FixedStart(wpa3: bool)
    ensures |Rows(WpaFixed(wpa3))| > 0 && KeyOf(Rows(WpaFixed(wpa3))[0]) == "status"
  {
    LiteralLines();
    var a, rest := [Set("status", "enabled")], WpaFixed(wpa3)[1..];
    assert WpaFixed(wpa3) == a + rest;
    hide Rows, WpaFixed;
    RowsConcat(a, rest);
    RowsOfOne("status", "enabled");
  }

  lemma AaaRowsOf(v: VapPlan, f: Facts, n: nat, c: bool)
    ensures Rows(AaaSettings(v, f, n, c)) == Rows(HeadSettings(v)) + Rows(SecuritySettings(v, f, n, c)) + Rows(Tail)
  {
    hide Rows, HeadSettings, SecuritySettings;
    RowsConcat(HeadSettings(v) + SecuritySettings(v, f, n, c), Tail);
    RowsConcat(HeadSettings(v), SecuritySettings(v, f, n, c));
  }

  /** A vap's aaa rows show its view. */
  lemma AaaShows(a: VapPlan, b: VapPlan, f: Facts, n: nat, c: bool, d: bool)
    requires a.athN == b.athN && a.vid == WrapVid(a.wlan.vlan) && b.vid == WrapVid(b.wlan.vlan)
    requires a.id == WlanIdOf(a.wlan) && b.id == WlanIdOf(b.wlan)
    requires Rows(AaaSettings(a, f, n, c)) == Rows(AaaSettings(b, f, n, d))
    ensures ViewOf(a.wlan, SupportsDas(f)) == ViewOf(b.wlan, SupportsDas(f))
  {
    AaaRowsOf(a, f, n, c);
    AaaRowsOf(b, f, n, d);
    hide Rows, HeadSettings, SecuritySettings, AaaSettings, SecurityViewOf, SsidOf, WlanIdOf, WrapVid, OneLine;
    CancelEnd(Rows(HeadSettings(a)) + Rows(SecuritySettings(a, f, n, c)), Rows(Tail), Rows(HeadSettings(b)) + Rows(SecuritySettings(b, f, n, d)), Rows(Tail));
    HeadShows(a, b, Rows(SecuritySettings(a, f, n, c)), Rows(SecuritySettings(b, f, n, d))) by {
      SecurityStart(a, f, n, c);
      SecurityStart(b, f, n, d);
    }
    SecurityShows(a, b, f, n, c, d);
  }

  lemma HeadShows(a: VapPlan, b: VapPlan, x: seq<Line>, y: seq<Line>)
    requires a.athN == b.athN && Rows(HeadSettings(a)) + x == Rows(HeadSettings(b)) + y
    requires StartsOtherwise(x, "ssid") && StartsOtherwise(y, "ssid")
    ensures IsWpa3(a.wlan) == IsWpa3(b.wlan) && (a.wlan.security == "wpa2-wpa3") == (b.wlan.security == "wpa2-wpa3")
    ensures a.vid == b.vid && Shown(SsidOf(a.wlan)) == Shown(SsidOf(b.wlan)) && x == y
  {
    LiteralLines();
    HeadRows(a);
    HeadRows(b);
    BridgeShows(a.vid, b.vid);
    BridgeShows(b.vid, a.vid);
    var s, s' := One("pmf.status", OnOff(IsWpa3(a.wlan))), One("pmf.status", OnOff(IsWpa3(b.wlan)));
    var m, m' := One("pmf.mode", PmfMode(a.wlan)), One("pmf.mode", PmfMode(b.wlan));
    var br, br' := One("br.devname", AaaBridge(a.vid)), One("br.devname", AaaBridge(b.vid));
    var e, e' := One("ssid", SsidOf(a.wlan)), One("ssid", SsidOf(b.wlan));
    assert |s| == |s'| == |m| == |m'| == |br| == |br'| == 1;
    assert m[0] == KeyValue("pmf.mode", PmfMode(a.wlan)) && m'[0] == KeyValue("pmf.mode", PmfMode(b.wlan));
    assert br[0] == KeyValue("br.devname", AaaBridge(a.vid)) && br'[0] == KeyValue("br.devname", AaaBridge(b.vid));
    hide Rows, One, HeadSettings, HeadDev, PmfMode, IsWpa3, AaaBridge, SsidOf, OneLine;
    var fixed, dev := Rows(HeadFixed), Rows(HeadDev(a.athN));
    Group7(s, m, fixed, br, dev, e, x);
    Group7(s', m', fixed, br', dev, e', y);
    Cancel(s, m + (fixed + (br + (dev + (e + x)))), s', m' + (fixed + (br' + (dev + (e' + y)))));
    Cancel(m, fixed + (br + (dev + (e + x))), m', fixed + (br' + (dev + (e' + y))));
    Cancel(fixed, br + (dev + (e + x)), fixed, br' + (dev + (e' + y)));
    Cancel(br, dev + (e + x), br', dev + (e' + y));
    Cancel(dev, e + x, dev, e' + y);
    PeelOptional(e, x, e', y, "ssid");
    OneShows("ssid", SsidOf(a.wlan), SsidOf(b.wlan));
    PmfTells(a.wlan, b.wlan);
  }
}
