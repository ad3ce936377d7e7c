/**
 The WLAN entity, its stored blob format and the drift hash of an envelope
 (internal/wireless/wireless.go, stored.go and plan.go).
 A sha256 digest is the constructor Sha256 applied to its preimage: digests are
 equal exactly when the hashed values are.
 */
module Wlans {
  import opened Options
  import opened Text

  datatype Digest<T> = Sha256(preimage: T)

  /** RadiusServer and RadiusAcctServer: port 0 means "use the default". */
  datatype Server = Server(ip: string, port: int)

  /** The inline RADIUS profile fields of a WLAN. */
  datatype Profile = Profile(
    servers: seq<Server>, secret: string, vlanMode: string,
    accounting: bool, acctServers: seq<Server>, interim: bool, das: bool)

  const NoProfile := Profile([], "", "", false, [], false, false)

  datatype Wlan = Wlan(
    name: string, ssid: string, security: string, passphrase: string,
    vlan: int, enabled: bool, id: string, band: string, profile: Profile)

  function SsidOf(w: Wlan): string {
    if w.ssid != "" then w.ssid else w.name
  }

  /** On-wire SSIDs of the enabled entries, one per entry. */
  function EnabledSsids(wls: seq<Wlan>): seq<string> {
    if wls == [] then []
    else
      var n := |wls| - 1;
      if wls[n].enabled then EnabledSsids(wls[..n]) + [SsidOf(wls[n])] else EnabledSsids(wls[..n])
  }

  lemma {:induction false} EnabledSsidsMembers(wls: seq<Wlan>)
    ensures forall s :: s in EnabledSsids(wls) <==> exists i :: 0 <= i < |wls| && wls[i].enabled && SsidOf(wls[i]) == s
  {
    if wls != [] {
      var n := |wls| - 1;
      EnabledSsidsMembers(wls[..n]);
      forall s ensures s in EnabledSsids(wls) <==> exists i :: 0 <= i < |wls| && wls[i].enabled && SsidOf(wls[i]) == s {
        if s in EnabledSsids(wls[..n]) {
          var i :| 0 <= i < n && wls[..n][i].enabled && SsidOf(wls[..n][i]) == s;
          assert wls[i].enabled && SsidOf(wls[i]) == s;
        }
        if i :| 0 <= i < |wls| && wls[i].enabled && SsidOf(wls[i]) == s {
          if i < n { assert wls[..n][i] == wls[i]; }
        }
      }
    }
  }

  // ---- stored blobs -----------------------------------------------------------

  /**
   One element of a stored WLAN blob as the reader's struct sees it: single-word
   keys and the snake_case spelling land in base, the Go-field spelling of the
   profile lands in goSpelled. An absent field reads as its zero value.
   */
  datatype StoredWlan = StoredWlan(base: Wlan, goSpelled: Profile)

  type Blob = seq<StoredWlan>

  function EncodeOne(w: Wlan): StoredWlan {
    StoredWlan(w.(profile := NoProfile), w.profile)
  }

  function DecodeOne(s: StoredWlan): Wlan {
    var p, t := s.base.profile, s.goSpelled;
    s.base.(profile := Profile(
      if |p.servers| == 0 then t.servers else p.servers,
      if p.secret == "" then t.secret else p.secret,
      if p.vlanMode == "" then t.vlanMode else p.vlanMode,
      p.accounting || t.accounting,
      if |p.acctServers| == 0 then t.acctServers else p.acctServers,
      p.interim || t.interim,
      p.das || t.das))
  }

  function EncodeStoredWlans(wls: seq<Wlan>): Blob {
    seq(|wls|, i requires 0 <= i < |wls| => EncodeOne(wls[i]))
  }

  function DecodeStoredWlans(b: Blob): seq<Wlan> {
    seq(|b|, i requires 0 <= i < |b| => DecodeOne(b[i]))
  }

  /** Writing a WLAN list and reading it back loses nothing. */
  lemma StoredRoundTrip(wls: seq<Wlan>)
    ensures DecodeStoredWlans(EncodeStoredWlans(wls)) == wls
  {
    var b := EncodeStoredWlans(wls);
    forall i | 0 <= i < |wls| ensures DecodeStoredWlans(b)[i] == wls[i] {
      assert b[i] == EncodeOne(wls[i]);
    }
  }

  /** A blob in the snake_case spelling decodes to the same list as the stored spelling. */
  lemma SnakeSpellingDecodes(wls: seq<Wlan>)
    ensures DecodeStoredWlans(seq(|wls|, i requires 0 <= i < |wls| => StoredWlan(wls[i], NoProfile))) == wls
  {
    var b := seq(|wls|, i requires 0 <= i < |wls| => StoredWlan(wls[i], NoProfile));
    forall i | 0 <= i < |wls| ensures DecodeStoredWlans(b)[i] == wls[i] {
      assert b[i] == StoredWlan(wls[i], NoProfile);
    }
  }

  /** Every text and list of a profile is set. */
  predicate Spelled(p: Profile) {
    |p.servers| > 0 && |p.acctServers| > 0 && p.secret != "" && p.vlanMode != ""
  }

  /** A profile set in snake_case is read as it stands, whatever Go spelling stands beside it; a flag is on when either spelling has it on. */
  lemma SnakeSpellingWins(wls: seq<Wlan>, others: seq<Profile>, i: nat)
    requires |others| == |wls| && i < |wls| && Spelled(wls[i].profile)
    ensures var read := DecodeStoredWlans(seq(|wls|, k requires 0 <= k < |wls| => StoredWlan(wls[k], others[k])))[i];
            read == wls[i].(profile := wls[i].profile.(accounting := read.profile.accounting, interim := read.profile.interim, das := read.profile.das))
            && (read.profile.accounting <==> wls[i].profile.accounting || others[i].accounting)
            && (read.profile.interim <==> wls[i].profile.interim || others[i].interim)
            && (read.profile.das <==> wls[i].profile.das || others[i].das)
  {
    var b := seq(|wls|, k requires 0 <= k < |wls| => StoredWlan(wls[k], others[k]));
    assert b[i] == StoredWlan(wls[i], others[i]);
  }

  // ---- drift hash ----------------------------------------------------------------

  const AUTH_PORT := 1812
  const ACCT_PORT := 1813

  function EffectivePort(s: Server, fallback: int): Server {
    if s.port == 0 then s.(port := fallback) else s
  }

  function EffectivePorts(ss: seq<Server>, fallback: int): seq<Server> {
    seq(|ss|, i requires 0 <= i < |ss| => EffectivePort(ss[i], fallback))
  }

  datatype RadiusCanon = NoRadius | Radius(secret: string, vlanMode: string, servers: seq<Server>)
  datatype AcctCanon = NoAcct | Acct(servers: seq<Server>, interim: bool, das: bool)

  /** What one WLAN contributes to the hashed JSON. */
  datatype CanonWlan = CanonWlan(
    name: string, ssid: string, security: string, passphrase: string,
    vlan: int, enabled: bool, id: string, band: string,
    radius: RadiusCanon, acct: AcctCanon)

  type Hash = Digest<seq<CanonWlan>>

  function EffectiveBand(w: Wlan): string {
    if w.band == "" then "both" else w.band
  }

  function CanonOf(w: Wlan): CanonWlan {
    var p := w.profile;
    CanonWlan(
      w.name, w.ssid, w.security, w.passphrase, w.vlan, w.enabled, w.id, EffectiveBand(w),
      if |p.servers| > 0 || p.secret != "" || p.vlanMode != ""
      then Radius(p.secret, if p.vlanMode == "" then "disabled" else p.vlanMode, EffectivePorts(p.servers, AUTH_PORT))
      else NoRadius,
      if p.accounting then Acct(EffectivePorts(p.acctServers, ACCT_PORT), p.interim, p.das) else NoAcct)
  }

  function CanonList(wls: seq<Wlan>): seq<CanonWlan> {
    seq(|wls|, i requires 0 <= i < |wls| => CanonOf(wls[i]))
  }

  function WlanListHash(wls: seq<Wlan>): Hash {
    Sha256(CanonList(wls))
  }
}
