/**
 The engine's typed rows and the raw Extra map side by side: absorbing a body, sweeping a reset
 and arming the disconnect event are the same operation on both.
 */
module Projection {
  import opened Options
  import opened Wlans
  import opened Plan
  import opened Delivery
  import opened Engine
  import TrustPolicy
  import Sessions
  import Adapter

  /** One raw row's value. */
  datatype Cell =
    | HashCell(hash: Hash)
    | BlobCell(blob: Blob)
    | SlotsCell(slots: multiset<Slot>)
    | CountCell(count: nat)
    | TimeCell(at: int)
    | StatusCell(status: Status)
    | VersionCell(version: Version)
    | FlagCell
    | TableCell(rows: seq<Row>)
    | TaskCell(task: string)
    | ClientsCell(clients: seq<string>)
    | BlockedCell(sha: Digest<string>)

  type Raw = map<string, Cell>

  const DELIVERY_KEYS := [
    "wlan_cfg_sha", "wlan_cfg_pending_sha", "wlan_cfg_pending_wlans", "wlan_cfg_pending_old_wlans",
    "wlan_cfg_applied_wlans", "wlan_cfg_pending_placements", "wlan_cfg_attempt_sha", "wlan_cfg_attempts",
    "wlan_cfg_last_attempt", "wlan_cfg_delivery_status", "wlan_cfg_not_running_misses", "wlan_cfg_offered_cfgversion"]

  const FLAG_KEYS := ["reboot_on_connect", "setdefault_armed", "cmd_task"]

  const OTHER_ADMIN_KEYS := ["blocked_sta", "blocked_sta_sha", "device_wlans", TrustPolicy.VAP_MISSES, TrustPolicy.REBOOT_MARKER]

  const DISCONNECT := "client_disconnect_pending"
  const RADIO_TABLE := "radio_table"
  const VAP_TABLE := "vap_table"

  /** The keys with a typed field in Engine.Extra. */
  predicate Typed(k: string) {
    k in DELIVERY_KEYS || k == DISCONNECT || k in FLAG_KEYS || k in OTHER_ADMIN_KEYS || k == RADIO_TABLE || k == VAP_TABLE
  }

  function Flag(b: bool): Option<Cell> {
    if b then Some(FlagCell) else None
  }

  function Count(n: nat): Option<Cell> {
    if n == 0 then None else Some(CountCell(n))
  }

  function HashRow(h: Option<Hash>): Option<Cell> {
    match h case None => None case Some(v) => Some(HashCell(v))
  }

  function BlobRow(b: Option<Blob>): Option<Cell> {
    match b case None => None case Some(v) => Some(BlobCell(v))
  }

  function VersionRow(v: Option<Version>): Option<Cell> {
    match v case None => None case Some(u) => Some(VersionCell(u))
  }

  function TableRow(t: Option<seq<Row>>): Option<Cell> {
    match t case None => None case Some(rows) => Some(TableCell(rows))
  }

  function DeliveryRow(b: Bookkeeping, k: string): Option<Cell> {
    if k == "wlan_cfg_sha" then HashRow(b.sha)
    else if k == "wlan_cfg_pending_sha" then HashRow(b.pendingSha)
    else if k == "wlan_cfg_pending_wlans" then BlobRow(b.pendingWlans)
    else if k == "wlan_cfg_pending_old_wlans" then BlobRow(b.pendingOld)
    else if k == "wlan_cfg_applied_wlans" then BlobRow(b.applied)
    else if k == "wlan_cfg_pending_placements" then match b.placements case None => None case Some(p) => Some(SlotsCell(p))
    else if k == "wlan_cfg_attempt_sha" then HashRow(b.attemptSha)
    else if k == "wlan_cfg_attempts" then Count(b.attempts)
    else if k == "wlan_cfg_last_attempt" then if b.lastAttempt == 0 then None else Some(TimeCell(b.lastAttempt))
    else if k == "wlan_cfg_delivery_status" then if b.status == NoStatus then None else Some(StatusCell(b.status))
    else if k == "wlan_cfg_not_running_misses" then Count(b.notRunningMisses)
    else if k == "wlan_cfg_offered_cfgversion" then VersionRow(b.offeredCfg)
    else None
  }

  /** The raw row of one typed field; a field at its zero value has none. */
  function RowAt(x: Extra, k: string): Option<Cell> {
    if k == RADIO_TABLE then TableRow(x.radioTable)
    else if k == VAP_TABLE then TableRow(x.vapTable)
    else if k == DISCONNECT then Flag(x.disconnectPending)
    else if k == TrustPolicy.VAP_MISSES then Count(x.vapMisses)
    else if k == TrustPolicy.REBOOT_MARKER then VersionRow(x.marker)
    else if k == "reboot_on_connect" then Flag(x.rebootArmed)
    else if k == "setdefault_armed" then Flag(x.setdefaultArmed)
    else if k == "cmd_task" then match x.cmdTask case None => None case Some(t) => Some(TaskCell(t))
    else if k == "blocked_sta" then if x.blocked == [] then None else Some(ClientsCell(x.blocked))
    else if k == "blocked_sta_sha" then match x.blockedSha case None => None case Some(s) => Some(BlockedCell(s))
    else if k == "device_wlans" then BlobRow(x.deviceWlans)
    else DeliveryRow(x.delivery, k)
  }

  /** The raw map holds what the typed record says; rows without a typed field are free. */
  ghost predicate Shows(rows: Raw, x: Extra) {
    forall k :: Typed(k) ==> TrustPolicy.At(rows, k) == RowAt(x, k)
  }

  /** A raw body whose two tables are those of the decoded one; everything else in it is free. */
  predicate Carries(raw: Raw, body: Body) {
    TrustPolicy.At(raw, RADIO_TABLE) == TableRow(body.radioTable) && TrustPolicy.At(raw, VAP_TABLE) == TableRow(body.vapTable)
  }

  // ---- classes of the typed keys ---------------------------------------------------------------------

  lemma DeliveryKeysAreOwned(k: string)
    requires k in DELIVERY_KEYS || k == DISCONNECT
    ensures k in TrustPolicy.CONTROLLER_OWNED
  {
    assert TrustPolicy.CONTROLLER_OWNED[..12] == DELIVERY_KEYS && TrustPolicy.CONTROLLER_OWNED[13] == DISCONNECT;
    assert forall c :: c in TrustPolicy.CONTROLLER_OWNED[..12] ==> c in TrustPolicy.CONTROLLER_OWNED;
  }

  lemma AdminKeysAreAdmin(k: string)
    requires k in FLAG_KEYS || k in OTHER_ADMIN_KEYS
    ensures k in TrustPolicy.ADMIN_OWNED
  {
    var a := TrustPolicy.ADMIN_OWNED;
    assert a[4] == "reboot_on_connect" && a[5] == "setdefault_armed" && a[21] == "cmd_task";
    assert a[6] == "blocked_sta" && a[7] == "blocked_sta_sha" && a[20] == "device_wlans";
    assert a[8] == TrustPolicy.VAP_MISSES && a[9] == TrustPolicy.REBOOT_MARKER;
  }

  lemma RadioTableIsRefreshable()
    ensures RADIO_TABLE in TrustPolicy.DEVICE_REFRESHABLE && RADIO_TABLE !in TrustPolicy.ADMIN_OWNED && RADIO_TABLE !in TrustPolicy.CONTROLLER_OWNED
  {
    assert TrustPolicy.DEVICE_REFRESHABLE[0] == RADIO_TABLE;
  }

  lemma VapTableIsFree()
    ensures VAP_TABLE !in TrustPolicy.ADMIN_OWNED && VAP_TABLE !in TrustPolicy.DEVICE_REFRESHABLE && VAP_TABLE !in TrustPolicy.CONTROLLER_OWNED
  {
  }

  /** The class of every typed key. */
  lemma KeyClass(k: string)
    requires Typed(k)
    ensures k in TrustPolicy.CONTROLLER_OWNED <==> k in DELIVERY_KEYS || k == DISCONNECT
    ensures k in TrustPolicy.ADMIN_OWNED <==> k in FLAG_KEYS || k in OTHER_ADMIN_KEYS
    ensures k in TrustPolicy.DEVICE_REFRESHABLE <==> k == RADIO_TABLE
    ensures k in TrustPolicy.CONTROLLER_OWNED ==> k !in TrustPolicy.ADMIN_OWNED && k !in TrustPolicy.DEVICE_REFRESHABLE
  {
    hide TrustPolicy.CONTROLLER_OWNED, TrustPolicy.ADMIN_OWNED, TrustPolicy.DEVICE_REFRESHABLE, DELIVERY_KEYS, FLAG_KEYS, OTHER_ADMIN_KEYS;
    RadioTableIsRefreshable();
    VapTableIsFree();
    if k in DELIVERY_KEYS || k == DISCONNECT {
      DeliveryKeysAreOwned(k);
      if k in FLAG_KEYS || k in OTHER_ADMIN_KEYS { AdminKeysAreAdmin(k); }
      TrustPolicy.ClassesApart(k);
    } else if k in FLAG_KEYS || k in OTHER_ADMIN_KEYS {
      AdminKeysAreAdmin(k);
      if k in TrustPolicy.CONTROLLER_OWNED { TrustPolicy.ClassesApart(k); }
      AdminNotRefreshable(k);
    }
  }

  lemma AdminNotRefreshable(k: string)
    requires k in FLAG_KEYS || k in OTHER_ADMIN_KEYS
    ensures k !in TrustPolicy.DEVICE_REFRESHABLE
  {
  }

  // ---- absorption ---------------------------------------------------------------------------------------

  lemma AbsorbAt(record: Raw, raw: Raw, after: Raw, r: Record, body: Body, now: int, k: string)
    requires Shows(record, r.extra) && Carries(raw, body) && TrustPolicy.Absorbed(record, raw, after) && Typed(k)
    ensures TrustPolicy.At(after, k) == RowAt(Absorb(r, body, now).extra, k) <==> (k in TrustPolicy.CONTROLLER_OWNED && k in raw ==> k in record)
  {
    hide DeliveryRow, DELIVERY_KEYS, FLAG_KEYS, OTHER_ADMIN_KEYS;
    hide TrustPolicy.CONTROLLER_OWNED, TrustPolicy.ADMIN_OWNED, TrustPolicy.DEVICE_REFRESHABLE;
    assert TrustPolicy.At(after, k) == TrustPolicy.RowAfter(record, raw, k);
    assert TrustPolicy.At(record, k) == RowAt(r.extra, k);
    VapTableIsFree();
    RadioTableIsRefreshable();
    KeyClass(k);
  }

  /**
   The record the engine absorbs is what the three passes leave of the raw map, for any raw body
   with those tables, exactly when it carries no controller-owned typed row the record lacks.
   */
  lemma AbsorptionsAgree(record: Raw, raw: Raw, after: Raw, r: Record, body: Body, now: int)
    requires Shows(record, r.extra) && Carries(raw, body) && TrustPolicy.Absorbed(record, raw, after)
    ensures Shows(after, Absorb(r, body, now).extra) <==>
            forall k :: Typed(k) && k in TrustPolicy.CONTROLLER_OWNED && k in raw ==> k in record
  {
    forall k | Typed(k)
      ensures TrustPolicy.At(after, k) == RowAt(Absorb(r, body, now).extra, k) <==> (k in TrustPolicy.CONTROLLER_OWNED && k in raw ==> k in record)
    {
      AbsorbAt(record, raw, after, r, body, now, k);
    }
    hide RowAt, Typed, Absorb;
  }

  // ---- the reset sweep --------------------------------------------------------------------------------------

  lemma SweptDelivery(x: Extra, k: string)
    requires Typed(k) && (k in DELIVERY_KEYS || k == DISCONNECT)
    ensures RowAt(Swept(x), k) == None
  {
    hide DELIVERY_KEYS, FLAG_KEYS, OTHER_ADMIN_KEYS, TrustPolicy.CONTROLLER_OWNED, TrustPolicy.ADMIN_OWNED, TrustPolicy.DEVICE_REFRESHABLE;
    assert DeliveryRow(NoBookkeeping, k) == None;
    KeyClass(k);
    VapTableIsFree();
    RadioTableIsRefreshable();
    AdminLiterals();
    hide DeliveryRow, Typed;
  }

  lemma AdminLiterals()
    ensures "reboot_on_connect" in TrustPolicy.ADMIN_OWNED && "setdefault_armed" in TrustPolicy.ADMIN_OWNED && "cmd_task" in TrustPolicy.ADMIN_OWNED
    ensures "blocked_sta" in TrustPolicy.ADMIN_OWNED && "blocked_sta_sha" in TrustPolicy.ADMIN_OWNED && "device_wlans" in TrustPolicy.ADMIN_OWNED
    ensures TrustPolicy.VAP_MISSES in TrustPolicy.ADMIN_OWNED && TrustPolicy.REBOOT_MARKER in TrustPolicy.ADMIN_OWNED
  {
    hide TrustPolicy.ADMIN_OWNED;
    AdminKeysAreAdmin(FLAG_KEYS[0]);
    AdminKeysAreAdmin(FLAG_KEYS[1]);
    AdminKeysAreAdmin(FLAG_KEYS[2]);
    AdminKeysAreAdmin(OTHER_ADMIN_KEYS[0]);
    AdminKeysAreAdmin(OTHER_ADMIN_KEYS[1]);
    AdminKeysAreAdmin(OTHER_ADMIN_KEYS[2]);
    AdminKeysAreAdmin(OTHER_ADMIN_KEYS[3]);
    AdminKeysAreAdmin(OTHER_ADMIN_KEYS[4]);
  }

  lemma NoDeliveryRow(b: Bookkeeping, k: string)
    requires k !in DELIVERY_KEYS
    ensures DeliveryRow(b, k) == None
  {
    assert forall i :: 0 <= i < 12 ==> DELIVERY_KEYS[i] in DELIVERY_KEYS;
  }

  lemma SweepAt(x: Extra, k: string)
    requires Typed(k)
    ensures RowAt(Swept(x), k) == if k in TrustPolicy.FactoryResetSweepKeys() then None else RowAt(x, k)
  {
    hide Typed, DELIVERY_KEYS, FLAG_KEYS, OTHER_ADMIN_KEYS, DeliveryRow, TrustPolicy.FactoryResetSweepKeys;
    hide TrustPolicy.CONTROLLER_OWNED, TrustPolicy.ADMIN_OWNED, TrustPolicy.DEVICE_REFRESHABLE;
    TrustPolicy.SweepIsControllerOwnedPlusWatchdog(k);
    KeyClass(k);
    if k in TrustPolicy.CONTROLLER_OWNED {
      SweptDelivery(x, k);
    } else {
      NoDeliveryRow(x.delivery, k);
      NoDeliveryRow(NoBookkeeping, k);
    }
  }

  /** Deleting the swept keys from the raw map leaves what the engine's swept record says. */
  lemma SweepsAgree(rows: Raw, x: Extra)
    requires Shows(rows, x)
    ensures Shows(TrustPolicy.SweptRows(rows), Swept(x))
  {
    forall k | Typed(k) ensures TrustPolicy.At(TrustPolicy.SweptRows(rows), k) == RowAt(Swept(x), k) { SweepAt(x, k); }
  }

  // ---- the disconnect event -------------------------------------------------------------------------------------

  /** absorbInform, then refreshClientSessions: the inform's one bit is "a connected client left the table". */
  method Intake(device: Adapter.Device, sessions: Sessions.SessionRecord, body: Body, stations: seq<Sessions.Station>, now: int)
      returns (out: seq<Sessions.Transition>)
    requires device.extra.disconnectPending == sessions.disconnectPending
    requires body.disconnectSeen == Sessions.SomeoneLeft(sessions.rows, Sessions.Present(stations))
    modifies device, sessions
    ensures device.View() == RefreshEvent(Absorb(old(device.View()), body, now), body)
    ensures device.extra.disconnectPending == sessions.disconnectPending
    ensures Sessions.Report(old(sessions.rows), Sessions.Present(stations), now, out)
  {
    hide Sessions.Report, Sessions.Capped, Sessions.Present, Sessions.SomeoneLeft;
    device.AbsorbInform(body, now);
    out := sessions.Refresh(stations, now);
  }
}
