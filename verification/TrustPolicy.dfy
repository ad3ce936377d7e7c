/**
 The record trust policy (internal/store/trustpolicy.go): which Extra rows survive the
 wholesale swap an inform body makes, and which rows a factory reset sweeps.
 */
module TrustPolicy {
  import opened Options

  const CONTROLLER_OWNED := [
    "wlan_cfg_sha", "wlan_cfg_pending_sha", "wlan_cfg_pending_wlans", "wlan_cfg_pending_old_wlans",
    "wlan_cfg_applied_wlans", "wlan_cfg_pending_placements", "wlan_cfg_attempt_sha", "wlan_cfg_attempts",
    "wlan_cfg_last_attempt", "wlan_cfg_delivery_status", "wlan_cfg_not_running_misses", "wlan_cfg_offered_cfgversion",
    "client_sessions", "client_disconnect_pending"]

  const DEVICE_REFRESHABLE := ["radio_table", "wifi_caps", "fw_caps", "if_table", "ethernet_table", "uplink", "has_eth1"]

  const VAP_MISSES := "wlan_cfg_vap_not_running_misses"
  const REBOOT_MARKER := "wlan_cfg_materialization_reboot"
  const SSH_SHA512 := "ssh_sha512passwd"

  const ADMIN_OWNED := [
    "system_cfg_extra_lines", "mgmt_dev", "anonymous_controller_id", "anonymous_site_id",
    "reboot_on_connect", "setdefault_armed", "blocked_sta", "blocked_sta_sha", VAP_MISSES, REBOOT_MARKER,
    SSH_SHA512, "ssh_md5passwd", "led_override", "disabled", "led_override_color_brightness",
    "led_override_color", "ssh_password", "regulatory_country_code", "ssh_public_keys",
    "radio_intent", "device_wlans", "cmd_task"]

  function At<V>(rows: map<string, V>, k: string): Option<V> {
    if k in rows then Some(rows[k]) else None
  }

  /** What one row holds after a body was absorbed. */
  function RowAfter<V>(record: map<string, V>, body: map<string, V>, k: string): Option<V> {
    if k in ADMIN_OWNED then At(record, k)
    else if k in CONTROLLER_OWNED && k in record then At(record, k)
    else if k in DEVICE_REFRESHABLE && k !in body then At(record, k)
    else At(body, k)
  }

  ghost predicate Absorbed<V(!new)>(record: map<string, V>, body: map<string, V>, after: map<string, V>) {
    forall k :: At(after, k) == RowAfter(record, body, k)
  }

  /** Rows of the first two loops, once the first i controller-owned and j refreshable keys were restored. */
  ghost predicate Restored<V(!new)>(record: map<string, V>, body: map<string, V>, i: nat, j: nat, rows: map<string, V>)
    requires i <= |CONTROLLER_OWNED| && j <= |DEVICE_REFRESHABLE|
  {
    forall k :: At(rows, k) ==
      if k in CONTROLLER_OWNED[..i] && k in record then At(record, k)
      else if k in DEVICE_REFRESHABLE[..j] && k !in body && k in record then At(record, k)
      else At(body, k)
  }

  /** Rows of the third loop, once the first i admin-owned keys were restored or deleted. */
  ghost predicate Guarded<V(!new)>(record: map<string, V>, before: map<string, V>, i: nat, rows: map<string, V>)
    requires i <= |ADMIN_OWNED|
  {
    forall k :: At(rows, k) == if k in ADMIN_OWNED[..i] then At(record, k) else At(before, k)
  }

  /** The Extra map of one device record. */
  class RecordRows<V(!new)> {
    var extra: map<string, V>

    constructor (extra: map<string, V>)
      ensures this.extra == extra
    {
      this.extra := extra;
    }

    /** Absorb: the wholesale swap, then one pass per ownership class. The body is the new map itself from then on. */
    method Absorb(body: map<string, V>)
      modifies this
      ensures Absorbed(old(extra), body, extra)
    {
      var prev := extra;
      extra := body;
      RestoreControllerOwned(prev, body);
      RestoreRefreshable(prev, body);
      GuardAdminOwned(prev);
    }

    method RestoreControllerOwned(prev: map<string, V>, ghost body: map<string, V>)
      requires extra == body
      modifies this
      ensures Restored(prev, body, |CONTROLLER_OWNED|, 0, extra)
    {
      for i := 0 to |CONTROLLER_OWNED|
        invariant Restored(prev, body, i, 0, extra)
      {
        var k := CONTROLLER_OWNED[i];
        assert CONTROLLER_OWNED[..i + 1] == CONTROLLER_OWNED[..i] + [k];
        if k in prev {
          extra := extra[k := prev[k]];
        }
      }
    }

    method RestoreRefreshable(prev: map<string, V>, ghost body: map<string, V>)
      requires Restored(prev, body, |CONTROLLER_OWNED|, 0, extra)
      modifies this
      ensures Restored(prev, body, |CONTROLLER_OWNED|, |DEVICE_REFRESHABLE|, extra)
    {
      for j := 0 to |DEVICE_REFRESHABLE|
        invariant Restored(prev, body, |CONTROLLER_OWNED|, j, extra)
      {
        var k := DEVICE_REFRESHABLE[j];
        assert DEVICE_REFRESHABLE[..j + 1] == DEVICE_REFRESHABLE[..j] + [k];
        if k !in extra && k in prev {
          extra := extra[k := prev[k]];
        }
      }
    }

    method GuardAdminOwned(prev: map<string, V>)
      modifies this
      ensures Guarded(prev, old(extra), |ADMIN_OWNED|, extra)
    {
      for i := 0 to |ADMIN_OWNED|
        invariant Guarded(prev, old(extra), i, extra)
      {
        var k := ADMIN_OWNED[i];
        assert ADMIN_OWNED[..i + 1] == ADMIN_OWNED[..i] + [k];
        if k in prev {
          extra := extra[k := prev[k]];
        } else {
          extra := extra - {k};
        }
      }
    }

    /** The factory reset's sweep. */
    method Sweep()
      modifies this
      ensures extra == SweptRows(old(extra))
    {
      hide FactoryResetSweepKeys, CONTROLLER_OWNED, ADMIN_OWNED;
      var keys := FactoryResetSweepKeys();
      for i := 0 to |keys|
        invariant extra == old(extra) - (set k | k in keys[..i])
      {
        assert keys[..i + 1] == keys[..i] + [keys[i]];
        extra := extra - {keys[i]};
      }
      assert keys[..|keys|] == keys;
    }
  }

  /** The policy leaves no freedom: record and body fix every row. */
  lemma AbsorbedUnique<V(!new)>(record: map<string, V>, body: map<string, V>, a: map<string, V>, b: map<string, V>)
    requires Absorbed(record, body, a) && Absorbed(record, body, b)
    ensures a == b
  {
    hide RowAfter;
    forall k ensures (k in a <==> k in b) && (k in a ==> a[k] == b[k]) {
      assert At(a, k) == At(b, k);
    }
  }

  /** A record's rows after each of a list of bodies, index 0 being the start. */
  ghost predicate Chain<V(!new)>(rows: seq<map<string, V>>, bodies: seq<map<string, V>>) {
    |rows| == |bodies| + 1 && forall i :: 0 <= i < |bodies| ==> Absorbed(rows[i], bodies[i], rows[i + 1])
  }

  /** No sequence of bodies ever writes, wipes or introduces an admin-owned row. */
  lemma {:induction false} AdminRowsOutliveBodies<V(!new)>(rows: seq<map<string, V>>, bodies: seq<map<string, V>>, k: string, n: nat)
    requires Chain(rows, bodies) && k in ADMIN_OWNED && n < |rows|
    ensures At(rows[n], k) == At(rows[0], k)
  {
    if n > 0 {
      AdminRowsOutliveBodies(rows, bodies, k, n - 1);
      assert At(rows[n - 1 + 1], k) == RowAfter(rows[n - 1], bodies[n - 1], k);
    }
  }

  /** The first body among the first n that carries k, if any. */
  function FirstCarrier<V>(bodies: seq<map<string, V>>, k: string, n: nat): Option<V>
    requires n <= |bodies|
  {
    if n == 0 then None
    else if FirstCarrier(bodies, k, n - 1).Some? then FirstCarrier(bodies, k, n - 1)
    else At(bodies[n - 1], k)
  }

  function LastCarrier<V>(bodies: seq<map<string, V>>, k: string, n: nat): Option<V>
    requires n <= |bodies|
  {
    if n == 0 then None
    else if k in bodies[n - 1] then At(bodies[n - 1], k)
    else LastCarrier(bodies, k, n - 1)
  }

  /**
   A controller-owned row the record holds is out of every body's reach; one it never held is
   set by the first body that carries it and protected from then on.
   */
  lemma {:induction false} ControllerRowsStickToTheFirst<V(!new)>(rows: seq<map<string, V>>, bodies: seq<map<string, V>>, k: string, n: nat)
    requires Chain(rows, bodies) && k in CONTROLLER_OWNED && k !in ADMIN_OWNED && k !in DEVICE_REFRESHABLE && n < |rows|
    ensures At(rows[n], k) == if k in rows[0] then At(rows[0], k) else FirstCarrier(bodies, k, n)
  {
    if n > 0 {
      ControllerRowsStickToTheFirst(rows, bodies, k, n - 1);
      assert At(rows[n - 1 + 1], k) == RowAfter(rows[n - 1], bodies[n - 1], k);
    }
  }

  /** A device capability always reads as the last body that reported it left it. */
  lemma {:induction false} CapsFollowTheLast<V(!new)>(rows: seq<map<string, V>>, bodies: seq<map<string, V>>, k: string, n: nat)
    requires Chain(rows, bodies) && k in DEVICE_REFRESHABLE && k !in ADMIN_OWNED && k !in CONTROLLER_OWNED && n < |rows|
    ensures At(rows[n], k) == if LastCarrier(bodies, k, n).Some? then LastCarrier(bodies, k, n) else At(rows[0], k)
  {
    if n > 0 {
      CapsFollowTheLast(rows, bodies, k, n - 1);
      assert At(rows[n - 1 + 1], k) == RowAfter(rows[n - 1], bodies[n - 1], k);
    }
  }

  /** Exactly when one absorption leaves the controller's own rows as the record had them. */
  lemma ControllerRowsUntouchedIff<V(!new)>(record: map<string, V>, body: map<string, V>, after: map<string, V>)
    requires Absorbed(record, body, after)
    ensures (forall k :: k in CONTROLLER_OWNED ==> At(after, k) == At(record, k)) <==>
            (forall k :: k in CONTROLLER_OWNED && k in body ==> k in record)
  {
    forall k | k in CONTROLLER_OWNED
      ensures At(after, k) == At(record, k) <==> (k in body ==> k in record)
    {
      ClassesApart(k);
    }
  }

  /** The classes share no key. */
  lemma ClassesApart(k: string)
    requires k in CONTROLLER_OWNED
    ensures k !in ADMIN_OWNED && k !in DEVICE_REFRESHABLE
  {
    NotRefreshable(k);
    NotAdminOwned(k);
  }

  lemma NotRefreshable(k: string)
    requires k in CONTROLLER_OWNED
    ensures k !in DEVICE_REFRESHABLE
  {
  }

  lemma NotAdminOwned(k: string)
    requires k in CONTROLLER_OWNED
    ensures k !in ADMIN_OWNED
  {
  }

  // ---- the factory reset sweep --------------------------------------------------------------------

  function ExcludeKey(keys: seq<string>, skip: string): seq<string> {
    if keys == [] then []
    else if keys[0] == skip then ExcludeKey(keys[1..], skip)
    else [keys[0]] + ExcludeKey(keys[1..], skip)
  }

  function FactoryResetSweepKeys(): seq<string> {
    ExcludeKey(CONTROLLER_OWNED, SSH_SHA512) + [VAP_MISSES, REBOOT_MARKER]
  }

  function SweptRows<V>(rows: map<string, V>): map<string, V> {
    rows - (set k | k in FactoryResetSweepKeys())
  }

  lemma {:induction false} ExcludeMembers(keys: seq<string>, skip: string)
    ensures forall k :: k in ExcludeKey(keys, skip) <==> k in keys && k != skip
  {
    if keys != [] {
      ExcludeMembers(keys[1..], skip);
      assert keys == [keys[0]] + keys[1..];
    }
  }

  /** A reset sweeps every controller-owned row and, of the admin's, only the two watchdog rows. */
  lemma SweepIsControllerOwnedPlusWatchdog(k: string)
    ensures k in FactoryResetSweepKeys() <==> k in CONTROLLER_OWNED || k == VAP_MISSES || k == REBOOT_MARKER
  {
    ExcludeMembers(CONTROLLER_OWNED, SSH_SHA512);
    if k in CONTROLLER_OWNED { ClassesApart(k); }
  }
}
