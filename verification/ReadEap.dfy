/** The RADIUS part of a vap read back: slots, accounting, dynamic authorization, interim updates. */
module ReadEap {
  import opened Options
  import opened Text
  import opened Wlans
  import opened Plan
  import opened Render
  import opened Visible
  import opened Readback

  ghost predicate KeysUnder(rows: seq<Setting>, p: string) {
    forall i :: 0 <= i < |rows| ==> p <= rows[i].key
  }

  ghost predicate KeysApart(rows: seq<Setting>, p: string) {
    forall i :: 0 <= i < |rows| ==> !(p <= rows[i].key)
  }

  lemma EmptyRows(p: string)
    ensures Rows([]) == [] && Pick([], p) == [] && Pick(Rows([]), p) == []
  {
  }

  lemma {:induction false} RowsUnder(rows: seq<Setting>, p: string)
    requires KeysUnder(rows, p)
    ensures Pick(Rows(rows), p) == Rows(rows)
  {
    hide Rows, Pick, One;
    EmptyRows(p);
    if rows != [] {
      var init, last := rows[..|rows| - 1], rows[|rows| - 1];
      RowsUnder(init, p);
      assert rows == init + [last];
      RowsConcat(init, [last]);
      RowsOfOne(last.key, last.value);
      PickConcat(Rows(init), One(last.key, last.value), p);
      PickAll(One(last.key, last.value), p);
    }
  }

  lemma {:induction false} RowsApart(rows: seq<Setting>, p: string)
    requires KeysApart(rows, p)
    ensures Pick(Rows(rows), p) == []
  {
    hide Rows, Pick, One;
    EmptyRows(p);
    if rows != [] {
      var init, last := rows[..|rows| - 1], rows[|rows| - 1];
      RowsApart(init, p);
      assert rows == init + [last];
      RowsConcat(init, [last]);
      RowsOfOne(last.key, last.value);
      PickConcat(Rows(init), One(last.key, last.value), p);
      PickNone(One(last.key, last.value), p);
    }
  }

  lemma PickRows(a: seq<Setting>, b: seq<Setting>, p: string)
    ensures Pick(Rows(a + b), p) == Pick(Rows(a), p) + Pick(Rows(b), p)
  {
    RowsConcat(a, b);
    PickConcat(Rows(a), Rows(b), p);
  }

  // ---- slots ---------------------------------------------------------------------------------------

  function SlotKey(kind: string, i: nat): string {
    "radius." + kind + "." + Itoa(i + 1) + "."
  }

  lemma SlotRowsUnder(kind: string, s: Server, i: nat, fallback: string, secret: string)
    ensures KeysUnder(ServerSettings(kind, s, i, fallback, secret), SlotKey(kind, i))
  {
    hide Itoa;
  }

  /** Neither another position nor another kind of server starts with a slot's key. */
  lemma SlotRowsApart(kind: string, s: Server, i: nat, fallback: string, secret: string, other: string, j: nat)
    requires |kind| == |other| && (kind != other || i != j)
    ensures KeysApart(ServerSettings(kind, s, i, fallback, secret), SlotKey(other, j))
  {
    hide Itoa;
    var rows := ServerSettings(kind, s, i, fallback, secret);
    forall k | 0 <= k < |rows| ensures !(SlotKey(other, j) <= rows[k].key) {
      SlotKeysApart(kind, i, other, j, rows[k].key[|SlotKey(kind, i)|..]);
      assert rows[k].key == SlotKey(kind, i) + rows[k].key[|SlotKey(kind, i)|..];
    }
  }

  lemma SlotKeysApart(kind: string, i: nat, other: string, j: nat, rest: string)
    requires |kind| == |other| && (kind != other || i != j)
    ensures !(SlotKey(other, j) <= SlotKey(kind, i) + rest)
  {
    hide Itoa;
    var a, b := SlotKey(other, j), SlotKey(kind, i) + rest;
    var n := 7 + |kind|;
    if a <= b {
      assert a[7..n] == other && b[7..n] == kind;
      assert a[7..n] == b[7..n];
      assert a[n + 1..] == Itoa(j + 1) + "." && b[n + 1..] == Itoa(i + 1) + "." + rest;
      assert a[n + 1..] <= b[n + 1..];
      DottedPrefix(j + 1, i + 1, rest);
      assert false;
    }
  }

  lemma {:induction false} PickAuth(p: Profile, k: nat, i: nat)
    requires k <= MAX_SLOTS && i < MAX_SLOTS
    ensures Pick(Rows(AuthSettings(p, k)), SlotKey("auth", i)) ==
            if i < k then Rows(ServerSettings("auth", SlotAt(p.servers, i), i, "1812", p.secret)) else []
  {
    hide Rows, Pick, SlotKey, ServerSettings, SlotAt;
    if k == 0 {
      assert KeysApart([], SlotKey("auth", i));
      RowsApart([], SlotKey("auth", i));
    } else {
      PickAuth(p, k - 1, i);
      var last := ServerSettings("auth", SlotAt(p.servers, k - 1), k - 1, "1812", p.secret);
      PickRows(AuthSettings(p, k - 1), last, SlotKey("auth", i));
      if i == k - 1 {
        SlotRowsUnder("auth", SlotAt(p.servers, i), i, "1812", p.secret);
        RowsUnder(last, SlotKey("auth", i));
      } else {
        SlotRowsApart("auth", SlotAt(p.servers, k - 1), k - 1, "1812", p.secret, "auth", i);
        RowsApart(last, SlotKey("auth", i));
      }
    }
  }

  /** Keys that part after "radius." */
  lemma ApartAtSeven(p: string, key: string)
    requires |p| > 7 && |key| > 7 && p[7] != key[7]
    ensures !(p <= key)
  {
  }

  lemma DasClientApart(p: Profile, k: nat, kind: string, i: nat)
    requires kind == "auth" || kind == "acct"
    ensures KeysApart(DasClientSettings(p, k), SlotKey(kind, i))
  {
    hide Itoa, ClientDone, SlotAt;
    var rows := DasClientSettings(p, k);
    assert SlotKey(kind, i)[7] == 'a';
    forall j | 0 <= j < |rows| ensures !(SlotKey(kind, i) <= rows[j].key) {
      assert rows[j].key[7] == 'd';
      ApartAtSeven(SlotKey(kind, i), rows[j].key);
    }
  }

  lemma {:induction false} PickAcct(p: Profile, k: nat, das: bool, i: nat)
    requires k <= MAX_SLOTS && i < MAX_SLOTS
    ensures Pick(Rows(AcctSettings(p, k, das)), SlotKey("acct", i)) ==
            if i < k then Rows(ServerSettings("acct", SlotAt(p.acctServers, i), i, "1813", p.secret)) else []
  {
    hide Rows, Pick, SlotKey, ServerSettings, SlotAt, DasClientSettings;
    var key := SlotKey("acct", i);
    assert KeysApart([], key);
    RowsApart([], key);
    if k > 0 {
      PickAcct(p, k - 1, das, i);
      var last := ServerSettings("acct", SlotAt(p.acctServers, k - 1), k - 1, "1813", p.secret);
      var client := if das then DasClientSettings(p, k - 1) else [];
      PickRows(AcctSettings(p, k - 1, das), last, key);
      PickRows(AcctSettings(p, k - 1, das) + last, client, key);
      DasClientApart(p, k - 1, "acct", i);
      RowsApart(client, key);
      if i == k - 1 {
        SlotRowsUnder("acct", SlotAt(p.acctServers, i), i, "1813", p.secret);
        RowsUnder(last, key);
      } else {
        SlotRowsApart("acct", SlotAt(p.acctServers, k - 1), k - 1, "1813", p.secret, "acct", i);
        RowsApart(last, key);
      }
    }
  }

  /** The accounting rows hold nothing under a key that none of their four parts starts with. */
  lemma {:induction false} AcctApart(p: Profile, k: nat, das: bool, key: string)
    requires k <= MAX_SLOTS
    requires forall j :: 0 <= j < k ==> KeysApart(ServerSettings("acct", SlotAt(p.acctServers, j), j, "1813", p.secret), key)
    requires das ==> forall j :: 0 <= j < k ==> KeysApart(DasClientSettings(p, j), key)
    ensures KeysApart(AcctSettings(p, k, das), key)
  {
    hide ServerSettings, SlotAt, DasClientSettings;
    if k > 0 { AcctApart(p, k - 1, das, key); }
  }

  lemma {:induction false} AuthApart(p: Profile, k: nat, key: string)
    requires k <= MAX_SLOTS
    requires forall j :: 0 <= j < k ==> KeysApart(ServerSettings("auth", SlotAt(p.servers, j), j, "1812", p.secret), key)
    ensures KeysApart(AuthSettings(p, k), key)
  {
    hide ServerSettings, SlotAt;
    if k > 0 { AuthApart(p, k - 1, key); }
  }

  // ---- the flags --------------------------------------------------------------------------------------

  const DasKey := "radius.das."
  const InterimKey := "interim_update."

  lemma SlotSettingsApartFromFlags(kind: string, s: Server, i: nat, fallback: string, secret: string)
    requires kind == "auth" || kind == "acct"
    ensures KeysApart(ServerSettings(kind, s, i, fallback, secret), DasKey)
    ensures KeysApart(ServerSettings(kind, s, i, fallback, secret), InterimKey)
  {
    hide Itoa, SignedItoa;
    var rows := ServerSettings(kind, s, i, fallback, secret);
    forall j | 0 <= j < |rows| ensures !(DasKey <= rows[j].key) && !(InterimKey <= rows[j].key) {
      assert rows[j].key[0] == 'r' && rows[j].key[7] == 'a';
      ApartAtSeven(DasKey, rows[j].key);
    }
  }

  lemma DasClientApartFromInterim(p: Profile, k: nat)
    ensures KeysApart(DasClientSettings(p, k), InterimKey)
  {
    hide Itoa, ClientDone, SlotAt;
    var rows := DasClientSettings(p, k);
    forall j | 0 <= j < |rows| ensures !(InterimKey <= rows[j].key) {
      assert rows[j].key[0] == 'r';
    }
  }

  lemma DasSettingsApart(n: nat, dadDone: bool, kind: string, i: nat)
    requires kind == "auth" || kind == "acct"
    ensures KeysApart(DasSettings(n, dadDone), SlotKey(kind, i)) && KeysApart(DasSettings(n, dadDone), InterimKey)
  {
    hide Itoa;
    var rows := DasSettings(n, dadDone);
    assert SlotKey(kind, i)[7] == 'a';
    forall j | 0 <= j < |rows| ensures !(SlotKey(kind, i) <= rows[j].key) && !(InterimKey <= rows[j].key) {
      assert rows[j].key[0] == 'r' && rows[j].key[7] == 'd';
      ApartAtSeven(SlotKey(kind, i), rows[j].key);
    }
  }

  function InterimSettings(on: bool): seq<Setting> {
    if on then [Set("interim_update.status", "enabled"), Set("interim_update.interval", "3600")] else []
  }

  lemma InterimApart(on: bool, p: string)
    requires |p| > 0 && p[0] == 'r'
    ensures KeysApart(InterimSettings(on), p)
  {
  }

  lemma InterimUnder(on: bool)
    ensures KeysUnder(InterimSettings(on), InterimKey)
  {
  }

  /** The rows between auth_cache and dynamic_vlan. */
  function MiddleSettings(w: Wlan, f: Facts, n: nat, dadDone: bool): seq<Setting> {
    AuthSettings(w.profile, MAX_SLOTS) + AccountingSettings(w, f, n, dadDone)
  }

  /** The accounting part as its three pieces. */
  lemma AccountingPieces(w: Wlan, f: Facts, n: nat, dadDone: bool)
    ensures var p := w.profile; var das := DasGate(w, f);
            AccountingSettings(w, f, n, dadDone) ==
            if !p.accounting then []
            else (if das then DasSettings(n, dadDone) else []) + AcctSettings(p, MAX_SLOTS, das) + InterimSettings(p.interim)
  {
    hide HasBit, AcctSettings, DasSettings;
  }

  lemma PickAccounting(w: Wlan, f: Facts, n: nat, dadDone: bool, key: string)
    ensures var p := w.profile; var das := DasGate(w, f);
            Pick(Rows(AccountingSettings(w, f, n, dadDone)), key) ==
            if !p.accounting then []
            else Pick(Rows(if das then DasSettings(n, dadDone) else []), key) + Pick(Rows(AcctSettings(p, MAX_SLOTS, das)), key)
                 + Pick(Rows(InterimSettings(p.interim)), key)
  {
    AccountingPieces(w, f, n, dadDone);
    hide AccountingSettings, AcctSettings, DasSettings, InterimSettings, DasGate;
    var p, das := w.profile, DasGate(w, f);
    if p.accounting {
      var head := if das then DasSettings(n, dadDone) else [];
      PickRows(head, AcctSettings(p, MAX_SLOTS, das), key);
      PickRows(head + AcctSettings(p, MAX_SLOTS, das), InterimSettings(p.interim), key);
    } else {
      assert KeysApart([], key);
      RowsApart([], key);
    }
  }

  /** Rows under a slot's key are that slot's rows alone. */
  lemma MiddleAuth(w: Wlan, f: Facts, n: nat, dadDone: bool, i: nat)
    requires i < MAX_SLOTS
    ensures Pick(Rows(MiddleSettings(w, f, n, dadDone)), SlotKey("auth", i)) ==
            Rows(ServerSettings("auth", SlotAt(w.profile.servers, i), i, "1812", w.profile.secret))
  {
    var p, key := w.profile, SlotKey("auth", i);
    hide Rows, Pick, AccountingSettings, AuthSettings, AcctSettings, DasSettings, InterimSettings, DasGate, SlotAt;
    PickRows(AuthSettings(p, MAX_SLOTS), AccountingSettings(w, f, n, dadDone), key);
    PickAuth(p, MAX_SLOTS, i);
    PickAccounting(w, f, n, dadDone, key);
    if p.accounting {
      forall j | 0 <= j < MAX_SLOTS
        ensures KeysApart(ServerSettings("acct", SlotAt(p.acctServers, j), j, "1813", p.secret), key) && KeysApart(DasClientSettings(p, j), key)
      {
        SlotRowsApart("acct", SlotAt(p.acctServers, j), j, "1813", p.secret, "auth", i);
        DasClientApart(p, j, "auth", i);
      }
      AcctApart(p, MAX_SLOTS, DasGate(w, f), key);
      RowsApart(AcctSettings(p, MAX_SLOTS, DasGate(w, f)), key);
      NoFlagRows(w, f, n, dadDone, "auth", i);
    }
  }

  lemma NoFlagRows(w: Wlan, f: Facts, n: nat, dadDone: bool, kind: string, i: nat)
    requires kind == "auth" || kind == "acct"
    ensures Pick(Rows(if DasGate(w, f) then DasSettings(n, dadDone) else []), SlotKey(kind, i)) == []
    ensures Pick(Rows(InterimSettings(w.profile.interim)), SlotKey(kind, i)) == []
  {
    hide Rows, Pick, DasSettings, InterimSettings, DasGate;
    var key := SlotKey(kind, i);
    assert |key| > 0 && key[0] == 'r';
    DasSettingsApart(n, dadDone, kind, i);
    InterimApart(w.profile.interim, key);
    assert KeysApart([], key);
    RowsApart(if DasGate(w, f) then DasSettings(n, dadDone) else [], key);
    RowsApart(InterimSettings(w.profile.interim), key);
  }

  lemma MiddleAcct(w: Wlan, f: Facts, n: nat, dadDone: bool, i: nat)
    requires i < MAX_SLOTS
    ensures Pick(Rows(MiddleSettings(w, f, n, dadDone)), SlotKey("acct", i)) ==
            if w.profile.accounting then Rows(ServerSettings("acct", SlotAt(w.profile.acctServers, i), i, "1813", w.profile.secret)) else []
  {
    var p, key := w.profile, SlotKey("acct", i);
    hide Rows, Pick, AccountingSettings, AuthSettings, AcctSettings, DasSettings, InterimSettings, DasGate, SlotAt;
    PickRows(AuthSettings(p, MAX_SLOTS), AccountingSettings(w, f, n, dadDone), key);
    forall j | 0 <= j < MAX_SLOTS ensures KeysApart(ServerSettings("auth", SlotAt(p.servers, j), j, "1812", p.secret), key) {
      SlotRowsApart("auth", SlotAt(p.servers, j), j, "1812", p.secret, "acct", i);
    }
    AuthApart(p, MAX_SLOTS, key);
    RowsApart(AuthSettings(p, MAX_SLOTS), key);
    PickAccounting(w, f, n, dadDone, key);
    if p.accounting {
      PickAcct(p, MAX_SLOTS, DasGate(w, f), i);
      NoFlagRows(w, f, n, dadDone, "acct", i);
    }
  }

  /** No server row starts with a flag's key. */
  lemma ServersApartFromFlags(p: Profile, das: bool)
    ensures KeysApart(AuthSettings(p, MAX_SLOTS), DasKey) && KeysApart(AuthSettings(p, MAX_SLOTS), InterimKey)
    ensures KeysApart(AcctSettings(p, MAX_SLOTS, das), InterimKey)
    ensures !das ==> KeysApart(AcctSettings(p, MAX_SLOTS, das), DasKey)
  {
    hide AuthSettings, AcctSettings, SlotAt, ServerSettings, DasClientSettings;
    forall j | 0 <= j < MAX_SLOTS
      ensures KeysApart(ServerSettings("auth", SlotAt(p.servers, j), j, "1812", p.secret), DasKey)
      ensures KeysApart(ServerSettings("acct", SlotAt(p.acctServers, j), j, "1813", p.secret), DasKey)
      ensures KeysApart(ServerSettings("auth", SlotAt(p.servers, j), j, "1812", p.secret), InterimKey)
      ensures KeysApart(ServerSettings("acct", SlotAt(p.acctServers, j), j, "1813", p.secret), InterimKey)
      ensures KeysApart(DasClientSettings(p, j), InterimKey)
    {
      SlotSettingsApartFromFlags("auth", SlotAt(p.servers, j), j, "1812", p.secret);
      SlotSettingsApartFromFlags("acct", SlotAt(p.acctServers, j), j, "1813", p.secret);
      DasClientApartFromInterim(p, j);
    }
    AuthApart(p, MAX_SLOTS, DasKey);
    AuthApart(p, MAX_SLOTS, InterimKey);
    AcctApart(p, MAX_SLOTS, das, InterimKey);
    if !das { AcctApart(p, MAX_SLOTS, das, DasKey); }
  }

  /** A das row appears exactly when the gate is open. */
  lemma MiddleDas(w: Wlan, f: Facts, n: nat, dadDone: bool)
    ensures (Pick(Rows(MiddleSettings(w, f, n, dadDone)), DasKey) != []) == DasGate(w, f)
  {
    var p := w.profile;
    assert DasGate(w, f) ==> p.accounting;
    var key := DasKey;
    ServersApartFromFlags(p, DasGate(w, f));
    DasRowShown(n, dadDone);
    InterimApart(p.interim, key);
    hide Rows, Pick, AccountingSettings, AuthSettings, AcctSettings, DasSettings, InterimSettings, DasGate, KeysApart;
    PickRows(AuthSettings(p, MAX_SLOTS), AccountingSettings(w, f, n, dadDone), key);
    RowsApart(AuthSettings(p, MAX_SLOTS), key);
    PickAccounting(w, f, n, dadDone, key);
    EmptyRows(key);
    if !DasGate(w, f) && p.accounting {
      RowsApart(AcctSettings(p, MAX_SLOTS, false), key);
      RowsApart(InterimSettings(p.interim), key);
    }
  }

  lemma DasRowShown(n: nat, dadDone: bool)
    ensures Pick(Rows(DasSettings(n, dadDone)), DasKey) != []
  {
    hide Itoa, Pick, Rows;
    var head := if dadDone then [] else [Set("radius.dad.status", "enabled"), Set("radius.dad.port", "3799")];
    var row, rest := [Set("radius.das.status", "enabled")], [Set("radius.das.port", Itoa(3800 + n)), Set("radius.dad.status", "enabled")];
    assert DasSettings(n, dadDone) == head + row + rest;
    hide DasSettings;
    PickRows(head, row, DasKey);
    PickRows(head + row, rest, DasKey);
    assert KeysUnder(row, DasKey);
    RowsUnder(row, DasKey);
    RowsOfOne("radius.das.status", "enabled");
    LiteralLines();
  }

  /** An interim row appears exactly when accounting and interim updates are on. */
  lemma MiddleInterim(w: Wlan, f: Facts, n: nat, dadDone: bool)
    ensures (Pick(Rows(MiddleSettings(w, f, n, dadDone)), InterimKey) != []) == (w.profile.accounting && w.profile.interim)
  {
    var p, key := w.profile, InterimKey;
    ServersApartFromFlags(p, DasGate(w, f));
    DasSettingsApart(n, dadDone, "auth", 0);
    InterimUnder(p.interim);
    InterimShown(p.interim);
    hide Rows, Pick, AccountingSettings, AuthSettings, AcctSettings, DasSettings, InterimSettings, DasGate, KeysApart, KeysUnder;
    PickRows(AuthSettings(p, MAX_SLOTS), AccountingSettings(w, f, n, dadDone), key);
    RowsApart(AuthSettings(p, MAX_SLOTS), key);
    PickAccounting(w, f, n, dadDone, key);
    EmptyRows(key);
    if p.accounting {
      RowsApart(AcctSettings(p, MAX_SLOTS, DasGate(w, f)), key);
      RowsApart(DasSettings(n, dadDone), key);
      RowsUnder(InterimSettings(p.interim), key);
    }
  }

  lemma InterimShown(on: bool)
    ensures (Rows(InterimSettings(on)) != []) == on
  {
    if on {
      var a, b := [Set("interim_update.status", "enabled")], [Set("interim_update.interval", "3600")];
      assert InterimSettings(true) == a + b;
      hide Rows, InterimSettings;
      RowsConcat(a, b);
      RowsOfOne("interim_update.status", "enabled");
      LiteralLines();
    }
  }
}
