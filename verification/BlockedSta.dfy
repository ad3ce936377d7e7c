/**
 The blocked-client set of one device (internal/store/blockedsta.go) and the
 blocked_sta wire string rendered from it (internal/server/adoption/blockedsta.go).
 The stored row is a list of strings in any spelling; reading it canonicalizes,
 drops noise and duplicates, and sorts.
 */
module BlockedSta {
  import opened Options
  import opened Text

  /** The canonical set a stored row denotes, in increasing order. */
  function BlockedClients(row: seq<string>): seq<string> {
    if row == [] then []
    else
      var rest := BlockedClients(row[1..]);
      match CanonicalMac(row[0])
      case None => rest
      case Some(c) => Insert(c, rest)
  }

  lemma {:induction false} BlockedClientsMeaning(row: seq<string>)
    ensures Increasing(BlockedClients(row))
    ensures forall c :: c in BlockedClients(row) <==> exists i :: 0 <= i < |row| && CanonicalMac(row[i]) == Some(c)
    ensures forall c :: c in BlockedClients(row) ==> IsMac(c)
  {
    if row != [] {
      var rest := BlockedClients(row[1..]);
      BlockedClientsMeaning(row[1..]);
      if CanonicalMac(row[0]).Some? {
        InsertMembers(CanonicalMac(row[0]).value, rest);
        InsertIncreasing(CanonicalMac(row[0]).value, rest);
      }
      forall c ensures c in BlockedClients(row) <==> exists i :: 0 <= i < |row| && CanonicalMac(row[i]) == Some(c) {
        if c in rest {
          var i :| 0 <= i < |row[1..]| && CanonicalMac(row[1..][i]) == Some(c);
          assert CanonicalMac(row[i + 1]) == Some(c);
        }
        if exists i :: 0 <= i < |row| && CanonicalMac(row[i]) == Some(c) {
          var i :| 0 <= i < |row| && CanonicalMac(row[i]) == Some(c);
          if i > 0 { assert row[1..][i - 1] == row[i]; }
        }
      }
    }
  }

  /** Reading back a canonical row returns it unchanged. */
  lemma BlockedClientsIdempotent(s: seq<string>)
    requires Increasing(s) && forall c :: c in s ==> IsMac(c)
    ensures BlockedClients(s) == s
  {
    BlockedClientsMeaning(s);
    forall c ensures c in BlockedClients(s) <==> c in s {
      if c in s {
        var i :| 0 <= i < |s| && s[i] == c;
        CanonicalMacIdempotent(c);
      }
      if c in BlockedClients(s) {
        var i :| 0 <= i < |s| && CanonicalMac(s[i]) == Some(c);
        assert s[i] in s;
        CanonicalMacIdempotent(s[i]);
      }
    }
    IncreasingUnique(BlockedClients(s), s);
  }

  /** The loop of the source: collect unseen canonical MACs, then sort.Strings. */
  method ReadBlockedClients(row: seq<string>) returns (out: seq<string>)
    ensures out == BlockedClients(row)
  {
    var seen: set<string> := {};
    out := [];
    for i := 0 to |row|
      invariant forall c :: c in seen <==> c in out
      invariant forall c :: c in out <==> exists k :: 0 <= k < i && CanonicalMac(row[k]) == Some(c)
    {
      var c := CanonicalMac(row[i]);
      if c.None? || c.value in seen {
        continue;
      }
      seen := seen + {c.value};
      out := out + [c.value];
    }
    BlockedClientsMeaning(row);
    out := SortStrings(out, BlockedClients(row));
  }

  /** sort.Strings on a list whose members are those of an increasing list. */
  method SortStrings(s: seq<string>, ghost sorted: seq<string>) returns (out: seq<string>)
    requires Increasing(sorted) && forall c :: c in s <==> c in sorted
    ensures out == sorted
  {
    out := [];
    for i := 0 to |s|
      invariant Increasing(out)
      invariant forall c :: c in out <==> c in s[..i]
    {
      InsertMembers(s[i], out);
      InsertIncreasing(s[i], out);
      out := Insert(s[i], out);
      assert s[..i + 1] == s[..i] + [s[i]];
    }
    assert s[..|s|] == s;
    IncreasingUnique(out, sorted);
  }

  function WithoutClient(s: seq<string>, c: string): seq<string> {
    if s == [] then []
    else if s[0] == c then WithoutClient(s[1..], c)
    else [s[0]] + WithoutClient(s[1..], c)
  }

  /** AddBlockedClient: None is the unparseable spelling; the flag says whether the row changed. */
  function AddBlockedClient(row: seq<string>, client: string): Option<(seq<string>, bool)> {
    match CanonicalMac(client)
    case None => None
    case Some(c) =>
      if c in BlockedClients(row) then Some((row, false))
      else Some((Insert(c, BlockedClients(row)), true))
  }

  function RemoveBlockedClient(row: seq<string>, client: string): Option<(seq<string>, bool)> {
    match CanonicalMac(client)
    case None => None
    case Some(c) =>
      if c !in BlockedClients(row) then Some((row, false))
      else Some((WithoutClient(BlockedClients(row), c), true))
  }

  lemma {:induction false} WithoutClientMeaning(s: seq<string>, c: string)
    requires Increasing(s)
    ensures Increasing(WithoutClient(s, c))
    ensures forall y :: y in WithoutClient(s, c) <==> y in s && y != c
  {
    if s != [] {
      TailMembers(s);
      WithoutClientMeaning(s[1..], c);
      var r := WithoutClient(s[1..], c);
      forall j | 0 <= j < |r| ensures Less(s[0], r[j]) {
        assert r[j] in r && r[j] in s[1..];
        HeadIsLeast(s, r[j]);
      }
    }
  }

  /** Add and remove act on the denoted set as insertion and deletion, whatever the spelling. */
  lemma AddRemoveAreSetOperations(row: seq<string>, client: string)
    requires CanonicalMac(client).Some?
    ensures var c := CanonicalMac(client).value;
            var added := AddBlockedClient(row, client).value;
            var removed := RemoveBlockedClient(row, client).value;
            && (forall y :: y in BlockedClients(added.0) <==> y in BlockedClients(row) || y == c)
            && added.1 == (c !in BlockedClients(row))
            && (forall y :: y in BlockedClients(removed.0) <==> y in BlockedClients(row) && y != c)
            && removed.1 == (c in BlockedClients(row))
  {
    var c := CanonicalMac(client).value;
    var set0 := BlockedClients(row);
    BlockedClientsMeaning(row);
    InsertMembers(c, set0);
    InsertIncreasing(c, set0);
    WithoutClientMeaning(set0, c);
    BlockedClientsIdempotent(Insert(c, set0));
    BlockedClientsIdempotent(WithoutClient(set0, c));
  }

  // ---- wire form -----------------------------------------------------------------

  /** Newline-joined colon-hex MACs. */
  function Join(macs: seq<string>): string
    requires forall c :: c in macs ==> IsMac(c)
  {
    if macs == [] then ""
    else if |macs| == 1 then ColonMac(macs[0])
    else ColonMac(macs[0]) + "\n" + Join(macs[1..])
  }

  /** blockedStaWire: "" when nobody is blocked. */
  function BlockedStaWire(row: seq<string>): string {
    BlockedClientsMeaning(row);
    Join(BlockedClients(row))
  }

  lemma {:induction false} JoinInjective(a: seq<string>, b: seq<string>)
    requires forall c :: c in a ==> IsMac(c)
    requires forall c :: c in b ==> IsMac(c)
    requires Join(a) == Join(b)
    ensures a == b
  {
    if a == [] || b == [] {
    } else {
      assert Join(a)[..17] == ColonMac(a[0]) && Join(b)[..17] == ColonMac(b[0]);
      ColonMacInjective(a[0], b[0]);
      if |a| > 1 && |b| > 1 {
        assert Join(a)[18..] == Join(a[1..]) && Join(b)[18..] == Join(b[1..]);
        JoinInjective(a[1..], b[1..]);
      }
      assert a == [a[0]] + a[1..] && b == [b[0]] + b[1..];
    }
  }

  /** Equal wire strings come from the same set, so the wire hash tells any two sets apart. */
  lemma WireInjective(row1: seq<string>, row2: seq<string>)
    requires BlockedStaWire(row1) == BlockedStaWire(row2)
    ensures forall c :: c in BlockedClients(row1) <==> c in BlockedClients(row2)
    ensures BlockedClients(row1) == BlockedClients(row2)
  {
    BlockedClientsMeaning(row1);
    BlockedClientsMeaning(row2);
    JoinInjective(BlockedClients(row1), BlockedClients(row2));
  }
}
