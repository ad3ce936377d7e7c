/** walkWireBlob (internal/server/systemcfg/sshkey.go): the key blob structure of section 6.6 of RFC 4253. */
module SshBlob {

  type byte = x: int | 0 <= x < 256

  function BigEndian32(b: seq<byte>): nat
    requires |b| == 4
  {
    ((b[0] as nat * 256 + b[1] as nat) * 256 + b[2] as nat) * 256 + b[3] as nat
  }

  function Length32(n: nat): (r: seq<byte>)
    requires n < 0x1_0000_0000
    ensures |r| == 4
  {
    [n / 0x100_0000, n / 0x1_0000 % 256, n / 256 % 256, n % 256]
  }

  lemma Length32RoundTrip(n: nat)
    requires n < 0x1_0000_0000
    ensures BigEndian32(Length32(n)) == n
  {
  }

  lemma BigEndian32Injective(b: seq<byte>)
    requires |b| == 4
    ensures BigEndian32(b) < 0x1_0000_0000 && Length32(BigEndian32(b)) == b
  {
    var n := BigEndian32(b);
    assert n / 256 == (b[0] as nat * 256 + b[1] as nat) * 256 + b[2] as nat;
    assert n / 0x1_0000 == b[0] as nat * 256 + b[1] as nat;
    assert n / 0x100_0000 == b[0];
  }

  /** A length-prefixed field. */
  function Field(f: seq<byte>): seq<byte>
    requires |f| < 0x1_0000_0000
  {
    Length32(|f|) + f
  }

  function Fields(fs: seq<seq<byte>>): seq<byte>
    requires forall i :: 0 <= i < |fs| ==> |fs[i]| < 0x1_0000_0000
  {
    if fs == [] then [] else Field(fs[0]) + Fields(fs[1..])
  }

  ghost predicate Encodes(raw: seq<byte>, fs: seq<seq<byte>>) {
    (forall i :: 0 <= i < |fs| ==> |fs[i]| < 0x1_0000_0000) && raw == Fields(fs)
  }

  /** The blob grammar: at least two fields, the first of which is the type name. */
  ghost predicate WellFormed(raw: seq<byte>, typ: seq<byte>) {
    exists fs :: Encodes(raw, fs) && |fs| >= 2 && fs[0] == typ
  }

  /** How many fields the tail of a blob splits into; -1 when it does not. */
  function Split(raw: seq<byte>): int
    ensures Split(raw) >= -1
  {
    if raw == [] then 0
    else if |raw| < 4 then -1
    else
      var l := BigEndian32(raw[..4]);
      if l > |raw| - 4 then -1
      else
        var rest := Split(raw[4 + l..]);
        if rest < 0 then -1 else rest + 1
  }

  lemma {:induction false} SplitIsCount(fs: seq<seq<byte>>)
    requires forall i :: 0 <= i < |fs| ==> |fs[i]| < 0x1_0000_0000
    ensures Split(Fields(fs)) == |fs|
  {
    if fs != [] {
      var raw := Fields(fs);
      assert raw[..4] == Length32(|fs[0]|);
      Length32RoundTrip(|fs[0]|);
      assert raw[4 + |fs[0]|..] == Fields(fs[1..]);
      SplitIsCount(fs[1..]);
    }
  }

  lemma {:induction false} SplitGivesFields(raw: seq<byte>) returns (fs: seq<seq<byte>>)
    requires Split(raw) >= 0
    ensures Encodes(raw, fs) && |fs| == Split(raw)
  {
    if raw == [] {
      fs := [];
    } else {
      var l := BigEndian32(raw[..4]);
      BigEndian32Injective(raw[..4]);
      var rest := SplitGivesFields(raw[4 + l..]);
      fs := [raw[4..4 + l]] + rest;
      assert fs[1..] == rest;
      assert raw == Length32(l) + raw[4..4 + l] + raw[4 + l..];
      forall i | 0 <= i < |fs| ensures |fs[i]| < 0x1_0000_0000 {
        if i > 0 { assert fs[i] == rest[i - 1]; }
      }
    }
  }

  /** What the walk decides, with the leading type name split off. */
  ghost predicate Walkable(raw: seq<byte>, typ: seq<byte>) {
    |raw| >= 4 + |typ| && BigEndian32(raw[..4]) == |typ| && raw[4..4 + |typ|] == typ && Split(raw[4 + |typ|..]) >= 1
  }

  lemma WellFormedWalks(raw: seq<byte>, typ: seq<byte>, fs: seq<seq<byte>>)
    requires Encodes(raw, fs) && |fs| >= 2 && fs[0] == typ
    ensures Walkable(raw, typ)
  {
    hide Split;
    var tail := Fields(fs[1..]);
    assert raw == Length32(|typ|) + typ + tail;
    assert raw[..4] == Length32(|typ|) && raw[4..4 + |typ|] == typ && raw[4 + |typ|..] == tail;
    Length32RoundTrip(|typ|);
    SplitIsCount(fs[1..]);
  }

  lemma WalkableWellFormed(raw: seq<byte>, typ: seq<byte>)
    requires |typ| < 0x1_0000_0000 && Walkable(raw, typ)
    ensures WellFormed(raw, typ)
  {
    hide Split;
    var tail := raw[4 + |typ|..];
    var rest := SplitGivesFields(tail);
    var fs := [typ] + rest;
    BigEndian32Injective(raw[..4]);
    assert fs[1..] == rest;
    assert raw == raw[..4] + raw[4..4 + |typ|] + tail;
    forall i | 0 <= i < |fs| ensures |fs[i]| < 0x1_0000_0000 {
      if i > 0 { assert fs[i] == rest[i - 1]; }
    }
    assert Encodes(raw, fs);
  }

  lemma Verdict(raw: seq<byte>, typ: seq<byte>)
    requires |typ| < 0x1_0000_0000
    ensures WellFormed(raw, typ) <==> Walkable(raw, typ)
  {
    hide Walkable, Encodes;
    if fs :| Encodes(raw, fs) && |fs| >= 2 && fs[0] == typ {
      WellFormedWalks(raw, typ, fs);
    }
    if Walkable(raw, typ) {
      WalkableWellFormed(raw, typ);
    }
  }

  /** Counts the fields from off on; -1 when a length field is cut short or overruns the blob. */
  method CountFields(raw: seq<byte>, start: nat) returns (count: int)
    requires start <= |raw|
    ensures count == Split(raw[start..])
  {
    var off := start;
    count := 0;
    while off < |raw|
      invariant start <= off <= |raw| && count >= 0
      invariant Split(raw[start..]) == if Split(raw[off..]) < 0 then -1 else Split(raw[off..]) + count
    {
      if |raw| - off < 4 {
        return -1;
      }
      var l := BigEndian32(raw[off..off + 4]);
      var tail := raw[off..];
      assert tail[..4] == raw[off..off + 4];
      off := off + 4;
      if l > |raw| - off {
        return -1;
      }
      assert tail[4 + l..] == raw[off + l..];
      off := off + l;
      count := count + 1;
    }
  }

  /** Accepts exactly the well-formed blobs of the given type, never reading out of bounds. */
  method WalkWireBlob(raw: seq<byte>, typ: seq<byte>) returns (ok: bool)
    requires |typ| < 0x1_0000_0000
    ensures ok == WellFormed(raw, typ)
  {
    hide WellFormed, Split;
    Verdict(raw, typ);
    if |raw| < 4 + |typ| {
      return false;
    }
    var nameLen := BigEndian32(raw[..4]);
    if nameLen != |typ| || raw[4..4 + |typ|] != typ {
      return false;
    }
    var more := CountFields(raw, 4 + |typ|);
    ok := more >= 0 && 1 + more >= 2;
  }

  /** A blob has one reading: the field list behind an accepted blob is unique. */
  lemma {:induction false} FieldsInjective(a: seq<seq<byte>>, b: seq<seq<byte>>, raw: seq<byte>)
    requires Encodes(raw, a) && Encodes(raw, b)
    ensures a == b
  {
    SplitIsCount(a);
    SplitIsCount(b);
    if a != [] {
      assert raw[..4] == Length32(|a[0]|) && raw[..4] == Length32(|b[0]|);
      Length32RoundTrip(|a[0]|);
      Length32RoundTrip(|b[0]|);
      assert raw[4..4 + |a[0]|] == a[0] && raw[4..4 + |b[0]|] == b[0];
      assert raw[4 + |a[0]|..] == Fields(a[1..]) && raw[4 + |b[0]|..] == Fields(b[1..]);
      FieldsInjective(a[1..], b[1..], raw[4 + |a[0]|..]);
      assert a == [a[0]] + a[1..] && b == [b[0]] + b[1..];
    }
  }

  // ---- the blob byte by byte --------------------------------------------------------------------------

  /** The word at an offset, its first byte weighing most. */
  ghost predicate Word32At(b: seq<byte>, at: nat, n: int)
    requires at + 4 <= |b|
  {
    n == b[at] as int * 0x100_0000 + b[at + 1] as int * 0x1_0000 + b[at + 2] as int * 0x100 + b[at + 3] as int
  }

  lemma WordIsBigEndian(b: seq<byte>, at: nat, n: int)
    requires at + 4 <= |b|
    ensures Word32At(b, at, n) <==> n == BigEndian32(b[at..at + 4])
  {
    var w := b[at..at + 4];
    assert w[0] == b[at] && w[1] == b[at + 1] && w[2] == b[at + 2] && w[3] == b[at + 3];
  }

  /** Offsets that cut a blob into length-prefixed pieces, up to its very end. */
  ghost predicate Cuts(raw: seq<byte>, cuts: seq<nat>) {
    && |cuts| > 0 && cuts[|cuts| - 1] == |raw|
    && forall i :: 0 <= i < |cuts| - 1 ==> CutAt(raw, cuts[i], cuts[i + 1])
  }

  ghost predicate CutAt(raw: seq<byte>, from: nat, to: nat) {
    from + 4 <= to <= |raw| && Word32At(raw, from, to - from - 4)
  }

  /** At least two pieces, the first being the type name. */
  ghost predicate NamedCuts(raw: seq<byte>, typ: seq<byte>, cuts: seq<nat>) {
    Cuts(raw, cuts) && |cuts| >= 3 && cuts[0] == 0 && 4 + |typ| == cuts[1] <= |raw| && raw[4..4 + |typ|] == typ
  }

  lemma {:induction false} CutsSplit(raw: seq<byte>, cuts: seq<nat>, i: nat)
    requires Cuts(raw, cuts) && i < |cuts|
    ensures cuts[i] <= |raw| && Split(raw[cuts[i]..]) == |cuts| - 1 - i
    decreases |cuts| - i
  {
    hide Word32At, BigEndian32;
    if i < |cuts| - 1 {
      assert CutAt(raw, cuts[i], cuts[i + 1]);
      CutsSplit(raw, cuts, i + 1);
      SplitStep(raw, cuts[i], cuts[i + 1]);
    }
  }

  lemma SplitStep(raw: seq<byte>, from: nat, to: nat)
    requires CutAt(raw, from, to)
    ensures Split(raw[from..]) == if Split(raw[to..]) < 0 then -1 else Split(raw[to..]) + 1
  {
    WordIsBigEndian(raw, from, to - from - 4);
    hide Word32At, BigEndian32;
    var tail := raw[from..];
    assert tail[..4] == raw[from..from + 4] && tail[4 + (to - from - 4)..] == raw[to..];
  }

  lemma {:induction false} SplitCuts(raw: seq<byte>, start: nat) returns (cuts: seq<nat>)
    requires start <= |raw| && Split(raw[start..]) >= 0
    ensures Cuts(raw, cuts) && cuts[0] == start && |cuts| == Split(raw[start..]) + 1
    decreases |raw| - start
  {
    hide Word32At, BigEndian32;
    if start == |raw| {
      cuts := [start];
    } else {
      var tail := raw[start..];
      assert tail[..4] == raw[start..start + 4];
      var l := BigEndian32(raw[start..start + 4]);
      WordIsBigEndian(raw, start, l);
      assert tail[4 + l..] == raw[start + 4 + l..];
      var rest := SplitCuts(raw, start + 4 + l);
      cuts := [start] + rest;
      forall i | 0 <= i < |cuts| - 1 ensures CutAt(raw, cuts[i], cuts[i + 1]) {
        if i > 0 { assert CutAt(raw, rest[i - 1], rest[i]); }
      }
    }
  }

  /** A blob is well formed exactly when it can be cut into pieces, each led by its own big-endian length, the first being the type name. */
  lemma WellFormedIsCut(raw: seq<byte>, typ: seq<byte>)
    requires |typ| < 0x1_0000_0000
    ensures WellFormed(raw, typ) <==> exists cuts :: NamedCuts(raw, typ, cuts)
  {
    hide WellFormed, NamedCuts, Walkable;
    Verdict(raw, typ);
    if Walkable(raw, typ) { var cuts := WalkableCuts(raw, typ); }
    if cuts :| NamedCuts(raw, typ, cuts) { CutsWalkable(raw, typ, cuts); }
  }

  lemma WalkableCuts(raw: seq<byte>, typ: seq<byte>) returns (cuts: seq<nat>)
    requires Walkable(raw, typ)
    ensures NamedCuts(raw, typ, cuts)
  {
    hide Split, BigEndian32, Word32At;
    var rest := SplitCuts(raw, 4 + |typ|);
    WordIsBigEndian(raw, 0, |typ|);
    assert raw[0..0 + 4] == raw[..4];
    cuts := [0] + rest;
    assert CutAt(raw, cuts[0], cuts[1]);
    forall i | 0 <= i < |cuts| - 1 ensures CutAt(raw, cuts[i], cuts[i + 1]) {
      if i > 0 { assert CutAt(raw, rest[i - 1], rest[i]); }
    }
  }

  lemma CutsWalkable(raw: seq<byte>, typ: seq<byte>, cuts: seq<nat>)
    requires NamedCuts(raw, typ, cuts)
    ensures Walkable(raw, typ)
  {
    hide Split, BigEndian32, Word32At;
    assert CutAt(raw, cuts[0], cuts[1]);
    WordIsBigEndian(raw, 0, |typ|);
    assert raw[0..0 + 4] == raw[..4];
    CutsSplit(raw, cuts, 1);
  }
}
