/** String order, decimal numerals and MAC spellings (internal/store/store.go). */
module Text {
  import opened Options

  // ---- order ----------------------------------------------------------------

  /** Strict lexicographic order, the order of Go's sort.Strings. */
  predicate Less(a: string, b: string) {
    |b| != 0 && (|a| == 0 || (if a[0] == b[0] then Less(a[1..], b[1..]) else a[0] < b[0]))
  }

  lemma {:induction false} LessTransitive(a: string, b: string, c: string)
    requires Less(a, b) && Less(b, c)
    ensures Less(a, c)
  {
    if |a| != 0 && a[0] == b[0] && b[0] == c[0] {
      LessTransitive(a[1..], b[1..], c[1..]);
    }
  }

  lemma {:induction false} LessTotal(a: string, b: string)
    ensures Less(a, b) || Less(b, a) || a == b
  {
    if |a| != 0 && |b| != 0 && a[0] == b[0] {
      LessTotal(a[1..], b[1..]);
      if a[1..] == b[1..] {
        assert a == [a[0]] + a[1..] && b == [b[0]] + b[1..];
      }
    }
  }

  lemma {:induction false} LessIrreflexive(a: string)
    ensures !Less(a, a)
  {
    if |a| != 0 {
      LessIrreflexive(a[1..]);
    }
  }

  /** Strictly increasing, hence free of duplicates. */
  ghost predicate Increasing(s: seq<string>) {
    forall i, j :: 0 <= i < j < |s| ==> Less(s[i], s[j])
  }

  /** Puts x into an increasing list unless it is there already. */
  function Insert(x: string, s: seq<string>): seq<string> {
    if s == [] then [x]
    else if x == s[0] then s
    else if Less(x, s[0]) then [x] + s
    else [s[0]] + Insert(x, s[1..])
  }

  lemma {:induction false} InsertMembers(x: string, s: seq<string>)
    ensures forall y :: y in Insert(x, s) <==> y == x || y in s
  {
    if s != [] && x != s[0] && !Less(x, s[0]) {
      InsertMembers(x, s[1..]);
      assert s == [s[0]] + s[1..];
    }
  }

  lemma {:induction false} InsertIncreasing(x: string, s: seq<string>)
    requires Increasing(s)
    ensures Increasing(Insert(x, s))
  {
    if s == [] || x == s[0] {
    } else if Less(x, s[0]) {
      forall j | 0 <= j < |s| ensures Less(x, s[j]) {
        if j > 0 { LessTransitive(x, s[0], s[j]); }
      }
    } else {
      LessTotal(x, s[0]);
      InsertIncreasing(x, s[1..]);
      InsertMembers(x, s[1..]);
      var r := Insert(x, s[1..]);
      forall j | 0 <= j < |r| ensures Less(s[0], r[j]) {
        assert r[j] in r;
        if r[j] != x {
          var k :| 0 <= k < |s[1..]| && s[1..][k] == r[j];
          assert s[k + 1] == r[j];
        }
      }
    }
  }

  /** An increasing list is determined by its members. */
  lemma {:induction false} IncreasingUnique(s: seq<string>, t: seq<string>)
    requires Increasing(s) && Increasing(t)
    requires forall y :: y in s <==> y in t
    ensures s == t
  {
    if t != [] { MembersNonempty(t, s); }
    if s != [] {
      assert s[0] in s && s[0] in t;
      assert t[0] in t && t[0] in s;
      HeadIsLeast(s, t[0]);
      HeadIsLeast(t, s[0]);
      if s[0] != t[0] {
        LessTransitive(s[0], t[0], s[0]);
        LessIrreflexive(s[0]);
      }
      TailMembers(s);
      TailMembers(t);
      IncreasingUnique(s[1..], t[1..]);
      assert s == [s[0]] + s[1..] && t == [t[0]] + t[1..];
    }
  }

  lemma MembersNonempty(t: seq<string>, s: seq<string>)
    requires t != [] && forall y :: y in t ==> y in s
    ensures s != []
  {
    assert t[0] in t;
  }

  lemma HeadIsLeast(s: seq<string>, y: string)
    requires Increasing(s) && y in s
    ensures s[0] == y || Less(s[0], y)
  {
    var k :| 0 <= k < |s| && s[k] == y;
  }

  lemma TailMembers(s: seq<string>)
    requires s != [] && Increasing(s)
    ensures Increasing(s[1..])
    ensures forall y :: y in s[1..] <==> y in s && y != s[0]
  {
    forall y | y in s[1..] ensures y in s && y != s[0] {
      var k :| 0 <= k < |s[1..]| && s[1..][k] == y;
      assert s[k + 1] == y && Less(s[0], y);
      LessIrreflexive(y);
    }
    assert s == [s[0]] + s[1..];
  }

  // ---- decimal numerals -------------------------------------------------------

  function Digit(n: nat): char
    requires n < 10
  {
    '0' + n as char
  }

  predicate IsDigit(c: char) {
    '0' <= c <= '9'
  }

  function DigitValue(c: char): nat
    requires IsDigit(c)
  {
    c as int - '0' as int
  }

  function Itoa(n: nat): string {
    if n < 10 then [Digit(n)] else Itoa(n / 10) + [Digit(n % 10)]
  }

  /** The value of a run of digits. */
  function DigitsValue(s: string): nat
    requires forall c :: c in s ==> IsDigit(c)
  {
    if s == [] then 0
    else
      assert s[|s| - 1] in s;
      DigitsValue(s[..|s| - 1]) * 10 + DigitValue(s[|s| - 1])
  }

  /** strconv.Atoi: an optional sign, then at least one digit. */
  function Atoi(s: string): Option<int> {
    var signed := s != [] && (s[0] == '-' || s[0] == '+');
    var digits := if signed then s[1..] else s;
    if digits == [] || exists c :: c in digits && !IsDigit(c) then None
    else
      var magnitude: int := DigitsValue(digits);
      Some(if signed && s[0] == '-' then -magnitude else magnitude)
  }

  lemma {:induction false} ItoaDigits(n: nat)
    ensures Itoa(n) != []
    ensures forall c :: c in Itoa(n) ==> IsDigit(c)
    ensures DigitsValue(Itoa(n)) == n
  {
    if n >= 10 {
      ItoaDigits(n / 10);
      var s := Itoa(n);
      assert s[..|s| - 1] == Itoa(n / 10);
      assert forall c :: c in s ==> c in Itoa(n / 10) || c == Digit(n % 10);
    } else {
      assert Itoa(n)[..0] == [];
    }
  }

  lemma AtoiItoa(n: nat)
    ensures Atoi(Itoa(n)) == Some(n)
  {
    ItoaDigits(n);
    assert Itoa(n)[0] in Itoa(n);
  }

  // ---- MAC spellings ------------------------------------------------------------

  function LowerChar(c: char): char {
    if 'A' <= c <= 'Z' then c + 32 as char else c
  }

  function Lower(s: string): (r: string)
    ensures |r| == |s|
  {
    seq(|s|, i requires 0 <= i < |s| => LowerChar(s[i]))
  }

  predicate IsHex(c: char) {
    '0' <= c <= '9' || 'a' <= c <= 'f'
  }

  predicate IsMac(s: string) {
    |s| == 12 && forall i :: 0 <= i < |s| ==> IsHex(s[i])
  }

  function StripSeparators(s: string): string {
    if s == [] then []
    else if s[0] in ":-. " then StripSeparators(s[1..])
    else [s[0]] + StripSeparators(s[1..])
  }

  /** The single normalizer of MAC identity; None is the parse error. */
  function CanonicalMac(s: string): (r: Option<string>)
    ensures r.Some? ==> IsMac(r.value)
  {
    var c := Lower(StripSeparators(s));
    if IsMac(c) then Some(c) else None
  }

  lemma {:induction false} StripHex(s: string)
    requires forall i :: 0 <= i < |s| ==> IsHex(s[i])
    ensures StripSeparators(s) == s
  {
    if s != [] {
      assert IsHex(s[0]);
      StripHex(s[1..]);
      assert s == [s[0]] + s[1..];
    }
  }

  /** A canonical MAC is a fixed point of the normalizer. */
  lemma CanonicalMacIdempotent(s: string)
    requires IsMac(s)
    ensures CanonicalMac(s) == Some(s)
  {
    StripHex(s);
    assert Lower(s) == s;
  }

  predicate Separator(c: char) {
    c == ':' || c == '-' || c == '.' || c == ' '
  }

  /** The places of a text that hold no separator, in order. */
  ghost predicate Kept(s: string, at: seq<nat>) {
    && (forall i, j :: 0 <= i < j < |at| ==> at[i] < at[j])
    && (forall k: nat :: k in at <==> k < |s| && !Separator(s[k]))
  }

  lemma {:induction false} StripKeeps(s: string) returns (at: seq<nat>)
    ensures Kept(s, at) && |StripSeparators(s)| == |at|
    ensures forall i :: 0 <= i < |at| ==> at[i] < |s| && StripSeparators(s)[i] == s[at[i]]
  {
    if s == [] {
      at := [];
    } else {
      var n := |s| - 1;
      at := StripKeeps(s[..n]);
      assert s == s[..n] + [s[n]];
      StripSnoc(s[..n], s[n]);
      assert forall i :: 0 <= i < |at| ==> at[i] in at;
      if !Separator(s[n]) { at := at + [n]; }
      hide StripSeparators;
    }
  }

  lemma {:induction false} StripSnoc(s: string, c: char)
    ensures StripSeparators(s + [c]) == StripSeparators(s) + if Separator(c) then [] else [c]
  {
    if s == [] {
      assert [c][1..] == [];
    } else {
      StripSnoc(s[1..], c);
      assert (s + [c])[1..] == s[1..] + [c];
    }
  }

  /** Which spellings are a MAC, and which: twelve hex digits in either case among any separators, read in lower case. */
  lemma MacSpelling(s: string) returns (at: seq<nat>)
    ensures Kept(s, at) && forall i :: 0 <= i < |at| ==> at[i] < |s|
    ensures CanonicalMac(s).Some? <==> |at| == 12 && forall i :: 0 <= i < 12 ==> '0' <= s[at[i]] <= '9' || 'a' <= s[at[i]] <= 'f' || 'A' <= s[at[i]] <= 'F'
    ensures CanonicalMac(s).Some? ==> forall i :: 0 <= i < 12 ==>
              CanonicalMac(s).value[i] == if 'A' <= s[at[i]] <= 'F' then s[at[i]] + 32 as char else s[at[i]]
  {
    hide StripSeparators, Kept;
    at := StripKeeps(s);
    var c := Lower(StripSeparators(s));
    forall i | 0 <= i < |at| ensures IsHex(c[i]) <==> '0' <= s[at[i]] <= '9' || 'a' <= s[at[i]] <= 'f' || 'A' <= s[at[i]] <= 'F' {
      assert c[i] == LowerChar(s[at[i]]);
    }
  }

  /** Colon-hex rendering of a canonical MAC. */
  function ColonMac(s: string): (r: string)
    requires IsMac(s)
    ensures |r| == 17
  {
    [s[0], s[1], ':', s[2], s[3], ':', s[4], s[5], ':', s[6], s[7], ':', s[8], s[9], ':', s[10], s[11]]
  }

  lemma ColonMacInjective(a: string, b: string)
    requires IsMac(a) && IsMac(b)
    requires ColonMac(a) == ColonMac(b)
    ensures a == b
  {
    var x, y := ColonMac(a), ColonMac(b);
    forall i | 0 <= i < 12 ensures a[i] == b[i] {
      assert x[i / 2 * 3 + i % 2] == a[i] && y[i / 2 * 3 + i % 2] == b[i];
    }
  }
}
