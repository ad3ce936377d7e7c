/**
 Reading the views back off the rendered rows: a config that is the same line by line was made
 from envelopes that show the same. Rows are picked by the prefix of their key, and a row that a
 line break may hide is told from its neighbours by its key.
 */
module Readback {
  import opened Options
  import opened Text
  import opened Wlans
  import opened Plan
  import opened Render
  import opened Visible

  // ---- sequences ---------------------------------------------------------------------------------

  lemma Cancel(p: seq<Line>, q: seq<Line>, r: seq<Line>, u: seq<Line>)
    requires p + q == r + u && |p| == |r|
    ensures p == r && q == u
  {
    assert p == (p + q)[..|p|] && r == (r + u)[..|r|];
    assert q == (p + q)[|p|..] && u == (r + u)[|r|..];
  }

  lemma CancelEnd(p: seq<Line>, q: seq<Line>, r: seq<Line>, u: seq<Line>)
    requires p + q == r + u && |q| == |u|
    ensures p == r && q == u
  {
    assert |p| == |r|;
    Cancel(p, q, r, u);
  }

  function KeyOf(l: Line): string {
    match l
    case Heading(_) => ""
    case KeyValue(k, _) => k
  }

  /** At most one line, under this key. */
  predicate Optional(x: seq<Line>, key: string) {
    |x| <= 1 && (|x| == 1 ==> KeyOf(x[0]) == key)
  }

  predicate StartsOtherwise(x: seq<Line>, key: string) {
    |x| > 0 && KeyOf(x[0]) != key
  }

  /** An optional line before lines that start with another key can be told apart. */
  lemma PeelOptional(x: seq<Line>, r: seq<Line>, y: seq<Line>, u: seq<Line>, key: string)
    requires x + r == y + u && Optional(x, key) && Optional(y, key) && StartsOtherwise(r, key) && StartsOtherwise(u, key)
    ensures x == y && r == u
  {
    assert (x + r)[0] == (if |x| == 1 then x[0] else r[0]) && (y + u)[0] == (if |y| == 1 then y[0] else u[0]);
    assert |x| == |y|;
    Cancel(x, r, y, u);
  }

  // ---- picking lines by key -------------------------------------------------------------------------

  function Pick(lines: seq<Line>, p: string): seq<Line> {
    if lines == [] then []
    else Pick(lines[..|lines| - 1], p) + if p <= KeyOf(lines[|lines| - 1]) then [lines[|lines| - 1]] else []
  }

  lemma {:induction false} PickConcat(a: seq<Line>, b: seq<Line>, p: string)
    ensures Pick(a + b, p) == Pick(a, p) + Pick(b, p)
  {
    if b == [] {
      assert a + b == a;
    } else {
      var init, last := b[..|b| - 1], b[|b| - 1];
      PickConcat(a, init, p);
      assert (a + b)[..|a + b| - 1] == a + init && (a + b)[|a + b| - 1] == last;
    }
  }

  ghost predicate AllUnder(lines: seq<Line>, p: string) {
    forall i :: 0 <= i < |lines| ==> p <= KeyOf(lines[i])
  }

  ghost predicate NoneUnder(lines: seq<Line>, p: string) {
    forall i :: 0 <= i < |lines| ==> !(p <= KeyOf(lines[i]))
  }

  lemma {:induction false} PickAll(lines: seq<Line>, p: string)
    requires AllUnder(lines, p)
    ensures Pick(lines, p) == lines
  {
    if lines != [] { PickAll(lines[..|lines| - 1], p); }
  }

  lemma {:induction false} PickNone(lines: seq<Line>, p: string)
    requires NoneUnder(lines, p)
    ensures Pick(lines, p) == []
  {
    if lines != [] { PickNone(lines[..|lines| - 1], p); }
  }

  // ---- written rows ------------------------------------------------------------------------------------

  lemma {:induction false} WrittenConcat(prefix: string, a: seq<Setting>, b: seq<Setting>)
    ensures Written(prefix, a + b) == Written(prefix, a) + Written(prefix, b)
  {
    if b == [] {
      assert a + b == a;
    } else {
      var init, last := b[..|b| - 1], b[|b| - 1];
      WrittenConcat(prefix, a, init);
      assert (a + b)[..|a + b| - 1] == a + init && (a + b)[|a + b| - 1] == last;
    }
  }

  lemma {:induction false} WrittenUnder(prefix: string, rows: seq<Setting>)
    ensures AllUnder(Written(prefix, rows), prefix)
    ensures forall i :: 0 <= i < |Written(prefix, rows)| ==> !Written(prefix, rows)[i].Heading?
  {
    if rows != [] {
      WrittenUnder(prefix, rows[..|rows| - 1]);
      assert AllUnder(WriteOne(prefix, rows[|rows| - 1]), prefix);
    }
  }

  /** The rows of a block without its prefix. */
  function Rows(rows: seq<Setting>): seq<Line> {
    Written("", rows)
  }

  function Prefixed(prefix: string, l: Line): Line {
    match l
    case Heading(t) => l
    case KeyValue(k, v) => KeyValue(prefix + k, v)
  }

  lemma {:induction false} WrittenIsPrefixed(prefix: string, rows: seq<Setting>)
    ensures |Written(prefix, rows)| == |Rows(rows)|
    ensures forall i :: 0 <= i < |Rows(rows)| ==> Written(prefix, rows)[i] == Prefixed(prefix, Rows(rows)[i])
  {
    if rows != [] {
      WrittenIsPrefixed(prefix, rows[..|rows| - 1]);
      var s := rows[|rows| - 1];
      assert |WriteOne(prefix, s)| == |WriteOne("", s)|;
      assert WriteOne("", s) != [] ==> WriteOne(prefix, s)[0] == Prefixed(prefix, WriteOne("", s)[0]) by {
        assert "" + s.key == s.key;
      }
    }
  }

  lemma PrefixedInjective(prefix: string, a: Line, b: Line)
    requires Prefixed(prefix, a) == Prefixed(prefix, b)
    ensures a == b
  {
    if !a.Heading? {
      assert (prefix + KeyOf(a))[|prefix|..] == KeyOf(a) && (prefix + KeyOf(b))[|prefix|..] == KeyOf(b);
    }
  }

  lemma Unprefixed(prefix: string, a: seq<Setting>, b: seq<Setting>)
    requires Written(prefix, a) == Written(prefix, b)
    ensures Rows(a) == Rows(b)
  {
    WrittenIsPrefixed(prefix, a);
    WrittenIsPrefixed(prefix, b);
    hide Written, Prefixed, Rows;
    forall i | 0 <= i < |Rows(a)| ensures Rows(a)[i] == Rows(b)[i] {
      PrefixedInjective(prefix, Rows(a)[i], Rows(b)[i]);
    }
  }

  function One(key: string, v: string): (x: seq<Line>)
    ensures Optional(x, key)
  {
    if OneLine(v) then [KeyValue(key, v)] else []
  }

  lemma WrittenSingle(prefix: string, s: Setting)
    ensures Written(prefix, [s]) == WriteOne(prefix, s)
  {
    assert [s][..0] == [];
  }

  lemma RowsOfOne(key: string, v: string)
    ensures Rows([Set(key, v)]) == One(key, v)
  {
    WrittenSingle("", Set(key, v));
    assert "" + key == key;
  }

  lemma OneShows(key: string, v: string, w: string)
    ensures One(key, v) == One(key, w) <==> Shown(v) == Shown(w)
  {
  }

  lemma RowsConcat(a: seq<Setting>, b: seq<Setting>)
    ensures Rows(a + b) == Rows(a) + Rows(b)
  {
    WrittenConcat("", a, b);
  }

  // ---- printed values -----------------------------------------------------------------------------------

  lemma LiteralLines()
    ensures OneLine("enabled") && OneLine("disabled") && OneLine("0") && OneLine("1") && OneLine("2") && OneLine("3")
    ensures OneLine("SAE") && OneLine("WPA-EAP") && OneLine("WPA-PSK") && OneLine("CCMP") && OneLine("ff:ff:ff:ff:ff:ff")
  {
  }

  lemma ItoaLine(n: nat)
    ensures OneLine(Itoa(n))
  {
    ItoaDigits(n);
    forall i | 0 <= i < |Itoa(n)| ensures IsDigit(Itoa(n)[i]) { assert Itoa(n)[i] in Itoa(n); }
  }

  lemma SignedItoaLine(n: int)
    ensures OneLine(SignedItoa(n))
  {
    if n < 0 { ItoaLine(-n); } else { ItoaLine(n); }
  }

  lemma ItoaInjective(m: nat, n: nat)
    requires Itoa(m) == Itoa(n)
    ensures m == n
  {
    ItoaDigits(m);
    ItoaDigits(n);
  }

  lemma SignedItoaInjective(m: int, n: int)
    requires SignedItoa(m) == SignedItoa(n)
    ensures m == n
  {
    if m >= 0 { ItoaDigits(m); assert Itoa(m)[0] in Itoa(m); }
    if n >= 0 { ItoaDigits(n); assert Itoa(n)[0] in Itoa(n); }
    if m < 0 && n < 0 {
      assert SignedItoa(m)[1..] == Itoa(-m) && SignedItoa(n)[1..] == Itoa(-n);
      ItoaInjective(-m, -n);
    } else if m >= 0 && n >= 0 {
      ItoaInjective(m, n);
    }
  }

  lemma BridgeShows(m: int, n: int)
    ensures OneLine(AaaBridge(m))
    ensures AaaBridge(m) == AaaBridge(n) ==> m == n
  {
    SignedItoaLine(m);
    if m != 0 && n != 0 && AaaBridge(m) == AaaBridge(n) {
      assert AaaBridge(m)[4..] == SignedItoa(m) && AaaBridge(n)[4..] == SignedItoa(n);
      SignedItoaInjective(m, n);
    }
  }

  lemma DotEnds(x: string, y: string, rest: string)
    requires '.' !in x && '.' !in y && x + "." <= y + "." + rest
    ensures x == y
  {
    var s := y + "." + rest;
    assert forall i :: 0 <= i < |y| ==> s[i] == y[i];
    assert forall i :: 0 <= i < |x| ==> s[i] == (x + ".")[i] == x[i];
    assert s[|x|] == (x + ".")[|x|] == '.' && s[|y|] == '.';
    assert |x| == |y|;
  }

  /** A number followed by a dot is recognised by what it starts. */
  lemma DottedPrefix(n: nat, m: nat, rest: string)
    requires Itoa(n) + "." <= Itoa(m) + "." + rest
    ensures n == m
  {
    ItoaDigits(n);
    ItoaDigits(m);
    DotEnds(Itoa(n), Itoa(m), rest);
    ItoaInjective(n, m);
  }
}
