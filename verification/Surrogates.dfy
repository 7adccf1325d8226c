/** The scan for unpaired surrogate escapes in a JSON text (sections 7 and 8.2 of RFC 8259, section 2 of RFC 2781).

The scan is made only on valid JSON. What validity gives it is `Lexes`: every backslash starts a complete escape. */
module Surrogates {

  /** What the scan distinguishes: a `\u` escape with its code unit, or anything else. */
  datatype Unit = Other | Escaped(code: nat)

  predicate IsHex(c: char) {
    '0' <= c <= '9' || 'a' <= c <= 'f' || 'A' <= c <= 'F'
  }

  function HexValue(c: char): nat
    requires IsHex(c)
  {
    if '0' <= c <= '9' then (c - '0') as nat
    else if 'a' <= c <= 'f' then (c - 'a') as nat + 10
    else (c - 'A') as nat + 10
  }

  /** The four digits of the escape at `i`. */
  predicate FourHex(data: string, i: nat) {
    && i + 6 <= |data|
    && IsHex(data[i + 2]) && IsHex(data[i + 3]) && IsHex(data[i + 4]) && IsHex(data[i + 5])
  }

  function CodeUnit(data: string, i: nat): nat
    requires FourHex(data, i)
  {
    4096 * HexValue(data[i + 2]) + 256 * HexValue(data[i + 3]) + 16 * HexValue(data[i + 4]) + HexValue(data[i + 5])
  }

  /** How many characters the lexical unit at `i` takes. */
  function Width(data: string, i: nat): nat
    requires i < |data|
  {
    if data[i] != '\\' then 1 else if i + 1 < |data| && data[i + 1] == 'u' then 6 else 2
  }

  /** From `i` on, every backslash that is not itself escaped starts a complete escape. */
  predicate LexesFrom(data: string, i: nat)
    decreases |data| - i
  {
    && i <= |data|
    && (i < |data| ==>
          && i + Width(data, i) <= |data|
          && (Width(data, i) == 6 ==> FourHex(data, i))
          && LexesFrom(data, i + Width(data, i)))
  }

  /** The lexical units from `i` on, in order. */
  function UnitsFrom(data: string, i: nat): seq<Unit>
    requires LexesFrom(data, i)
    decreases |data| - i
  {
    if i == |data| then []
    else [UnitAt(data, i)] + UnitsFrom(data, i + Width(data, i))
  }

  function UnitAt(data: string, i: nat): Unit
    requires i < |data| && (Width(data, i) == 6 ==> FourHex(data, i))
  {
    if Width(data, i) == 6 then Escaped(CodeUnit(data, i)) else Other
  }

  predicate Lexes(data: string) {
    LexesFrom(data, 0)
  }

  function Units(data: string): seq<Unit>
    requires Lexes(data)
  {
    UnitsFrom(data, 0)
  }

  predicate High(u: Unit) {
    u.Escaped? && 0xD800 <= u.code <= 0xDBFF
  }

  predicate Low(u: Unit) {
    u.Escaped? && 0xDC00 <= u.code <= 0xDFFF
  }

  /** Every surrogate escape belongs to a pair: a low one right after each high one, a high one right before each low
  one. */
  predicate Paired(us: seq<Unit>) {
    && (forall k | 0 <= k < |us| && High(us[k]) :: k + 1 < |us| && Low(us[k + 1]))
    && (forall k | 0 <= k < |us| && Low(us[k]) :: k > 0 && High(us[k - 1]))
  }

  /** The same, read off the front. */
  predicate PairsUp(us: seq<Unit>) {
    us == [] || (
      if High(us[0]) then |us| >= 2 && Low(us[1]) && PairsUp(us[2..])
      else !Low(us[0]) && PairsUp(us[1..]))
  }

  lemma {:induction false} PairsUpIsPaired(us: seq<Unit>)
    ensures PairsUp(us) <==> Paired(us)
  {
    if us != [] {
      var n := if High(us[0]) then 2 else 1;
      if n <= |us| && (n == 2 ==> Low(us[1])) && !Low(us[0]) {
        PairsUpIsPaired(us[n..]);
        if Paired(us[n..]) { PairedFront(us, n); }
        if Paired(us) { PairedBack(us, n); }
      }
    }
  }

  lemma PairedFront(us: seq<Unit>, n: nat)
    requires 1 <= n <= 2 && n <= |us| && (n == 2 <==> High(us[0])) && (n == 2 ==> Low(us[1])) && !Low(us[0])
    requires Paired(us[n..])
    ensures Paired(us)
  {
    var rest := us[n..];
    forall k | 0 <= k < |us| && High(us[k])
      ensures k + 1 < |us| && Low(us[k + 1])
    {
      if k >= n {
        assert High(rest[k - n]);
        assert rest[k - n + 1] == us[k + 1];
      }
    }
    forall k | 0 <= k < |us| && Low(us[k])
      ensures k > 0 && High(us[k - 1])
    {
      if k >= n {
        assert Low(rest[k - n]);
        assert rest[k - n - 1] == us[k - 1];
      }
    }
  }

  lemma PairedBack(us: seq<Unit>, n: nat)
    requires 1 <= n <= 2 && n <= |us| && (n == 2 <==> High(us[0])) && (n == 2 ==> Low(us[1])) && !Low(us[0])
    requires Paired(us)
    ensures Paired(us[n..])
  {
    var rest := us[n..];
    forall k | 0 <= k < |rest| && High(rest[k])
      ensures k + 1 < |rest| && Low(rest[k + 1])
    {
      assert High(us[k + n]);
      assert Low(us[k + n + 1]);
    }
    forall k | 0 <= k < |rest| && Low(rest[k])
      ensures k > 0 && High(rest[k - 1])
    {
      assert Low(us[k + n]);
      assert High(us[k + n - 1]);
    }
  }

  // ---------------------------------------------------------------- the scan

  /** A step of the scan: from `at` it passes over some units, and whether the rest pairs up decides the matter. */
  ghost predicate Passes(data: string, at: nat, next: nat) {
    && LexesFrom(data, at) && at < next && LexesFrom(data, next)
    && (PairsUp(UnitsFrom(data, at)) <==> PairsUp(UnitsFrom(data, next)))
  }

  /** Anything that is no `\\u` escape is passed over. */
  lemma PlainPassed(data: string, i: nat)
    requires LexesFrom(data, i) && i < |data| && Width(data, i) != 6
    ensures Passes(data, i, i + Width(data, i))
  {
    OtherInFront(UnitsFrom(data, i), UnitsFrom(data, i + Width(data, i)), Other);
  }

  lemma OtherInFront(us: seq<Unit>, rest: seq<Unit>, u: Unit)
    requires us == [u] + rest && !Low(u) && !High(u)
    ensures PairsUp(us) <==> PairsUp(rest)
  {
    assert us[1..] == rest;
  }

  lemma PairInFront(us: seq<Unit>, rest: seq<Unit>, u: Unit, v: Unit)
    requires us == [u] + ([v] + rest) && High(u) && Low(v)
    ensures PairsUp(us) <==> PairsUp(rest)
  {
    assert us[1] == v && us[2..] == rest;
  }

  predicate EscapeAt(data: string, i: nat) {
    i + 1 < |data| && data[i] == '\\' && data[i + 1] == 'u'
  }

  predicate LowAt(data: string, i: nat) {
    EscapeAt(data, i) && FourHex(data, i) && Low(Escaped(CodeUnit(data, i)))
  }

  predicate HighAt(data: string, i: nat) {
    EscapeAt(data, i) && FourHex(data, i) && High(Escaped(CodeUnit(data, i)))
  }

  /** Whether the scan stops at an escape: a low surrogate, or a high one without its low one. */
  predicate Refused(data: string, i: nat) {
    LowAt(data, i) || (HighAt(data, i) && !LowAt(data, i + 6))
  }

  /** A refused escape is unpaired. */
  lemma RefusedAt(data: string, i: nat)
    requires LexesFrom(data, i) && EscapeAt(data, i) && Refused(data, i)
    ensures !PairsUp(UnitsFrom(data, i))
  {
    var us := UnitsFrom(data, i);
    var rest := UnitsFrom(data, i + 6);
    assert us == [UnitAt(data, i)] + rest;
    if HighAt(data, i) && rest != [] {
      assert us[1] == rest[0] == UnitAt(data, i + 6);
    }
  }

  lemma PairPassed(data: string, i: nat)
    requires LexesFrom(data, i) && HighAt(data, i) && LowAt(data, i + 6)
    ensures Passes(data, i, i + 12)
  {
    var rest := UnitsFrom(data, i + 12);
    var u, v := UnitAt(data, i), UnitAt(data, i + 6);
    assert UnitsFrom(data, i + 6) == [v] + rest;
    assert UnitsFrom(data, i) == [u] + UnitsFrom(data, i + 6);
    PairInFront(UnitsFrom(data, i), rest, u, v);
  }

  /** What is passed over leaves the rest to decide: an escape that is no surrogate, or a pair. */
  lemma EscapePassed(data: string, i: nat)
    requires LexesFrom(data, i) && EscapeAt(data, i) && !Refused(data, i)
    ensures Passes(data, i, if HighAt(data, i) then i + 12 else i + 6)
  {
    if HighAt(data, i) {
      PairPassed(data, i);
    } else {
      OtherInFront(UnitsFrom(data, i), UnitsFrom(data, i + 6), UnitAt(data, i));
    }
  }

  /** The branch for a `\\u` escape whose `u` is at `at`: whether to go on, and from where. */
  method ScanEscape(data: string, at: nat) returns (ok: bool, next: nat)
    requires 0 < at && EscapeAt(data, at - 1) && LexesFrom(data, at - 1)
    ensures ok ==> Passes(data, at - 1, next)
    ensures !ok ==> !PairsUp(UnitsFrom(data, at - 1))
  {
    assert FourHex(data, at - 1) && LexesFrom(data, at + 5);
    ok, next := ReadEscape(data, at);
    if ok { EscapePassed(data, at - 1); } else { RefusedAt(data, at - 1); }
  }

  /** Reading the escape and, after a high surrogate, the one that follows. */
  method ReadEscape(data: string, at: nat) returns (ok: bool, next: nat)
    requires 0 < at && EscapeAt(data, at - 1) && FourHex(data, at - 1) && LexesFrom(data, at + 5)
    ensures ok == !Refused(data, at - 1)
    ensures ok ==> next == if HighAt(data, at - 1) then at + 11 else at + 5
  {
    var code := CodeUnit(data, at - 1);
    var i := at + 4;
    if 0xDC00 <= code <= 0xDFFF { return false, i; }
    if 0xD800 <= code <= 0xDBFF {
      if i + 6 >= |data| || data[i + 1] != '\\' || data[i + 2] != 'u' { return false, i; }
      var low := CodeUnit(data, i + 1);
      if low < 0xDC00 || low > 0xDFFF { return false, i; }
      i := i + 6;
    }
    return true, i + 1;
  }

  /** The scan. Its bounds hold on every text that lexes, and it accepts exactly the texts whose surrogate escapes
  pair up. */
  method ValidateSurrogates(data: string) returns (ok: bool)
    requires Lexes(data)
    ensures ok == Paired(Units(data))
  {
    ghost var paired := Paired(Units(data));
    assert PairsUp(UnitsFrom(data, 0)) == paired by { PairsUpIsPaired(Units(data)); }
    var i := 0;
    while i < |data|
      invariant LexesFrom(data, i)
      invariant PairsUp(UnitsFrom(data, i)) == paired
    {
      if data[i] != '\\' {
        PlainPassed(data, i);
        i := i + 1;
        continue;
      }
      i := i + 1;
      if data[i] != 'u' {
        PlainPassed(data, i - 1);
        i := i + 1;
        continue;
      }
      ok, i := ScanEscape(data, i);
      if !ok { return; }
    }
    ok := true;
  }
}
