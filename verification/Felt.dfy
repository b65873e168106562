/** Address normalisation (internal/starknet/utils.go). */
module Felt {

  predicate IsHexDigit(c: char) {
    '0' <= c <= '9' || 'a' <= c <= 'f'
  }

  predicate IsHex(s: string) {
    forall c <- s :: IsHexDigit(c)
  }

  /** A felt in lowercase hexadecimal, with or without 0x. */
  predicate IsFeltText(s: string) {
    IsHex(Digits(s)) && |Digits(s)| <= 64
  }

  function Digits(s: string): string {
    if |s| >= 2 && s[0] == '0' && s[1] == 'x' then s[2..] else s
  }

  function DigitValue(c: char): nat
    requires IsHexDigit(c)
  {
    if c <= '9' then c as nat - '0' as nat else c as nat - 'a' as nat + 10
  }

  function ValueOfDigits(digits: string): nat
    requires IsHex(digits)
  {
    if digits == "" then 0
    else ValueOfDigits(digits[..|digits| - 1]) * 16 + DigitValue(digits[|digits| - 1])
  }

  function FeltValue(s: string): nat
    requires IsFeltText(s)
  {
    ValueOfDigits(Digits(s))
  }

  /** Removes the first "0x", wherever it is. */
  function RemoveFirst0x(s: string): string {
    if |s| < 2 then s
    else if s[0] == '0' && s[1] == 'x' then s[2..]
    else [s[0]] + RemoveFirst0x(s[1..])
  }

  function Zeros(n: nat): string {
    seq(n, _ => '0')
  }

  function PadLeft(s: string, width: nat): string {
    if |s| >= width then s else Zeros(width - |s|) + s
  }

  function EnsureStarkFelt(felt: string): string {
    "0x" + PadLeft(RemoveFirst0x(felt), 64)
  }

  lemma {:induction false} NothingToRemove(s: string)
    requires forall c <- s :: c != 'x'
    ensures RemoveFirst0x(s) == s
  {
    if |s| >= 2 {
      assert s[1] in s;
      assert forall c <- s[1..] :: c in s;
      NothingToRemove(s[1..]);
    }
  }

  lemma RemovesThePrefix(s: string)
    requires IsFeltText(s)
    ensures RemoveFirst0x(s) == Digits(s)
  {
    if Digits(s) == s {
      assert forall c <- s :: IsHexDigit(c);
      NothingToRemove(s);
    }
  }

  lemma {:induction false} ZerosAddNothing(n: nat, digits: string)
    requires IsHex(digits)
    ensures IsHex(Zeros(n) + digits) && ValueOfDigits(Zeros(n) + digits) == ValueOfDigits(digits)
    decreases |digits| + n
  {
    var padded := Zeros(n) + digits;
    if digits != "" {
      var last := |digits| - 1;
      ZerosAddNothing(n, digits[..last]);
      assert padded[..|padded| - 1] == Zeros(n) + digits[..last];
    } else if n > 0 {
      ZerosAddNothing(n - 1, digits);
      assert padded[..|padded| - 1] == Zeros(n - 1) + digits;
    }
  }

  /** The normal form keeps the value and has exactly 64 digits. */
  lemma NormalFormKeepsValue(s: string)
    requires IsFeltText(s)
    ensures IsFeltText(EnsureStarkFelt(s)) && FeltValue(EnsureStarkFelt(s)) == FeltValue(s)
    ensures |EnsureStarkFelt(s)| == 66 && |Digits(EnsureStarkFelt(s))| == 64
  {
    RemovesThePrefix(s);
    var digits := Digits(s);
    ZerosAddNothing(64 - |digits|, digits);
    assert PadLeft(digits, 64) == Zeros(64 - |digits|) + digits;
    assert Digits("0x" + PadLeft(digits, 64)) == PadLeft(digits, 64);
  }

  lemma FullLengthIsFixed(s: string)
    requires IsFeltText(s) && |s| == 66
    ensures EnsureStarkFelt(s) == s
  {
    RemovesThePrefix(s);
    assert s == "0x" + Digits(s);
  }

  lemma NormalisingTwice(s: string)
    requires IsFeltText(s)
    ensures EnsureStarkFelt(EnsureStarkFelt(s)) == EnsureStarkFelt(s)
  {
    NormalFormKeepsValue(s);
    FullLengthIsFixed(EnsureStarkFelt(s));
  }

  lemma DigitsDetermined(a: char, b: char)
    requires IsHexDigit(a) && IsHexDigit(b) && DigitValue(a) == DigitValue(b)
    ensures a == b
  {
    assert 'a' as nat > '9' as nat;
    assert a as nat == b as nat;
    assert (a as nat) as char == (b as nat) as char;
  }

  /** Digit strings of one length are equal when their values are. */
  lemma {:induction false} SameValueSameDigits(a: string, b: string)
    requires IsHex(a) && IsHex(b) && |a| == |b| && ValueOfDigits(a) == ValueOfDigits(b)
    ensures a == b
  {
    if a != "" {
      var n := |a| - 1;
      var da, db := DigitValue(a[n]), DigitValue(b[n]);
      assert da < 16 && db < 16;
      SameValueSameDigits(a[..n], b[..n]);
      DigitsDetermined(a[n], b[n]);
      assert a == a[..n] + [a[n]] && b == b[..n] + [b[n]];
    }
  }

  /** Two texts have the same normal form exactly when they denote the same felt. */
  lemma NormalFormsDecideEquality(s: string, t: string)
    requires IsFeltText(s) && IsFeltText(t)
    ensures EnsureStarkFelt(s) == EnsureStarkFelt(t) <==> FeltValue(s) == FeltValue(t)
  {
    NormalFormKeepsValue(s);
    NormalFormKeepsValue(t);
    var a, b := EnsureStarkFelt(s), EnsureStarkFelt(t);
    if FeltValue(s) == FeltValue(t) {
      SameValueSameDigits(Digits(a), Digits(b));
      assert a == "0x" + Digits(a) && b == "0x" + Digits(b);
    }
  }

  /**
   * The indexer's address test is equality of felts if and only if the configured address is
   * written with all 64 digits; otherwise the test never succeeds.
   */
  lemma AddressTest(configured: string, found: string)
    requires IsFeltText(configured) && IsFeltText(found)
    ensures EnsureStarkFelt(found) == configured <==> |configured| == 66 && FeltValue(found) == FeltValue(configured)
  {
    NormalFormKeepsValue(found);
    if |configured| == 66 {
      FullLengthIsFixed(configured);
      NormalFormsDecideEquality(found, configured);
    }
  }

  /** The address of one configured minter is written with 62 digits: nothing it emits is ever indexed. */
  lemma UnpaddedAddressMatchesNothing(found: string)
    requires IsFeltText(found)
    ensures EnsureStarkFelt(found) != "0x5321d00440218677b1de426679b7e77381dbb846ee1ae54dc084951f99c646"
  {
    NormalFormKeepsValue(found);
  }
}
