/**
 * The Norwegian bank account number ("kontonummer") check of
 * itkufs/common/utils.py: separators are removed, the number must have
 * eleven characters, and the last one is the MOD11 check digit of the first
 * ten under the weights 5,4,3,2,7,6,5,4,3,2.
 */
module AccountNumber {
  import opened Outcomes

  /** The MOD11 weights, one per digit of the ten-digit prefix. */
  const Weights: seq<nat> := [5, 4, 3, 2, 7, 6, 5, 4, 3, 2]

  /** Python's `int()` raising `ValueError` on a character that is not a digit. */
  datatype AccountNumberError = InvalidLiteral(c: char)

  /** The characters of the class `[ .-]` that are removed before the check. */
  predicate IsSeparator(c: char)
  {
    c == ' ' || c == '.' || c == '-'
  }

  /** `re.sub("[ .-]", "", num)`. */
  function StripSeparators(s: string): (r: string)
    ensures |r| <= |s|
    ensures forall i :: 0 <= i < |r| ==> !IsSeparator(r[i])
  {
    if s == [] then []
    else if IsSeparator(s[0]) then StripSeparators(s[1..])
    else [s[0]] + StripSeparators(s[1..])
  }

  /** `crosssum` after the loop has consumed the digits `ds`. */
  function CrossSum(ds: string): int
    requires |ds| <= |Weights|
    requires forall i :: 0 <= i < |ds| ==> IsDigit(ds[i])
  {
    if ds == [] then 0
    else CrossSum(ds[..|ds| - 1]) + DigitValue(ds[|ds| - 1]) * Weights[|ds| - 1]
  }

  /** The returned test, as the source writes it, on strings:
      `num[10] == str(11 - crosssum % 11) or (crosssum % 11 == 0 and num[10] == "0")`. */
  predicate CheckDigitAccepted(check: char, crosssum: int)
  {
    [check] == NatToString(11 - crosssum % 11) || (crosssum % 11 == 0 && check == '0')
  }

  /** Index of the first character that is not a digit, or |s| if there is none. */
  function FirstNonDigit(s: string): (k: nat)
    ensures k <= |s|
    ensures forall i :: 0 <= i < k ==> IsDigit(s[i])
    ensures k < |s| ==> !IsDigit(s[k])
  {
    if s == [] then 0
    else if !IsDigit(s[0]) then 0
    else 1 + FirstNonDigit(s[1..])
  }

  /** What `verify_account_number(num)` returns (`Ok`) or raises (`Err`). */
  function Verdict(num: string): Result<bool, AccountNumberError>
  {
    var s := StripSeparators(num);
    if |s| != 11 then Ok(false)
    else
      var k := FirstNonDigit(s[..10]);
      if k < 10 then Err(InvalidLiteral(s[k]))
      else Ok(CheckDigitAccepted(s[10], CrossSum(s[..10])))
  }

  /** verify_account_number: the loop over the zip of the first ten characters
      and the weights, accumulating `crosssum`; `int(a)` raises on a non-digit. */
  method VerifyAccountNumber(num: string) returns (r: Result<bool, AccountNumberError>)
    ensures r == Verdict(num)
  {
    var s := StripSeparators(num);
    if |s| != 11 {
      return Ok(false);
    }
    var crosssum := 0;
    var i := 0;
    while i < 10
      invariant 0 <= i <= 10
      invariant forall j :: 0 <= j < i ==> IsDigit(s[j])
      invariant crosssum == CrossSum(s[..i])
    {
      if !IsDigit(s[i]) {
        assert FirstNonDigit(s[..10]) == i;
        return Err(InvalidLiteral(s[i]));
      }
      assert s[..i + 1][..i] == s[..i];
      crosssum := crosssum + DigitValue(s[i]) * Weights[i];
      i := i + 1;
    }
    assert s[..i] == s[..10];
    r := Ok(CheckDigitAccepted(s[10], crosssum));
  }

  // ---------------------------------------------------------------------------
  // Separator stripping

  lemma {:induction false} StripAppend(a: string, b: string)
    ensures StripSeparators(a + b) == StripSeparators(a) + StripSeparators(b)
    decreases |a|
  {
    if a == [] {
      assert a + b == b;
    } else {
      assert (a + b)[0] == a[0];
      assert (a + b)[1..] == a[1..] + b;
      StripAppend(a[1..], b);
    }
  }

  lemma {:induction false} StripNoSeparators(s: string)
    requires forall i :: 0 <= i < |s| ==> !IsSeparator(s[i])
    ensures StripSeparators(s) == s
    decreases |s|
  {
    if s != [] {
      StripNoSeparators(s[1..]);
    }
  }

  /** A space, dot or dash anywhere in the input does not change the verdict:
      the bare, spaced, dotted, dashed and padded forms of a number agree. */
  lemma SeparatorIgnored(a: string, c: char, b: string)
    requires IsSeparator(c)
    ensures Verdict(a + [c] + b) == Verdict(a + b)
  {
    assert [c][1..] == [];
    assert StripSeparators([c]) == [];
    StripAppend(a + [c], b);
    StripAppend(a, [c]);
    StripAppend(a, b);
    assert StripSeparators(a + [c] + b) == StripSeparators(a + b);
  }

  /** Leading and trailing spaces do not change the verdict. */
  lemma PaddingIgnored(num: string)
    ensures Verdict([' '] + num + [' ']) == Verdict(num)
  {
    assert [' '][1..] == [];
    assert StripSeparators([' ']) == [];
    StripAppend([' '], num);
    StripAppend([' '] + num, [' ']);
    assert StripSeparators([' '] + num + [' ']) == StripSeparators(num);
  }

  /** Only the stripped form decides the verdict. */
  lemma VerdictOfStripped(num: string)
    ensures Verdict(num) == Verdict(StripSeparators(num))
  {
    StripNoSeparators(StripSeparators(num));
  }

  // ---------------------------------------------------------------------------
  // The MOD11 rule

  /** The check character test, read as arithmetic: with remainder r of the
      weighted sum, the check digit must be 11 - r (a single digit only for
      r >= 2), or '0' when r is 0. A remainder of 1 ("10") accepts nothing. */
  lemma CheckDigitRule(check: char, crosssum: int)
    ensures var r := crosssum % 11;
      CheckDigitAccepted(check, crosssum) <==>
        (r == 0 && check == '0') || (2 <= r && check == DigitChar(11 - r))
  {
    var r := crosssum % 11;
    if r < 2 {
      assert |NatToString(11 - r)| != 1;
    } else {
      assert NatToString(11 - r) == [DigitChar(11 - r)];
    }
  }

  /** An input that does not have exactly eleven characters after stripping is rejected. */
  lemma WrongLengthRejected(num: string)
    requires |StripSeparators(num)| != 11
    ensures Verdict(num) == Ok(false)
  {
  }

  /** An eleven-character number with a non-digit among its first ten characters
      makes `int()` raise; the function does not return False. */
  lemma NonDigitPrefixRaises(num: string, i: nat)
    requires |StripSeparators(num)| == 11
    requires i < 10 && !IsDigit(StripSeparators(num)[i])
    ensures Verdict(num).Err?
  {
    var s := StripSeparators(num);
    assert s[..10][i] == s[i];
  }

  /** The verdict on an eleven-character number with a ten-digit prefix. */
  lemma ElevenDigitVerdict(num: string)
    requires var s := StripSeparators(num);
      |s| == 11 && forall i :: 0 <= i < 10 ==> IsDigit(s[i])
    ensures var s := StripSeparators(num);
      var r := CrossSum(s[..10]) % 11;
      Verdict(num) == Ok((r == 0 && s[10] == '0') || (2 <= r && s[10] == DigitChar(11 - r)))
  {
    var s := StripSeparators(num);
    assert forall i :: 0 <= i < 10 ==> IsDigit(s[..10][i]);
    CheckDigitRule(s[10], CrossSum(s[..10]));
  }

  /** When the weighted sum leaves remainder 1, no check character is accepted. */
  lemma RemainderOneRejectsAll(prefix: string, check: char)
    requires |prefix| == 10 && forall i :: 0 <= i < 10 ==> IsDigit(prefix[i])
    requires CrossSum(prefix) % 11 == 1
    ensures Verdict(prefix + [check]) != Ok(true)
  {
    var num := prefix + [check];
    if !IsSeparator(check) {
      StripNoSeparators(num);
      assert num[..10] == prefix;
      ElevenDigitVerdict(num);
    } else {
      StripNoSeparators(prefix);
      StripAppend(prefix, [check]);
    }
  }

  /** For a fixed ten-digit prefix at most one check character is accepted. */
  lemma CheckDigitUnique(prefix: string, c1: char, c2: char)
    requires |prefix| == 10 && forall i :: 0 <= i < 10 ==> IsDigit(prefix[i])
    requires Verdict(prefix + [c1]) == Ok(true) && Verdict(prefix + [c2]) == Ok(true)
    ensures c1 == c2
  {
    StripNoSeparators(prefix);
    if IsSeparator(c1) {
      StripAppend(prefix, [c1]);
      assert false;
    }
    if IsSeparator(c2) {
      StripAppend(prefix, [c2]);
      assert false;
    }
    StripNoSeparators(prefix + [c1]);
    StripNoSeparators(prefix + [c2]);
    assert (prefix + [c1])[..10] == prefix;
    assert (prefix + [c2])[..10] == prefix;
    ElevenDigitVerdict(prefix + [c1]);
    ElevenDigitVerdict(prefix + [c2]);
  }

  /** The check character the rule asks for when the remainder is r: '0'
      for 0, the digit 11 - r from 2 on (there is none for 1). */
  function CheckChar(r: int): (c: char)
    requires 0 <= r < 11 && r != 1
    ensures IsDigit(c)
  {
    if r == 0 then '0' else DigitChar(11 - r)
  }

  /** ... and, unless the remainder is 1, exactly one: the MOD11 check digit. */
  lemma CheckDigitExists(prefix: string)
    requires |prefix| == 10 && forall i :: 0 <= i < 10 ==> IsDigit(prefix[i])
    requires CrossSum(prefix) % 11 != 1
    ensures Verdict(prefix + [CheckChar(CrossSum(prefix) % 11)]) == Ok(true)
  {
    var r := CrossSum(prefix) % 11;
    assert (r == 0 && CheckChar(r) == '0') || (2 <= r && CheckChar(r) == DigitChar(11 - r));
    DigitNumberVerdict(prefix, CheckChar(r));
  }

  /** The weighted sum of the prefix used throughout the source's unit tests. */
  lemma TestPrefixCrossSum()
    ensures CrossSum("1234567890") == 195
  {
    assert "1"[..0] == "";
    assert "12"[..1] == "1";
    assert "123"[..2] == "12";
    assert "1234"[..3] == "123";
    assert "12345"[..4] == "1234";
    assert "123456"[..5] == "12345";
    assert "1234567"[..6] == "123456";
    assert "12345678"[..7] == "1234567";
    assert "123456789"[..8] == "12345678";
    assert "1234567890"[..9] == "123456789";
  }

  /** The verdict on a ten-digit prefix followed by a digit. */
  lemma DigitNumberVerdict(prefix: string, check: char)
    requires |prefix| == 10 && forall i :: 0 <= i < 10 ==> IsDigit(prefix[i])
    requires IsDigit(check)
    ensures var r := CrossSum(prefix) % 11;
      Verdict(prefix + [check]) == Ok((r == 0 && check == '0') || (2 <= r && check == DigitChar(11 - r)))
  {
    var num := prefix + [check];
    StripNoSeparators(num);
    assert num[..10] == prefix;
    ElevenDigitVerdict(num);
  }

  /** "12345678903", the valid number of the source's unit tests: 195 % 11 == 8
      and 11 - 8 == 3. Every other last digit is rejected. */
  lemma TestVectorBare(check: char)
    requires IsDigit(check)
    ensures Verdict("1234567890" + [check]) == Ok(check == '3')
  {
    TestPrefixCrossSum();
    DigitNumberVerdict("1234567890", check);
  }

  /** The spaced form of the valid test number. */
  lemma TestVectorSpaced()
    ensures Verdict("1234 56 78903") == Ok(true)
  {
    assert "1234567890" + ['3'] == "123456" + "78903";
    assert "1234" + [' '] + "56 78903" == "1234 56 78903";
    assert "1234" + "56 78903" == "123456" + [' '] + "78903";
    TestVectorBare('3');
    SeparatorIgnored("1234", ' ', "56 78903");
    SeparatorIgnored("123456", ' ', "78903");
  }

  /** The dashed form of the valid test number. */
  lemma TestVectorDashed()
    ensures Verdict("1234-56-78903") == Ok(true)
  {
    assert "1234567890" + ['3'] == "123456" + "78903";
    assert "1234" + ['-'] + "56-78903" == "1234-56-78903";
    assert "1234" + "56-78903" == "123456" + ['-'] + "78903";
    TestVectorBare('3');
    SeparatorIgnored("1234", '-', "56-78903");
    SeparatorIgnored("123456", '-', "78903");
  }

  /** The dashed form padded with spaces. */
  lemma TestVectorPadded()
    ensures Verdict(" 1234-56-78903 ") == Ok(true)
  {
    assert " 1234-56-78903 " == [' '] + "1234-56-78903" + [' '];
    TestVectorDashed();
    PaddingIgnored("1234-56-78903");
  }

  /** Too short: rejected without raising. */
  lemma TestVectorShort()
    ensures Verdict("123456789") == Ok(false)
    ensures Verdict("1234567890") == Ok(false)
  {
    StripNoSeparators("123456789");
    StripNoSeparators("1234567890");
  }

  /** Too long because of a letter: rejected without raising. */
  lemma TestVectorLetter()
    ensures Verdict("1234a5678903") == Ok(false)
  {
    StripNoSeparators("1234a5678903");
  }
}
