/** Base58 text of byte strings, as the Signer writes and reads public keys and blockhashes. */
module Base58 {
  import opened Numerals
  import opened Results
  import opened Texts

  type Byte = x: nat | x < 256

  // Written in runs of consecutive characters; the runs leave out 0, I, O and l.
  const ALPHABET: string := "123456789" + "ABCDEFGH" + "JKLMN" + "PQRSTUVWXYZ" + "abcdefghijk" + "mnopqrstuvwxyz"

  const KEY_BYTES: nat := 32

  datatype DecodeError = EmptyOrPadded | InvalidCharacter | WrongKeyLength

  function CharOf(d: nat): char
    requires d < 58
  {
    if d < 9 then ('1' as int + d) as char
    else if d < 17 then ('A' as int + d - 9) as char
    else if d < 22 then ('J' as int + d - 17) as char
    else if d < 33 then ('P' as int + d - 22) as char
    else if d < 44 then ('a' as int + d - 33) as char
    else ('m' as int + d - 44) as char
  }

  /** The position of a character in the alphabet, or none for a character outside it. */
  function IndexOf(c: char): (d: Option<nat>)
    ensures d.Some? ==> d.value < 58 && CharOf(d.value) == c
  {
    if '1' <= c <= '9' then Some(c as int - '1' as int)
    else if 'A' <= c <= 'H' then Some(c as int - 'A' as int + 9)
    else if 'J' <= c <= 'N' then Some(c as int - 'J' as int + 17)
    else if 'P' <= c <= 'Z' then Some(c as int - 'P' as int + 22)
    else if 'a' <= c <= 'k' then Some(c as int - 'a' as int + 33)
    else if 'm' <= c <= 'z' then Some(c as int - 'm' as int + 44)
    else None
  }

  /** CharOf lists the alphabet in order and IndexOf is its dictionary. */
  lemma AlphabetInOrder(d: nat)
    requires d < 58
    ensures |ALPHABET| == 58 && ALPHABET[d] == CharOf(d)
    ensures IndexOf(ALPHABET[d]) == Some(d)
  {
    assert |ALPHABET| == 58;
  }

  predicate InAlphabet(text: string) {
    forall i :: 0 <= i < |text| ==> IndexOf(text[i]).Some?
  }

  function Digits(text: string): (s: Numeral)
    requires InAlphabet(text)
    ensures |s| == |text| && InBase(s, 58)
  {
    seq(|text|, i requires 0 <= i < |text| => IndexOf(text[i]).value)
  }

  function Chars(s: Numeral): (text: string)
    requires InBase(s, 58)
    ensures |text| == |s| && InAlphabet(text) && Digits(text) == s
  {
    var text := seq(|s|, i requires 0 <= i < |s| => CharOf(s[i]));
    text
  }

  lemma CharsOfDigits(text: string)
    requires InAlphabet(text)
    ensures Chars(Digits(text)) == text
  {
  }

  function AsBytes(s: Numeral): (raw: seq<Byte>)
    requires InBase(s, 256)
    ensures raw == s
  {
    seq(|s|, i requires 0 <= i < |s| => s[i] as Byte)
  }

  predicate Padded(text: string) {
    text != "" && (Space(text[0]) || Space(text[|text| - 1]))
  }

  // ----- Specifications

  function EncodeText(raw: seq<Byte>): string {
    if raw == [] then "1" else Chars(Rewrite(raw, 256, 58))
  }

  function DecodeText(text: string): Result<seq<Byte>, DecodeError> {
    if text == "" || Padded(text) then Failure(EmptyOrPadded)
    else if !InAlphabet(text) then Failure(InvalidCharacter)
    else Success(AsBytes(Rewrite(Digits(text), 58, 256)))
  }

  function DecodeKey(text: string): (r: Result<seq<Byte>, DecodeError>)
    ensures r.Success? ==> |r.value| == KEY_BYTES
  {
    var raw :- DecodeText(text);
    if |raw| != KEY_BYTES then Failure(WrongKeyLength) else Success(raw)
  }

  // ----- The loops of the source

  method CountLeading<T(==)>(s: seq<T>, zero: T) returns (z: nat)
    ensures z <= |s| && (forall i :: 0 <= i < z ==> s[i] == zero) && (z < |s| ==> s[z] != zero)
  {
    z := 0;
    while z < |s| && s[z] == zero
      invariant z <= |s|
      invariant forall i :: 0 <= i < z ==> s[i] == zero
    {
      z := z + 1;
    }
  }

  lemma PrependDigit(encoded: string, d: nat)
    requires InAlphabet(encoded) && d < 58
    ensures |ALPHABET| == 58
    ensures InAlphabet([ALPHABET[d]] + encoded) && Digits([ALPHABET[d]] + encoded) == [d] + Digits(encoded)
  {
    AlphabetInOrder(d);
  }

  /** One division moves a digit from the number to the front of the text. */
  lemma EncodeStep(n: nat, encoded: string)
    requires n > 0 && InAlphabet(encoded)
    ensures 0 <= n / 58 < n && 0 <= n % 58 < |ALPHABET|
    ensures InAlphabet([ALPHABET[n % 58]] + encoded)
    ensures Shortest(n / 58, 58) + Digits([ALPHABET[n % 58]] + encoded) == Shortest(n, 58) + Digits(encoded)
  {
    QuotientAndRest(n, 58);
    PrependDigit(encoded, n % 58);
    ShortestSplits(n, 58);
    MoveDigit(Shortest(n / 58, 58), n % 58, Digits(encoded));
  }

  lemma MoveDigit(front: Numeral, d: nat, rest: Numeral)
    ensures front + ([d] + rest) == (front + [d]) + rest
  {
  }

  method Encode(raw: seq<Byte>) returns (text: string)
    ensures text == EncodeText(raw)
  {
    var number := Value(raw, 256);
    var encoded := "";
    assert Digits(encoded) == [];
    while number > 0
      invariant InAlphabet(encoded)
      invariant Shortest(Value(raw, 256), 58) == Shortest(number, 58) + Digits(encoded)
    {
      var remainder;
      EncodeStep(number, encoded);
      number, remainder := number / 58, number % 58;
      encoded := [ALPHABET[remainder]] + encoded;
    }
    var leading := CountLeading(raw, 0);
    EncodeAssembled(raw, leading, encoded);
    text := seq(leading, _ => '1')
      + (if encoded != "" then encoded else if leading == 0 then "1" else "");
  }

  /** The leading ones and the converted digits make up the specified text. */
  lemma EncodeAssembled(raw: seq<Byte>, leading: nat, encoded: string)
    requires leading <= |raw| && (forall i :: 0 <= i < leading ==> raw[i] == 0)
      && (leading < |raw| ==> raw[leading] != 0)
    requires InAlphabet(encoded) && Digits(encoded) == Shortest(Value(raw, 256), 58)
    ensures EncodeText(raw)
         == seq(leading, _ => '1') + (if encoded != "" then encoded else if leading == 0 then "1" else "")
  {
    LeadingCountUnique(raw, leading);
    CharsOfDigits(encoded);
    if raw != [] {
      if leading == 0 {
        ZeroOnlyFromZeros(raw);
        assert Value(Digits(encoded), 58) > 0;
        assert encoded != "";
      }
      OnesThenChars(leading, Digits(encoded));
    } else {
      assert Digits(encoded) == [];
    }
  }

  lemma OnesThenChars(z: nat, digits: Numeral)
    requires InBase(digits, 58)
    ensures Chars(Zeros(z) + digits) == seq(z, _ => '1') + Chars(digits)
  {
  }

  lemma NextDigit(text: string, i: nat)
    requires i < |text| && InAlphabet(text[..i]) && IndexOf(text[i]).Some?
    ensures InAlphabet(text[..i + 1]) && Digits(text[..i + 1]) == Digits(text[..i]) + [IndexOf(text[i]).value]
    ensures Value(Digits(text[..i + 1]), 58) == Value(Digits(text[..i]), 58) * 58 + IndexOf(text[i]).value
  {
    assert text[..i + 1] == text[..i] + [text[i]];
    assert Digits(text[..i + 1]) == Digits(text[..i]) + [IndexOf(text[i]).value];
    AppendDigit(Digits(text[..i]), IndexOf(text[i]).value, 58);
  }

  method Decode(text: string) returns (r: Result<seq<Byte>, DecodeError>)
    ensures r == DecodeText(text)
  {
    if text == "" || Padded(text) {
      return Failure(EmptyOrPadded);
    }
    var number := 0;
    var i := 0;
    while i < |text|
      invariant i <= |text| && InAlphabet(text[..i])
      invariant number == Value(Digits(text[..i]), 58)
    {
      var digit := IndexOf(text[i]);
      if digit.None? {
        return Failure(InvalidCharacter);
      }
      number := number * 58 + digit.value;
      NextDigit(text, i);
      i := i + 1;
    }
    assert text[..i] == text;
    var raw := AsBytes(Shortest(number, 256));
    var leading := CountLeading(text, '1');
    forall k | 0 <= k < |text|
      ensures text[k] == '1' <==> Digits(text)[k] == 0
    {
    }
    LeadingCountUnique(Digits(text), leading);
    var zeros: seq<Byte> := seq(leading, _ => 0);
    return Success(zeros + raw);
  }

  lemma {:induction false} LeadingCountUnique(s: Numeral, z: nat)
    requires z <= |s| && (forall i :: 0 <= i < z ==> s[i] == 0) && (z < |s| ==> s[z] != 0)
    ensures z == LeadingZeros(s)
  {
    if s != [] && s[0] == 0 {
      LeadingCountUnique(s[1..], z - 1);
    }
  }

  /** A number that is zero has zero digits only. */
  lemma ZeroOnlyFromZeros(s: Numeral)
    requires InBase(s, 256) && LeadingZeros(s) < |s|
    ensures Value(s, 256) > 0
  {
    var z := LeadingZeros(s);
    assert s == Zeros(z) + s[z..];
    LeadingZerosAddNothing(z, s[z..], 256);
    PositiveValue(s[z..], 256);
  }

  // ----- Bijection

  lemma AlphabetIsNotPadded(text: string)
    requires text != "" && InAlphabet(text)
    ensures !Padded(text)
  {
  }

  /** Decoding accepts exactly the non-empty strings over the alphabet. */
  lemma DecodesExactlyTheAlphabet(text: string)
    ensures DecodeText(text).Success? <==> text != "" && InAlphabet(text)
  {
    if text != "" && InAlphabet(text) {
      AlphabetIsNotPadded(text);
    }
  }

  /**
   * Every byte string but the empty one comes back, leading zeros included; the empty one comes back as one zero byte.
   */
  lemma DecodeAfterEncode(raw: seq<Byte>)
    ensures InAlphabet(EncodeText(raw)) && EncodeText(raw) != ""
    ensures DecodeText(EncodeText(raw)) == Success(raw) <==> raw != []
    ensures raw == [] ==> DecodeText(EncodeText(raw)) == Success([0])
  {
    if raw == [] {
      AlphabetInOrder(0);
      var digits := Digits("1");
      assert digits == [0];
      assert LeadingZeros([0]) == 1 by { LeadingCountUnique([0], 1); }
      assert Value([0], 58) == 0 by { assert [0] == Zeros(1); ValueOfZeros(1, 58); }
      assert Rewrite(digits, 58, 256) == [0];
      AlphabetIsNotPadded("1");
    } else {
      var s: Numeral := raw;
      RewriteRoundTrip(s, 256, 58);
      var t := Rewrite(s, 256, 58);
      assert Rewrite([], 58, 256) == [];
      AlphabetIsNotPadded(Chars(t));
    }
  }

  /** Every non-empty string over the alphabet comes back. */
  lemma EncodeAfterDecode(text: string)
    requires text != "" && InAlphabet(text)
    ensures DecodeText(text).Success? && EncodeText(DecodeText(text).value) == text
  {
    AlphabetIsNotPadded(text);
    RewriteRoundTrip(Digits(text), 58, 256);
    var raw := Rewrite(Digits(text), 58, 256);
    assert Rewrite([], 256, 58) == [];
    CharsOfDigits(text);
  }

  /** Two texts that decode to the same bytes are the same text. */
  lemma DecodeInjective(a: string, b: string)
    requires DecodeText(a).Success? && DecodeText(a) == DecodeText(b)
    ensures a == b
  {
    DecodesExactlyTheAlphabet(a);
    DecodesExactlyTheAlphabet(b);
    EncodeAfterDecode(a);
    EncodeAfterDecode(b);
  }

  // ----- Length of an encoded key

  /** 256^k <= 58^(k+12) up to the 32 bytes of a key. */
  lemma {:induction false} KeyFits(k: nat)
    requires k <= KEY_BYTES
    ensures Pow(256, k) <= Pow(58, k + 12)
    decreases KEY_BYTES - k
  {
    if k == KEY_BYTES {
      assert Pow(256, 4) == 4294967296;
      assert Pow(256, 8) == 18446744073709551616 by { PowAdd(256, 4, 4); }
      assert Pow(256, 16) == 340282366920938463463374607431768211456 by { PowAdd(256, 8, 8); }
      assert Pow(256, 32)
        == 115792089237316195423570985008687907853269984665640564039457584007913129639936 by { PowAdd(256, 16, 16); }
      assert Pow(58, 5) == 656356768;
      assert Pow(58, 6) == 58 * Pow(58, 5);
      assert Pow(58, 11) == Pow(58, 5) * Pow(58, 6) by { PowAdd(58, 5, 6); }
      assert Pow(58, 22) == Pow(58, 11) * Pow(58, 11) by { PowAdd(58, 11, 11); }
      assert Pow(58, 44) == Pow(58, 22) * Pow(58, 22) by { PowAdd(58, 22, 22); }
    } else {
      KeyFits(k + 1);
      assert 256 * Pow(256, k) <= 58 * Pow(58, k + 12);
    }
  }

  /** A value of k bytes without a leading zero byte takes k to k + 12 digits. */
  lemma DigitCount(rest: Numeral, digits: Numeral)
    requires InBase(rest, 256) && NoLeadingZero(rest) && 0 < |rest| <= KEY_BYTES
    requires InBase(digits, 58) && NoLeadingZero(digits) && digits != [] && Value(digits, 58) == Value(rest, 256)
    ensures |rest| <= |digits| <= |rest| + 12
  {
    ValueBelow(rest, 256);
    ValueAtLeast(digits, 58);
    KeyFits(|rest|);
    if |rest| + 12 <= |digits| - 1 {
      PowMonotone(58, |rest| + 12, |digits| - 1);
    }
    ValueAtLeast(rest, 256);
    ValueBelow(digits, 58);
    PowBase(58, 256, |rest| - 1);
    if |digits| <= |rest| - 1 {
      PowMonotone(58, |digits|, |rest| - 1);
    }
  }

  /** The text of a 32-byte key has 32 to 44 characters. */
  lemma KeyTextLength(raw: seq<Byte>)
    requires |raw| == KEY_BYTES
    ensures 32 <= |EncodeText(raw)| <= 44
  {
    var s: Numeral := raw;
    var z := LeadingZeros(s);
    var rest := s[z..];
    assert s == Zeros(z) + rest;
    LeadingZerosAddNothing(z, rest, 256);
    if rest != [] {
      PositiveValue(rest, 256);
      DigitCount(rest, Shortest(Value(rest, 256), 58));
    } else {
      assert Shortest(Value(s, 256), 58) == [];
    }
  }
}
