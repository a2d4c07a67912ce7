/** The browser's form of an ID, in lower-case hexadecimal: stringToBytes and buildCommand of
    frontend/src/command-builder.ts and bytesToString of frontend/src/event-parser.ts; and the way of
    an ID from the server to a page and back. */
module HexID {
  import opened Domain
  import Protocol

  /** A JavaScript string is a sequence of UTF-16 code units. */
  type CodeUnit = c: int | 0 <= c < 0x1_0000

  type Text = seq<CodeUnit>

  const PLUS: CodeUnit := 0x2B
  const MINUS: CodeUnit := 0x2D
  const ZERO: CodeUnit := 0x30
  const UPPER_A: CodeUnit := 0x41
  const UPPER_X: CodeUnit := 0x58
  const LOWER_A: CodeUnit := 0x61
  const LOWER_X: CodeUnit := 0x78

  // ----- parseInt(text, 16), from section 19.2.5 of ECMA-262 -----

  predicate IsSpace(c: CodeUnit) {
    || 9 <= c <= 13 || c == 0x20 || c == 0xA0 || c == 0x1680 || 0x2000 <= c <= 0x200A
    || c == 0x2028 || c == 0x2029 || c == 0x202F || c == 0x205F || c == 0x3000 || c == 0xFEFF
  }

  function TrimStart(s: Text): Text {
    if s != [] && IsSpace(s[0]) then TrimStart(s[1..]) else s
  }

  function DigitOf(c: CodeUnit): Option<int> {
    if ZERO <= c < ZERO + 10 then Some(c - ZERO)
    else if UPPER_A <= c < UPPER_A + 6 then Some(c - UPPER_A + 10)
    else if LOWER_A <= c < LOWER_A + 6 then Some(c - LOWER_A + 10)
    else None
  }

  /** The value of the digits at the start; None, for NaN, if there is not one. */
  function LeadingDigits(s: Text, value: Option<int>): Option<int>
    decreases |s|
  {
    if s == [] || DigitOf(s[0]).None? then value
    else
      var digit := DigitOf(s[0]).value;
      LeadingDigits(s[1..], Some(if value.Some? then 16 * value.value + digit else digit))
  }

  function DropPrefix(s: Text): Text {
    if |s| >= 2 && s[0] == ZERO && (s[1] == LOWER_X || s[1] == UPPER_X) then s[2..] else s
  }

  function ParseInt16(text: Text): Option<int> {
    var s := TrimStart(text);
    var signed := s != [] && (s[0] == PLUS || s[0] == MINUS);
    var magnitude := LeadingDigits(DropPrefix(if signed then s[1..] else s), None);
    if magnitude.None? then None
    else if signed && s[0] == MINUS then Some(-magnitude.value)
    else Some(magnitude.value)
  }

  /** What storing a number in a Uint8Array makes of it. */
  function ToUint8(number: Option<int>): Byte {
    if number.None? then 0 else number.value % 256
  }

  // ----- stringToBytes and bytesToString -----

  function PairAt(id: Text, k: nat): Text
    requires 2 * k + 1 < |id|
  {
    id[2 * k..2 * k + 2]
  }

  function BytesOf(id: Text): seq<Byte> {
    seq(|id| / 2, k requires 0 <= k < |id| / 2 => ToUint8(ParseInt16(PairAt(id, k))))
  }

  /** None where the program throws. */
  method StringToBytes(id: Text) returns (result: Option<seq<Byte>>)
    ensures result == if |id| % 2 == 0 then Some(BytesOf(id)) else None
  {
    if |id| % 2 != 0 {
      return None;
    }
    var bytes := new Byte[|id| / 2];
    var i := 0;
    while i < |id|
      invariant 0 <= i <= |id| && i % 2 == 0
      invariant forall k :: 0 <= k < i / 2 ==> bytes[k] == BytesOf(id)[k]
    {
      bytes[i / 2] := ToUint8(ParseInt16(id[i..i + 2]));
      assert id[i..i + 2] == PairAt(id, i / 2);
      i := i + 2;
    }
    assert bytes[..] == BytesOf(id);
    return Some(bytes[..]);
  }

  function DigitChar(digit: nat): CodeUnit
    requires digit < 16
  {
    if digit < 10 then ZERO + digit else LOWER_A + digit - 10
  }

  /** byte.toString(16) */
  function ToString16(byte: Byte): Text {
    if byte < 16 then [DigitChar(byte)] else [DigitChar(byte / 16), DigitChar(byte % 16)]
  }

  function PadStart(s: Text, length: nat): Text
    decreases length - |s|
  {
    if |s| < length then PadStart([ZERO] + s, length) else s
  }

  /** bytesToString */
  function StringOf(bytes: seq<Byte>): Text {
    if bytes == [] then [] else PadStart(ToString16(bytes[0]), 2) + StringOf(bytes[1..])
  }

  // ----- Round trips -----

  predicate IsHexDigit(c: CodeUnit) {
    DigitOf(c).Some?
  }

  predicate IsLowerHexDigit(c: CodeUnit) {
    ZERO <= c < ZERO + 10 || LOWER_A <= c < LOWER_A + 6
  }

  function Lower(c: CodeUnit): CodeUnit {
    if UPPER_A <= c < UPPER_A + 26 then c + LOWER_A - UPPER_A else c
  }

  lemma DigitsOfOne(c: CodeUnit)
    ensures LeadingDigits([c], None) == DigitOf(c)
  {
    assert [c][1..] == [];
  }

  lemma DigitsOfTwo(c: CodeUnit, d: CodeUnit)
    ensures LeadingDigits([c, d], None) ==
            if DigitOf(c).None? then None
            else if DigitOf(d).None? then DigitOf(c)
            else Some(16 * DigitOf(c).value + DigitOf(d).value)
  {
    assert [c, d][1..] == [d] && [d][1..] == [];
    if IsHexDigit(c) && IsHexDigit(d) {
      assert LeadingDigits([d], DigitOf(c)) == Some(16 * DigitOf(c).value + DigitOf(d).value);
    }
  }

  lemma TrimPair(c: CodeUnit, d: CodeUnit)
    ensures TrimStart([c, d]) == if !IsSpace(c) then [c, d] else if IsSpace(d) then [] else [d]
    ensures IsSpace(c) ==> DigitOf(c).None? && c != PLUS && c != MINUS
  {
    assert [c, d][1..] == [d] && [d][1..] == [];
    assert TrimStart([]) == [];
    assert TrimStart([d]) == if IsSpace(d) then [] else [d];
  }

  lemma SpaceThenOne(c: CodeUnit, d: CodeUnit)
    requires IsSpace(c)
    ensures ParseInt16([c, d]) == DigitOf(d)
  {
    TrimPair(c, d);
    TrimPair(d, d);
    DigitsOfOne(d);
    assert LeadingDigits([], None) == None && [d][1..] == [];
    hide TrimStart, LeadingDigits, IsSpace, DigitOf;
  }

  lemma SignThenOne(c: CodeUnit, d: CodeUnit)
    requires c == PLUS || c == MINUS
    ensures ParseInt16([c, d]) ==
            if DigitOf(d).None? then None
            else Some(if c == PLUS then DigitOf(d).value else -DigitOf(d).value)
  {
    TrimPair(c, d);
    assert [c, d][1..] == [d];
    DigitsOfOne(d);
    hide TrimStart, LeadingDigits, DigitOf;
  }

  /** 0x is a prefix, after which there is no digit. */
  lemma TwoUnits(c: CodeUnit, d: CodeUnit)
    requires !IsSpace(c) && c != PLUS && c != MINUS
    ensures ParseInt16([c, d]) ==
            if DigitOf(c).None? then None
            else if c == ZERO && (d == LOWER_X || d == UPPER_X) then None
            else if DigitOf(d).None? then DigitOf(c)
            else Some(16 * DigitOf(c).value + DigitOf(d).value)
  {
    TrimPair(c, d);
    assert [c, d][2..] == [];
    assert LeadingDigits([], None) == None;
    DigitsOfTwo(c, d);
    hide TrimStart, LeadingDigits, IsSpace;
  }

  lemma StoredByte(n: int)
    requires 0 <= n < 256
    ensures ToUint8(Some(n)) == n && ToUint8(Some(-n)) == (256 - n) % 256
  {
  }

  lemma DigitRange(c: CodeUnit)
    requires IsHexDigit(c)
    ensures 0 <= DigitOf(c).value < 16
  {
  }

  /** What two code units mean. Two digits are a byte in base 16, as in section 8 of RFC 4648; but
      nothing is refused: a single digit counts alone, after a space or a sign or before anything,
      negated after a minus; and what has no digit where it is needed is 0. */
  lemma PairMeaning(c: CodeUnit, d: CodeUnit)
    ensures ToUint8(ParseInt16([c, d])) ==
            if IsHexDigit(c) && IsHexDigit(d) then 16 * DigitOf(c).value + DigitOf(d).value
            else if IsHexDigit(c) then DigitOf(c).value
            else if !IsHexDigit(d) then 0
            else if IsSpace(c) || c == PLUS then DigitOf(d).value
            else if c == MINUS then (256 - DigitOf(d).value) % 256
            else 0
  {
    assert DigitOf(PLUS).None? && DigitOf(MINUS).None? && DigitOf(LOWER_X).None? && DigitOf(UPPER_X).None?;
    assert DigitOf(ZERO) == Some(0) && ToUint8(None) == 0;
    if IsHexDigit(c) {
      DigitRange(c);
      StoredByte(DigitOf(c).value);
    }
    if IsHexDigit(d) {
      DigitRange(d);
      StoredByte(DigitOf(d).value);
    }
    if IsHexDigit(c) && IsHexDigit(d) {
      StoredByte(16 * DigitOf(c).value + DigitOf(d).value);
    }
    TrimPair(c, d);
    hide ParseInt16, DigitOf, ToUint8, TrimStart;
    if IsSpace(c) {
      SpaceThenOne(c, d);
    } else if c == PLUS || c == MINUS {
      SignThenOne(c, d);
    } else {
      TwoUnits(c, d);
    }
  }

  lemma PaddedByte(byte: Byte)
    ensures PadStart(ToString16(byte), 2) == [DigitChar(byte / 16), DigitChar(byte % 16)]
  {
    if byte < 16 {
      assert PadStart([ZERO, DigitChar(byte)], 2) == [ZERO, DigitChar(byte)];
    }
  }

  lemma {:induction false} StringOfPairs(bytes: seq<Byte>)
    ensures |StringOf(bytes)| == 2 * |bytes|
    ensures forall k :: 0 <= k < |bytes| ==>
              PairAt(StringOf(bytes), k) == [DigitChar(bytes[k] / 16), DigitChar(bytes[k] % 16)]
  {
    if bytes != [] {
      PaddedByte(bytes[0]);
      StringOfPairs(bytes[1..]);
      var text, rest := StringOf(bytes), StringOf(bytes[1..]);
      hide StringOf, ToString16, DigitChar, PadStart;
      forall k | 0 < k < |bytes| ensures PairAt(text, k) == PairAt(rest, k - 1) {
      }
    }
  }

  /** Bytes survive the way through a string. */
  lemma {:induction false} BytesRoundTrip(bytes: seq<Byte>)
    ensures |StringOf(bytes)| % 2 == 0
    ensures BytesOf(StringOf(bytes)) == bytes
  {
    StringOfPairs(bytes);
    forall k | 0 <= k < |bytes| ensures BytesOf(StringOf(bytes))[k] == bytes[k] {
      var high, low := DigitChar(bytes[k] / 16), DigitChar(bytes[k] % 16);
      assert PairAt(StringOf(bytes), k) == [high, low];
      PairMeaning(high, low);
    }
  }

  predicate AllHex(s: Text) {
    forall k :: 0 <= k < |s| ==> IsHexDigit(s[k])
  }

  predicate AllLowerHex(s: Text) {
    forall k :: 0 <= k < |s| ==> IsLowerHexDigit(s[k])
  }

  function LowerCase(s: Text): Text {
    seq(|s|, k requires 0 <= k < |s| => Lower(s[k]))
  }

  lemma DigitCharOf(c: CodeUnit)
    ensures IsLowerHexDigit(Lower(c)) <==> IsHexDigit(c)
    ensures IsLowerHexDigit(c) <==> IsHexDigit(c) && Lower(c) == c
    ensures IsHexDigit(c) ==> DigitChar(DigitOf(c).value) == Lower(c)
  {
  }

  /** A byte is written in lower-case digits, and so can equal only what is in digits. */
  lemma PairRoundTripIff(c: CodeUnit, d: CodeUnit)
    ensures var byte := ToUint8(ParseInt16([c, d]));
            DigitChar(byte / 16) == Lower(c) && DigitChar(byte % 16) == Lower(d) <==>
            IsHexDigit(c) && IsHexDigit(d)
  {
    var byte := ToUint8(ParseInt16([c, d]));
    PairMeaning(c, d);
    DigitCharOf(c);
    DigitCharOf(d);
    assert IsLowerHexDigit(DigitChar(byte / 16)) && IsLowerHexDigit(DigitChar(byte % 16));
    hide ToUint8, ParseInt16, Lower, IsLowerHexDigit;
  }

  predicate PairSurvives(id: Text, text: Text, k: nat)
    requires 2 * k + 1 < |id| == |text|
  {
    text[2 * k] == Lower(id[2 * k]) && text[2 * k + 1] == Lower(id[2 * k + 1]) <==>
    IsHexDigit(id[2 * k]) && IsHexDigit(id[2 * k + 1])
  }

  lemma PairsSurvive(id: Text, text: Text)
    requires |id| == |text| && |id| % 2 == 0
    requires forall k :: 0 <= k < |id| / 2 ==> PairSurvives(id, text, k)
    ensures text == LowerCase(id) <==> AllHex(id)
  {
    hide Lower, IsHexDigit;
    if AllHex(id) {
      forall i | 0 <= i < |id| ensures text[i] == LowerCase(id)[i] {
        assert PairSurvives(id, text, i / 2);
      }
    }
    if text == LowerCase(id) {
      assert forall i :: 0 <= i < |id| ==> LowerCase(id)[i] == Lower(id[i]);
      forall i | 0 <= i < |id| ensures IsHexDigit(id[i]) {
        assert PairSurvives(id, text, i / 2);
      }
    }
  }

  lemma PairOfWritten(id: Text, k: nat)
    requires |id| % 2 == 0 && k < |id| / 2
    ensures |StringOf(BytesOf(id))| == |id| && PairSurvives(id, StringOf(BytesOf(id)), k)
  {
    var bytes := BytesOf(id);
    assert PairAt(id, k) == [id[2 * k], id[2 * k + 1]];
    assert bytes[k] == ToUint8(ParseInt16([id[2 * k], id[2 * k + 1]]));
    hide BytesOf, ParseInt16, ToUint8, IsHexDigit, Lower, DigitChar, StringOf;
    var text := StringOf(bytes);
    StringOfPairs(bytes);
    PairRoundTripIff(id[2 * k], id[2 * k + 1]);
    assert text[2 * k] == PairAt(text, k)[0] && text[2 * k + 1] == PairAt(text, k)[1];
    hide PairAt;
  }

  /** A string of even length survives the way through bytes, up to case, exactly if it is all hex
      digits. */
  lemma StringSurvivesIff(id: Text)
    requires |id| % 2 == 0
    ensures StringOf(BytesOf(id)) == LowerCase(id) <==> AllHex(id)
  {
    var text := StringOf(BytesOf(id));
    StringOfPairs(BytesOf(id));
    assert |text| == |id|;
    hide PairSurvives, LowerCase, AllHex, StringOf, BytesOf, PairAt;
    forall k | 0 <= k < |id| / 2 ensures |text| == |id| && PairSurvives(id, text, k) {
      PairOfWritten(id, k);
    }
    PairsSurvive(id, text);
  }

  /** It survives unchanged exactly if the digits are in lower case. */
  lemma StringRoundTripIff(id: Text)
    requires |id| % 2 == 0
    ensures StringOf(BytesOf(id)) == id <==> AllLowerHex(id)
  {
    StringSurvivesIff(id);
    LowerHexIff(id);
    WrittenInLowerCase(BytesOf(id));
    hide StringOf, BytesOf, AllHex, AllLowerHex;
  }

  lemma LowerHexIff(id: Text)
    ensures AllLowerHex(id) <==> AllHex(id) && LowerCase(id) == id
  {
    forall k | 0 <= k < |id|
      ensures IsLowerHexDigit(id[k]) <==> IsHexDigit(id[k]) && LowerCase(id)[k] == id[k]
    {
      DigitCharOf(id[k]);
    }
    hide IsLowerHexDigit, IsHexDigit, Lower;
    if AllHex(id) && LowerCase(id) == id {
      assert forall k :: 0 <= k < |id| ==> LowerCase(id)[k] == id[k];
    }
  }

  lemma WrittenInLowerCase(bytes: seq<Byte>)
    ensures AllLowerHex(StringOf(bytes))
  {
    StringOfPairs(bytes);
    var text := StringOf(bytes);
    hide StringOf;
    forall i | 0 <= i < |text| ensures IsLowerHexDigit(text[i]) {
      assert PairAt(text, i / 2)[i % 2] == text[i];
    }
  }
}
