/** `keccak256Evm` on hexadecimal text: reading bytes, hashing them and writing the digest. */
module KeccakText {
  import opened Results
  import opened KeccakSponge

  predicate IsDigit(ch: char) { '0' <= ch <= '9' || 'a' <= ch <= 'f' || 'A' <= ch <= 'F' }

  function DigitValue(ch: char): (n: nat)
    requires IsDigit(ch)
    ensures n < 16
  {
    if ch <= '9' then ch as int - '0' as int else if ch <= 'F' then ch as int - 'A' as int + 10 else ch as int - 'a' as int + 10
  }

  /** The digit that `toString(16)` writes. */
  function DigitOf(n: nat): (ch: char)
    requires n < 16
    ensures IsDigit(ch) && DigitValue(ch) == n && !('A' <= ch <= 'F')
  {
    if n < 10 then ('0' as int + n) as char else ('a' as int + n - 10) as char
  }

  function LowerDigit(ch: char): char { if 'A' <= ch <= 'F' then (ch as int + 32) as char else ch }

  lemma DigitOfValue(ch: char)
    requires IsDigit(ch)
    ensures DigitOf(DigitValue(ch)) == LowerDigit(ch)
  {
  }

  /** `asHexData`: `0x` and an even number of digits. */
  predicate IsHexData(text: string) {
    |text| >= 2 && text[..2] == "0x" && |text| % 2 == 0 && forall i | 2 <= i < |text| :: IsDigit(text[i])
  }

  function ByteAt(text: string, i: nat): int
    requires IsHexData(text) && 2 * i + 3 < |text|
  {
    16 * DigitValue(text[2 + 2 * i]) + DigitValue(text[3 + 2 * i])
  }

  function BytesOf(text: string): seq<int>
    requires IsHexData(text)
  {
    seq((|text| - 2) / 2, i requires 0 <= i < (|text| - 2) / 2 => ByteAt(text, i))
  }

  function Digits(p: seq<int>): string
    requires Bytes(p)
  {
    if p == [] then [] else Digits(p[..|p| - 1]) + [DigitOf(p[|p| - 1] / 16), DigitOf(p[|p| - 1] % 16)]
  }

  function TextOf(p: seq<int>): string
    requires Bytes(p)
  {
    "0x" + Digits(p)
  }

  lemma {:induction false} DigitsAt(p: seq<int>)
    requires Bytes(p)
    ensures |Digits(p)| == 2 * |p|
    ensures forall i | 0 <= i < |p| :: Digits(p)[2 * i] == DigitOf(p[i] / 16) && Digits(p)[2 * i + 1] == DigitOf(p[i] % 16)
  {
    if p != [] {
      var q := p[..|p| - 1];
      DigitsAt(q);
      forall i | 0 <= i < |p| ensures Digits(p)[2 * i] == DigitOf(p[i] / 16) && Digits(p)[2 * i + 1] == DigitOf(p[i] % 16) {
        if i < |q| { assert q[i] == p[i] && Digits(p)[2 * i] == Digits(q)[2 * i] && Digits(p)[2 * i + 1] == Digits(q)[2 * i + 1]; }
      }
    }
  }

  lemma TextIsHexData(p: seq<int>)
    requires Bytes(p)
    ensures |TextOf(p)| == 2 * |p| + 2 && IsHexData(TextOf(p))
  {
    DigitsAt(p);
    var text := TextOf(p);
    assert text[..2] == "0x";
    forall i | 2 <= i < |text| ensures IsDigit(text[i]) {
      var k := (i - 2) / 2;
      assert text[2 + 2 * k] == Digits(p)[2 * k] && text[3 + 2 * k] == Digits(p)[2 * k + 1];
    }
  }

  /** Reading what was written gives the bytes back. */
  lemma ReadWritten(p: seq<int>)
    requires Bytes(p)
    ensures IsHexData(TextOf(p)) && BytesOf(TextOf(p)) == p
  {
    TextIsHexData(p);
    DigitsAt(p);
    forall i | 0 <= i < |p| ensures BytesOf(TextOf(p))[i] == p[i] {
      assert TextOf(p)[2 + 2 * i] == Digits(p)[2 * i] && TextOf(p)[3 + 2 * i] == Digits(p)[2 * i + 1];
    }
  }

  lemma BytesInRange(text: string)
    requires IsHexData(text)
    ensures Bytes(BytesOf(text))
  {
  }

  lemma SameDigit(a: char, b: char)
    requires IsDigit(a) && IsDigit(b)
    ensures DigitValue(a) == DigitValue(b) <==> LowerDigit(a) == LowerDigit(b)
  {
    DigitOfValue(a);
    DigitOfValue(b);
  }

  predicate SameDigits(p: string, q: string, i: nat)
    requires i < |p| == |q|
  {
    LowerDigit(p[i]) == LowerDigit(q[i])
  }

  lemma SameByteIff(p: string, q: string, k: nat)
    requires IsHexData(p) && IsHexData(q) && |p| == |q| && 2 * k + 3 < |p|
    ensures ByteAt(p, k) == ByteAt(q, k) <==> SameDigits(p, q, 2 + 2 * k) && SameDigits(p, q, 3 + 2 * k)
  {
    SameDigit(p[2 + 2 * k], q[2 + 2 * k]);
    SameDigit(p[3 + 2 * k], q[3 + 2 * k]);
  }

  /** Texts have the same bytes exactly when they differ at most in the case of their digits. */
  lemma SameBytesIff(p: string, q: string)
    requires IsHexData(p) && IsHexData(q)
    ensures BytesOf(p) == BytesOf(q) <==> |p| == |q| && forall i | 2 <= i < |p| :: SameDigits(p, q, i)
  {
    assert |BytesOf(p)| == (|p| - 2) / 2 && |BytesOf(q)| == (|q| - 2) / 2;
    if |p| == |q| {
      hide SameDigits, ByteAt;
      forall k | 0 <= k < |BytesOf(p)|
        ensures BytesOf(p)[k] == BytesOf(q)[k] <==> SameDigits(p, q, 2 + 2 * k) && SameDigits(p, q, 3 + 2 * k)
      {
        SameByteIff(p, q, k);
      }
      forall i | 2 <= i < |p| && BytesOf(p) == BytesOf(q) ensures SameDigits(p, q, i) {
        var k := (i - 2) / 2;
        assert BytesOf(p)[k] == BytesOf(q)[k] && (i == 2 + 2 * k || i == 3 + 2 * k);
      }
    }
  }

  /** The loop of `bytes`. */
  method ReadBytes(text: string) returns (p: seq<int>)
    requires IsHexData(text)
    ensures p == BytesOf(text)
  {
    var result := new int[(|text| - 2) / 2](i => 0);
    for i := 0 to result.Length
      invariant forall j | 0 <= j < i :: result[j] == ByteAt(text, j)
    {
      result[i] := 16 * DigitValue(text[2 + 2 * i]) + DigitValue(text[3 + 2 * i]);
    }
    p := result[..];
  }

  method WriteBytes(p: seq<int>) returns (text: string)
    requires Bytes(p)
    ensures text == TextOf(p)
  {
    text := "0x";
    for i := 0 to |p|
      invariant text == TextOf(p[..i])
    {
      assert p[..i + 1][..i] == p[..i];
      text := text + [DigitOf(p[i] / 16), DigitOf(p[i] % 16)];
    }
    assert p[..|p|] == p;
  }

  /** The digest text is 32 bytes whose bits are the first 256 bits of the sponge over the bytes of the input text. */
  method Keccak256Evm(input: string) returns (r: Option<string>)
    ensures r.Some? <==> IsHexData(input)
    ensures r.Some? ==>
              && IsHexData(r.value) && |r.value| == 66 && (forall i | 2 <= i < 66 :: LowerDigit(r.value[i]) == r.value[i])
              && var digest := BytesOf(r.value);
                 forall i, j | 0 <= i < 32 && 0 <= j < 8 ::
                   DigestBit(digest, SpongeOf(MessageBits(BytesOf(input)), 8 * |BytesOf(input)|), i, j)
  {
    if !IsHexData(input) { return None; }
    hide DigestBit, MessageBits;
    var message := ReadBytes(input);
    BytesInRange(input);
    var digest := Keccak256(message);
    var text := WriteBytes(digest);
    TextIsHexData(digest);
    ReadWritten(digest);
    WrittenIsLower(digest);
    r := Some(text);
  }

  lemma WrittenIsLower(p: seq<int>)
    requires Bytes(p)
    ensures forall i | 2 <= i < |TextOf(p)| :: LowerDigit(TextOf(p)[i]) == TextOf(p)[i]
  {
    DigitsAt(p);
    forall i | 2 <= i < |TextOf(p)| ensures LowerDigit(TextOf(p)[i]) == TextOf(p)[i] {
      var k := (i - 2) / 2;
      assert TextOf(p)[2 + 2 * k] == Digits(p)[2 * k] && TextOf(p)[3 + 2 * k] == Digits(p)[2 * k + 1];
    }
  }
}
