/**
 * The application/x-www-form-urlencoded serializer of section 5.2 of the
 * WHATWG URL Standard, which `URLSearchParams.toString()` applies: every
 * name and value is UTF-8 encoded, a space byte becomes "+", the bytes of
 * `*-._`, digits and ASCII letters stay, every other byte becomes "%XY"
 * with upper-case hex digits; pairs are "name=value" joined by "&".
 */
module FormUrlEncoded {
  import opened Strings

  /** The UTF-8 encoding of one Unicode scalar value. */
  function Utf8(c: char): (bs: seq<nat>)
    ensures 1 <= |bs| <= 4
    ensures forall i :: 0 <= i < |bs| ==> bs[i] < 256
    ensures c as int < 0x80 ==> bs == [c as int]
    ensures c as int >= 0x80 ==> forall i :: 0 <= i < |bs| ==> bs[i] >= 0x80
  {
    var cp := c as int;
    if cp < 0x80 then [cp]
    else if cp < 0x800 then [0xC0 + cp / 0x40, 0x80 + cp % 0x40]
    else if cp < 0x1_0000 then [0xE0 + cp / 0x1000, 0x80 + (cp / 0x40) % 0x40, 0x80 + cp % 0x40]
    else [0xF0 + cp / 0x4_0000, 0x80 + (cp / 0x1000) % 0x40, 0x80 + (cp / 0x40) % 0x40, 0x80 + cp % 0x40]
  }

  /** Bytes the serializer leaves as they are. */
  predicate Unreserved(b: int) {
    b == 0x2A || b == 0x2D || b == 0x2E || b == 0x5F
    || (0x30 <= b <= 0x39) || (0x41 <= b <= 0x5A) || (0x61 <= b <= 0x7A)
  }

  /** Characters that can appear in serialized output. */
  predicate OutputChar(c: char) {
    Unreserved(c as int) || c == '+' || c == '%'
  }

  function HexDigit(d: nat): (c: char)
    requires d < 16
    ensures Unreserved(c as int)
  {
    if d < 10 then ('0' as int + d) as char else ('A' as int + d - 10) as char
  }

  function EncodeByte(b: nat): (s: string)
    requires b < 256
    ensures forall i :: 0 <= i < |s| ==> OutputChar(s[i])
    ensures Unreserved(b) ==> s == [b as char]
  {
    if b == 0x20 then "+"
    else if Unreserved(b) then [b as char]
    else ['%', HexDigit(b / 16), HexDigit(b % 16)]
  }

  function EncodeBytes(bs: seq<nat>): (s: string)
    requires forall i :: 0 <= i < |bs| ==> bs[i] < 256
    ensures forall i :: 0 <= i < |s| ==> OutputChar(s[i])
  {
    if bs == [] then "" else EncodeByte(bs[0]) + EncodeBytes(bs[1..])
  }

  /**
   * The serializer's encoding of one name or value.  Its output only holds
   * unreserved characters, "+" and "%", so never "&" or "="; a string of
   * unreserved characters is left unchanged.
   */
  function Encode(s: string): (e: string)
    ensures forall i :: 0 <= i < |e| ==> OutputChar(e[i])
    ensures (forall i :: 0 <= i < |s| ==> Unreserved(s[i] as int)) ==> e == s
  {
    if s == [] then ""
    else
      var head := EncodeBytes(Utf8(s[0]));
      assert Unreserved(s[0] as int) ==> head == [s[0]] by {
        if Unreserved(s[0] as int) {
          var bs := Utf8(s[0]);
          assert bs == [s[0] as int];
          assert bs[1..] == [];
          assert EncodeBytes(bs) == EncodeByte(s[0] as int) + EncodeBytes([]);
          assert (s[0] as int) as char == s[0];
        }
      }
      head + Encode(s[1..])
  }

  /** One serialized name-value pair. */
  function Pair(p: (string, string)): string {
    Encode(p.0) + "=" + Encode(p.1)
  }

  /** `URLSearchParams.toString()` over its list of name-value pairs. */
  function Serialize(pairs: seq<(string, string)>): (s: string)
    ensures s == "" <==> pairs == []
    ensures '&' in s <==> |pairs| > 1
  {
    if pairs == [] then ""
    else
      NoSeparators(pairs[0].0);
      NoSeparators(pairs[0].1);
      var first := Pair(pairs[0]);
      assert first[|Encode(pairs[0].0)|] == '=';
      if |pairs| == 1 then first
      else
        var s := first + "&" + Serialize(pairs[1..]);
        assert s[|first|] == '&';
        s
  }

  lemma NoSeparators(s: string)
    ensures '&' !in Encode(s) && '=' !in Encode(s)
  {
  }

  /** Each serialized pair splits at "=" into the encoded name and value. */
  lemma SplitPair(p: (string, string))
    ensures Split(Pair(p), '=') == [Encode(p.0), Encode(p.1)]
  {
    NoSeparators(p.0);
    NoSeparators(p.1);
    SplitFirst(Encode(p.0), '=', Encode(p.1));
    assert Encode(p.0) + "=" + Encode(p.1) == Encode(p.0) + ['='] + Encode(p.1);
  }

  /**
   * The serialized query splits at "&" into exactly one serialized pair per
   * entry, in the entries' order.
   */
  lemma {:induction false} SplitSerialize(pairs: seq<(string, string)>)
    requires pairs != []
    ensures |Split(Serialize(pairs), '&')| == |pairs|
    ensures forall i :: 0 <= i < |pairs| ==> Split(Serialize(pairs), '&')[i] == Pair(pairs[i])
  {
    NoSeparators(pairs[0].0);
    NoSeparators(pairs[0].1);
    if |pairs| == 1 {
      assert '&' !in Pair(pairs[0]);
    } else {
      SplitSerialize(pairs[1..]);
      SplitSerializeStep(pairs);
    }
  }

  /** The inductive step of `SplitSerialize`: the first pair, then the parts of the rest. */
  lemma SplitSerializeStep(pairs: seq<(string, string)>)
    requires |pairs| > 1
    requires '&' !in Encode(pairs[0].0) && '&' !in Encode(pairs[0].1)
    requires |Split(Serialize(pairs[1..]), '&')| == |pairs| - 1
    requires forall i :: 0 <= i < |pairs| - 1 ==> Split(Serialize(pairs[1..]), '&')[i] == Pair(pairs[1..][i])
    ensures |Split(Serialize(pairs), '&')| == |pairs|
    ensures forall i :: 0 <= i < |pairs| ==> Split(Serialize(pairs), '&')[i] == Pair(pairs[i])
  {
    var p, rest := pairs[0], pairs[1..];
    assert '&' !in Pair(p);
    assert Serialize(pairs) == Pair(p) + ['&'] + Serialize(rest);
    SplitFirst(Pair(p), '&', Serialize(rest));
    var parts, tail := Split(Serialize(pairs), '&'), Split(Serialize(rest), '&');
    assert parts == [Pair(p)] + tail;
    forall i | 0 <= i < |pairs|
      ensures parts[i] == Pair(pairs[i])
    {
      if i > 0 {
        assert parts[i] == tail[i - 1] && pairs[i] == rest[i - 1];
      }
    }
  }
}
