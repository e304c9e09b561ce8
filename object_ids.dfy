/** The document identifiers of the contract store. A BSON ObjectId is a
    12-byte value; the API shows it as `str(_id)`, its 24 lower-case
    hexadecimal digits, and reads an id out of a URL with `ObjectId(text)`,
    which accepts exactly 24 hexadecimal digits of either case and raises
    on anything else. */
module ObjectIds {
  import opened Results
  import Text

  /** Number of hexadecimal digits in the text form of an ObjectId. */
  const Width: nat := 24

  /** 16^w. */
  function Pow16(w: nat): (r: nat)
    ensures r >= 1
  {
    if w == 0 then 1 else 16 * Pow16(w - 1)
  }

  /** An ObjectId as the 96-bit number its 12 bytes spell, most significant byte first. */
  type ObjectId = n: nat | n < 0x1_0000_0000_0000_0000_0000_0000

  lemma {:induction false} Pow16Add(a: nat, b: nat)
    ensures Pow16(a + b) == Pow16(a) * Pow16(b)
  {
    if a > 0 {
      Pow16Add(a - 1, b);
    }
  }

  lemma IdBound()
    ensures Pow16(Width) == 0x1_0000_0000_0000_0000_0000_0000
  {
    assert Pow16(6) == 0x100_0000;
    Pow16Add(6, 6);
    Pow16Add(12, 12);
  }

  predicate IsHex(s: string)
  {
    forall i :: 0 <= i < |s| ==> Text.DigitValue(s[i]) >= 0
  }

  /** The `width` low hexadecimal digits of `n`, zero-padded, lower case. */
  function FixedHex(n: nat, width: nat): (r: string)
    ensures |r| == width && IsHex(r)
  {
    if width == 0 then ""
    else
      Text.DigitValueOfDigitChar(n % 16);
      FixedHex(n / 16, width - 1) + [Text.DigitChar(n % 16)]
  }

  /** The value of a string of hexadecimal digits, most significant first. */
  function HexValue(s: string): (r: nat)
    requires IsHex(s)
    ensures r < Pow16(|s|)
  {
    if s == [] then 0 else 16 * HexValue(s[..|s| - 1]) + Text.DigitValue(s[|s| - 1])
  }

  lemma {:induction false} HexRoundTrip(n: nat, width: nat)
    requires n < Pow16(width)
    ensures HexValue(FixedHex(n, width)) == n
  {
    if width > 0 {
      HexRoundTrip(n / 16, width - 1);
      var s := FixedHex(n, width);
      assert s[..|s| - 1] == FixedHex(n / 16, width - 1);
      Text.DigitValueOfDigitChar(n % 16);
    }
  }

  /** `str(oid)`. */
  function ToString(id: ObjectId): (r: string)
    ensures |r| == Width && IsHex(r)
  {
    FixedHex(id, Width)
  }

  /** `ObjectId(text)`: None where the constructor raises InvalidId. */
  function Parse(text: string): (r: Option<ObjectId>)
    ensures r.Some? <==> |text| == Width && IsHex(text)
  {
    if |text| == Width && IsHex(text) then
      IdBound();
      Some(HexValue(text))
    else None
  }

  /** The text form of an id parses back to the same id. */
  lemma ParseToString(id: ObjectId)
    ensures Parse(ToString(id)) == Some(id)
  {
    IdBound();
    HexRoundTrip(id, Width);
  }

  /** Distinct ids have distinct text forms. */
  lemma ToStringInjective(a: ObjectId, b: ObjectId)
    requires ToString(a) == ToString(b)
    ensures a == b
  {
    ParseToString(a);
    ParseToString(b);
  }
}
