/** Store-assigned document identifiers (BSON ObjectIds) and their text form.
    An ObjectId is twelve bytes, read here as a number below 2^96; `str(oid)`
    writes it as 24 lower-case hexadecimal digits, and the model of
    `ObjectId(text)` accepts exactly 24 hexadecimal digits in either case and
    rejects everything else. */
module Ids {

  datatype Option<+T> = None | Some(value: T)

  /** Number of hexadecimal digits in the text form of an identifier. */
  const IdWidth: nat := 24

  /** 16^24 == 2^96: the number of distinct twelve-byte identifiers. */
  const IdSpace: nat := 0x1_0000_0000_0000_0000_0000_0000

  type ObjectId = n: nat | n < IdSpace

  function Pow16(w: nat): (p: nat)
    ensures p > 0
  {
    if w == 0 then 1 else 16 * Pow16(w - 1)
  }

  lemma IdSpaceIsPow16()
    ensures Pow16(IdWidth) == IdSpace
  {
    assert Pow16(8) == 0x1_0000_0000;
    assert Pow16(16) == 0x1_0000_0000_0000_0000 by { Pow16Add(8, 8); }
    Pow16Add(16, 8);
  }

  lemma {:induction false} Pow16Add(a: nat, b: nat)
    ensures Pow16(a + b) == Pow16(a) * Pow16(b)
  {
    if a > 0 {
      Pow16Add(a - 1, b);
    }
  }

  /** The lower-case hexadecimal digit for d. */
  function HexDigit(d: nat): (c: char)
    requires d < 16
    ensures '0' <= c <= '9' || 'a' <= c <= 'f'
  {
    if d < 10 then ('0' as int + d) as char else ('a' as int + d - 10) as char
  }

  /** The value of a hexadecimal digit of either case, or None for any other character. */
  function DigitValue(c: char): (r: Option<nat>)
    ensures r.Some? ==> r.value < 16
  {
    if '0' <= c <= '9' then Some(c as int - '0' as int)
    else if 'a' <= c <= 'f' then Some(c as int - 'a' as int + 10)
    else if 'A' <= c <= 'F' then Some(c as int - 'A' as int + 10)
    else None
  }

  /** n written with exactly w hexadecimal digits, most significant first. */
  function Hex(n: nat, w: nat): (s: string)
    requires n < Pow16(w)
    ensures |s| == w
  {
    if w == 0 then []
    else
      assert n / 16 < Pow16(w - 1);
      Hex(n / 16, w - 1) + [HexDigit(n % 16)]
  }

  /** The number a string of hexadecimal digits denotes, or None if some character is not one. */
  function ParseHex(s: string): (r: Option<nat>)
    ensures r.Some? ==> r.value < Pow16(|s|)
  {
    if s == [] then Some(0)
    else
      match (ParseHex(s[..|s| - 1]), DigitValue(s[|s| - 1]))
      case (Some(hi), Some(lo)) => Some(16 * hi + lo)
      case _ => None
  }

  /** `str(oid)`: the 24-digit lower-case text of an identifier. */
  function IdText(id: ObjectId): (s: string)
    ensures |s| == IdWidth
  {
    IdSpaceIsPow16();
    Hex(id, IdWidth)
  }

  /** `ObjectId(text)`: an identifier for exactly 24 hexadecimal digits, None otherwise. */
  function ParseId(s: string): (r: Option<ObjectId>)
    ensures r.Some? ==> |s| == IdWidth
  {
    if |s| != IdWidth then None
    else
      match ParseHex(s)
      case Some(n) => IdSpaceIsPow16(); Some(n)
      case None => None
  }

  /** The character with upper-case hexadecimal letters folded to lower case. */
  function LowerHex(c: char): char
  {
    if 'A' <= c <= 'F' then (c as int - 'A' as int + 'a' as int) as char else c
  }

  function LowerHexText(s: string): (t: string)
    ensures |t| == |s|
  {
    if s == [] then [] else LowerHexText(s[..|s| - 1]) + [LowerHex(s[|s| - 1])]
  }

  lemma {:induction false} ParseHexOfHex(n: nat, w: nat)
    requires n < Pow16(w)
    ensures ParseHex(Hex(n, w)) == Some(n)
  {
    if w > 0 {
      var s := Hex(n, w);
      assert s[..|s| - 1] == Hex(n / 16, w - 1);
      ParseHexOfHex(n / 16, w - 1);
      var d := n % 16;
      assert DigitValue(HexDigit(d)) == Some(d);
    }
  }

  lemma {:induction false} HexOfParseHex(s: string, n: nat)
    requires ParseHex(s) == Some(n)
    ensures Hex(n, |s|) == LowerHexText(s)
  {
    if s != [] {
      var init := s[..|s| - 1];
      var hi :| ParseHex(init) == Some(hi);
      var lo :| DigitValue(s[|s| - 1]) == Some(lo);
      assert n == 16 * hi + lo;
      assert n / 16 == hi && n % 16 == lo;
      HexOfParseHex(init, hi);
      assert HexDigit(lo) == LowerHex(s[|s| - 1]);
    }
  }

  /** Writing an identifier and parsing the text back gives the identifier. */
  lemma ParseIdText(id: ObjectId)
    ensures ParseId(IdText(id)) == Some(id)
  {
    IdSpaceIsPow16();
    ParseHexOfHex(id, IdWidth);
  }

  /** Any text that parses is the identifier's own text up to the case of its letters. */
  lemma IdTextOfParse(s: string)
    requires ParseId(s).Some?
    ensures IdText(ParseId(s).value) == LowerHexText(s)
  {
    var n :| ParseHex(s) == Some(n);
    HexOfParseHex(s, n);
  }

  /** Distinct identifiers have distinct texts. */
  lemma IdTextInjective(a: ObjectId, b: ObjectId)
    requires a != b
    ensures IdText(a) != IdText(b)
  {
    ParseIdText(a);
    ParseIdText(b);
  }
}
