/**
 * Stream identifiers. A UUID is modelled as its 32 hexadecimal digits; its text
 * form is the canonical 36-character, lower-case, hyphenated 8-4-4-4-12 layout.
 * `ToText` and `FromText` are the two directions of the codec that the
 * menu-item events use before saving and after loading.
 */
module Ids {
  import opened Results

  /** One hexadecimal digit. */
  type HexDigit = d: int | 0 <= d < 16

  /** A UUID: 128 bits as 32 hexadecimal digits, most significant first. */
  type Uuid = s: seq<HexDigit> | |s| == 32 witness seq(32, _ => 0)

  function HexChar(d: HexDigit): (c: char)
  {
    if d < 10 then ('0' as int + d) as char else ('a' as int + d - 10) as char
  }

  function HexValue(c: char): (r: Option<HexDigit>)
    ensures r.Some? ==> HexChar(r.value) == c
    ensures forall d: HexDigit {:trigger HexChar(d)} :: HexChar(d) == c ==> r == Some(d)
  {
    if '0' <= c <= '9' then Some(c as int - '0' as int)
    else if 'a' <= c <= 'f' then Some(c as int - 'a' as int + 10)
    else None
  }

  /** Positions 8, 13, 18 and 23 of the text form hold a hyphen. */
  predicate IsDashPosition(i: int)
  {
    i == 8 || i == 13 || i == 18 || i == 23
  }

  /** Where digit `j` of the UUID stands in the text form. */
  function DigitPosition(j: int): int
  {
    if j < 8 then j else if j < 12 then j + 1 else if j < 16 then j + 2 else if j < 20 then j + 3 else j + 4
  }

  /** Which digit of the UUID a non-hyphen position `i` of the text form holds. */
  function DigitIndex(i: int): int
  {
    if i < 8 then i else if i < 13 then i - 1 else if i < 18 then i - 2 else if i < 23 then i - 3 else i - 4
  }

  /** `str(uuid)`: the canonical text form. */
  function ToText(u: Uuid): (s: string)
    ensures |s| == 36
    ensures forall i | 0 <= i < 36 :: IsDashPosition(i) <==> s[i] == '-'
  {
    seq(36, i requires 0 <= i < 36 => if IsDashPosition(i) then '-' else HexChar(u[DigitIndex(i)]))
  }

  /** The text is a canonical UUID: hyphens exactly at the hyphen positions, hexadecimal digits elsewhere. */
  predicate WellFormed(s: string)
  {
    |s| == 36 && forall i | 0 <= i < 36 :: if IsDashPosition(i) then s[i] == '-' else HexValue(s[i]).Some?
  }

  /** `uuid.UUID(text)`: the UUID a canonical text denotes, or None for any other text. */
  function FromText(s: string): (r: Option<Uuid>)
    ensures r.Some? <==> WellFormed(s)
  {
    if WellFormed(s) then
      Some(seq(32, j requires 0 <= j < 32 => HexValue(s[DigitPosition(j)]).value))
    else
      None
  }

  /** Decoding the text form of a UUID gives the UUID back. */
  lemma {:induction false} TextRoundTrip(u: Uuid)
    ensures FromText(ToText(u)) == Some(u)
  {
    var s := ToText(u);
    forall i | 0 <= i < 36 && !IsDashPosition(i)
      ensures HexValue(s[i]) == Some(u[DigitIndex(i)])
    {
      assert s[i] == HexChar(u[DigitIndex(i)]);
    }
    assert WellFormed(s);
    var v := FromText(s).value;
    forall j | 0 <= j < 32 ensures v[j] == u[j] {
      assert DigitIndex(DigitPosition(j)) == j;
    }
    assert v == u;
  }

  /** The only text that decodes to a UUID is that UUID's text form. */
  lemma {:induction false} TextCanonical(s: string, u: Uuid)
    requires FromText(s) == Some(u)
    ensures ToText(u) == s
  {
    var t := ToText(u);
    forall i | 0 <= i < 36 ensures t[i] == s[i] {
      if !IsDashPosition(i) {
        assert DigitPosition(DigitIndex(i)) == i;
        assert u[DigitIndex(i)] == HexValue(s[i]).value;
      }
    }
  }

  /** Distinct UUIDs have distinct text forms. */
  lemma TextInjective(u: Uuid, v: Uuid)
    requires ToText(u) == ToText(v)
    ensures u == v
  {
    TextRoundTrip(u);
    TextRoundTrip(v);
  }
}
