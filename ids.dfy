/** The dashboard's identifiers: `nextId(prefix, ref)` bumps a shared counter
    and names the new value `prefix-N`, with N written in decimal. */
module Ids {

  function DigitChar(d: nat): (c: char)
    requires d < 10
    ensures '0' <= c <= '9' && c as int - '0' as int == d
  {
    ('0' as int + d) as char
  }

  /** The decimal numeral JavaScript's template literal produces for a
      non-negative integer: no sign, no leading zeros. */
  function Decimal(n: nat): (s: string)
    ensures s != [] && forall i :: 0 <= i < |s| ==> '0' <= s[i] <= '9'
  {
    if n < 10 then [DigitChar(n)] else Decimal(n / 10) + [DigitChar(n % 10)]
  }

  /** Reads a numeral back; the inverse of Decimal. */
  function ParseDecimal(s: string): nat {
    if s == [] then 0
    else ParseDecimal(s[..|s| - 1]) * 10
         + (if '0' <= s[|s| - 1] <= '9' then s[|s| - 1] as int - '0' as int else 0)
  }

  lemma {:induction false} ParseDecimalOfDecimal(n: nat)
    ensures ParseDecimal(Decimal(n)) == n
  {
    var s := Decimal(n);
    if n >= 10 {
      ParseDecimalOfDecimal(n / 10);
      assert s[..|s| - 1] == Decimal(n / 10);
    }
  }

  /** An identifier `nextId` mints: its prefix and the counter value. */
  datatype Ident = Ident(prefix: string, serial: nat)

  /** `${prefix}-${n}`, the string the component uses as the id. */
  function Render(id: Ident): string {
    id.prefix + "-" + Decimal(id.serial)
  }

  /** The text after the last `-` (all of `s` when it has none). */
  function AfterLastDash(s: string): (r: string)
    ensures |r| <= |s| && r == s[|s| - |r|..] && '-' !in r
  {
    if s == [] || s[|s| - 1] == '-' then [] else AfterLastDash(s[..|s| - 1]) + [s[|s| - 1]]
  }

  /** The counter value a rendered identifier was minted with. */
  function Serial(s: string): nat {
    ParseDecimal(AfterLastDash(s))
  }

  lemma {:induction false} AfterLastDashOfDigits(prefix: string, digits: string)
    requires '-' !in digits
    ensures AfterLastDash(prefix + "-" + digits) == digits
  {
    if digits != [] {
      var s := prefix + "-" + digits;
      assert s[..|s| - 1] == prefix + "-" + digits[..|digits| - 1];
      AfterLastDashOfDigits(prefix, digits[..|digits| - 1]);
    }
  }

  /** A rendered identifier carries the counter value it was minted with,
      whatever the prefix (the prefix may itself contain `-`). */
  lemma SerialOfRender(id: Ident)
    ensures Serial(Render(id)) == id.serial
  {
    AfterLastDashOfDigits(id.prefix, Decimal(id.serial));
    ParseDecimalOfDecimal(id.serial);
  }

  /** Rendering loses nothing: two identifiers render alike only when they
      are the same, so distinct identifiers are distinct strings. */
  lemma RenderInjective(a: Ident, b: Ident)
    requires Render(a) == Render(b)
    ensures a == b
  {
    SerialOfRender(a);
    SerialOfRender(b);
    var da, db := Decimal(a.serial), Decimal(b.serial);
    assert da == db;
    var s := Render(a);
    assert a.prefix == s[..|s| - |da| - 1] == b.prefix;
  }
}
