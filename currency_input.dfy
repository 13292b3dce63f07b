/**
 * The currency field of the shared input component (frontend/src/shared/components/Input.jsx):
 * what it shows for a value, and the value it reports when the user edits the text. The
 * display uses Indonesian digit grouping (a dot every three digits), the format
 * `Intl.NumberFormat('id-ID')` gives a whole number.
 */
module CurrencyInput {
  import opened Text
  import opened FrontModel

  /** `s.replace(/[^\d]/g, '')`: the ASCII digits of `s`, in order. */
  function Digits(s: string): (r: string)
    ensures AllDigits(r) && |r| <= |s|
    ensures r == [] <==> forall i :: 0 <= i < |s| ==> !IsDigit(s[i])
  {
    if s == [] then []
    else Digits(s[..|s| - 1]) + (if IsDigit(s[|s| - 1]) then [s[|s| - 1]] else [])
  }

  /** Taking the digits of two pieces is taking the digits of each. */
  lemma {:induction false} DigitsAppend(a: string, b: string)
    ensures Digits(a + b) == Digits(a) + Digits(b)
  {
    if b != [] {
      DigitsAppend(a, b[..|b| - 1]);
      assert (a + b)[..|a + b| - 1] == a + b[..|b| - 1];
    } else {
      assert a + b == a;
    }
  }

  /** A string of digits is its own digits. */
  lemma {:induction false} DigitsOfDigits(s: string)
    requires AllDigits(s)
    ensures Digits(s) == s
  {
    if s != [] {
      DigitsOfDigits(s[..|s| - 1]);
    }
  }

  /**
   * `handleCurrencyChange`'s value: '' when the text has no digit, otherwise the
   * base-10 number its digits spell, which is never negative.
   */
  function CurrencyValue(text: string): (v: FormValue)
    ensures v == Blank <==> Digits(text) == []
    ensures v != Blank ==> v == Num(ParseNat(Digits(text)))
  {
    var raw := Digits(text);
    if raw == [] then Blank else Num(ParseNat(raw))
  }

  /** The event passed to `onChange`: the field's name and the new value. */
  datatype ChangeEvent = ChangeEvent(name: string, value: FormValue)

  /** `handleCurrencyChange`: the event keeps the field name and carries the cleaned value. */
  function HandleCurrencyChange(name: string, text: string): (e: ChangeEvent)
    ensures e.name == name
    ensures e.value == CurrencyValue(text)
  {
    ChangeEvent(name, CurrencyValue(text))
  }

  /** A digit string with a dot before every group of three digits counted from the right. */
  function Grouped(d: string): (r: string)
    decreases |d|
  {
    if |d| <= 3 then d else Grouped(d[..|d| - 3]) + "." + d[|d| - 3..]
  }

  /** `Intl.NumberFormat('id-ID').format(n)` for a whole number. */
  function FormatId(n: int): string {
    if n < 0 then "-" + Grouped(NatToString(-n)) else Grouped(NatToString(n))
  }

  /** `displayValue`: the formatted value, or '' when the value is falsy (empty or 0). */
  function DisplayValue(v: FormValue): (s: string)
    ensures !FormTruthy(v) ==> s == ""
    ensures FormTruthy(v) ==> s == FormatId(FormNumber(v).value)
  {
    if FormTruthy(v) then FormatId(FormNumber(v).value) else ""
  }

  /** Grouping adds only dots: the digits of a grouped digit string are the string itself. */
  lemma {:induction false} DigitsOfGrouped(d: string)
    requires AllDigits(d)
    ensures Digits(Grouped(d)) == d
    decreases |d|
  {
    if |d| <= 3 {
      DigitsOfDigits(d);
    } else {
      var head := d[..|d| - 3];
      var tail := d[|d| - 3..];
      DigitsOfGrouped(head);
      DigitsOfDigits(tail);
      NoDigits(".");
      DigitsAppend3(Grouped(head), ".", tail);
      assert head + [] + tail == d;
    }
  }

  /** Taking the digits of three pieces is taking the digits of each. */
  lemma DigitsAppend3(a: string, b: string, c: string)
    ensures Digits(a + b + c) == Digits(a) + Digits(b) + Digits(c)
  {
    DigitsAppend(a + b, c);
    DigitsAppend(a, b);
  }

  /** A one-character string that is not a digit has no digits. */
  lemma NoDigits(s: string)
    requires |s| == 1 && !IsDigit(s[0])
    ensures Digits(s) == []
  {
    assert s[..0] == [];
  }

  /**
   * Editing what the field shows without touching a digit reports the value shown: the
   * grouping dots (and any other non-digit) are dropped and the number read back.
   */
  lemma DisplayRoundTrip(n: nat)
    requires n > 0
    ensures CurrencyValue(DisplayValue(Num(n))) == Num(n)
  {
    DigitsOfGrouped(NatToString(n));
    ParseNatToString(n);
  }

  /** A zero shows as an empty field, and an empty field reports ''. */
  lemma ZeroShowsEmpty()
    ensures DisplayValue(Num(0)) == ""
    ensures CurrencyValue(DisplayValue(Num(0))) == Blank
  {
  }

  /** A minus sign typed before a number is dropped: the field never reports a negative value. */
  lemma SignDropped(n: nat)
    ensures CurrencyValue("-" + NatToString(n)) == Num(n)
  {
    var d := NatToString(n);
    DigitsAppend("-", d);
    NoDigits("-");
    DigitsOfDigits(d);
    assert [] + d == d;
    assert Digits("-" + d) == d;
    ParseNatToString(n);
  }
}
