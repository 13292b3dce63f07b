/**
 * The records the frontend works on, and the few JavaScript built-ins its logic leans
 * on: truthiness, `parseInt` without a radix, `Array.prototype.find`, and the
 * date-descending comparator of its sorts. Dates are milliseconds of local wall-clock
 * time, so the local calendar day of a date is its number of whole days.
 */
module FrontModel {
  import opened Wrappers
  import opened Text
  import opened Sorting

  /**
   * A transaction as the frontend reads it. The wallet references are optional: a
   * missing one reads as `undefined`.
   */
  datatype Tx = Tx(
    id: int,
    kind: string,             // "income", "expense", "transfer" (the `type` field)
    amount: int,
    category: string,
    description: string,
    date: int,
    walletId: Option<int>,
    fromWalletId: Option<int>,
    toWalletId: Option<int>)

  /** A wallet as the frontend reads it; a missing balance or budget reads as `undefined`. */
  datatype Wal = Wal(id: int, name: string, kind: string, balance: Option<int>, budget: Option<int>)

  /**
   * The value of a numeric form field: empty, a string spelling an integer (what
   * `toString` of a stored number gives), or a number from the currency input.
   */
  datatype FormValue = Blank | Str(s: int) | Num(n: nat)

  /** JavaScript truthiness of a form value: the empty string and the number 0 are falsy. */
  predicate FormTruthy(v: FormValue) {
    match v
    case Blank => false
    case Str(_) => true
    case Num(n) => n != 0
  }

  /** `parseFloat` of a form value: NaN (None) for the empty string. */
  function FormNumber(v: FormValue): (r: Option<int>)
    ensures r.None? <==> v == Blank
  {
    match v
    case Blank => None
    case Str(n) => Some(n)
    case Num(n) => Some(n)
  }

  /** JavaScript truthiness of an optional number: `undefined` and 0 are falsy. */
  predicate Truthy(o: Option<int>) {
    o.Some? && o.value != 0
  }

  /** `a || b` on optional numbers. */
  function Or(a: Option<int>, b: Option<int>): (r: Option<int>)
    ensures Truthy(a) ==> r == a
    ensures !Truthy(a) ==> r == b
  {
    if Truthy(a) then a else b
  }

  /** `s || fallback` on strings: the empty string is falsy. */
  function OrElse(s: string, fallback: string): (r: string)
    ensures r != "" || fallback == ""
    ensures s != "" ==> r == s
  {
    if s != "" then s else fallback
  }

  /** The amount of `t` when its type is `k`, else 0: the term of a per-type total. */
  function AmountIf(k: string): Tx -> int {
    (t: Tx) => if t.kind == k then t.amount else 0
  }

  /** A local calendar date: what `getFullYear()`, `getMonth() + 1` and `getDate()` give. */
  datatype CivilDate = CivilDate(year: int, month: int, day: int)

  /** Milliseconds in a day. */
  const DAY: int := 86400000

  /** The local calendar day of a date, counted in whole days. */
  function Day(ms: int): int {
    ms / DAY
  }

  /** The comparator `(a, b) => new Date(b.date) - new Date(a.date)`: newer dates first. */
  predicate NewestFirst(a: Tx, b: Tx) {
    a.date >= b.date
  }

  lemma NewestFirstOrder()
    ensures TotalPreorder(NewestFirst)
  {
  }

  /** `Array.prototype.find`: the first element that satisfies `p`, or `undefined`. */
  function Find<T(==)>(s: seq<T>, p: T -> bool): (r: Option<T>)
    ensures r.None? <==> forall i :: 0 <= i < |s| ==> !p(s[i])
    ensures r.Some? ==> exists i :: 0 <= i < |s| && s[i] == r.value && p(s[i]) &&
                                    forall j :: 0 <= j < i ==> !p(s[j])
  {
    if s == [] then None
    else if p(s[0]) then Some(s[0])
    else
      var r := Find(s[1..], p);
      assert forall i :: 1 <= i < |s| ==> s[i] == s[1..][i - 1];
      if r.Some? then
        var k :| 0 <= k < |s[1..]| && s[1..][k] == r.value && p(s[1..][k]) &&
                 forall j :: 0 <= j < k ==> !p(s[1..][j]);
        assert s[k + 1] == r.value;
        r
      else r
  }

  /** The wallet a transaction row shows: the first whose id is its `walletId` or `fromWalletId`. */
  function RowWallet(ws: seq<Wal>, t: Tx): (r: Option<Wal>)
    ensures r.Some? ==> r.value in ws && (Some(r.value.id) == t.walletId || Some(r.value.id) == t.fromWalletId)
  {
    Find(ws, (w: Wal) => Some(w.id) == t.walletId || Some(w.id) == t.fromWalletId)
  }

  /** A hexadecimal digit's value. */
  function HexValue(c: char): Option<nat> {
    if '0' <= c <= '9' then Some(c as int - '0' as int)
    else if 'a' <= c <= 'f' then Some(c as int - 'a' as int + 10)
    else if 'A' <= c <= 'F' then Some(c as int - 'A' as int + 10)
    else None
  }

  /** The value of `c` as a digit in base 10 or 16. */
  function DigitIn(c: char, radix: nat): (r: Option<nat>)
    requires radix == 10 || radix == 16
    ensures r.Some? ==> r.value < radix
  {
    if radix == 10 then (if IsDigit(c) then Some(DigitValue(c)) else None) else HexValue(c)
  }

  /** The number of leading characters of `s` that are digits in `radix`. */
  function DigitRun(s: string, radix: nat): (n: nat)
    requires radix == 10 || radix == 16
    ensures n <= |s|
    ensures forall i :: 0 <= i < n ==> DigitIn(s[i], radix).Some?
    ensures n < |s| ==> DigitIn(s[n], radix).None?
  {
    if s != [] && DigitIn(s[0], radix).Some? then 1 + DigitRun(s[1..], radix) else 0
  }

  /** The value of a string of digits in `radix`. */
  function DigitsValue(s: string, radix: nat): nat
    requires radix == 10 || radix == 16
    requires forall i :: 0 <= i < |s| ==> DigitIn(s[i], radix).Some?
  {
    if s == [] then 0
    else DigitsValue(s[..|s| - 1], radix) * radix + DigitIn(s[|s| - 1], radix).value
  }

  /** The longest run of digits in `radix` at the start of `body`, read as a number; NaN (None) when empty. */
  function ParseRun(body: string, radix: nat): (r: Option<nat>)
    requires radix == 10 || radix == 16
    ensures r.None? <==> body == [] || DigitIn(body[0], radix).None?
  {
    var n := DigitRun(body, radix);
    if n == 0 then None else Some(DigitsValue(body[..n], radix))
  }

  /** An unsigned number: base 16 after a `0x` or `0X` prefix, base 10 otherwise. */
  function ParseUnsigned(u: string): Option<nat> {
    if |u| >= 2 && u[0] == '0' && (u[1] == 'x' || u[1] == 'X') then ParseRun(u[2..], 16)
    else ParseRun(u, 10)
  }

  /** An optional sign, then an unsigned number. */
  function ParseSigned(t: string): Option<int> {
    if t != [] && t[0] == '-' then
      var v := ParseUnsigned(t[1..]);
      if v.Some? then Some(0 - v.value as int) else None
    else if t != [] && t[0] == '+' then
      var v := ParseUnsigned(t[1..]);
      if v.Some? then Some(v.value) else None
    else
      var v := ParseUnsigned(t);
      if v.Some? then Some(v.value) else None
  }

  /**
   * `parseInt(s)` with no radix: skip leading white space, read an optional sign, read
   * base 16 after a `0x` or `0X` prefix and base 10 otherwise, and take the longest run
   * of digits; NaN (None) when the run is empty.
   */
  function ParseIntJs(s: string): (r: Option<int>)
    ensures s == "" ==> r == None
  {
    ParseSigned(s[Lead(s, JsSpace)..])
  }

  /** On decimal digits the digit-string value is the decimal value. */
  lemma {:induction false} DecimalValue(s: string)
    requires AllDigits(s)
    ensures forall i :: 0 <= i < |s| ==> DigitIn(s[i], 10).Some?
    ensures DigitsValue(s, 10) == ParseNat(s)
  {
    if s != [] {
      DecimalValue(s[..|s| - 1]);
    }
  }

  /** A decimal followed by a non-digit reads as the decimal, whatever follows. */
  lemma DecimalRun(n: nat, rest: string)
    requires rest != [] ==> !IsDigit(rest[0]) && (n != 0 || (rest[0] != 'x' && rest[0] != 'X'))
    ensures ParseUnsigned(NatToString(n) + rest) == Some(n)
  {
    var d := NatToString(n);
    var s := d + rest;
    assert s[0] == d[0];
    if |d| > 1 {
      assert s[1] == d[1];
    } else if rest != [] {
      assert s[1] == rest[0];
    }
    DigitRunOf(d, rest);
    assert s[..|d|] == d;
    DecimalValue(d);
    ParseNatToString(n);
  }

  /** `parseInt` of a decimal followed by a non-digit reads the decimal. */
  lemma NatPrefix(n: nat, rest: string)
    requires rest != [] ==> !IsDigit(rest[0]) && (n != 0 || (rest[0] != 'x' && rest[0] != 'X'))
    ensures ParseIntJs(NatToString(n) + rest) == Some(n)
  {
    var s := NatToString(n) + rest;
    assert s[0] == NatToString(n)[0];
    assert Lead(s, JsSpace) == 0;
    assert s[0..] == s;
    DecimalRun(n, rest);
  }

  /** The decimal run of digits followed by a non-digit is exactly those digits. */
  lemma {:induction false} DigitRunOf(d: string, rest: string)
    requires AllDigits(d)
    requires rest != [] ==> !IsDigit(rest[0])
    ensures DigitRun(d + rest, 10) == |d|
  {
    if d != [] {
      DigitRunOf(d[1..], rest);
      assert (d + rest)[1..] == d[1..] + rest;
    } else if rest != [] {
      assert (d + rest)[0] == rest[0];
    }
  }

  /** `parseInt` of a minus sign and a decimal reads the negated decimal. */
  lemma NegativeDecimal(n: int)
    requires n < 0
    ensures ParseIntJs("-" + NatToString(-n)) == Some(n)
  {
    var d := NatToString(-n);
    var s := "-" + d;
    assert Lead(s, JsSpace) == 0;
    assert s[0..] == s;
    assert s[1..] == d + "";
    DecimalRun(-n, "");
  }

  /** Printing an integer and reading it back with `parseInt` gives the integer. */
  lemma ParseIntRoundTrip(n: int)
    ensures ParseIntJs(IntToString(n)) == Some(n)
  {
    if n >= 0 {
      NatPrefix(n, "");
      assert NatToString(n) + "" == NatToString(n);
    } else {
      NegativeDecimal(n);
    }
  }

  /** What the API answered: success with data, a refusal with a message, or a thrown error with an optional body message. */
  datatype Reply<T> = Success(data: T) | Refused(error: string) | Thrown(body: Option<string>)

  /** What a context action returns: `{ success: true, data }` or `{ success: false, message }`. */
  datatype ActionResult<T> = Done(data: Option<T>) | Failed(message: string)

  /** `err.response?.data?.error || fallback`. */
  function ThrownMessage(body: Option<string>, fallback: string): (m: string)
    ensures body.Some? && body.value != "" ==> m == body.value
    ensures body.None? || body.value == "" ==> m == fallback
  {
    if body.Some? then OrElse(body.value, fallback) else fallback
  }
}
