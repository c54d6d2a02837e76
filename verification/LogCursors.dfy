/** The text of a log cursor: printed forms, and only they, parse back. */
module LogCursors {
  import opened Prelude
  import opened Text
  import opened LogPages

  const MAX_CURSOR: nat := 96

  function Digit(d: nat): char
    requires d < 10
  {
    ('0' as int + d) as char
  }

  /** `to_string`. */
  function Decimal(n: nat): (s: string)
    ensures s != "" && forall i :: 0 <= i < |s| ==> '0' <= s[i] <= '9'
  {
    if n < 10 then [Digit(n)] else Decimal(n / 10) + [Digit(n % 10)]
  }

  function Value(s: string): nat
    requires forall i :: 0 <= i < |s| ==> '0' <= s[i] <= '9'
  {
    if s == [] then 0 else 10 * Value(s[..|s| - 1]) + (s[|s| - 1] as int - '0' as int)
  }

  predicate AllDigits(s: string) {
    s != "" && forall i :: 0 <= i < |s| ==> '0' <= s[i] <= '9'
  }

  /** `parse::<i64>`: a sign is allowed, and leading zeros. */
  function ParseI64(s: string): Option<int> {
    var negative := s != "" && s[0] == '-';
    var digits := if s != "" && s[0] in {'+', '-'} then s[1..] else s;
    if !AllDigits(digits) then None
    else
      var value: int := if negative then -(Value(digits) as int) else Value(digits);
      if -(I64_MAX as int) - 1 <= value <= I64_MAX then Some(value) else None
  }

  function DirectionText(direction: Direction): string {
    if direction == Older then "older" else "newer"
  }

  /** `log_cursor`; the scope is an instance id or "all". */
  function Print(date: string, scope: string, cursor: Cursor): string {
    Join([date, scope, DirectionText(cursor.direction), Decimal(cursor.sequence)], ':')
  }

  /** `parse_log_cursor`. */
  function Parse(value: string, date: string, scope: string): Option<Cursor> {
    var parts := Split(value, ':');
    if Bytes(value) > MAX_CURSOR || |parts| != 4 || parts[0] != date || parts[1] != scope
       || parts[2] !in {"older", "newer"} then None
    else
      var sequence := ParseI64(parts[3]);
      if sequence.None? || !(1 <= sequence.value <= MAX_JSON_INTEGER) || Decimal(sequence.value) != parts[3] then None
      else Some(Cursor(if parts[2] == "older" then Older else Newer, sequence.value))
  }

  lemma {:induction false} ValueOfDecimal(n: nat)
    ensures Value(Decimal(n)) == n
  {
    if n >= 10 {
      ValueOfDecimal(n / 10);
      assert Decimal(n)[..|Decimal(n)| - 1] == Decimal(n / 10);
    }
  }

  lemma ParseDecimal(n: nat)
    requires n <= I64_MAX
    ensures ParseI64(Decimal(n)) == Some(n)
  {
    ValueOfDecimal(n);
  }

  lemma {:induction false} DecimalIsShort(n: nat, digits: nat)
    requires digits > 0 && n < Power(digits)
    ensures |Decimal(n)| <= digits
  {
    if n >= 10 {
      DecimalIsShort(n / 10, digits - 1);
    }
  }

  function Power(digits: nat): nat {
    if digits == 0 then 1 else 10 * Power(digits - 1)
  }

  /** Exactly the printed cursors of the same date and scope are accepted, and they parse back. */
  lemma ParsesIffPrinted(value: string, date: string, scope: string, cursor: Cursor)
    requires ':' !in date && ':' !in scope
    ensures Parse(value, date, scope) == Some(cursor)
            <==> && value == Print(date, scope, cursor)
                 && 1 <= cursor.sequence <= MAX_JSON_INTEGER && Bytes(value) <= MAX_CURSOR
  {
    hide Split, Join, Bytes, Decimal, ParseI64;
    var parts := [date, scope, DirectionText(cursor.direction), Decimal(cursor.sequence)];
    PrintedParts(date, scope, cursor);
    if value == Print(date, scope, cursor) && cursor.sequence <= MAX_JSON_INTEGER {
      ParseDecimal(cursor.sequence);
    }
    if Parse(value, date, scope) == Some(cursor) {
      assert Split(value, ':') == parts;
      JoinSplit(value, ':');
    }
  }

  lemma PrintedParts(date: string, scope: string, cursor: Cursor)
    requires ':' !in date && ':' !in scope
    ensures Split(Print(date, scope, cursor), ':')
            == [date, scope, DirectionText(cursor.direction), Decimal(cursor.sequence)]
  {
    hide Split, Join;
    var parts := [date, scope, DirectionText(cursor.direction), Decimal(cursor.sequence)];
    assert ':' !in Decimal(cursor.sequence);
    SplitJoin(parts, ':');
  }

  /** The limit on the length never turns down a cursor that the server printed: dates take at most 21
      characters, an instance id 36. */
  lemma PrintedIsShort(date: string, scope: string, cursor: Cursor)
    requires |date| <= 21 && |scope| <= 36 && cursor.sequence <= MAX_JSON_INTEGER
    requires forall i :: 0 <= i < |date| ==> date[i] < '\U{80}'
    requires forall i :: 0 <= i < |scope| ==> scope[i] < '\U{80}'
    ensures Bytes(Print(date, scope, cursor)) <= MAX_CURSOR
  {
    var number := Decimal(cursor.sequence);
    assert Power(4) == 10000 && Power(8) == 10000 * Power(4);
    assert Power(12) == 10000 * Power(8) && Power(16) == 10000 * Power(12);
    DecimalIsShort(cursor.sequence, 16);
    var direction := DirectionText(cursor.direction);
    var printed := date + [':'] + (scope + [':'] + (direction + [':'] + number));
    assert Print(date, scope, cursor) == printed by { JoinFour(date, scope, direction, number); }
    forall i | 0 <= i < |printed| ensures printed[i] < '\U{80}' {
    }
    AsciiBytes(printed);
  }

  lemma JoinFour(a: string, b: string, c: string, d: string)
    ensures Join([a, b, c, d], ':') == a + [':'] + (b + [':'] + (c + [':'] + d))
  {
    assert Join([d], ':') == d;
    assert [c, d][1..] == [d] && Join([c, d], ':') == c + [':'] + d;
    assert [b, c, d][1..] == [c, d] && Join([b, c, d], ':') == b + [':'] + (c + [':'] + d);
    assert [a, b, c, d][1..] == [b, c, d];
  }
}
