/** The text form of an event cursor: a fixed prefix and twenty decimal digits. */
module EventCursor {
  import opened Results

  const PREFIX := "event-"
  const WIDTH := 20
  const U64_MAX := 0xFFFF_FFFF_FFFF_FFFF

  function Pow10(n: nat): (r: nat)
    ensures r > 0
  {
    if n == 0 then 1 else 10 * Pow10(n - 1)
  }

  function Digit(d: nat): char
    requires d < 10
  {
    ['0', '1', '2', '3', '4', '5', '6', '7', '8', '9'][d]
  }

  /** `n` in decimal, padded with zeros to `width` digits. */
  function Padded(n: nat, width: nat): string {
    if width == 0 then "" else Padded(n / 10, width - 1) + [Digit(n % 10)]
  }

  function Cursor(sequence: nat): string {
    PREFIX + Padded(sequence, WIDTH)
  }

  function DigitValue(c: char): Option<nat> {
    if '0' <= c <= '9' then Some(c as nat - '0' as nat) else None
  }

  function Digits(s: string): Option<nat> {
    if s == "" then Some(0)
    else
      match (Digits(s[..|s| - 1]), DigitValue(s[|s| - 1]))
      case (Some(front), Some(d)) => Some(front * 10 + d)
      case _ => None
  }

  /** `parse::<u64>`: an optional plus sign, at least one digit, no overflow. */
  function ParseU64(s: string): Option<nat> {
    var body := if s != "" && s[0] == '+' then s[1..] else s;
    if body == "" then None
    else
      match Digits(body)
      case Some(n) => if n <= U64_MAX then Some(n) else None
      case None => None
  }

  datatype CursorError = InvalidCursor | NonCanonicalCursor

  function Sequence(cursor: string): Result<nat, CursorError> {
    if !(PREFIX <= cursor) then Err(InvalidCursor)
    else
      match ParseU64(cursor[|PREFIX|..])
      case None => Err(InvalidCursor)
      case Some(n) => if Cursor(n) != cursor then Err(NonCanonicalCursor) else Ok(n)
  }

  lemma {:induction false} PaddedDigits(n: nat, width: nat)
    ensures |Padded(n, width)| == width
    ensures width > 0 ==> DigitValue(Padded(n, width)[0]).Some?
    ensures Digits(Padded(n, width)) == Some(n % Pow10(width))
    decreases width
  {
    if width > 0 {
      PaddedDigits(n / 10, width - 1);
      DigitsMore(Padded(n / 10, width - 1), n % 10);
      SplitLastDigit(n, Pow10(width - 1));
    }
  }

  lemma DigitIs(d: nat)
    requires d < 10
    ensures DigitValue(Digit(d)) == Some(d)
  {
  }

  lemma DigitsMore(s: string, d: nat)
    requires Digits(s).Some? && d < 10
    ensures Digits(s + [Digit(d)]) == Some(Digits(s).value * 10 + d)
    ensures DigitValue((s + [Digit(d)])[|s|]).Some?
  {
    DigitIs(d);
    DigitsSnoc(s, Digit(d), d);
  }

  lemma DigitsSnoc(s: string, c: char, d: nat)
    requires Digits(s).Some? && DigitValue(c) == Some(d)
    ensures Digits(s + [c]) == Some(Digits(s).value * 10 + d) && (s + [c])[|s|] == c
  {
    SplitLast(s, c);
    DigitsOf(s + [c], s, c, d);
  }

  lemma SplitLast(s: string, c: char)
    ensures var t := s + [c]; |t| == |s| + 1 && t[..|t| - 1] == s && t[|t| - 1] == c
  {
  }

  lemma DigitsOf(t: string, s: string, c: char, d: nat)
    requires t != "" && t[..|t| - 1] == s && t[|t| - 1] == c && Digits(s).Some? && DigitValue(c) == Some(d)
    ensures Digits(t) == Some(Digits(s).value * 10 + d)
  {
  }

  lemma SplitLastDigit(n: nat, p: nat)
    requires p > 0
    ensures n % (10 * p) == (n / 10 % p) * 10 + n % 10
  {
    var q, r := n / 10, n % 10;
    var a, b := q / p, q % p;
    assert n == (10 * p) * a + (10 * b + r);
    assert 0 <= 10 * b + r < 10 * p;
    RemainderUnique(n, 10 * p, a, 10 * b + r);
  }

  lemma RemainderUnique(n: nat, d: nat, q: nat, r: nat)
    requires d > 0 && n == d * q + r && r < d
    ensures n % d == r
  {
    var q', r' := n / d, n % d;
    assert n == d * q' + r';
    if q' < q {
      MultiplesApart(d, q', q);
    } else if q < q' {
      MultiplesApart(d, q, q');
    }
  }

  lemma {:induction false} MultiplesApart(d: nat, a: nat, b: nat)
    requires a < b
    ensures d * a + d <= d * b
  {
    assert d * b == d * (b - 1) + d;
    if a < b - 1 {
      MultiplesApart(d, a, b - 1);
    }
  }

  /** Reading back what was written, for every 64-bit sequence number. */
  lemma CursorRoundTrip(n: nat)
    requires n <= U64_MAX
    ensures Sequence(Cursor(n)) == Ok(n)
  {
    PaddedDigits(n, WIDTH);
    assert Cursor(n)[|PREFIX|..] == Padded(n, WIDTH);
    assert Padded(n, WIDTH)[0] != '+';
    WidthFits();
    RemainderUnique(n, Pow10(WIDTH), 0, n);
  }

  lemma WidthFits()
    ensures Pow10(WIDTH) > U64_MAX
  {
    assert Pow10(5) == 100000;
    assert Pow10(10) == 100000 * Pow10(5);
    assert Pow10(15) == 100000 * Pow10(10);
    assert Pow10(20) == 100000 * Pow10(15);
  }

  /** Two accepted cursors with one sequence number are the same text: no aliases, no sign, no short form. */
  lemma CursorsAreCanonical(a: string, b: string)
    requires Sequence(a).Ok? && Sequence(a) == Sequence(b)
    ensures a == b
  {
  }

  /** Exactly the twenty-digit forms in range are accepted. */
  lemma AcceptedIff(cursor: string)
    ensures Sequence(cursor).Ok? <==> exists n :: 0 <= n <= U64_MAX && cursor == Cursor(n)
  {
    if n :| 0 <= n <= U64_MAX && cursor == Cursor(n) {
      CursorRoundTrip(n);
    }
  }
}
