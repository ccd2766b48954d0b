/** The string handling the crawler relies on: trimming URL keys, and printing and scanning depths. */
module Text {
  import opened Common

  /** unicode.IsSpace, the test behind strings.TrimSpace. */
  predicate IsSpace(c: char) {
    || '\t' <= c <= '\r'
    || c == ' '
    || c == '\U{85}' || c == '\U{A0}' || c == '\U{1680}'
    || '\U{2000}' <= c <= '\U{200A}'
    || c == '\U{2028}' || c == '\U{2029}' || c == '\U{202F}' || c == '\U{205F}' || c == '\U{3000}'
  }

  function TrimLeft(s: string): string {
    if s != "" && IsSpace(s[0]) then TrimLeft(s[1..]) else s
  }

  function TrimRight(s: string): string {
    if s != "" && IsSpace(s[|s| - 1]) then TrimRight(s[..|s| - 1]) else s
  }

  function Trim(s: string): string {
    TrimRight(TrimLeft(s))
  }

  ghost predicate Trimmed(s: string) {
    s == "" || (!IsSpace(s[0]) && !IsSpace(s[|s| - 1]))
  }

  lemma {:induction false} TrimLeftHead(s: string)
    ensures var r := TrimLeft(s); r == "" || !IsSpace(r[0])
  {
    if s != "" && IsSpace(s[0]) {
      TrimLeftHead(s[1..]);
    }
  }

  lemma {:induction false} TrimRightEnds(s: string)
    ensures var r := TrimRight(s); r <= s && (r == "" || !IsSpace(r[|r| - 1]))
  {
    if s != "" && IsSpace(s[|s| - 1]) {
      TrimRightEnds(s[..|s| - 1]);
    }
  }

  /** Trimming leaves no space at either end, and changes nothing when there was none. */
  lemma TrimIsTrimmed(s: string)
    ensures Trimmed(Trim(s))
    ensures Trimmed(s) ==> Trim(s) == s
    ensures Trim(Trim(s)) == Trim(s)
  {
    TrimLeftHead(s);
    TrimRightEnds(TrimLeft(s));
  }

  lemma {:induction false} TrimRightDrops(s: string, b: string)
    requires (s == "" || !IsSpace(s[|s| - 1])) && forall c :: c in b ==> IsSpace(c)
    ensures TrimRight(s + b) == s
    decreases |b|
  {
    if b == "" {
      assert s + b == s;
    } else {
      var t := s + b;
      assert t[..|t| - 1] == s + b[..|b| - 1];
      TrimRightDrops(s, b[..|b| - 1]);
    }
  }

  lemma {:induction false} TrimLeftDrops(a: string, s: string)
    requires forall c :: c in a ==> IsSpace(c)
    ensures TrimLeft(a + s) == TrimLeft(s)
  {
    if a == "" {
      assert a + s == s;
    } else {
      assert (a + s)[1..] == a[1..] + s;
      TrimLeftDrops(a[1..], s);
    }
  }

  /** Trimming takes off exactly the spaces around a text. */
  lemma TrimIs(a: string, s: string, b: string)
    requires Trimmed(s) && forall c :: c in a + b ==> IsSpace(c)
    ensures Trim(a + s + b) == s
  {
    forall c | c in a || c in b ensures IsSpace(c) {
      assert c in a + b;
    }
    assert a + s + b == a + (s + b);
    TrimLeftDrops(a, s + b);
    if s == "" {
      assert s + b == b && b + "" == b;
      TrimLeftDrops(b, "");
    } else {
      assert TrimLeft(s + b) == s + b;
      TrimRightDrops(s, b);
    }
  }

  function Digit(c: char): (d: nat)
    requires '0' <= c <= '9'
    ensures d <= 9
  {
    (c - '0') as nat
  }

  /** The decimal digits of a natural number, most significant first. */
  function Digits(n: nat): string {
    if n < 10 then ['0' + n as char] else Digits(n / 10) + ['0' + (n % 10) as char]
  }

  /** fmt.Sprintf("%d", n) */
  function Decimal(n: int): string {
    if n < 0 then "-" + Digits(-n) else Digits(n)
  }

  function DigitRun(s: string): string {
    if s != "" && '0' <= s[0] <= '9' then [s[0]] + DigitRun(s[1..]) else ""
  }

  function Value(s: string): nat
    requires forall i :: 0 <= i < |s| ==> '0' <= s[i] <= '9'
  {
    if s == "" then 0 else 10 * Value(s[..|s| - 1]) + Digit(s[|s| - 1])
  }

  lemma {:induction false} DigitRunIsDigits(s: string)
    ensures forall i :: 0 <= i < |DigitRun(s)| ==> '0' <= DigitRun(s)[i] <= '9'
    ensures (forall i :: 0 <= i < |s| ==> '0' <= s[i] <= '9') ==> DigitRun(s) == s
  {
    if s != "" && '0' <= s[0] <= '9' {
      DigitRunIsDigits(s[1..]);
    }
  }

  /** Reads at least one digit, and no further than the digits go. */
  function Unsigned(s: string): Option<int> {
    DigitRunIsDigits(s);
    if DigitRun(s) == "" then None else Some(Value(DigitRun(s)))
  }

  function Negated(m: Option<int>): Option<int> {
    if m.None? then None else Some(-m.value)
  }

  /** fmt.Sscanf(s, "%d", &n): skip spaces, then an optional sign. */
  function Scan(s: string): Option<int> {
    var t := TrimLeft(s);
    if t == "" then None
    else if t[0] == '-' then Negated(Unsigned(t[1..]))
    else if t[0] == '+' then Unsigned(t[1..])
    else Unsigned(t)
  }

  lemma {:induction false} DigitsValue(n: nat)
    ensures forall i :: 0 <= i < |Digits(n)| ==> '0' <= Digits(n)[i] <= '9'
    ensures Digits(n) != ""
    ensures Value(Digits(n)) == n
  {
    if n >= 10 {
      DigitsValue(n / 10);
      var s := Digits(n);
      assert s[..|s| - 1] == Digits(n / 10);
      assert s[|s| - 1] == '0' + (n % 10) as char;
    } else {
      assert Digits(n)[..0] == "";
    }
  }

  lemma UnsignedReads(digits: string)
    requires digits != "" && forall i :: 0 <= i < |digits| ==> '0' <= digits[i] <= '9'
    ensures Unsigned(digits) == Some(Value(digits))
  {
    DigitRunIsDigits(digits);
  }

  lemma ScanPlain(s: string)
    requires s != "" && '0' <= s[0] <= '9'
    ensures Scan(s) == Unsigned(s)
  {
  }

  lemma ScanNegative(s: string)
    ensures Scan("-" + s) == Negated(Unsigned(s))
  {
    var t := "-" + s;
    assert t[1..] == s && !IsSpace(t[0]);
  }

  /** A printed depth is read back unchanged. */
  lemma ScanDecimal(n: int)
    ensures Scan(Decimal(n)) == Some(n)
  {
    var digits := Digits(if n < 0 then -n else n);
    DigitsValue(if n < 0 then -n else n);
    UnsignedReads(digits);
    if n < 0 {
      ScanNegative(digits);
    } else {
      ScanPlain(digits);
    }
  }
}
