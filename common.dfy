/** Values shared by the three components: optional values, the error
    taxonomy of the cluster operator, decimal formatting of integers as done
    by Go's `fmt` package, and the string predicates of the `strings` package
    the components rely on. */
module Common {

  datatype Option<+T> = None | Some(value: T)

  /** The error kinds the components create or classify.  A connection-refused
      error is the one transient transport failure the retry wrapper knows. */
  datatype Error =
    | BadParameter(message: string)
    | NotFound(message: string)
    | ConnectionRefused(message: string)
    | Other(message: string)

  datatype Result<+T> = Ok(value: T) | Err(error: Error)

  lemma Associative<T>(a: seq<T>, b: seq<T>, c: seq<T>)
    ensures a + b + c == a + (b + c)
  {
  }

  /** `strings.HasPrefix` */
  predicate HasPrefix(s: string, prefix: string) {
    |prefix| <= |s| && s[..|prefix|] == prefix
  }

  /** `strings.HasSuffix` */
  predicate HasSuffix(s: string, suffix: string) {
    |suffix| <= |s| && s[|s| - |suffix|..] == suffix
  }

  predicate IsDigit(c: char) {
    '0' <= c <= '9'
  }

  function DigitChar(d: nat): (c: char)
    requires d < 10
    ensures IsDigit(c)
  {
    ('0' as int + d) as char
  }

  /** Decimal digits of a natural number, most significant first, without
      leading zeros. */
  function NatDecimal(n: nat): string {
    if n < 10 then [DigitChar(n)] else NatDecimal(n / 10) + [DigitChar(n % 10)]
  }

  /** At least one digit, a single one exactly below ten, and nothing but
      digits. */
  lemma {:induction false} NatDecimalShape(n: nat)
    ensures 1 <= |NatDecimal(n)|
    ensures n < 10 <==> |NatDecimal(n)| == 1
    ensures forall i :: 0 <= i < |NatDecimal(n)| ==> IsDigit(NatDecimal(n)[i])
  {
    if n >= 10 {
      NatDecimalShape(n / 10);
    }
  }

  /** A lower-case hexadecimal digit. */
  function HexDigit(d: nat): char
    requires d < 16
  {
    if d < 10 then DigitChar(d) else ('a' as int + d - 10) as char
  }

  /** A character `%q` copies unchanged: printable ASCII other than the quote
      and the backslash, or any character outside ASCII. */
  predicate Plain(c: char) {
    c != '"' && c != '\\' && 0x20 <= c as int && c as int != 0x7f
  }

  /** How `strconv.Quote` writes one character: the quote and the backslash
      behind a backslash, the seven named control characters by their
      letter escapes, any other ASCII control character as `\x` and two
      hexadecimal digits, everything else as it is. */
  function EscapedChar(c: char): (r: string)
    ensures Plain(c) <==> r == [c]
    ensures !Plain(c) ==> 2 <= |r| && r[0] == '\\'
  {
    var n := c as int;
    if c == '"' || c == '\\' then ['\\', c]
    else if n == 7 then "\\a"
    else if n == 8 then "\\b"
    else if n == 9 then "\\t"
    else if n == 10 then "\\n"
    else if n == 11 then "\\v"
    else if n == 12 then "\\f"
    else if n == 13 then "\\r"
    else if n < 0x20 || n == 0x7f then ['\\', 'x', HexDigit(n / 16), HexDigit(n % 16)]
    else [c]
  }

  function Escaped(s: string): string {
    if s == [] then [] else EscapedChar(s[0]) + Escaped(s[1..])
  }

  /** `%q` of a string: its characters escaped, between double quotes. */
  function Quote(s: string): string {
    "\"" + Escaped(s) + "\""
  }

  /** A string of plain characters is quoted as it is. */
  lemma {:induction false} QuotePlain(s: string)
    requires forall i :: 0 <= i < |s| ==> Plain(s[i])
    ensures Quote(s) == "\"" + s + "\""
  {
    EscapedPlain(s);
  }

  lemma {:induction false} EscapedPlain(s: string)
    requires forall i :: 0 <= i < |s| ==> Plain(s[i])
    ensures Escaped(s) == s
  {
    if s != [] {
      EscapedPlain(s[1..]);
      assert [s[0]] + s[1..] == s;
    }
  }

  /** Escaping never shortens a string, and it lengthens it exactly when
      some character is not plain. */
  lemma {:induction false} EscapedLength(s: string)
    ensures |Escaped(s)| >= |s|
    ensures |Escaped(s)| == |s| <==> forall i :: 0 <= i < |s| ==> Plain(s[i])
  {
    if s != [] {
      EscapedLength(s[1..]);
      assert forall i :: 1 <= i < |s| ==> s[i] == s[1..][i - 1];
    }
  }

  /** Quotes and backslashes are escaped by a backslash. */
  lemma QuoteExamples()
    ensures Quote("a\"b") == "\"a\\\"b\""
    ensures Quote("a\\b") == "\"a\\\\b\""
  {
    assert Escaped("b") == "b";
    assert Escaped("\"b") == "\\\"b";
    assert Escaped("\\b") == "\\\\b";
  }

  /** Control characters are escaped by name, or in hexadecimal. */
  lemma QuoteControlExamples()
    ensures Quote("x\ny") == "\"x\\ny\""
    ensures Quote([27 as char]) == "\"\\x1b\""
  {
    assert Escaped("y") == "y";
    assert Escaped("\ny") == "\\ny";
    assert HexDigit(1) == '1' && HexDigit(11) == 'b';
    assert Escaped([27 as char]) == EscapedChar(27 as char) == "\\x1b";
  }

  /** An integer printed with `%v` or `%d`: a minus sign for negative
      numbers, then the digits of the magnitude. */
  function Decimal(n: int): string {
    if n < 0 then "-" + NatDecimal(-n) else NatDecimal(n)
  }

  predicate ColonFree(s: string) {
    forall i :: 0 <= i < |s| ==> s[i] != ':'
  }

  /** The text of a number starts with a minus sign exactly when it is
      negative and never holds a colon. */
  lemma DecimalShape(n: int)
    ensures 1 <= |Decimal(n)|
    ensures Decimal(n)[0] == '-' <==> n < 0
    ensures ColonFree(Decimal(n))
  {
    if n < 0 {
      NatDecimalShape(-n);
      assert Decimal(n)[1..] == NatDecimal(-n);
    } else {
      NatDecimalShape(n);
    }
  }

  /** `fmt.Sprintf("%v:%v", host, port)` */
  function HostPort(host: string, port: int): string {
    host + ":" + Decimal(port)
  }

  lemma {:induction false} NatDecimalInjective(a: nat, b: nat)
    requires NatDecimal(a) == NatDecimal(b)
    ensures a == b
  {
    NatDecimalShape(a);
    NatDecimalShape(b);
    var s := NatDecimal(a);
    if a < 10 {
      assert s[0] == DigitChar(a) && s[0] == DigitChar(b);
    } else {
      assert s == NatDecimal(a / 10) + [DigitChar(a % 10)];
      assert s == NatDecimal(b / 10) + [DigitChar(b % 10)];
      assert NatDecimal(a / 10) == s[..|s| - 1] == NatDecimal(b / 10);
      assert DigitChar(a % 10) == s[|s| - 1] == DigitChar(b % 10);
      NatDecimalInjective(a / 10, b / 10);
    }
  }

  /** Different integers print differently. */
  lemma DecimalInjective(a: int, b: int)
    requires Decimal(a) == Decimal(b)
    ensures a == b
  {
    DecimalShape(a);
    DecimalShape(b);
    if a < 0 {
      assert NatDecimal(-a) == Decimal(a)[1..] == NatDecimal(-b);
      NatDecimalInjective(-a, -b);
    } else {
      NatDecimalInjective(a, b);
    }
  }

  /** `h:x` ends in `:y` exactly when x and y are equal, provided neither
      holds a colon: the suffix cannot straddle the separating colon. */
  lemma SuffixAfterColon(h: string, x: string, y: string)
    requires ColonFree(x) && ColonFree(y)
    ensures HasSuffix(h + ":" + x, ":" + y) <==> x == y
  {
    var s, t := h + ":" + x, ":" + y;
    if |t| <= |s| {
      var k := |s| - |t|;
      if |y| < |x| {
        assert s[k] == x[|x| - |y| - 1];
        assert s[k..][0] != t[0];
      } else if |y| > |x| {
        var j := |y| - |x|;
        assert s[k + j] == ':';
        assert t[j] == y[j - 1];
        assert s[k..][j] != t[j];
      } else {
        assert s[k..] == ":" + x;
        assert (":" + x)[1..] == x && t[1..] == y;
      }
    }
  }

  /** An address `host:q` ends in `:p` exactly when q and p are the same
      port, whatever the host. */
  lemma HostPortSuffix(host: string, q: int, p: int)
    ensures HasSuffix(HostPort(host, q), ":" + Decimal(p)) <==> q == p
  {
    DecimalShape(q);
    DecimalShape(p);
    SuffixAfterColon(host, Decimal(q), Decimal(p));
    if Decimal(q) == Decimal(p) {
      DecimalInjective(q, p);
    }
  }
}
