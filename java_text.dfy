/**
 * The few pieces of the JDK and of hutool's StrUtil that the validator relies on:
 * blank tests, decimal rendering of integers (Integer.toString / Long.toString),
 * hutool's "{}" placeholder formatting and a subset of java.lang.String.format.
 */
module JavaText {
  import opened Wrappers

  // ---------------------------------------------------------------------------
  // Blank strings (hutool StrUtil.isBlank / CharUtil.isBlankChar)
  // ---------------------------------------------------------------------------

  /** A character hutool counts as blank: Java whitespace, a Unicode space separator,
      or one of the invisible characters hutool adds to those. */
  predicate IsBlankChar(c: char) {
    c == ' ' || c == '\t' || c == '\n' || c == '\r' || c == '\0'
    || c == '\U{000B}' || c == '\U{000C}'
    || ('\U{001C}' <= c <= '\U{001F}')
    || c == '\U{00A0}' || c == '\U{1680}' || c == '\U{180E}'
    || ('\U{2000}' <= c <= '\U{200A}')
    || c == '\U{2028}' || c == '\U{2029}' || c == '\U{202A}' || c == '\U{202F}' || c == '\U{205F}'
    || c == '\U{2800}' || c == '\U{3000}' || c == '\U{3164}' || c == '\U{FEFF}'
  }

  /** StrUtil.isBlank: empty, or made only of blank characters. */
  predicate IsBlank(s: string) {
    forall i | 0 <= i < |s| :: IsBlankChar(s[i])
  }

  predicate IsNotBlank(s: string) {
    !IsBlank(s)
  }

  // ---------------------------------------------------------------------------
  // Decimal rendering of integers (Integer.toString, Long.toString)
  // ---------------------------------------------------------------------------

  function DigitChar(d: nat): (c: char)
    requires d < 10
    ensures '0' <= c <= '9'
  {
    "0123456789"[d]
  }

  function DigitValue(c: char): (d: int) {
    c as int - '0' as int
  }

  /** The decimal digits of a natural number, most significant first, with no leading zero. */
  function Digits(n: nat): (s: string)
    decreases n
  {
    if n < 10 then [DigitChar(n)] else Digits(n / 10) + [DigitChar(n % 10)]
  }

  /** Java's canonical decimal form of an integer: a '-' for negatives, then the digits. */
  function DecimalString(n: int): (s: string) {
    if n < 0 then "-" + Digits(-n) else Digits(n)
  }

  function Pow10(k: nat): (p: nat) {
    if k == 0 then 1 else 10 * Pow10(k - 1)
  }

  /** Reads a string of decimal digits back, most significant first. */
  function ParseDigits(s: string): (n: int)
    decreases |s|
  {
    if s == [] then 0 else 10 * ParseDigits(s[..|s| - 1]) + DigitValue(s[|s| - 1])
  }

  /** Integer.parseInt on the forms DecimalString produces. */
  function ParseDecimal(s: string): (n: int) {
    if |s| > 0 && s[0] == '-' then -ParseDigits(s[1..]) else ParseDigits(s)
  }

  predicate AllDigits(s: string) {
    forall i | 0 <= i < |s| :: '0' <= s[i] <= '9'
  }

  /** A number with k digits (10^(k-1) <= n < 10^k, or n == 0 for k == 1) renders in exactly k characters. */
  lemma {:induction false} DigitsLength(n: nat, k: nat)
    requires 1 <= k && n < Pow10(k)
    requires k == 1 || Pow10(k - 1) <= n
    ensures |Digits(n)| == k
  {
    if n >= 10 {
      assert k != 1;
      DigitsLength(n / 10, k - 1);
    }
  }

  /** Digits(n) is a non-empty run of decimal digits without a leading zero that reads back as n. */
  lemma {:induction false} DigitsRoundTrip(n: nat)
    ensures |Digits(n)| >= 1 && AllDigits(Digits(n))
    ensures Digits(n)[0] != '0' || n == 0
    ensures ParseDigits(Digits(n)) == n
  {
    if n >= 10 {
      var p := Digits(n / 10);
      var c := DigitChar(n % 10);
      DigitsRoundTrip(n / 10);
      assert Digits(n) == p + [c];
      assert (p + [c])[..|p|] == p;
      assert DigitValue(c) == n % 10;
      assert ParseDigits(p + [c]) == 10 * (n / 10) + n % 10;
    }
  }

  /** DecimalString and ParseDecimal are inverse: the rendering loses nothing. */
  lemma DecimalRoundTrip(n: int)
    ensures ParseDecimal(DecimalString(n)) == n
  {
    if n < 0 { NegativeRoundTrip(n); } else { NonNegativeRoundTrip(n); }
  }

  lemma NegativeRoundTrip(n: int)
    requires n < 0
    ensures ParseDecimal(DecimalString(n)) == n
  {
    var m: nat := -n;
    var d := Digits(m);
    assert DecimalString(n) == "-" + d;
    ParseNegative(d);
    DigitsRoundTrip(m);
  }

  lemma ParseNegative(d: string)
    ensures ParseDecimal("-" + d) == -ParseDigits(d)
  {
    assert ("-" + d)[1..] == d;
  }

  lemma NonNegativeRoundTrip(n: nat)
    ensures ParseDecimal(DecimalString(n)) == n
  {
    DigitsRoundTrip(n);
    assert Digits(n)[0] != '-';
  }

  /** The length of DecimalString(n): the digit count, plus one for the sign of a negative. */
  lemma DecimalStringLength(n: int, k: nat)
    requires 1 <= k
    requires if n < 0 then -n < Pow10(k) && (k == 1 || Pow10(k - 1) <= -n)
             else n < Pow10(k) && (k == 1 || Pow10(k - 1) <= n)
    ensures |DecimalString(n)| == if n < 0 then k + 1 else k
  {
    if n < 0 { DigitsLength(-n, k); } else { DigitsLength(n, k); }
  }

  // ---------------------------------------------------------------------------
  // hutool StrUtil.format: "{}" placeholders filled in order
  // ---------------------------------------------------------------------------

  /** StrFormatter's scan: each "{}" takes the next argument; once the arguments run out the
      rest of the template is copied unchanged. Inserted arguments are never scanned again. */
  function FillPlaceholders(t: string, args: seq<string>): (r: string)
    decreases |t|
  {
    if |args| == 0 || |t| < 2 then t
    else if t[0] == '{' && t[1] == '}' then args[0] + FillPlaceholders(t[2..], args[1..])
    else [t[0]] + FillPlaceholders(t[1..], args)
  }

  /** StrUtil.format(template, params...): no parameters or a blank template leave the template as it is. */
  function StrFormat(t: string, args: seq<string>): (r: string) {
    if |args| == 0 || IsBlank(t) then t else FillPlaceholders(t, args)
  }

  /** Text without an opening brace passes through the placeholder scan untouched. */
  lemma {:induction false} FillLiteral(p: string, rest: string, args: seq<string>)
    requires '{' !in p && |args| > 0
    ensures FillPlaceholders(p + rest, args) == p + FillPlaceholders(rest, args)
  {
    if p != [] {
      var t := p + rest;
      if |t| < 2 {
        assert rest == [] && FillPlaceholders(rest, args) == rest;
      } else {
        assert t[0] == p[0] && t[1..] == p[1..] + rest;
        FillLiteral(p[1..], rest, args);
      }
    } else {
      assert p + rest == rest;
    }
  }

  /** One placeholder after placeholder-free text: the text, then the argument, then the rest. */
  lemma FillOne(p: string, rest: string, a: string, args: seq<string>)
    requires '{' !in p
    ensures FillPlaceholders(p + "{}" + rest, [a] + args) == p + a + FillPlaceholders(rest, args)
  {
    var t := "{}" + rest;
    assert p + "{}" + rest == p + t;
    FillLiteral(p, t, [a] + args);
    assert t[2..] == rest;
    assert ([a] + args)[1..] == args;
  }

  /** A final placeholder after brace-free text takes the last argument. */
  lemma FillLast(p: string, c: string)
    requires '{' !in p
    ensures FillPlaceholders(p + "{}", [c]) == p + c
  {
    assert p + "{}" == p + "{}" + "";
    assert [c] == [c] + [];
    FillOne(p, "", c, []);
    assert FillPlaceholders("", []) == "";
  }

  /** Two placeholders between brace-free text, given two arguments. */
  lemma FillTwo(p1: string, p2: string, b: string, c: string)
    requires '{' !in p1 && '{' !in p2
    ensures FillPlaceholders(p1 + "{}" + p2 + "{}", [b, c]) == p1 + b + p2 + c
  {
    var t2 := p2 + "{}";
    assert p1 + "{}" + p2 + "{}" == p1 + "{}" + t2;
    assert [b, c] == [b] + [c];
    FillOne(p1, t2, b, [c]);
    FillLast(p2, c);
  }

  /** A template of three placeholders between brace-free text, given three arguments. */
  lemma FillThree(p0: string, p1: string, p2: string, a: string, b: string, c: string)
    requires '{' !in p0 && '{' !in p1 && '{' !in p2
    ensures FillPlaceholders(p0 + "{}" + p1 + "{}" + p2 + "{}", [a, b, c]) == p0 + a + p1 + b + p2 + c
  {
    var t1 := p1 + "{}" + p2 + "{}";
    assert p0 + "{}" + p1 + "{}" + p2 + "{}" == p0 + "{}" + t1;
    assert [a, b, c] == [a] + [b, c];
    FillOne(p0, t1, a, [b, c]);
    FillTwo(p1, p2, b, c);
  }

  // ---------------------------------------------------------------------------
  // java.lang.String.format, restricted to %s, %d and %%
  // ---------------------------------------------------------------------------

  datatype FormatArg = StrArg(s: string) | IntArg(i: int)

  /** The exceptions String.format throws, as far as the modelled conversions go. */
  datatype FormatError =
    | UnsupportedConversion   // UnknownFormatConversionException, and every conversion not modelled
    | MissingArgument         // MissingFormatArgumentException
    | ConversionMismatch      // IllegalFormatConversionException (%d given a string)

  predicate IsConversion(c: char) {
    c == 's' || c == 'd'
  }

  /** Formatter.parse succeeds: every '%' starts "%s", "%d" or "%%". */
  predicate Parses(t: string)
    decreases |t|
  {
    if |t| == 0 then true
    else if t[0] != '%' then Parses(t[1..])
    else |t| >= 2 && (IsConversion(t[1]) || t[1] == '%') && Parses(t[2..])
  }

  /** One conversion applied to one argument. */
  function Convert(conv: char, arg: FormatArg): (r: Result<string, FormatError>)
    requires IsConversion(conv)
  {
    match arg
    case StrArg(s) => if conv == 's' then Ok(s) else Err(ConversionMismatch)
    case IntArg(i) => Ok(DecimalString(i))
  }

  function Prepend(p: string, r: Result<string, FormatError>): (q: Result<string, FormatError>) {
    match r
    case Ok(s) => Ok(p + s)
    case Err(e) => Err(e)
  }

  /** Formatter.format after a successful parse: conversions consume the arguments in order,
      surplus arguments are ignored. */
  function Substitute(t: string, args: seq<FormatArg>): (r: Result<string, FormatError>)
    decreases |t|
  {
    if |t| == 0 then Ok("")
    else if t[0] == '%' && |t| >= 2 && IsConversion(t[1]) then
      if |args| == 0 then Err(MissingArgument)
      else match Convert(t[1], args[0])
        case Err(e) => Err(e)
        case Ok(piece) => Prepend(piece, Substitute(t[2..], args[1..]))
    else if t[0] == '%' && |t| >= 2 && t[1] == '%' then Prepend("%", Substitute(t[2..], args))
    else Prepend([t[0]], Substitute(t[1..], args))
  }

  /** String.format(template, args...): the whole template is parsed before any argument is used. */
  function JavaFormat(t: string, args: seq<FormatArg>): (r: Result<string, FormatError>) {
    if !Parses(t) then Err(UnsupportedConversion) else Substitute(t, args)
  }

  lemma {:induction false} LiteralParses(p: string, rest: string)
    requires '%' !in p
    ensures Parses(p + rest) == Parses(rest)
  {
    if p != [] {
      assert (p + rest)[1..] == p[1..] + rest;
      LiteralParses(p[1..], rest);
    } else {
      assert p + rest == rest;
    }
  }

  lemma {:induction false} LiteralSubstitutes(p: string, rest: string, args: seq<FormatArg>)
    requires '%' !in p
    ensures Substitute(p + rest, args) == Prepend(p, Substitute(rest, args))
  {
    if p != [] {
      assert (p + rest)[0] == p[0] && (p + rest)[1..] == p[1..] + rest;
      LiteralSubstitutes(p[1..], rest, args);
      match Substitute(rest, args)
      case Ok(s) => assert [p[0]] + (p[1..] + s) == p + s;
      case Err(_) =>
    } else {
      assert p + rest == rest;
      match Substitute(rest, args)
      case Ok(s) => assert "" + s == s;
      case Err(_) =>
    }
  }

  /** A conversion at the head of the template consumes the next argument. */
  lemma ConversionStep(c: char, rest: string, arg: FormatArg, args: seq<FormatArg>)
    requires IsConversion(c)
    ensures Parses("%" + [c] + rest) == Parses(rest)
    ensures Convert(c, arg).Ok? ==>
      Substitute("%" + [c] + rest, [arg] + args) == Prepend(Convert(c, arg).value, Substitute(rest, args))
    ensures Convert(c, arg).Err? ==> Substitute("%" + [c] + rest, [arg] + args) == Err(Convert(c, arg).error)
  {
    var t := "%" + [c] + rest;
    assert t[0] == '%' && t[1] == c && t[2..] == rest;
    assert ([arg] + args)[0] == arg && ([arg] + args)[1..] == args;
  }

  /** '%'-free text, then a conversion that succeeds on the next argument, then the rest. */
  lemma SegmentStep(p: string, c: char, rest: string, arg: FormatArg, args: seq<FormatArg>, piece: string)
    requires '%' !in p && IsConversion(c) && Convert(c, arg) == Ok(piece)
    ensures Parses(p + ("%" + [c] + rest)) == Parses(rest)
    ensures Substitute(p + ("%" + [c] + rest), [arg] + args) == Prepend(p + piece, Substitute(rest, args))
  {
    LiteralParses(p, "%" + [c] + rest);
    LiteralSubstitutes(p, "%" + [c] + rest, [arg] + args);
    ConversionStep(c, rest, arg, args);
    match Substitute(rest, args)
    case Ok(s) => assert p + (piece + s) == p + piece + s;
    case Err(_) =>
  }

  /** "%s, %d, %d" positional substitution: a template made of '%'-free text around one %s and two
      %d conversions, given a string and two integers, yields the text with the three values in place. */
  lemma PositionalFormat(p0: string, p1: string, p2: string, p3: string, name: string, a: int, b: int)
    requires '%' !in p0 && '%' !in p1 && '%' !in p2 && '%' !in p3
    ensures JavaFormat(p0 + "%s" + p1 + "%d" + p2 + "%d" + p3, [StrArg(name), IntArg(a), IntArg(b)])
         == Ok(p0 + name + p1 + DecimalString(a) + p2 + DecimalString(b) + p3)
  {
    var sa, sb := DecimalString(a), DecimalString(b);
    var t3 := p2 + ("%" + ['d'] + p3);
    var t2 := p1 + ("%" + ['d'] + t3);
    var t := p0 + ("%" + ['s'] + t2);
    assert p0 + "%s" + p1 + "%d" + p2 + "%d" + p3 == t;
    assert [StrArg(name), IntArg(a), IntArg(b)] == [StrArg(name)] + [IntArg(a), IntArg(b)];
    assert [IntArg(a), IntArg(b)] == [IntArg(a)] + [IntArg(b)];
    assert [IntArg(b)] == [IntArg(b)] + [];
    LiteralParses(p3, []);
    LiteralSubstitutes(p3, [], []);
    assert p3 + [] == p3 && Substitute([], []) == Ok("");
    SegmentStep(p2, 'd', p3, IntArg(b), [], sb);
    SegmentStep(p1, 'd', t3, IntArg(a), [IntArg(b)], sa);
    SegmentStep(p0, 's', t2, StrArg(name), [IntArg(a), IntArg(b)], name);
    assert p0 + name + (p1 + sa + (p2 + sb + (p3 + ""))) == p0 + name + p1 + sa + p2 + sb + p3;
  }
}
