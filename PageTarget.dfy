/** How `getPage` (index.js) builds its navigation target: the URL
    `http://localhost:<port><path>` and the options handed to `page.goto`, a
    shallow merge of `{ waitUntil: 'networkidle0' }` with the caller's options. */
module PageTarget {
  import opened Wrappers

  /** The JavaScript values an options object may hold (numbers are integers here). */
  datatype Value = Str(s: string) | Num(n: int) | Bool(b: bool) | Null | Undefined

  /** A plain options object: property name to value. */
  type Options = map<string, Value>

  /** JavaScript truthiness, as used by `options.path || ''`. */
  predicate Truthy(v: Value)
  {
    match v
    case Str(s) => s != ""
    case Num(n) => n != 0
    case Bool(b) => b
    case Null => false
    case Undefined => false
  }

  predicate IsDigit(c: char)
  {
    '0' <= c <= '9'
  }

  function DigitChar(d: nat): (c: char)
    requires d < 10
    ensures IsDigit(c) && c as int - '0' as int == d
  {
    ('0' as int + d) as char
  }

  /** The decimal numeral of a natural number, as `${n}` writes it. */
  function NatText(n: nat): (r: string)
    ensures r != [] && forall i :: 0 <= i < |r| ==> IsDigit(r[i])
    ensures r[0] == '0' <==> n == 0
    ensures |r| == 1 || r[0] != '0'
  {
    if n < 10 then [DigitChar(n)] else NatText(n / 10) + [DigitChar(n % 10)]
  }

  /** The decimal numeral of an integer, with a leading '-' when negative. */
  function IntText(n: int): (r: string)
    ensures r != []
  {
    if n < 0 then "-" + NatText(-n) else NatText(n)
  }

  /** What a template literal `${v}` makes of a value. */
  function Text(v: Value): string
  {
    match v
    case Str(s) => s
    case Num(n) => IntText(n)
    case Bool(b) => if b then "true" else "false"
    case Null => "null"
    case Undefined => "undefined"
  }

  /** `options.path || ''`, as it is spliced into the URL. */
  function PathOf(options: Options): (r: string)
    ensures r == "" <==> ("path" !in options || !Truthy(options["path"]))
    ensures "path" in options && options["path"].Str? ==> r == options["path"].s
  {
    if "path" in options && Truthy(options["path"]) then Text(options["path"]) else ""
  }

  const URL_PREFIX: string := "http://localhost:"

  /** The URL `getPage` navigates to: the local origin with the port's
      numeral, followed by the path. */
  function PageUrl(port: int, options: Options): (r: string)
    ensures |r| > |URL_PREFIX| && r[..|URL_PREFIX|] == URL_PREFIX
    ensures IsDigit(r[|URL_PREFIX|]) || (port < 0 && r[|URL_PREFIX|] == '-')
    ensures |PathOf(options)| < |r| - |URL_PREFIX| && r[|r| - |PathOf(options)|..] == PathOf(options)
  {
    URL_PREFIX + IntText(port) + PathOf(options)
  }

  const DEFAULT_NAVIGATION: Options := map["waitUntil" := Str("networkidle0")]

  /** `{ ...defaultOptions, ...options }`: every key of either object, the caller's
      value winning on a conflict; `path` and every other key of the caller pass through. */
  function NavigationOptions(options: Options): (r: Options)
    ensures r.Keys == options.Keys + {"waitUntil"}
    ensures forall k :: k in options ==> r[k] == options[k]
    ensures "waitUntil" !in options ==> r["waitUntil"] == Str("networkidle0")
  {
    DEFAULT_NAVIGATION + options
  }

  // Reading a URL back: the partner of PageUrl.

  function DigitValue(c: char): int
  {
    c as int - '0' as int
  }

  /** The value of a string of decimal digits. */
  function ParseNat(s: string): int
  {
    if s == [] then 0 else 10 * ParseNat(s[..|s| - 1]) + DigitValue(s[|s| - 1])
  }

  /** The length of the run of digits that starts `s`. */
  function DigitRun(s: string): (k: nat)
    ensures k <= |s|
  {
    if s != [] && IsDigit(s[0]) then 1 + DigitRun(s[1..]) else 0
  }

  /** A leading decimal numeral and the text after it. */
  function ParseUnsigned(s: string): Option<(int, string)>
  {
    var k := DigitRun(s);
    if k == 0 then None else Some((ParseNat(s[..k]), s[k..]))
  }

  /** A leading decimal numeral with an optional '-' sign, and the text after it. */
  function ParseSigned(s: string): Option<(int, string)>
  {
    if s != [] && s[0] == '-' then
      match ParseUnsigned(s[1..])
      case Some((m, rest)) => Some((-m, rest))
      case None => None
    else ParseUnsigned(s)
  }

  /** Splits `http://localhost:<port><path>` into the port and the path. */
  function ParsePageUrl(url: string): Option<(int, string)>
  {
    if |url| < |URL_PREFIX| || url[..|URL_PREFIX|] != URL_PREFIX then None
    else ParseSigned(url[|URL_PREFIX|..])
  }

  lemma {:induction false} ParseNatText(n: nat)
    ensures ParseNat(NatText(n)) == n
  {
    if n >= 10 {
      var d := NatText(n / 10);
      var s := d + [DigitChar(n % 10)];
      assert s[..|s| - 1] == d;
      ParseNatText(n / 10);
    }
  }

  lemma {:induction false} DigitRunOfNumeral(digits: string, rest: string)
    requires forall i :: 0 <= i < |digits| ==> IsDigit(digits[i])
    requires rest == [] || !IsDigit(rest[0])
    ensures DigitRun(digits + rest) == |digits|
  {
    if digits != [] {
      assert (digits + rest)[1..] == digits[1..] + rest;
      DigitRunOfNumeral(digits[1..], rest);
    } else {
      assert digits + rest == rest;
    }
  }

  lemma ParseUnsignedNumeral(n: nat, path: string)
    requires path == "" || !IsDigit(path[0])
    ensures ParseUnsigned(NatText(n) + path) == Some((n, path))
  {
    var numeral := NatText(n);
    var s := numeral + path;
    DigitRunOfNumeral(numeral, path);
    assert s[..|numeral|] == numeral;
    assert s[|numeral|..] == path;
    ParseNatText(n);
  }

  /** A leading '-' negates the unsigned numeral after it. */
  lemma ParseSignedMinus(t: string, m: int, rest: string)
    requires ParseUnsigned(t) == Some((m, rest))
    ensures ParseSigned("-" + t) == Some((-m, rest))
  {
    assert ("-" + t)[1..] == t;
  }

  /** Text starting with a digit is read as an unsigned numeral. */
  lemma ParseSignedDigit(t: string)
    requires t != [] && IsDigit(t[0])
    ensures ParseSigned(t) == ParseUnsigned(t)
  {
  }

  lemma ParseSignedNumeral(port: int, path: string)
    requires path == "" || !IsDigit(path[0])
    ensures ParseSigned(IntText(port) + path) == Some((port, path))
  {
    if port < 0 {
      var unsigned := NatText(-port) + path;
      ParseUnsignedNumeral(-port, path);
      ParseSignedMinus(unsigned, -port, path);
      assert IntText(port) + path == "-" + unsigned;
    } else {
      var numeral := NatText(port);
      ParseUnsignedNumeral(port, path);
      assert IsDigit(numeral[0]);
      ParseSignedDigit(numeral + path);
    }
  }

  lemma ParseAfterPrefix(rest: string)
    ensures ParsePageUrl(URL_PREFIX + rest) == ParseSigned(rest)
  {
    var url := URL_PREFIX + rest;
    assert url[..|URL_PREFIX|] == URL_PREFIX;
    assert url[|URL_PREFIX|..] == rest;
  }

  /** A URL built by PageUrl reads back as the port and the path it was built
      from, whenever the path does not itself start with a digit. */
  lemma PageUrlRoundTrip(port: int, options: Options)
    requires PathOf(options) == "" || !IsDigit(PathOf(options)[0])
    ensures ParsePageUrl(PageUrl(port, options)) == Some((port, PathOf(options)))
  {
    var path := PathOf(options);
    var numeral := IntText(port);
    ParseSignedNumeral(port, path);
    ParseAfterPrefix(numeral + path);
    assert URL_PREFIX + numeral + path == URL_PREFIX + (numeral + path);
  }

  /** Two harnesses on different ports never navigate to the same URL (for paths
      that do not start with a digit), and one port never serves two paths under one URL. */
  lemma PageUrlInjective(port1: int, options1: Options, port2: int, options2: Options)
    requires PathOf(options1) == "" || !IsDigit(PathOf(options1)[0])
    requires PathOf(options2) == "" || !IsDigit(PathOf(options2)[0])
    requires PageUrl(port1, options1) == PageUrl(port2, options2)
    ensures port1 == port2 && PathOf(options1) == PathOf(options2)
  {
    PageUrlRoundTrip(port1, options1);
    PageUrlRoundTrip(port2, options2);
  }
}
