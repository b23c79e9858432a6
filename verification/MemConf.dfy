/** Redis memory sizes such as `64mb`, read into a decimal byte count (pkg/util/utils.go). */
module MemConf {
  import opened Basics

  const INT64_MIN: int := -0x8000_0000_0000_0000
  const INT64_MAX: int := 0x7FFF_FFFF_FFFF_FFFF

  predicate IsInt64(n: int) {
    INT64_MIN <= n <= INT64_MAX
  }

  /** Two's-complement reduction to 64 bits: the result of an int64 multiplication. */
  function Wrap64(n: int): (w: int)
    ensures IsInt64(w)
    ensures exists k: int :: w == n + k * 0x1_0000_0000_0000_0000
    ensures IsInt64(n) ==> w == n
  {
    var w := (n - INT64_MIN) % 0x1_0000_0000_0000_0000 + INT64_MIN;
    assert w == n + (-((n - INT64_MIN) / 0x1_0000_0000_0000_0000)) * 0x1_0000_0000_0000_0000;
    w
  }

  // ---------------------------------------------------------------- characters

  /**
   * Lower case of one character. Of the letters outside ASCII only the Kelvin sign has
   * a lower case that matters here (`k`); every other one stays a character that no
   * number and no suffix contains.
   */
  function Lower(c: char): char {
    if 'A' <= c <= 'Z' then (c as int + 32) as char
    else if c == '\U{212A}' then 'k'
    else c
  }

  function ToLower(s: string): (r: string)
    ensures |r| == |s|
  {
    seq(|s|, i requires 0 <= i < |s| => Lower(s[i]))
  }

  predicate HasSuffix(s: string, t: string) {
    |t| <= |s| && s[|s| - |t|..] == t
  }

  predicate IsDigit(c: char) {
    '0' <= c <= '9'
  }

  predicate AllDigits(s: string) {
    forall i :: 0 <= i < |s| ==> IsDigit(s[i])
  }

  // ---------------------------------------------------------------- decimal numbers

  function Natural(s: string): nat
    requires AllDigits(s)
  {
    if s == "" then 0 else Natural(s[..|s| - 1]) * 10 + (s[|s| - 1] as int - '0' as int)
  }

  /** Base-10 reading of a signed 64-bit integer, as `strconv.ParseInt(s, 10, 64)` does it. */
  function ParseInt(s: string): (r: Option<int>)
    ensures r.Some? ==> IsInt64(r.value)
  {
    var signed := s != "" && (s[0] == '+' || s[0] == '-');
    var body := if signed then s[1..] else s;
    if body == "" || !AllDigits(body) then None
    else
      var n: int := if signed && s[0] == '-' then 0 - Natural(body) else Natural(body);
      if IsInt64(n) then Some(n) else None
  }

  function FormatNat(n: nat): (s: string)
    ensures s != "" && AllDigits(s) && Natural(s) == n
  {
    var last := ['0' + (n % 10) as char];
    if n < 10 then last
    else
      var s := FormatNat(n / 10) + last;
      assert s[..|s| - 1] == FormatNat(n / 10);
      s
  }

  function FormatInt(n: int): string {
    if n < 0 then "-" + FormatNat(-n) else FormatNat(n)
  }

  /** Printing an int64 and reading it back gives the same number. */
  lemma FormatThenParse(n: int)
    requires IsInt64(n)
    ensures ParseInt(FormatInt(n)) == Some(n)
  {
    if n < 0 {
      var s := FormatInt(n);
      assert s[0] == '-' && s[1..] == FormatNat(-n);
    } else {
      assert IsDigit(FormatInt(n)[0]);
    }
  }

  // ---------------------------------------------------------------- the parser

  /** How many characters the unit at the end of `u` takes, and what it multiplies by. */
  function UnitOf(u: string): (int, int) {
    if HasSuffix(u, "k") then (1, 1000)
    else if HasSuffix(u, "kb") then (2, 1024)
    else if HasSuffix(u, "m") then (1, 1000 * 1000)
    else if HasSuffix(u, "mb") then (2, 1024 * 1024)
    else if HasSuffix(u, "g") then (1, 1000 * 1000 * 1000)
    else if HasSuffix(u, "gb") then (2, 1024 * 1024 * 1024)
    else if HasSuffix(u, "b") then (1, 1)
    else (0, 1)
  }

  /** The value of a memory setting in bytes, or a failure when the text is not one. */
  function ParseRedisMemConf(p: string): Result<string> {
    var u := ToLower(p);
    var (width, mul) := UnitOf(u);
    match ParseInt(u[..|u| - width])
    case None => Failure
    case Some(val) => Success(FormatInt(Wrap64(val * mul)))
  }

  /** What each unit is worth; the empty unit counts bytes. */
  function Multiplier(t: string): Option<int> {
    if t == "" || t == "b" then Some(1)
    else if t == "k" then Some(1000)
    else if t == "kb" then Some(1024)
    else if t == "m" then Some(1000 * 1000)
    else if t == "mb" then Some(1024 * 1024)
    else if t == "g" then Some(1000 * 1000 * 1000)
    else if t == "gb" then Some(1024 * 1024 * 1024)
    else None
  }

  /** Read as a document: `p` is a number n followed, after `cut` characters, by a unit worth mul. */
  ghost predicate Reads(p: string, cut: int, n: int, mul: int) {
    && 0 <= cut <= |p|
    && ParseInt(p[..cut]) == Some(n)
    && Multiplier(ToLower(p[cut..])) == Some(mul)
  }

  lemma {:induction false} NaturalIgnoresCase(s: string)
    ensures AllDigits(ToLower(s)) == AllDigits(s)
    ensures AllDigits(s) ==> Natural(ToLower(s)) == Natural(s)
  {
    forall i | 0 <= i < |s|
      ensures IsDigit(ToLower(s)[i]) == IsDigit(s[i])
    {
    }
    if AllDigits(s) {
      assert ToLower(s) == s;
    } else {
      var i :| 0 <= i < |s| && !IsDigit(s[i]);
      assert !IsDigit(ToLower(s)[i]);
    }
  }

  /** Case does not matter to the digits. */
  lemma ParseIntIgnoresCase(s: string)
    ensures ParseInt(ToLower(s)) == ParseInt(s)
  {
    NaturalIgnoresCase(s);
    if s != "" {
      assert ToLower(s)[1..] == ToLower(s[1..]);
      NaturalIgnoresCase(s[1..]);
    }
  }

  /** A numeral ends in a digit, so a unit cannot be mistaken for part of it. */
  lemma NumeralEndsInDigit(s: string)
    requires ParseInt(s).Some?
    ensures s != "" && IsDigit(s[|s| - 1])
  {
  }

  /** A suffix of one or two characters, character by character. */
  lemma SuffixCharacters(u: string, t: string)
    requires 1 <= |t| <= 2
    ensures HasSuffix(u, t) <==>
      && |u| >= |t|
      && u[|u| - 1] == t[|t| - 1]
      && (|t| == 2 ==> u[|u| - 2] == t[0])
  {
    if |u| >= |t| {
      var tail := u[|u| - |t|..];
      assert tail[|t| - 1] == u[|u| - 1];
      assert |t| == 2 ==> tail[0] == u[|u| - 2];
      assert HasSuffix(u, t) <==> forall i :: 0 <= i < |t| ==> tail[i] == t[i];
    }
  }

  lemma SevenSuffixes(u: string)
    ensures HasSuffix(u, "k") <==> |u| >= 1 && u[|u| - 1] == 'k'
    ensures HasSuffix(u, "m") <==> |u| >= 1 && u[|u| - 1] == 'm'
    ensures HasSuffix(u, "g") <==> |u| >= 1 && u[|u| - 1] == 'g'
    ensures HasSuffix(u, "b") <==> |u| >= 1 && u[|u| - 1] == 'b'
    ensures HasSuffix(u, "kb") <==> |u| >= 2 && u[|u| - 1] == 'b' && u[|u| - 2] == 'k'
    ensures HasSuffix(u, "mb") <==> |u| >= 2 && u[|u| - 1] == 'b' && u[|u| - 2] == 'm'
    ensures HasSuffix(u, "gb") <==> |u| >= 2 && u[|u| - 1] == 'b' && u[|u| - 2] == 'g'
  {
    SuffixCharacters(u, "k");
    SuffixCharacters(u, "m");
    SuffixCharacters(u, "g");
    SuffixCharacters(u, "b");
    SuffixCharacters(u, "kb");
    SuffixCharacters(u, "mb");
    SuffixCharacters(u, "gb");
  }

  /** The chain of suffix tests finds the unit that stands behind the last digit. */
  lemma UnitFound(d: string, t: string)
    requires d != "" && IsDigit(d[|d| - 1]) && Multiplier(t).Some?
    ensures UnitOf(d + t) == (|t|, Multiplier(t).value)
  {
    var u := d + t;
    SevenSuffixes(u);
    assert t == "" ==> u[|u| - 1] == d[|d| - 1];
    assert |t| == 1 ==> u[|u| - 1] == t[0] && u[|u| - 2] == d[|d| - 1];
    assert |t| == 2 ==> u[|u| - 1] == t[1] && u[|u| - 2] == t[0];
  }

  /** Whatever unit the chain of tests reports is one of the table, worth the same. */
  lemma UnitIsListed(u: string)
    ensures 0 <= UnitOf(u).0 <= |u|
    ensures Multiplier(u[|u| - UnitOf(u).0..]) == Some(UnitOf(u).1)
  {
    if HasSuffix(u, "k") {
    } else if HasSuffix(u, "kb") {
    } else if HasSuffix(u, "m") {
    } else if HasSuffix(u, "mb") {
    } else if HasSuffix(u, "g") {
    } else if HasSuffix(u, "gb") {
    } else if HasSuffix(u, "b") {
    } else {
      assert u[|u|..] == "";
    }
  }

  /** A document is parsed as what it says, whichever way its case is written. */
  lemma ParsesAsRead(p: string, cut: int, n: int, mul: int)
    requires Reads(p, cut, n, mul)
    ensures ParseRedisMemConf(p) == Success(FormatInt(Wrap64(n * mul)))
  {
    hide UnitOf;
    var u := ToLower(p);
    var d, t := ToLower(p[..cut]), ToLower(p[cut..]);
    assert u == d + t;
    ParseIntIgnoresCase(p[..cut]);
    NumeralEndsInDigit(d);
    UnitFound(d, t);
    assert u[..|u| - |t|] == d;
  }

  lemma CutReads(p: string, cut: int, mul: int)
    requires 0 <= cut <= |p|
    requires ParseInt(ToLower(p)[..cut]).Some? && Multiplier(ToLower(p)[cut..]) == Some(mul)
    ensures ParseInt(p[..cut]).Some? && Reads(p, cut, ParseInt(p[..cut]).value, mul)
  {
    var u := ToLower(p);
    assert u[..cut] == ToLower(p[..cut]) && u[cut..] == ToLower(p[cut..]);
    ParseIntIgnoresCase(p[..cut]);
  }

  /** Conversely whatever is accepted is a document. */
  lemma AcceptedIsRead(p: string) returns (cut: int, n: int, mul: int)
    requires ParseRedisMemConf(p).Success?
    ensures Reads(p, cut, n, mul)
  {
    hide HasSuffix;
    var u := ToLower(p);
    var (width, unit) := UnitOf(u);
    UnitIsListed(u);
    assert ParseInt(u[..|u| - width]).Some?;
    cut, mul := |p| - width, unit;
    CutReads(p, cut, mul);
    n := ParseInt(p[..cut]).value;
  }

  /** The parser accepts exactly the documents. */
  lemma AcceptsExactly(p: string)
    ensures ParseRedisMemConf(p).Success? <==> exists cut, n, mul :: Reads(p, cut, n, mul)
  {
    if ParseRedisMemConf(p).Success? {
      var cut, n, mul := AcceptedIsRead(p);
    } else if exists cut, n, mul :: Reads(p, cut, n, mul) {
      var cut, n, mul :| Reads(p, cut, n, mul);
      ParsesAsRead(p, cut, n, mul);
    }
  }

  /** `decimal(n)` followed by a unit reads as `decimal(n * unit)`, as long as that is an int64. */
  lemma PrintedSizeParses(n: int, unit: string, mul: int)
    requires IsInt64(n) && Multiplier(ToLower(unit)) == Some(mul)
    ensures ParseRedisMemConf(FormatInt(n) + unit) == Success(FormatInt(Wrap64(n * mul)))
    ensures IsInt64(n * mul) ==> ParseRedisMemConf(FormatInt(n) + unit) == Success(FormatInt(n * mul))
  {
    var d := FormatInt(n);
    var p := d + unit;
    FormatThenParse(n);
    assert p[..|d|] == d && p[|d|..] == unit;
    ParsesAsRead(p, |d|, n, mul);
  }

  /** A byte count is already normal: parsing the output changes nothing. */
  lemma OutputIsFixedPoint(p: string)
    requires ParseRedisMemConf(p).Success?
    ensures ParseRedisMemConf(ParseRedisMemConf(p).value) == ParseRedisMemConf(p)
  {
    var cut, n, mul := AcceptedIsRead(p);
    ParsesAsRead(p, cut, n, mul);
    var w := Wrap64(n * mul);
    assert ToLower("") == "";
    PrintedSizeParses(w, "", 1);
    assert FormatInt(w) + "" == FormatInt(w);
  }
}
