/**
 Strings as the server sees them: whitespace-separated words (`iss >> token`)
 and the decimal integers written by `std::to_string` and read by `std::stoll`.
 */
module Text {

  datatype Option<+T> = None | Some(value: T)

  const INT64_MIN: int := -0x8000_0000_0000_0000
  const INT64_MAX: int := 0x7fff_ffff_ffff_ffff

  type Int64 = x: int | INT64_MIN <= x <= INT64_MAX

  /** `isspace` in the C locale. */
  predicate IsSpace(c: char) {
    c == ' ' || c == '\t' || c == '\n' || c == '\U{0B}' || c == '\U{0C}' || c == '\r'
  }

  /** That is tab, line feed, vertical tab, form feed, carriage return, and blank: ASCII 9 to 13, and 32. */
  lemma SpacesAre(c: char)
    ensures IsSpace(c) <==> 9 <= c as int <= 13 || c as int == 32
  {
  }

  predicate IsWord(s: string) {
    s != "" && forall i :: 0 <= i < |s| ==> !IsSpace(s[i])
  }

  /** How many leading characters of `s` are whitespace, or are not. */
  function Run(s: string, space: bool): (n: nat)
    ensures n <= |s|
    ensures forall i :: 0 <= i < n ==> IsSpace(s[i]) == space
    ensures n < |s| ==> IsSpace(s[n]) != space
  {
    if s == "" || IsSpace(s[0]) != space then 0 else 1 + Run(s[1..], space)
  }

  function SkipSpace(s: string): string {
    s[Run(s, true)..]
  }

  /** The tokens that repeated `iss >> token` reads from `s`. */
  function Tokens(s: string): seq<string>
    decreases |s|
  {
    var t := SkipSpace(s);
    if t == "" then []
    else
      var n := Run(t, false);
      [t[..n]] + Tokens(t[n..])
  }

  lemma FirstToken(s: string)
    ensures SkipSpace(s) == "" ==> Tokens(s) == []
    ensures var t := SkipSpace(s);
            t != "" ==> var n := Run(t, false);
                        Tokens(s) == [t[..n]] + Tokens(t[n..]) && |t[n..]| < |s|
  {
  }

  method Tokenize(line: string) returns (tokens: seq<string>)
    ensures tokens == Tokens(line)
  {
    hide Run, Tokens, SkipSpace;
    tokens := [];
    var rest := line;
    while true
      invariant tokens + Tokens(rest) == Tokens(line)
      decreases |rest|
    {
      FirstToken(rest);
      var t := SkipSpace(rest);
      if t == "" {
        break;
      }
      var n := Run(t, false);
      tokens, rest := tokens + [t[..n]], t[n..];
    }
  }

  lemma {:induction false} TokensAreWords(s: string)
    ensures forall t :: t in Tokens(s) ==> IsWord(t)
    decreases |s|
  {
    var t := SkipSpace(s);
    if t != "" {
      TokensAreWords(t[Run(t, false)..]);
    }
  }

  /** A run is pinned down by its characters and the one that ends it. */
  lemma {:induction false} RunOfPrefix(w: string, rest: string, space: bool)
    requires forall i :: 0 <= i < |w| ==> IsSpace(w[i]) == space
    requires rest != "" ==> IsSpace(rest[0]) != space
    ensures Run(w + rest, space) == |w|
  {
    var s := w + rest;
    assert forall i :: 0 <= i < |w| ==> s[i] == w[i];
    assert rest != "" ==> s[|w|] == rest[0];
  }

  lemma TokensOfWord(w: string, rest: string)
    requires IsWord(w)
    requires rest != "" ==> IsSpace(rest[0])
    ensures Tokens(w + rest) == [w] + Tokens(rest)
  {
    var s := w + rest;
    assert s[0] == w[0];
    assert SkipSpace(s) == s;
    RunOfPrefix(w, rest, false);
    assert s[..|w|] == w && s[|w|..] == rest;
  }

  /** Leading whitespace of any kind and length does not count. With TokensOfWord this settles every string. */
  lemma {:induction false} TokensSkipSpaces(blanks: string, s: string)
    requires forall i :: 0 <= i < |blanks| ==> IsSpace(blanks[i])
    ensures Tokens(blanks + s) == Tokens(s)
  {
    if blanks == "" {
      assert blanks + s == s;
    } else {
      assert (blanks + s)[0] == blanks[0] && (blanks + s)[1..] == blanks[1..] + s;
      assert SkipSpace(blanks + s) == SkipSpace(blanks[1..] + s);
      TokensSkipSpaces(blanks[1..], s);
    }
  }

  lemma TokensSkipBlank(s: string)
    ensures Tokens(" " + s) == Tokens(s)
  {
    assert (" " + s)[1..] == s;
    assert SkipSpace(" " + s) == SkipSpace(s);
  }

  /** Words joined by one blank, as every `serialize` builds its line. */
  function Join(words: seq<string>): string {
    if words == [] then ""
    else if |words| == 1 then words[0]
    else words[0] + " " + Join(words[1..])
  }

  lemma TokensOfNothing()
    ensures Tokens("") == []
  {
  }

  lemma BlankIsSpace()
    ensures IsSpace(' ')
  {
  }

  lemma {:induction false} TokensOfJoin(words: seq<string>)
    requires forall w :: w in words ==> IsWord(w)
    ensures Tokens(Join(words)) == words
  {
    hide Tokens, IsWord, IsSpace;
    if |words| == 1 {
      TokensOfWord(words[0], "");
      assert words[0] + "" == words[0];
      TokensOfNothing();
    } else if words != [] {
      var rest := Join(words[1..]);
      TokensOfJoin(words[1..]);
      BlankIsSpace();
      TokensOfWord(words[0], " " + rest);
      assert words[0] + (" " + rest) == words[0] + " " + rest;
      TokensSkipBlank(rest);
    } else {
      TokensOfNothing();
    }
  }

  // ----- Decimal integers

  predicate IsDigit(c: char) {
    '0' <= c <= '9'
  }

  predicate AllDigits(s: string) {
    forall i :: 0 <= i < |s| ==> IsDigit(s[i])
  }

  function DigitChar(d: nat): (c: char)
    requires d < 10
    ensures IsDigit(c) && c as int - '0' as int == d
  {
    ('0' as int + d) as char
  }

  function Digits(n: nat): (s: string)
    ensures s != "" && AllDigits(s)
  {
    if n < 10 then [DigitChar(n)] else Digits(n / 10) + [DigitChar(n % 10)]
  }

  /** `std::to_string` on a signed integer. */
  function ToString(n: int): string {
    if n < 0 then "-" + Digits(-n) else Digits(n)
  }

  function DecimalValue(s: string): nat
    requires AllDigits(s)
  {
    if s == "" then 0
    else 10 * DecimalValue(s[..|s| - 1]) + (s[|s| - 1] as int - '0' as int)
  }

  /** The number of leading digits of `s`. */
  function DigitRun(s: string): (n: nat)
    ensures n <= |s| && AllDigits(s[..n])
    ensures n < |s| ==> !IsDigit(s[n])
  {
    if s == "" || !IsDigit(s[0]) then 0
    else
      var n := 1 + DigitRun(s[1..]);
      assert forall i :: 1 <= i < n ==> s[i] == s[1..][i - 1];
      n
  }

  /** Sign and digits at the start of `s`, and how far they reach; no digits, no number. */
  function ScanInteger(s: string): Option<(int, nat)> {
    var signed := s != "" && (s[0] == '-' || s[0] == '+');
    var from := if signed then 1 else 0;
    var k := DigitRun(s[from..]);
    if k == 0 then None
    else
      var v: int := DecimalValue(s[from..][..k]);
      Some((if signed && s[0] == '-' then -v else v, from + k))
  }

  /**
   `std::stoll` in base ten: leading whitespace is skipped and whatever follows the
   digits is ignored. None stands for the two exceptions it throws, no digits at all
   and a value outside 64 bits.
   */
  function Stoll(s: string): Option<Int64> {
    match ScanInteger(SkipSpace(s))
    case None => None
    case Some((v, _)) => if INT64_MIN <= v <= INT64_MAX then Some(v) else None
  }

  lemma {:induction false} DecimalValueOfDigits(n: nat)
    ensures DecimalValue(Digits(n)) == n
  {
    if n >= 10 {
      var d := Digits(n);
      assert d[..|d| - 1] == Digits(n / 10);
      DecimalValueOfDigits(n / 10);
    }
  }

  lemma DigitRunOfPrefix(d: string, rest: string)
    requires AllDigits(d)
    requires rest != "" ==> !IsDigit(rest[0])
    ensures DigitRun(d + rest) == |d|
  {
    var s := d + rest;
    var n := DigitRun(s);
    assert forall i :: 0 <= i < |d| ==> s[i] == d[i];
    assert forall i :: 0 <= i < n ==> s[i] == s[..n][i];
    assert rest != "" ==> s[|d|] == rest[0];
  }

  lemma ScanOfDigits(n: nat, rest: string)
    requires rest != "" ==> !IsDigit(rest[0])
    ensures ScanInteger(Digits(n) + rest) == Some((n, |Digits(n)|))
  {
    DecimalValueOfDigits(n);
    DigitRunOfPrefix(Digits(n), rest);
    hide Digits, DecimalValue, DigitRun;
    var s := Digits(n) + rest;
    assert s[0] == Digits(n)[0] && s[0..] == s && s[..|Digits(n)|] == Digits(n);
  }

  lemma ScanOfNegative(n: int, rest: string)
    requires n < 0 && (rest != "" ==> !IsDigit(rest[0]))
    ensures ScanInteger("-" + Digits(-n) + rest) == Some((n, |"-" + Digits(-n)|))
  {
    DecimalValueOfDigits(-n);
    DigitRunOfPrefix(Digits(-n), rest);
    hide Digits, DecimalValue, DigitRun;
    var s, signed := Digits(-n) + rest, "-" + Digits(-n) + rest;
    assert signed[0] == '-' && signed[1..] == s && s[..|Digits(-n)|] == Digits(-n);
  }

  /** What `to_string` printed is read back, whatever non-digit follows it. */
  lemma ScanOfToString(n: int, rest: string)
    requires rest != "" ==> !IsDigit(rest[0])
    ensures ScanInteger(ToString(n) + rest) == Some((n, |ToString(n)|))
  {
    hide ScanInteger, Digits;
    if n < 0 {
      ScanOfNegative(n, rest);
    } else {
      ScanOfDigits(n, rest);
    }
  }

  lemma ToStringIsWord(n: int)
    ensures IsWord(ToString(n))
  {
    var d := Digits(if n < 0 then -n else n);
    assert forall i :: 0 <= i < |d| ==> !IsSpace(d[i]);
  }

  /** The printer and the reader agree on every 64-bit value, INT64_MIN included. */
  lemma StollOfToString(n: Int64)
    ensures Stoll(ToString(n)) == Some(n)
  {
    ToStringIsWord(n);
    assert SkipSpace(ToString(n)) == ToString(n);
    ScanOfToString(n, "");
    assert ToString(n) + "" == ToString(n);
  }

  /** Most significant digit first. */
  lemma PrintedNumbers()
    ensures ToString(0) == "0" && ToString(120) == "120" && ToString(-1) == "-1" && ToString(86400) == "86400"
  {
    assert Digits(12) == Digits(1) + [DigitChar(2)];
    assert Digits(86) == Digits(8) + [DigitChar(6)] && Digits(864) == Digits(86) + [DigitChar(4)];
    assert Digits(8640) == Digits(864) + [DigitChar(0)];
  }

  lemma SkipNoSpace(s: string)
    requires s != "" && !IsSpace(s[0])
    ensures SkipSpace(s) == s
  {
  }

  lemma ToStringStarts(n: int)
    ensures ToString(n) != "" && !IsSpace(ToString(n)[0])
  {
    ToStringIsWord(n);
    hide ToString, IsSpace;
  }

  lemma StollOfScan(s: string, n: int, used: nat)
    requires SkipSpace(s) == s && ScanInteger(s) == Some((n, used))
    ensures Stoll(s) == if INT64_MIN <= n <= INT64_MAX then Some(n) else None
  {
    hide ScanInteger, SkipSpace;
  }

  /** A number is read from the front of a word; what follows it is ignored, and 64 bits are the limit. */
  lemma StollReadsPrefix(n: int, rest: string)
    requires rest != "" ==> !IsDigit(rest[0])
    ensures Stoll(ToString(n) + rest) == if INT64_MIN <= n <= INT64_MAX then Some(n) else None
  {
    hide *;
    ScanOfToString(n, rest);
    ToStringStarts(n);
    var s := ToString(n) + rest;
    assert s[0] == ToString(n)[0];
    SkipNoSpace(s);
    StollOfScan(s, n, |ToString(n)|);
  }

  lemma ScanOfPlus(n: nat, rest: string)
    requires rest != "" ==> !IsDigit(rest[0])
    ensures ScanInteger("+" + (Digits(n) + rest)) == Some((n, 1 + |Digits(n)|))
  {
    DecimalValueOfDigits(n);
    DigitRunOfPrefix(Digits(n), rest);
    hide Digits, DecimalValue, DigitRun;
    var s := "+" + (Digits(n) + rest);
    assert s[1..] == Digits(n) + rest && (Digits(n) + rest)[..|Digits(n)|] == Digits(n);
  }

  /** A plus sign is allowed in front. */
  lemma StollOfPlus(n: nat, rest: string)
    requires rest != "" ==> !IsDigit(rest[0])
    ensures Stoll("+" + ToString(n) + rest) == if n <= INT64_MAX then Some(n) else None
  {
    hide Digits, ScanInteger, Stoll, SkipSpace;
    var s := "+" + ToString(n) + rest;
    assert s == "+" + (Digits(n) + rest);
    ScanOfPlus(n, rest);
    assert s[0] == '+';
    SkipNoSpace(s);
    StollOfScan(s, n, 1 + |Digits(n)|);
  }

  /** A word that starts with neither a digit nor a sign and a digit is no number. */
  lemma StollOfNoNumber(w: string)
    requires IsWord(w) && !IsDigit(w[0])
    requires w[0] == '-' || w[0] == '+' ==> |w| == 1 || !IsDigit(w[1])
    ensures Stoll(w) == None
  {
    SkipNoSpace(w);
    assert w[0..] == w;
  }

  lemma Limits64()
    ensures INT64_MAX == 9223372036854775807 && INT64_MIN == -9223372036854775808
  {
  }
}
