/**
 * The three pieces of C/C++ text handling the simulator relies on:
 * `std::to_string` of an unsigned integer, `sscanf(s, "%lu", &v)` (glibc
 * behaviour) and the `while (std::getline(ss, token, d))` tokenising loop.
 */
module Text {
  import opened Common

  predicate IsDigit(c: char)
  {
    '0' <= c <= '9'
  }

  predicate AllDigits(s: string)
  {
    forall i :: 0 <= i < |s| ==> IsDigit(s[i])
  }

  /** The white-space characters of the C locale, which `%lu` skips. */
  predicate IsSpace(c: char)
  {
    c == ' ' || 9 <= c as int <= 13
  }

  function DigitChar(d: nat): (c: char)
    requires d < 10
    ensures IsDigit(c) && c as int - '0' as int == d
  {
    ('0' as int + d) as char
  }

  /** `std::to_string(n)`: decimal digits, no sign, no leading zero. */
  function Decimal(n: nat): (s: string)
    ensures |s| >= 1 && AllDigits(s)
    ensures (s[0] == '0') <==> n == 0
    decreases n
  {
    if n < 10 then [DigitChar(n)] else Decimal(n / 10) + [DigitChar(n % 10)]
  }

  /** The value of one digit character (non-digits never reach here). */
  function DigitValue(c: char): nat
  {
    if IsDigit(c) then c as int - '0' as int else 0
  }

  /** No character other than a digit occurs in `std::to_string(n)`. */
  lemma DecimalExcludes(c: char, n: nat)
    requires !IsDigit(c)
    ensures c !in Decimal(n)
  {
    var s := Decimal(n);
    forall i | 0 <= i < |s| ensures s[i] != c {
      assert IsDigit(s[i]);
    }
  }

  /** The number a run of decimal digits denotes. */
  function DecimalValue(s: string): nat
  {
    if s == [] then 0
    else DecimalValue(s[..|s| - 1]) * 10 + DigitValue(s[|s| - 1])
  }

  /** Reading back what `std::to_string` wrote gives the number again. */
  lemma {:induction false} DecimalRoundTrip(n: nat)
    ensures DecimalValue(Decimal(n)) == n
    decreases n
  {
    if n >= 10 {
      DecimalRoundTrip(n / 10);
      var s := Decimal(n);
      assert s[..|s| - 1] == Decimal(n / 10);
    }
  }

  lemma DecimalInjective(m: nat, n: nat)
    requires Decimal(m) == Decimal(n)
    ensures m == n
  {
    DecimalRoundTrip(m);
    DecimalRoundTrip(n);
  }

  /** Number of white-space characters `s` starts with. */
  function SpaceRun(s: string): (k: nat)
    ensures k <= |s|
  {
    if s != [] && IsSpace(s[0]) then 1 + SpaceRun(s[1..]) else 0
  }

  /** Number of decimal digits `s` starts with. */
  function DigitRun(s: string): (k: nat)
    ensures k <= |s|
  {
    if s != [] && IsDigit(s[0]) then 1 + DigitRun(s[1..]) else 0
  }

  /**
   * What `strtoul` makes of a magnitude `v` read with or without a leading
   * `-`: saturation at ULONG_MAX when out of range, negation modulo 2^64
   * otherwise.
   */
  function ToULong(v: nat, negative: bool): (r: nat)
    ensures r <= ULONG_MAX
    ensures !negative && v <= ULONG_MAX ==> r == v
  {
    if v > ULONG_MAX then ULONG_MAX
    else if negative && v > 0 then ULONG_MAX + 1 - v
    else v
  }

  /**
   * `sscanf(s, "%lu", &v)`: None when it returns 0 (no digits after the
   * optional white space and sign), otherwise the value stored in `v`.  Text
   * after the digits is ignored.
   */
  function ScanULong(s: string): (r: Option<nat>)
    ensures r.Some? ==> r.value <= ULONG_MAX
  {
    var t := s[SpaceRun(s)..];
    var negative := t != [] && t[0] == '-';
    var u := if t != [] && (t[0] == '+' || t[0] == '-') then t[1..] else t;
    var k := DigitRun(u);
    if k == 0 then None else Some(ToULong(DecimalValue(u[..k]), negative))
  }

  lemma {:induction false} DigitRunOfDigits(d: string, rest: string)
    requires AllDigits(d)
    requires rest == [] || !IsDigit(rest[0])
    ensures DigitRun(d + rest) == |d|
    decreases |d|
  {
    if d != [] {
      assert (d + rest)[1..] == d[1..] + rest;
      DigitRunOfDigits(d[1..], rest);
    } else {
      assert d + rest == rest;
    }
  }

  /**
   * `sscanf` reads back every number `std::to_string` writes, whatever
   * non-digit text follows it.
   */
  lemma ScanDecimal(n: nat, rest: string)
    requires n <= ULONG_MAX
    requires rest == [] || !IsDigit(rest[0])
    ensures ScanULong(Decimal(n) + rest) == Some(n)
  {
    var dec := Decimal(n);
    var s := dec + rest;
    assert s[0] == dec[0];
    assert SpaceRun(s) == 0;
    DigitRunOfDigits(dec, rest);
    assert s[..|dec|] == dec;
    DecimalRoundTrip(n);
  }

  /** Leading white space makes no difference to `%lu`. */
  lemma ScanSkipsSpace(c: char, s: string)
    requires IsSpace(c)
    ensures ScanULong([c] + s) == ScanULong(s)
  {
    assert ([c] + s)[1..] == s;
    assert ([c] + s)[SpaceRun([c] + s)..] == s[SpaceRun(s)..];
  }

  /** Text that holds no digit at all is never a number. */
  lemma ScanNeedsDigit(s: string)
    requires forall i :: 0 <= i < |s| ==> !IsDigit(s[i])
    ensures ScanULong(s) == None
  {
    var k := SpaceRun(s);
    var t := s[k..];
    var u := if t != [] && (t[0] == '+' || t[0] == '-') then t[1..] else t;
    if u != [] {
      assert u[0] == s[|s| - |u|];
    }
  }

  /**
   * What `std::getline(ss, token, d)` calls collect from `rest` once the
   * characters `current` of the token being read have been consumed: a
   * delimiter ends a token (possibly empty), the end of the text ends a last
   * token only when that token is non-empty.
   */
  function SplitFrom(current: string, rest: string, d: char): seq<string>
    decreases |rest|
  {
    if rest == [] then (if current == [] then [] else [current])
    else if rest[0] == d then [current] + SplitFrom([], rest[1..], d)
    else SplitFrom(current + [rest[0]], rest[1..], d)
  }

  /** The tokens `while (std::getline(ss, token, d)) tokens.push_back(token)` collects. */
  function Split(s: string, d: char): seq<string>
  {
    SplitFrom([], s, d)
  }

  /** The tokens joined back with one delimiter between neighbours. */
  function Join(tokens: seq<string>, d: char): string
  {
    if tokens == [] then []
    else if |tokens| == 1 then tokens[0]
    else tokens[0] + [d] + Join(tokens[1..], d)
  }

  predicate NoDelimiter(tokens: seq<string>, d: char)
  {
    forall i :: 0 <= i < |tokens| ==> d !in tokens[i]
  }

  lemma {:induction false} SplitFromHasNoDelimiter(current: string, rest: string, d: char)
    requires d !in current
    ensures NoDelimiter(SplitFrom(current, rest, d), d)
    decreases |rest|
  {
    if rest != [] {
      if rest[0] == d {
        SplitFromHasNoDelimiter([], rest[1..], d);
      } else {
        SplitFromHasNoDelimiter(current + [rest[0]], rest[1..], d);
      }
    }
  }

  /** No token ever holds the delimiter. */
  lemma SplitHasNoDelimiter(s: string, d: char)
    ensures NoDelimiter(Split(s, d), d)
  {
    SplitFromHasNoDelimiter([], s, d);
  }

  lemma {:induction false} SplitFromEmpty(current: string, rest: string, d: char)
    ensures SplitFrom(current, rest, d) == [] <==> current == [] && rest == []
    decreases |rest|
  {
    if rest != [] && rest[0] != d {
      SplitFromEmpty(current + [rest[0]], rest[1..], d);
    }
  }

  /** A delimiter right after a delimiter-free stretch ends the current token there. */
  lemma {:induction false} SplitFromToken(current: string, tok: string, d: char, rest: string)
    requires d !in tok
    ensures SplitFrom(current, tok + [d] + rest, d) == [current + tok] + Split(rest, d)
    decreases |tok|
  {
    var s := tok + [d] + rest;
    if tok == [] {
      assert s[0] == d && s[1..] == rest;
      assert current + tok == current;
    } else {
      assert s[0] == tok[0] && s[1..] == tok[1..] + [d] + rest;
      SplitFromToken(current + [tok[0]], tok[1..], d, rest);
      assert current + [tok[0]] + tok[1..] == current + tok;
    }
  }

  /** A delimiter-free tail ends the text with one last token, or none when empty. */
  lemma {:induction false} SplitFromLast(current: string, tok: string, d: char)
    requires d !in tok
    ensures SplitFrom(current, tok, d) == if current + tok == [] then [] else [current + tok]
    decreases |tok|
  {
    if tok != [] {
      assert tok[0] in tok;
      SplitFromLast(current + [tok[0]], tok[1..], d);
      assert current + [tok[0]] + tok[1..] == current + tok;
    } else {
      assert current + tok == current;
    }
  }

  /**
   * Splitting undoes joining whenever no token holds the delimiter and the
   * last token is not empty (an empty last token is dropped by `getline`).
   */
  lemma {:induction false} SplitJoin(tokens: seq<string>, d: char)
    requires NoDelimiter(tokens, d)
    requires tokens != [] ==> tokens[|tokens| - 1] != []
    ensures Split(Join(tokens, d), d) == tokens
    decreases |tokens|
  {
    if tokens == [] {
    } else if |tokens| == 1 {
      assert d !in tokens[0];
      SplitFromLast([], tokens[0], d);
      assert [] + tokens[0] == tokens[0];
    } else {
      assert d !in tokens[0];
      SplitFromToken([], tokens[0], d, Join(tokens[1..], d));
      assert [] + tokens[0] == tokens[0];
      SplitJoin(tokens[1..], d);
    }
  }

  /** A trailing delimiter adds no token, even after an empty last token. */
  lemma {:induction false} SplitJoinTrailing(tokens: seq<string>, d: char)
    requires tokens != [] && NoDelimiter(tokens, d)
    ensures Split(Join(tokens, d) + [d], d) == tokens
    decreases |tokens|
  {
    assert d !in tokens[0];
    if |tokens| == 1 {
      SplitFromToken([], tokens[0], d, []);
      assert tokens[0] + [d] + [] == Join(tokens, d) + [d];
      assert [] + tokens[0] == tokens[0];
    } else {
      SplitFromToken([], tokens[0], d, Join(tokens[1..], d) + [d]);
      assert tokens[0] + [d] + (Join(tokens[1..], d) + [d]) == Join(tokens, d) + [d];
      assert [] + tokens[0] == tokens[0];
      SplitJoinTrailing(tokens[1..], d);
    }
  }

  lemma {:induction false} JoinSplitFrom(current: string, rest: string, d: char)
    ensures var j := Join(SplitFrom(current, rest, d), d);
      if rest != [] && rest[|rest| - 1] == d then current + rest == j + [d] else current + rest == j
    decreases |rest|
  {
    if rest == [] {
    } else if rest[0] == d {
      var tail := rest[1..];
      var later := SplitFrom([], tail, d);
      assert SplitFrom(current, rest, d) == [current] + later;
      JoinSplitFrom([], tail, d);
      SplitFromEmpty([], tail, d);
      assert current + rest == current + [d] + tail;
      assert [] + tail == tail;
      if tail != [] {
        assert rest[|rest| - 1] == tail[|tail| - 1];
        assert ([current] + later)[1..] == later;
        assert Join([current] + later, d) == current + [d] + Join(later, d);
      } else {
        assert Join([current] + later, d) == current;
      }
    } else {
      JoinSplitFrom(current + [rest[0]], rest[1..], d);
      assert current + [rest[0]] + rest[1..] == current + rest;
      if rest[1..] == [] {
        assert rest[|rest| - 1] == rest[0];
      } else {
        assert rest[|rest| - 1] == rest[1..][|rest[1..]| - 1];
      }
    }
  }

  /**
   * Joining the tokens gives the text back, except for one trailing
   * delimiter, which `getline` swallows.
   */
  lemma JoinSplit(s: string, d: char)
    ensures var j := Join(Split(s, d), d);
      if s != [] && s[|s| - 1] == d then s == j + [d] else s == j
  {
    JoinSplitFrom([], s, d);
    assert [] + s == s;
  }

  /** The `getline` loop itself, character by character. */
  method Tokenize(s: string, d: char) returns (tokens: seq<string>)
    ensures tokens == Split(s, d)
  {
    tokens := [];
    var current := "";
    var i := 0;
    while i < |s|
      invariant 0 <= i <= |s|
      invariant tokens + SplitFrom(current, s[i..], d) == Split(s, d)
    {
      assert s[i..][0] == s[i] && s[i..][1..] == s[i + 1..];
      if s[i] == d {
        tokens := tokens + [current];
        current := "";
      } else {
        current := current + [s[i]];
      }
      i := i + 1;
    }
    if current != "" {
      tokens := tokens + [current];
    }
  }
}
