/** The text primitives of the C++ standard library and of boost that the
    interchange code relies on: splitting with std::getline, boost's
    char_separator tokenizer, std::string::find, decimal output of an
    unsigned integer and std::stoi in base 10. */
module Text {
  import opened Wrappers

  /** Index of the first `c` in `s`, or |s| when `s` has none. */
  function IndexOf(s: string, c: char): (k: nat)
    ensures k <= |s|
    ensures forall i :: 0 <= i < k ==> s[i] != c
    ensures k < |s| ==> s[k] == c
  {
    if s == [] then 0 else if s[0] == c then 0 else 1 + IndexOf(s[1..], c)
  }

  /** The items that repeated `std::getline(stream, item, d)` extracts from
      `s`: the pieces between the delimiters, where a delimiter that ends the
      input (or an empty input) does not start a further, empty item. */
  function GetlineSplit(s: string, d: char): (items: seq<string>)
    ensures forall i :: 0 <= i < |items| ==> d !in items[i]
    decreases |s|
  {
    if s == [] then []
    else
      var k := IndexOf(s, d);
      if k == |s| then [s] else [s[..k]] + GetlineSplit(s[k + 1..], d)
  }

  /** An item free of the delimiter and followed by it is split off whole. */
  lemma GetlineSplitCons(x: string, d: char, rest: string)
    requires d !in x
    ensures GetlineSplit(x + [d] + rest, d) == [x] + GetlineSplit(rest, d)
  {
    var s := x + [d] + rest;
    assert s[|x|] == d;
    assert forall i :: 0 <= i < |x| ==> s[i] == x[i];
    assert IndexOf(s, d) == |x|;
    assert s[..|x|] == x;
    assert s[|x| + 1..] == rest;
  }

  /** A non-empty text without the delimiter is a single item. */
  lemma GetlineSplitSingle(x: string, d: char)
    requires x != [] && d !in x
    ensures GetlineSplit(x, d) == [x]
  {
    assert IndexOf(x, d) == |x|;
  }

  predicate AllSpaces(s: string) {
    forall i :: 0 <= i < |s| ==> s[i] == ' '
  }

  /** The tokens boost's tokenizer yields with `char_separator<char>(" ")`:
      the maximal runs of non-space characters; runs of spaces yield no
      empty tokens. */
  function Tokens(s: string): (ts: seq<string>)
    ensures forall i :: 0 <= i < |ts| ==> ts[i] != [] && ' ' !in ts[i]
    decreases |s|
  {
    if s == [] then []
    else if s[0] == ' ' then Tokens(s[1..])
    else
      var k := IndexOf(s, ' ');
      [s[..k]] + Tokens(s[k..])
  }

  /** A line has no token exactly when it consists of spaces only. */
  lemma {:induction false} TokensEmptyIffBlank(s: string)
    ensures Tokens(s) == [] <==> AllSpaces(s)
    decreases |s|
  {
    if s == [] {
    } else if s[0] == ' ' {
      TokensEmptyIffBlank(s[1..]);
      if AllSpaces(s[1..]) {
        assert forall i :: 1 <= i < |s| ==> s[i] == s[1..][i - 1];
      } else {
        var i :| 0 <= i < |s[1..]| && s[1..][i] != ' ';
        assert s[i + 1] != ' ';
      }
    } else {
      assert !AllSpaces(s);
    }
  }

  /** `s` is `p + t + q` where `q` is blank and `p` is empty or ends with
      a space: `t` is a run of characters that only spaces follow. */
  predicate SplitAround(s: string, p: string, t: string, q: string) {
    s == p + t + q && AllSpaces(q) && (p == [] || p[|p| - 1] == ' ')
  }

  /** The last token of a line is a maximal run of non-spaces that only
      spaces follow: the line is `p + last + q` where `q` is blank and `p`
      is empty or ends with a space. */
  lemma LastTokenOfLine(s: string)
    requires Tokens(s) != []
    ensures exists p: string, q: string {:trigger SplitAround(s, p, Tokens(s)[|Tokens(s)| - 1], q)} ::
      SplitAround(s, p, Tokens(s)[|Tokens(s)| - 1], q)
  {
    var p, q := LastTokenSplit(s);
  }

  lemma {:induction false} LastTokenSplit(s: string) returns (p: string, q: string)
    requires Tokens(s) != []
    ensures SplitAround(s, p, Tokens(s)[|Tokens(s)| - 1], q)
    decreases |s|
  {
    if s[0] == ' ' {
      assert Tokens(s) == Tokens(s[1..]);
      var p', q' := LastTokenSplit(s[1..]);
      p, q := LeadingSpace(s, p', Tokens(s[1..])[|Tokens(s[1..])| - 1], q');
    } else {
      var k := IndexOf(s, ' ');
      var rest := s[k..];
      assert Tokens(s) == [s[..k]] + Tokens(rest);
      if Tokens(rest) == [] {
        p, q := SingleToken(s, k);
      } else {
        var p', q' := LastTokenSplit(rest);
        p, q := LastTokenAfterFirst(s, k, p', Tokens(rest)[|Tokens(rest)| - 1], q');
      }
    }
  }

  /** A leading space goes in front of the split of the rest. */
  lemma LeadingSpace(s: string, p': string, t: string, q': string) returns (p: string, q: string)
    requires s != [] && s[0] == ' ' && SplitAround(s[1..], p', t, q')
    ensures SplitAround(s, p, t, q)
  {
    p, q := [' '] + p', q';
    assert s == [s[0]] + s[1..];
    assert p[|p| - 1] == ' ';
  }

  /** A line whose first token is its only one. */
  lemma SingleToken(s: string, k: nat) returns (p: string, q: string)
    requires k <= |s| && Tokens(s[k..]) == []
    ensures SplitAround(s, p, s[..k], q)
  {
    TokensEmptyIffBlank(s[k..]);
    p, q := [], s[k..];
    assert s == s[..k] + s[k..];
  }

  /** Puts the first token of `s`, which ends at k, in front of the split
      of the rest. */
  lemma LastTokenAfterFirst(s: string, k: nat, p': string, t: string, q': string) returns (p: string, q: string)
    requires 0 < k == IndexOf(s, ' ') && s[k..] != []
    requires t != [] && ' ' !in t && SplitAround(s[k..], p', t, q')
    ensures SplitAround(s, p, t, q)
  {
    var rest := s[k..];
    assert rest[0] == ' ';
    assert rest[|p'|] == t[0];
    p, q := s[..k] + p', q';
    assert s == s[..k] + rest;
    assert p[|p| - 1] == p'[|p'| - 1];
  }

  /** `std::string::find(t) != npos`: `t` occurs in `s`. */
  predicate Contains(s: string, t: string)
    decreases |s|
  {
    if |s| < |t| then false
    else s[..|t|] == t || (s != [] && Contains(s[1..], t))
  }

  /** Every occurence of `t` is witnessed by an index where it starts. */
  lemma {:induction false} ContainsAt(s: string, t: string, i: nat)
    requires OccursAt(s, t, i)
    ensures Contains(s, t)
    decreases i
  {
    if i > 0 {
      assert s[1..][i - 1..i - 1 + |t|] == s[i..i + |t|];
      ContainsAt(s[1..], t, i - 1);
    }
  }

  /** `t` starts at index i of `s`. */
  predicate OccursAt(s: string, t: string, i: nat) {
    i + |t| <= |s| && s[i..i + |t|] == t
  }

  /** Conversely, `find(t) != npos` yields an index where `t` starts. */
  lemma {:induction false} ContainsWitness(s: string, t: string)
    requires Contains(s, t)
    ensures exists i: nat :: OccursAt(s, t, i)
    decreases |s|
  {
    if s[..|t|] == t {
      assert OccursAt(s, t, 0);
    } else {
      ContainsWitness(s[1..], t);
      var j: nat :| OccursAt(s[1..], t, j);
      assert s[j + 1..j + 1 + |t|] == s[1..][j..j + |t|];
      assert OccursAt(s, t, j + 1);
    }
  }

  predicate IsDigit(c: char) {
    '0' <= c <= '9'
  }

  predicate AllDigits(s: string) {
    forall i :: 0 <= i < |s| ==> IsDigit(s[i])
  }

  function DigitChar(d: nat): (c: char)
    requires d < 10
    ensures IsDigit(c)
  {
    ('0' as int + d) as char
  }

  function DigitValue(c: char): (d: nat)
    requires IsDigit(c)
    ensures d < 10
  {
    c as int - '0' as int
  }

  /** Decimal output of an unsigned integer, as `operator<<` writes it:
      no sign, no leading zeros, at least one digit. */
  function NatToString(n: nat): (s: string)
    ensures s != [] && AllDigits(s)
    ensures |s| > 1 ==> s[0] != '0'
  {
    if n < 10 then [DigitChar(n)] else NatToString(n / 10) + [DigitChar(n % 10)]
  }

  /** The value of a string of decimal digits. */
  function DigitsValue(s: string): nat
    requires AllDigits(s)
  {
    if s == [] then 0 else 10 * DigitsValue(s[..|s| - 1]) + DigitValue(s[|s| - 1])
  }

  /** Reading back the decimal output of `n` gives `n`. */
  lemma {:induction false} DigitsValueOfNatToString(n: nat)
    ensures DigitsValue(NatToString(n)) == n
  {
    if n >= 10 {
      var s := NatToString(n);
      assert s[..|s| - 1] == NatToString(n / 10);
      DigitsValueOfNatToString(n / 10);
    }
  }

  /** The characters `std::isspace` accepts in the C locale. */
  predicate IsSpace(c: char) {
    c == ' ' || 9 <= c as int <= 13
  }

  function SkipSpace(s: string): (t: string)
    ensures |t| <= |s| && t == s[|s| - |t|..]
    ensures t != [] ==> !IsSpace(t[0])
  {
    if s != [] && IsSpace(s[0]) then SkipSpace(s[1..]) else s
  }

  /** Length of the longest prefix of decimal digits. */
  function DigitPrefix(s: string): (k: nat)
    ensures k <= |s| && AllDigits(s[..k])
    ensures k < |s| ==> !IsDigit(s[k])
  {
    if s != [] && IsDigit(s[0]) then 1 + DigitPrefix(s[1..]) else 0
  }

  const IntMin: int := -0x8000_0000
  const IntMax: int := 0x7FFF_FFFF

  /** `std::stoi(s, nullptr, 10)`: skip leading white space, accept an
      optional sign and the longest run of digits after it, ignore what
      follows. None stands for the exceptions: no digit at all
      (std::invalid_argument) or a value outside `int`
      (std::out_of_range). */
  function StoI(s: string): (r: Option<int>)
    ensures r.Some? ==> IntMin <= r.value <= IntMax
  {
    var t := SkipSpace(s);
    var neg := t != [] && t[0] == '-';
    var u := if t != [] && (t[0] == '-' || t[0] == '+') then t[1..] else t;
    var k := DigitPrefix(u);
    if k == 0 then None
    else
      var magnitude := DigitsValue(u[..k]);
      var v: int := if neg then -(magnitude as int) else magnitude;
      if v < IntMin || IntMax < v then None else Some(v)
  }

  /** std::stoi reads back the decimal output of every value that fits an
      `int`. */
  lemma StoIOfNatToString(n: nat)
    requires n <= IntMax
    ensures StoI(NatToString(n)) == Some(n)
  {
    var s := NatToString(n);
    assert !IsSpace(s[0]);
    assert SkipSpace(s) == s;
    assert s[0] != '-' && s[0] != '+';
    assert DigitPrefix(s) == |s|;
    assert s[..|s|] == s;
    DigitsValueOfNatToString(n);
  }

  /** An empty item, as two adjacent spaces produce, makes std::stoi throw. */
  lemma StoIRejectsEmpty()
    ensures StoI("") == None
  {
  }
}
