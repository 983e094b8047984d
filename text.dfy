/** The parts of Rust's `str` API that the parsers use, over `seq<char>`. */
module Text {
  import opened Wrappers

  type String = seq<char>

  /** One more than the largest `u64`. */
  const U64_LIMIT: nat := 0x1_0000_0000_0000_0000

  /** `char::is_whitespace`: the Unicode White_Space property. */
  predicate IsWhitespace(c: char) {
    c == ' ' || ('\t' <= c <= '\r') || c == '\U{0085}' || c == '\U{00A0}' || c == '\U{1680}'
    || ('\U{2000}' <= c <= '\U{200A}') || c == '\U{2028}' || c == '\U{2029}' || c == '\U{202F}'
    || c == '\U{205F}' || c == '\U{3000}'
  }

  predicate StartsWith(s: String, prefix: String) {
    prefix <= s
  }

  /** The position of the first `c` in `s`. */
  function IndexOf(s: String, c: char): (r: Option<nat>)
    ensures r.None? ==> c !in s
    ensures r.Some? ==> r.value < |s| && s[r.value] == c && c !in s[..r.value]
  {
    if s == [] then None
    else if s[0] == c then Some(0)
    else match IndexOf(s[1..], c)
      case None => None
      case Some(i) => assert s[..i + 1] == [s[0]] + s[1..][..i]; Some(i + 1)
  }

  /** The position of the last `c` in `s`. */
  function LastIndexOf(s: String, c: char): (r: Option<nat>)
    ensures r.None? ==> c !in s
    ensures r.Some? ==> r.value < |s| && s[r.value] == c && c !in s[r.value + 1..]
  {
    if s == [] then None
    else if s[|s| - 1] == c then Some(|s| - 1)
    else
      var r := LastIndexOf(s[..|s| - 1], c);
      assert r.Some? ==> s[r.value + 1..] == s[..|s| - 1][r.value + 1..] + [s[|s| - 1]];
      assert s == s[..|s| - 1] + [s[|s| - 1]];
      r
  }

  /** `str::split_once`: the text before and after the first `c`. */
  function SplitOnce(s: String, c: char): (r: Option<(String, String)>)
    ensures r.None? <==> c !in s
    ensures r.Some? ==> s == r.value.0 + [c] + r.value.1 && c !in r.value.0
  {
    match IndexOf(s, c)
    case None => None
    case Some(i) => assert s == s[..i] + [c] + s[i + 1..]; Some((s[..i], s[i + 1..]))
  }

  /** `str::rsplit_once`: the text before and after the last `c`. */
  function RSplitOnce(s: String, c: char): (r: Option<(String, String)>)
    ensures r.None? <==> c !in s
    ensures r.Some? ==> s == r.value.0 + [c] + r.value.1 && c !in r.value.1
  {
    match LastIndexOf(s, c)
    case None => None
    case Some(i) => assert s == s[..i] + [c] + s[i + 1..]; Some((s[..i], s[i + 1..]))
  }

  /** `split_once` is determined by its contract: the first `c` splits `a + [c] + b` when `a` has none. */
  lemma SplitOnceUnique(s: String, c: char, a: String, b: String)
    requires s == a + [c] + b && c !in a
    ensures SplitOnce(s, c) == Some((a, b))
  {
    var r := SplitOnce(s, c);
    var x := r.value.0;
    assert s[|a|] == c && s[|x|] == c;
    assert forall i :: 0 <= i < |a| ==> s[i] != c by { assert forall i :: 0 <= i < |a| ==> s[i] == a[i]; }
    assert forall i :: 0 <= i < |x| ==> s[i] != c by { assert forall i :: 0 <= i < |x| ==> s[i] == x[i]; }
    assert x == s[..|a|] == a;
    assert r.value.1 == s[|a| + 1..] == b;
  }

  /** `rsplit_once` is determined likewise: the last `c` splits `a + [c] + b` when `b` has none. */
  lemma RSplitOnceUnique(s: String, c: char, a: String, b: String)
    requires s == a + [c] + b && c !in b
    ensures RSplitOnce(s, c) == Some((a, b))
  {
    assert s[|a|] == c;
    var r := RSplitOnce(s, c);
    var x, y := r.value.0, r.value.1;
    assert s == x + [c] + y;
    if |x| < |a| {
      assert false;
    }
    if |x| > |a| {
      assert false;
    }
    assert x == s[..|a|] == a;
    assert y == s[|a| + 1..] == b;
  }

  predicate AllWhitespace(s: String) {
    forall k :: 0 <= k < |s| ==> IsWhitespace(s[k])
  }

  /** A token: non-empty and free of whitespace. */
  predicate IsToken(s: String) {
    s != [] && forall k :: 0 <= k < |s| ==> !IsWhitespace(s[k])
  }

  /** `trim_start` removes exactly the whitespace padding in front of text that starts with a token. */
  lemma {:induction false} TrimStartPadding(pad: String, x: String)
    requires AllWhitespace(pad) && (x == [] || !IsWhitespace(x[0]))
    ensures TrimStart(pad + x) == x
    decreases |pad|
  {
    if pad != [] {
      assert (pad + x)[1..] == pad[1..] + x;
      TrimStartPadding(pad[1..], x);
    } else {
      assert pad + x == x;
    }
  }

  /** `trim` leaves a token as it is. */
  lemma TrimToken(s: String)
    requires IsToken(s)
    ensures TrimStart(s) == s && Trim(s) == s
  {
  }

  function StripCr(s: String): String {
    if |s| > 0 && s[|s| - 1] == '\r' then s[..|s| - 1] else s
  }

  /** `str::lines`: split at `\n`, drop one `\r` before it, no empty line after a final `\n`. */
  function Lines(s: String): (r: seq<String>)
    ensures forall k :: 0 <= k < |r| ==> '\n' !in r[k]
    ensures s == [] <==> r == []
    decreases |s|
  {
    if s == [] then []
    else match IndexOf(s, '\n')
      case None => [s]
      case Some(i) => [StripCr(s[..i])] + Lines(s[i + 1..])
  }

  /** `lines().skip(2)`: the lines after two header lines. */
  function Body(lines: seq<String>): (body: seq<String>)
    ensures |lines| >= 2 ==> body == lines[2..]
    ensures |lines| < 2 ==> body == []
  {
    if |lines| >= 2 then lines[2..] else []
  }

  /** Each line split into its whitespace-separated tokens. */
  function Rows(lines: seq<String>): (rows: seq<seq<String>>)
    ensures |rows| == |lines| && forall k :: 0 <= k < |lines| ==> rows[k] == SplitWhitespace(lines[k])
  {
    seq(|lines|, k requires 0 <= k < |lines| => SplitWhitespace(lines[k]))
  }

  /** The length of the leading run of non-whitespace characters. */
  function TokenLength(s: String): (n: nat)
    ensures n <= |s|
    ensures forall k :: 0 <= k < n ==> !IsWhitespace(s[k])
    ensures n < |s| ==> IsWhitespace(s[n])
  {
    if s == [] || IsWhitespace(s[0]) then 0 else 1 + TokenLength(s[1..])
  }

  /** `str::split_whitespace`: the maximal non-empty runs of non-whitespace characters. */
  function SplitWhitespace(s: String): (r: seq<String>)
    ensures forall k :: 0 <= k < |r| ==> r[k] != [] && forall j :: 0 <= j < |r[k]| ==> !IsWhitespace(r[k][j])
    decreases |s|
  {
    if s == [] then []
    else if IsWhitespace(s[0]) then SplitWhitespace(s[1..])
    else var n := TokenLength(s); [s[..n]] + SplitWhitespace(s[n..])
  }

  /** Leading whitespace produces no token. */
  lemma {:induction false} SplitWhitespaceSkip(pad: String, s: String)
    requires AllWhitespace(pad)
    ensures SplitWhitespace(pad + s) == SplitWhitespace(s)
    decreases |pad|
  {
    if pad != [] {
      assert (pad + s)[1..] == pad[1..] + s;
      SplitWhitespaceSkip(pad[1..], s);
    } else {
      assert pad + s == s;
    }
  }

  lemma {:induction false} TokenLengthOfToken(t: String, s: String)
    requires IsToken(t) && (s == [] || IsWhitespace(s[0]))
    ensures TokenLength(t + s) == |t|
    decreases |t|
  {
    if |t| > 1 {
      assert (t + s)[1..] == t[1..] + s;
      TokenLengthOfToken(t[1..], s);
    } else {
      assert (t + s)[1..] == s;
    }
  }

  /** A token followed by whitespace or the end is the next token. */
  lemma SplitWhitespaceToken(t: String, s: String)
    requires IsToken(t) && (s == [] || IsWhitespace(s[0]))
    ensures SplitWhitespace(t + s) == [t] + SplitWhitespace(s)
  {
    TokenLengthOfToken(t, s);
    assert (t + s)[..|t|] == t && (t + s)[|t|..] == s;
  }

  /** Tokens joined by single spaces. */
  function Unwords(ts: seq<String>): String {
    if ts == [] then []
    else if |ts| == 1 then ts[0]
    else ts[0] + " " + Unwords(ts[1..])
  }

  /** `split_whitespace` undoes joining tokens with single spaces. */
  lemma {:induction false} SplitUnwords(ts: seq<String>)
    requires forall k :: 0 <= k < |ts| ==> IsToken(ts[k])
    ensures SplitWhitespace(Unwords(ts)) == ts
    decreases |ts|
  {
    if |ts| == 1 {
      SplitWhitespaceToken(ts[0], []);
      assert ts[0] + [] == ts[0];
    } else if |ts| > 1 {
      var rest := " " + Unwords(ts[1..]);
      assert Unwords(ts) == ts[0] + rest;
      SplitWhitespaceToken(ts[0], rest);
      SplitWhitespaceSkip(" ", Unwords(ts[1..]));
      SplitUnwords(ts[1..]);
    }
  }

  function LastChar(s: String): char
    requires s != []
  {
    s[|s| - 1]
  }

  predicate EndsWithChar(s: String, c: char) {
    s != [] && s[|s| - 1] == c
  }

  /** Tokens joined by spaces end in the last token's last character. */
  lemma {:induction false} UnwordsEnd(ts: seq<String>)
    requires ts != [] && forall k :: 0 <= k < |ts| ==> IsToken(ts[k])
    ensures ts[|ts| - 1] != [] && EndsWithChar(Unwords(ts), LastChar(ts[|ts| - 1]))
    decreases |ts|
  {
    if |ts| > 1 {
      UnwordsEnd(ts[1..]);
      assert ts[1..][|ts[1..]| - 1] == ts[|ts| - 1];
      var u := Unwords(ts[1..]);
      assert Unwords(ts) == ts[0] + " " + u;
    }
  }

  /** Text that ends in a non-whitespace character is its own `trim_end`. */
  lemma TrimEndKeeps(s: String)
    requires s != [] && !IsWhitespace(s[|s| - 1])
    ensures TrimEnd(s) == s
  {
  }

  function TrimStart(s: String): (r: String)
    ensures r != [] ==> !IsWhitespace(r[0])
    ensures forall k :: 0 <= k < |s| - |r| ==> IsWhitespace(s[k])
    ensures |r| <= |s| && r == s[|s| - |r|..]
  {
    if s != [] && IsWhitespace(s[0]) then TrimStart(s[1..]) else s
  }

  function TrimEnd(s: String): (r: String)
    ensures r != [] ==> !IsWhitespace(r[|r| - 1])
    ensures |r| <= |s| && r == s[..|r|]
    ensures forall k :: |r| <= k < |s| ==> IsWhitespace(s[k])
  {
    if s != [] && IsWhitespace(s[|s| - 1]) then TrimEnd(s[..|s| - 1]) else s
  }

  /** `str::trim`. */
  function Trim(s: String): (r: String)
    ensures r != [] ==> !IsWhitespace(r[0]) && !IsWhitespace(r[|r| - 1])
    ensures |r| <= |s|
  {
    TrimEnd(TrimStart(s))
  }

  /** `str::trim_start_matches(c)`. */
  function TrimStartMatches(s: String, c: char): (r: String)
    ensures r != [] ==> r[0] != c
    ensures |r| <= |s| && r == s[|s| - |r|..]
  {
    if s != [] && s[0] == c then TrimStartMatches(s[1..], c) else s
  }

  /** `str::trim_matches(c)`: strip every leading and trailing `c`. */
  function TrimMatches(s: String, c: char): (r: String)
    ensures r != [] ==> r[0] != c && r[|r| - 1] != c
  {
    var t := TrimStartMatches(s, c);
    TrimEndMatches(t, c)
  }

  function TrimEndMatches(s: String, c: char): (r: String)
    ensures r != [] ==> r[|r| - 1] != c
    ensures |r| <= |s| && r == s[..|r|]
  {
    if s != [] && s[|s| - 1] == c then TrimEndMatches(s[..|s| - 1], c) else s
  }

  /** `str::splitn(n, c)`: at most `n` parts, the last one holding the rest of the text. */
  function SplitN(s: String, n: nat, c: char): (r: seq<String>)
    requires n >= 1
    ensures 1 <= |r| <= n
    ensures forall k :: 0 <= k < |r| - 1 ==> c !in r[k]
    decreases n
  {
    if n == 1 then [s]
    else match IndexOf(s, c)
      case None => [s]
      case Some(i) => [s[..i]] + SplitN(s[i + 1..], n - 1, c)
  }

  predicate IsDigit(c: char) {
    '0' <= c <= '9'
  }

  predicate AllDigits(s: String) {
    forall k :: 0 <= k < |s| ==> IsDigit(s[k])
  }

  /** The value of a string of decimal digits. */
  function DigitsValue(s: String): nat
    requires AllDigits(s)
  {
    if s == [] then 0 else DigitsValue(s[..|s| - 1]) * 10 + (s[|s| - 1] as int - '0' as int)
  }

  /** `str::parse::<u64>`: an optional `+`, then at least one ASCII digit, and no overflow. */
  function ParseU64(s: String): (r: Option<nat>)
    ensures r.Some? ==> r.value < U64_LIMIT
    ensures r.Some? ==> s != [] && (AllDigits(s) || (s[0] == '+' && |s| > 1 && AllDigits(s[1..])))
  {
    var digits := if s != [] && s[0] == '+' then s[1..] else s;
    if digits != [] && AllDigits(digits) && DigitsValue(digits) < U64_LIMIT then Some(DigitsValue(digits)) else None
  }

  /** A non-empty run of digits is a token and has no space in it. */
  lemma DigitsAreToken(digits: String)
    requires digits != [] && AllDigits(digits)
    ensures IsToken(digits) && ' ' !in digits
  {
    assert forall k :: 0 <= k < |digits| ==> IsDigit(digits[k]);
  }

  /** A string of digits parses to its value when that fits in a u64. */
  lemma ParseU64Digits(s: String)
    requires s != [] && AllDigits(s) && DigitsValue(s) < U64_LIMIT
    ensures ParseU64(s) == Some(DigitsValue(s))
  {
    assert IsDigit(s[0]);
  }

  /** The decimal digit for 0..9. */
  function DigitChar(d: nat): (c: char)
    requires d < 10
    ensures IsDigit(c) && c as int - '0' as int == d
  {
    ['0', '1', '2', '3', '4', '5', '6', '7', '8', '9'][d]
  }

  /** `u64`'s `Display`: the decimal digits of `n`, without leading zeros. */
  function NatToString(n: nat): (s: String)
    ensures s != [] && AllDigits(s)
    ensures |s| > 1 ==> s[0] != '0'
  {
    if n < 10 then [DigitChar(n)]
    else
      var p := NatToString(n / 10);
      assert (p + [DigitChar(n % 10)])[0] == p[0];
      p + [DigitChar(n % 10)]
  }

  /** Formatting then reading digits is the identity. */
  lemma {:induction false} NatToStringValue(n: nat)
    ensures DigitsValue(NatToString(n)) == n
  {
    if n >= 10 {
      var s := NatToString(n);
      assert s[..|s| - 1] == NatToString(n / 10);
      NatToStringValue(n / 10);
    }
  }

  /** `n.to_string().parse::<u64>()` gives back `n` for every u64. */
  lemma ParseU64OfNatToString(n: nat)
    requires n < U64_LIMIT
    ensures ParseU64(NatToString(n)) == Some(n)
  {
    NatToStringValue(n);
    ParseU64Digits(NatToString(n));
  }

  /** `iter.nth(k).and_then(|v| v.parse().ok()).unwrap_or(0)` over a token list. */
  function ParsedOrZero(tokens: seq<String>, k: nat): (v: nat)
    ensures v < U64_LIMIT
    ensures k >= |tokens| ==> v == 0
    ensures k < |tokens| && ParseU64(tokens[k]).None? ==> v == 0
    ensures k < |tokens| && ParseU64(tokens[k]).Some? ==> v == ParseU64(tokens[k]).value
  {
    if k < |tokens| then ParseU64(tokens[k]).GetOr(0) else 0
  }

  function Pow10(n: nat): (p: nat)
    ensures p >= 1
  {
    if n == 0 then 1 else 10 * Pow10(n - 1)
  }

  /** A decimal stand-in for `str::parse::<f64>`: an optional sign, then digits with at most
      one `.` and at least one digit; the value is exact. */
  function ParseF64(s: String): (r: Option<real>)
    ensures r.Some? ==> s != []
  {
    var negative := s != [] && s[0] == '-';
    var body := if s != [] && (s[0] == '-' || s[0] == '+') then s[1..] else s;
    match SplitOnce(body, '.')
    case None =>
      if body != [] && AllDigits(body) then Some(Signed(negative, DigitsValue(body) as real)) else None
    case Some((whole, frac)) =>
      if whole + frac != [] && AllDigits(whole) && AllDigits(frac)
      then Some(Signed(negative, DigitsValue(whole) as real + DigitsValue(frac) as real / Pow10(|frac|) as real))
      else None
  }

  function Signed(negative: bool, x: real): real {
    if negative then -x else x
  }
}
