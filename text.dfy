/**
 * String helpers standing in for the Python built-ins the source relies on:
 * `str.upper`/`str.lower` (ASCII letters), `str.strip`, `int(str)`
 * (optional sign and ASCII digits) and `str.replace` (left-to-right,
 * non-overlapping).
 */
module Text {
  import opened Wrappers

  predicate IsAsciiDigit(c: char) {
    '0' <= c <= '9'
  }

  predicate AllDigits(s: string) {
    forall i :: 0 <= i < |s| ==> IsAsciiDigit(s[i])
  }

  function UpperChar(c: char): char {
    if 'a' <= c <= 'z' then (c as int - 32) as char else c
  }

  function LowerChar(c: char): char {
    if 'A' <= c <= 'Z' then (c as int + 32) as char else c
  }

  /** `str.upper()` on ASCII letters; other characters are kept. */
  function Upper(s: string): (r: string)
    ensures |r| == |s|
    ensures forall i :: 0 <= i < |s| ==> r[i] == UpperChar(s[i])
  {
    seq(|s|, i requires 0 <= i < |s| => UpperChar(s[i]))
  }

  /** A string with no lower-case ASCII letter is its own upper-case form. */
  lemma UpperFixed(s: string)
    requires forall i :: 0 <= i < |s| ==> !('a' <= s[i] <= 'z')
    ensures Upper(s) == s
  {
    assert forall i :: 0 <= i < |s| ==> Upper(s)[i] == s[i];
  }

  /** Upper-casing twice is upper-casing once. */
  lemma UpperIdempotent(s: string)
    ensures Upper(Upper(s)) == Upper(s)
  {
    UpperFixed(Upper(s));
  }

  /** `str.lower()` on ASCII letters; other characters are kept. */
  function Lower(s: string): (r: string)
    ensures |r| == |s|
    ensures forall i :: 0 <= i < |s| ==> r[i] == LowerChar(s[i])
  {
    seq(|s|, i requires 0 <= i < |s| => LowerChar(s[i]))
  }

  /** The characters for which Python's `str.isspace()` holds. */
  predicate IsSpace(c: char) {
    || '\U{0009}' <= c <= '\U{000D}'
    || '\U{001C}' <= c <= ' '
    || c == '\U{0085}' || c == '\U{00A0}' || c == '\U{1680}'
    || '\U{2000}' <= c <= '\U{200A}'
    || c == '\U{2028}' || c == '\U{2029}' || c == '\U{202F}' || c == '\U{205F}' || c == '\U{3000}'
  }

  function StripLeft(s: string): (r: string)
    ensures |r| <= |s|
    ensures r == s[|s| - |r|..]
    ensures r != [] ==> !IsSpace(r[0])
    ensures forall i :: 0 <= i < |s| - |r| ==> IsSpace(s[i])
  {
    if s != [] && IsSpace(s[0]) then StripLeft(s[1..]) else s
  }

  function StripRight(s: string): (r: string)
    ensures |r| <= |s|
    ensures r == s[..|r|]
    ensures r != [] ==> !IsSpace(r[|r| - 1])
    ensures forall i :: |r| <= i < |s| ==> IsSpace(s[i])
  {
    if s != [] && IsSpace(s[|s| - 1]) then StripRight(s[..|s| - 1]) else s
  }

  /** `str.strip()`: drop leading and trailing whitespace. */
  function Strip(s: string): (r: string)
    ensures r != [] ==> !IsSpace(r[0]) && !IsSpace(r[|r| - 1])
  {
    StripRight(StripLeft(s))
  }

  predicate AllSpace(s: string) {
    forall i :: 0 <= i < |s| ==> IsSpace(s[i])
  }

  /** Leading whitespace before a string that does not start with whitespace is dropped, and only that. */
  lemma {:induction false} StripLeftPadded(pre: string, t: string)
    requires AllSpace(pre) && (t == [] || !IsSpace(t[0]))
    ensures StripLeft(pre + t) == t
    decreases |pre|
  {
    if pre != [] {
      assert (pre + t)[1..] == pre[1..] + t;
      StripLeftPadded(pre[1..], t);
    } else {
      assert pre + t == t;
    }
  }

  /** Trailing whitespace after a string that does not end with whitespace is dropped, and only that. */
  lemma {:induction false} StripRightPadded(t: string, post: string)
    requires AllSpace(post) && (t == [] || !IsSpace(t[|t| - 1]))
    ensures StripRight(t + post) == t
    decreases |post|
  {
    if post != [] {
      assert (t + post)[..|t + post| - 1] == t + post[..|post| - 1];
      StripRightPadded(t, post[..|post| - 1]);
    } else {
      assert t + post == t;
    }
  }

  /** Stripping a string padded with whitespace on both sides gives back the string, when it has no whitespace at its ends. */
  lemma StripPadded(pre: string, s: string, post: string)
    requires AllSpace(pre) && AllSpace(post)
    requires s == [] || (!IsSpace(s[0]) && !IsSpace(s[|s| - 1]))
    ensures Strip(pre + s + post) == s
  {
    if s == [] {
      assert pre + s + post == pre + post;
    } else {
      assert pre + s + post == pre + (s + post);
      StripLeftPadded(pre, s + post);
      StripRightPadded(s, post);
    }
  }

  /** `strip` is idempotent. */
  lemma StripIdempotent(s: string)
    ensures Strip(Strip(s)) == Strip(s)
  {
    var r := Strip(s);
    assert StripLeft(r) == r;
    assert StripRight(r) == r;
  }

  /** Value of a non-empty run of ASCII digits, most significant first. */
  function DigitsValue(s: string): (n: nat)
    requires AllDigits(s)
  {
    if s == [] then 0 else DigitsValue(s[..|s| - 1]) * 10 + (s[|s| - 1] as int - '0' as int)
  }

  /** `int(s)` for a string: surrounding whitespace, an optional sign, then ASCII digits. */
  function ParseInt(s: string): (r: Option<int>)
    ensures r.Some? ==> Strip(s) != []
  {
    var t := Strip(s);
    if t == [] then None else SignedInt(t)
  }

  /** An optional sign, then ASCII digits. */
  function SignedInt(t: string): Option<int>
    requires t != []
  {
    var sign := if t[0] == '-' then -1 else 1;
    var body := if t[0] == '-' || t[0] == '+' then t[1..] else t;
    if body != [] && AllDigits(body) then Some(sign * DigitsValue(body)) else None
  }

  function Pow10(n: nat): (r: nat)
    ensures r >= 1
  {
    if n == 0 then 1 else 10 * Pow10(n - 1)
  }

  /** Index of the first `c` in `s`, or `|s|` when there is none. */
  function IndexOf(s: string, c: char): (k: nat)
    ensures k <= |s|
    ensures k < |s| ==> s[k] == c
    ensures forall i :: 0 <= i < k ==> s[i] != c
  {
    if s == [] then 0 else if s[0] == c then 0 else 1 + IndexOf(s[1..], c)
  }

  /** An unsigned decimal numeral: digits with at most one decimal point and at least one digit. */
  function UnsignedDecimal(body: string): Option<real> {
    var k := IndexOf(body, '.');
    var whole := body[..k];
    var frac := if k < |body| then body[k + 1..] else [];
    if |whole| + |frac| > 0 && AllDigits(whole) && AllDigits(frac) then
      Some(DigitsValue(whole) as real + DigitsValue(frac) as real / Pow10(|frac|) as real)
    else None
  }

  /**
   * `Decimal(s)` for plain decimal numerals: surrounding whitespace, an
   * optional sign, then an unsigned decimal numeral.
   */
  function ParseDecimal(s: string): (r: Option<real>)
    ensures r.Some? ==> Strip(s) != []
  {
    var t := Strip(s);
    if t == [] then None else SignedDecimal(t)
  }

  /** An optional sign, then an unsigned decimal numeral. */
  function SignedDecimal(t: string): Option<real>
    requires t != []
  {
    var sign := if t[0] == '-' then -1.0 else 1.0;
    var body := if t[0] == '-' || t[0] == '+' then t[1..] else t;
    match UnsignedDecimal(body)
    case Some(x) => Some(sign * x)
    case None => None
  }

  /** Digits without a decimal point read as their integer value. */
  lemma UnsignedDecimalOfDigits(body: string)
    requires body != [] && AllDigits(body)
    ensures UnsignedDecimal(body) == Some(DigitsValue(body) as real)
  {
    assert IndexOf(body, '.') == |body|;
    assert body[..|body|] == body;
  }

  /** A signed integer numeral reads the same as a decimal. */
  lemma SignedDecimalOfInteger(t: string)
    requires t != [] && SignedInt(t).Some?
    ensures SignedDecimal(t) == Some(SignedInt(t).value as real)
  {
    var body := if t[0] == '-' || t[0] == '+' then t[1..] else t;
    UnsignedDecimalOfDigits(body);
    var n: int := DigitsValue(body);
    if t[0] == '-' {
      assert (-1 * n) as real == -1.0 * (n as real);
    }
  }

  /** A numeral without a decimal point reads the same as an integer and as a decimal. */
  lemma ParseDecimalOfInteger(s: string)
    requires ParseInt(s).Some?
    ensures ParseDecimal(s) == Some(ParseInt(s).value as real)
  {
    SignedDecimalOfInteger(Strip(s));
  }

  /** Python slicing `s[i:j]` for non-negative bounds: both bounds are clamped to the length. */
  function Slice(s: string, i: nat, j: nat): (r: string)
    ensures |r| <= j - i || (i > j && r == [])
  {
    var hi := if j < |s| then j else |s|;
    var lo := if i < hi then i else hi;
    s[lo..hi]
  }

  /** `s.replace(pat, rep)`: every non-overlapping occurrence, scanning left to right. */
  function Replace(s: string, pat: string, rep: string): (r: string)
    requires pat != []
    ensures rep == pat ==> r == s
    ensures |rep| == |pat| ==> |r| == |s|
    decreases |s|
  {
    assert |s| >= |pat| ==> s == s[..|pat|] + s[|pat|..];
    if |s| >= |pat| && s[..|pat|] == pat then rep + Replace(s[|pat|..], pat, rep)
    else if s == [] then []
    else [s[0]] + Replace(s[1..], pat, rep)
  }

  /** Replacing a single character works one character at a time. */
  lemma ReplaceCons(x: char, rest: string, c: char, rep: string)
    ensures Replace([x] + rest, [c], rep) == (if x == c then rep else [x]) + Replace(rest, [c], rep)
  {
    var s := [x] + rest;
    assert s[..1] == [x] && s[1..] == rest;
  }

  /** No character of `s` is one of `cs`. */
  predicate Free(s: string, cs: seq<char>) {
    forall i :: 0 <= i < |s| ==> s[i] !in cs
  }

  /** `s` with every character of `cs` dropped, the others kept in order. */
  function WithoutChars(s: string, cs: seq<char>): (r: string)
    ensures |r| <= |s|
  {
    if s == [] then [] else (if s[0] in cs then [] else [s[0]]) + WithoutChars(s[1..], cs)
  }

  /** `s` with every `c` turned into `d`, position by position. */
  function MapChar(s: string, c: char, d: char): (r: string)
    ensures |r| == |s|
    ensures forall i :: 0 <= i < |s| ==> r[i] == (if s[i] == c then d else s[i])
  {
    if s == [] then [] else [if s[0] == c then d else s[0]] + MapChar(s[1..], c, d)
  }

  /** Line endings made LF: a CR LF pair becomes one LF, and so does a CR on its own. */
  function ToLf(s: string): string {
    if s == [] then []
    else if |s| >= 2 && s[0] == '\r' && s[1] == '\n' then "\n" + ToLf(s[2..])
    else if s[0] == '\r' then "\n" + ToLf(s[1..])
    else [s[0]] + ToLf(s[1..])
  }

  /** Dropping one more character by `replace(c, '')` extends the set of dropped characters. */
  lemma {:induction false} ReplaceDropsChar(s: string, cs: seq<char>, c: char)
    ensures Replace(WithoutChars(s, cs), [c], []) == WithoutChars(s, cs + [c])
    decreases |s|
  {
    if s != [] {
      ReplaceDropsChar(s[1..], cs, c);
      var rest := WithoutChars(s[1..], cs);
      assert s[0] in cs + [c] <==> s[0] in cs || s[0] == c;
      if s[0] in cs {
        assert WithoutChars(s, cs) == [] + rest == rest;
      } else {
        assert WithoutChars(s, cs) == [s[0]] + rest;
        ReplaceCons(s[0], rest, c, []);
      }
    }
  }

  /** Nothing to drop leaves the string as it is. */
  lemma {:induction false} WithoutAbsent(s: string, cs: seq<char>)
    requires Free(s, cs)
    ensures WithoutChars(s, cs) == s
    decreases |s|
  {
    if s != [] {
      WithoutAbsent(s[1..], cs);
      assert [s[0]] + s[1..] == s;
    }
  }

  /** `replace(c, '')`, one character after another. */
  function ReplaceEach(s: string, cs: seq<char>): string {
    if cs == [] then s else Replace(ReplaceEach(s, cs[..|cs| - 1]), [cs[|cs| - 1]], [])
  }

  /** Removing each character in turn drops exactly those characters. */
  lemma {:induction false} ReplaceEachIsWithout(s: string, cs: seq<char>)
    ensures ReplaceEach(s, cs) == WithoutChars(s, cs)
  {
    if cs == [] {
      WithoutAbsent(s, cs);
    } else {
      var front := cs[..|cs| - 1];
      ReplaceEachIsWithout(s, front);
      ReplaceDropsChar(s, front, cs[|cs| - 1]);
      assert front + [cs[|cs| - 1]] == cs;
    }
  }

  /** `replace(c, d)` for single characters is `MapChar`. */
  lemma {:induction false} ReplaceIsMapChar(s: string, c: char, d: char)
    ensures Replace(s, [c], [d]) == MapChar(s, c, d)
    decreases |s|
  {
    if s != [] {
      ReplaceIsMapChar(s[1..], c, d);
      ReplaceCons(s[0], s[1..], c, [d]);
      assert [s[0]] + s[1..] == s;
    }
  }

  /** `replace('\r\n', '\n')` followed by `replace('\r', '\n')` is `ToLf`. */
  lemma {:induction false} LineEndingsAreToLf(s: string)
    ensures Replace(Replace(s, "\r\n", "\n"), "\r", "\n") == ToLf(s)
    decreases |s|
  {
    if s == [] {
    } else if |s| >= 2 && s[0] == '\r' && s[1] == '\n' {
      assert s[..2] == "\r\n";
      LineEndingsAreToLf(s[2..]);
      ReplaceCons('\n', Replace(s[2..], "\r\n", "\n"), '\r', "\n");
    } else {
      assert !(|s| >= 2 && s[..2] == "\r\n");
      assert Replace(s, "\r\n", "\n") == [s[0]] + Replace(s[1..], "\r\n", "\n");
      LineEndingsAreToLf(s[1..]);
      ReplaceCons(s[0], Replace(s[1..], "\r\n", "\n"), '\r', "\n");
    }
  }

  /** The dropped characters are gone, and characters already absent stay absent. */
  lemma {:induction false} WithoutFree(s: string, cs: seq<char>, ds: seq<char>)
    requires Free(s, ds)
    ensures Free(WithoutChars(s, cs), cs) && Free(WithoutChars(s, cs), ds)
    decreases |s|
  {
    if s != [] {
      WithoutFree(s[1..], cs, ds);
    }
  }

  /** After `MapChar` no `c` is left (when `d` differs), and no character absent before except `d` appears. */
  lemma MapCharFree(s: string, c: char, d: char, ds: seq<char>)
    requires Free(s, ds) && d !in ds
    ensures Free(MapChar(s, c, d), ds)
    ensures c != d ==> Free(MapChar(s, c, d), [c])
  {
  }

  /** `MapChar` changes nothing where there is no `c`. */
  lemma MapCharAbsent(s: string, c: char, d: char)
    requires Free(s, [c])
    ensures MapChar(s, c, d) == s
  {
    var r := MapChar(s, c, d);
    assert forall i :: 0 <= i < |s| ==> s[i] != c;
  }

  /** After `ToLf` no CR is left, and no character absent before except LF appears. */
  lemma {:induction false} ToLfFree(s: string, ds: seq<char>)
    requires Free(s, ds) && '\n' !in ds
    ensures Free(ToLf(s), ds) && Free(ToLf(s), ['\r'])
    decreases |s|
  {
    if s == [] {
    } else if |s| >= 2 && s[0] == '\r' && s[1] == '\n' {
      ToLfFree(s[2..], ds);
    } else {
      ToLfFree(s[1..], ds);
    }
  }

  /** Text with no CR already has LF line endings. */
  lemma {:induction false} ToLfAbsent(s: string)
    requires Free(s, ['\r'])
    ensures ToLf(s) == s
    decreases |s|
  {
    if s != [] {
      assert s[0] != '\r';
      ToLfAbsent(s[1..]);
      assert [s[0]] + s[1..] == s;
    }
  }

  /** Dropping characters works piece by piece. */
  lemma {:induction false} WithoutConcat(a: string, b: string, cs: seq<char>)
    ensures WithoutChars(a + b, cs) == WithoutChars(a, cs) + WithoutChars(b, cs)
    decreases |a|
  {
    if a == [] {
      assert a + b == b;
    } else {
      assert (a + b)[0] == a[0] && (a + b)[1..] == a[1..] + b;
      WithoutConcat(a[1..], b, cs);
    }
  }

  /** A prefix with no CR passes through `ToLf` untouched. */
  lemma {:induction false} ToLfAfterPlain(a: string, b: string)
    requires Free(a, ['\r'])
    ensures ToLf(a + b) == a + ToLf(b)
    decreases |a|
  {
    if a == [] {
      assert a + b == b;
    } else {
      assert a[0] != '\r';
      assert (a + b)[0] == a[0] && (a + b)[1..] == a[1..] + b;
      ToLfAfterPlain(a[1..], b);
    }
  }

  lemma FreeConcat(a: string, b: string, cs: seq<char>)
    requires Free(a, cs) && Free(b, cs)
    ensures Free(a + b, cs)
  {
  }

  /** A CR LF pair between text with no CR becomes one LF. */
  lemma CrLfBetweenPlain(pre: string, post: string)
    requires Free(pre, ['\r']) && Free(post, ['\r'])
    ensures ToLf(pre + "\r\n" + post) == pre + "\n" + post
  {
    assert pre + "\r\n" + post == pre + ("\r\n" + post);
    ToLfAfterPlain(pre, "\r\n" + post);
    assert ("\r\n" + post)[2..] == post;
    ToLfAbsent(post);
    assert pre + ("\n" + post) == pre + "\n" + post;
  }

  /** A CR not followed by LF, between text with no CR, becomes one LF. */
  lemma LoneCrBetweenPlain(pre: string, post: string)
    requires Free(pre, ['\r']) && Free(post, ['\r']) && (post == [] || post[0] != '\n')
    ensures ToLf(pre + "\r" + post) == pre + "\n" + post
  {
    assert pre + "\r" + post == pre + ("\r" + post);
    ToLfAfterPlain(pre, "\r" + post);
    assert ("\r" + post)[1..] == post;
    ToLfAbsent(post);
    assert pre + ("\n" + post) == pre + "\n" + post;
  }

  /** A dropped character between two pieces that keep everything just goes. */
  lemma DropBetween(x: string, h: char, z: string, cs: seq<char>)
    requires Free(x, cs) && Free(z, cs) && h in cs
    ensures WithoutChars(x + [h] + z, cs) == x + z
  {
    WithoutConcat(x + [h], z, cs);
    WithoutConcat(x, [h], cs);
    WithoutAbsent(x, cs);
    WithoutAbsent(z, cs);
    assert WithoutChars([h], cs) == [];
  }
}
