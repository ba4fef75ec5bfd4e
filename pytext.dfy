/** The Python string operations the core relies on: `str.strip()`,
    `str.lower()`, `str.join()`, substring `in`, and `str()` of an integer. */
module PyText {

  /** Python's `str.isspace()` for one character: the characters whose
      bidirectional class is WS, B or S, or whose category is Zs. */
  predicate IsSpace(c: char) {
    || c == ' ' || c == '\t' || c == '\n' || c == '\r'
    || c == '\U{0B}' || c == '\U{0C}'
    || ('\U{1C}' <= c <= '\U{1F}')
    || c == '\U{85}' || c == '\U{A0}' || c == '\U{1680}'
    || ('\U{2000}' <= c <= '\U{200A}')
    || c == '\U{2028}' || c == '\U{2029}' || c == '\U{202F}' || c == '\U{205F}' || c == '\U{3000}'
  }

  predicate AllSpace(s: string) {
    forall i :: 0 <= i < |s| ==> IsSpace(s[i])
  }

  lemma AllSpaceConcat(a: string, b: string)
    ensures AllSpace(a + b) <==> AllSpace(a) && AllSpace(b)
  {
    if AllSpace(a) && AllSpace(b) {
      forall i | 0 <= i < |a + b| ensures IsSpace((a + b)[i]) {
        if i >= |a| { assert (a + b)[i] == b[i - |a|]; }
      }
    }
    if AllSpace(a + b) {
      forall i | 0 <= i < |a| ensures IsSpace(a[i]) {
        assert (a + b)[i] == a[i];
      }
      forall i | 0 <= i < |b| ensures IsSpace(b[i]) {
        assert (a + b)[|a| + i] == b[i];
      }
    }
  }

  /** `s.strip()`: `s` with its leading and trailing white space removed;
      empty exactly when `s` is all white space, and otherwise starting and
      ending with a character that is not white space. */
  function Strip(s: string): (r: string)
    ensures FramedBySpace(s, r)
    ensures r == [] <==> AllSpace(s)
    ensures r != [] ==> !IsSpace(r[0]) && !IsSpace(r[|r| - 1])
    decreases |s|
  {
    if s != [] && IsSpace(s[0]) then
      var r := Strip(s[1..]);
      FramedAfterSpace(s, r);
      AllSpaceAfterSpace(s);
      r
    else if s != [] && IsSpace(s[|s| - 1]) then
      var r := Strip(s[..|s| - 1]);
      FramedBeforeSpace(s, r);
      AllSpaceBeforeSpace(s);
      r
    else
      assert s == [] + s + [];
      Framed(s, [], s, []);
      s
  }

  /** `s` is `r` with nothing but white space before and after it. */
  ghost predicate FramedBySpace(s: string, r: string) {
    exists pre, post :: s == pre + r + post && AllSpace(pre) && AllSpace(post)
  }

  lemma Framed(s: string, pre: string, r: string, post: string)
    requires s == pre + r + post && AllSpace(pre) && AllSpace(post)
    ensures FramedBySpace(s, r)
  {
  }

  /** One more white-space character in front keeps the frame. */
  lemma FramedAfterSpace(s: string, r: string)
    requires s != [] && IsSpace(s[0]) && FramedBySpace(s[1..], r)
    ensures FramedBySpace(s, r)
  {
    var pre, post :| s[1..] == pre + r + post && AllSpace(pre) && AllSpace(post);
    assert s == ([s[0]] + pre) + r + post;
    AllSpaceConcat([s[0]], pre);
    Framed(s, [s[0]] + pre, r, post);
  }

  /** One more white-space character behind keeps the frame. */
  lemma FramedBeforeSpace(s: string, r: string)
    requires s != [] && IsSpace(s[|s| - 1]) && FramedBySpace(s[..|s| - 1], r)
    ensures FramedBySpace(s, r)
  {
    var pre, post :| s[..|s| - 1] == pre + r + post && AllSpace(pre) && AllSpace(post);
    assert s == pre + r + (post + [s[|s| - 1]]);
    AllSpaceConcat(post, [s[|s| - 1]]);
    Framed(s, pre, r, post + [s[|s| - 1]]);
  }

  lemma AllSpaceAfterSpace(s: string)
    requires s != [] && IsSpace(s[0])
    ensures AllSpace(s) <==> AllSpace(s[1..])
  {
    assert s == [s[0]] + s[1..];
    AllSpaceConcat([s[0]], s[1..]);
  }

  lemma AllSpaceBeforeSpace(s: string)
    requires s != [] && IsSpace(s[|s| - 1])
    ensures AllSpace(s) <==> AllSpace(s[..|s| - 1])
  {
    assert s == s[..|s| - 1] + [s[|s| - 1]];
    AllSpaceConcat(s[..|s| - 1], [s[|s| - 1]]);
  }

  /** `str.lower()` on one character (ASCII letters). */
  function LowerChar(c: char): char {
    if 'A' <= c <= 'Z' then (c as int + 32) as char else c
  }

  /** `s.lower()`, character by character. */
  function Lower(s: string): (r: string)
    ensures |r| == |s|
    ensures forall i :: 0 <= i < |s| ==> r[i] == LowerChar(s[i])
  {
    if s == [] then [] else [LowerChar(s[0])] + Lower(s[1..])
  }

  /** Lowering neither creates nor removes white space. */
  lemma LowerKeepsSpace(s: string)
    ensures AllSpace(Lower(s)) <==> AllSpace(s)
  {
    var l := Lower(s);
    forall i | 0 <= i < |s| ensures IsSpace(l[i]) <==> IsSpace(s[i]) {
      assert l[i] == LowerChar(s[i]);
    }
  }

  /** `sep.join(parts)`. */
  function Join(sep: string, parts: seq<string>): string {
    if parts == [] then ""
    else if |parts| == 1 then parts[0]
    else parts[0] + sep + Join(sep, parts[1..])
  }

  /** Joining one more part appends the separator and that part. */
  lemma {:induction false} JoinSnoc(sep: string, parts: seq<string>, p: string)
    ensures Join(sep, parts + [p]) == if parts == [] then p else Join(sep, parts) + sep + p
  {
    if |parts| == 1 {
      assert parts + [p] == [parts[0], p];
    } else if |parts| > 1 {
      assert (parts + [p])[1..] == parts[1..] + [p];
      JoinSnoc(sep, parts[1..], p);
    }
  }

  /** The joined text holds every part, with one separator between two parts. */
  lemma {:induction false} JoinLength(sep: string, parts: seq<string>)
    ensures |Join(sep, parts)| == SumLengths(parts) + (if parts == [] then 0 else (|parts| - 1) * |sep|)
  {
    if |parts| > 1 {
      JoinLength(sep, parts[1..]);
    }
  }

  function SumLengths(parts: seq<string>): nat {
    if parts == [] then 0 else |parts[0]| + SumLengths(parts[1..])
  }

  /** Python's `needle in hay` for strings. */
  predicate Contains(hay: string, needle: string) {
    needle <= hay || (hay != [] && Contains(hay[1..], needle))
  }

  /** `str(n)` for an integer: its decimal digits, with a leading minus sign
      when negative. */
  function Decimal(n: int): (r: string)
    ensures r != []
  {
    if n < 0 then "-" + Digits(-n) else Digits(n)
  }

  function Digits(n: nat): (r: string)
    ensures r != [] && forall i :: 0 <= i < |r| ==> '0' <= r[i] <= '9'
  {
    if n < 10 then [DigitChar(n)] else Digits(n / 10) + [DigitChar(n % 10)]
  }

  function DigitChar(d: nat): (c: char)
    requires d < 10
    ensures '0' <= c <= '9'
  {
    ('0' as int + d) as char
  }
}
