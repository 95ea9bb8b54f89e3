/**
 * The JavaScript string operations the relay relies on, as functions on
 * `string` (a sequence of characters): `Array.prototype.join`, a global
 * `String.prototype.replace` with a pattern that has no special characters,
 * and the whitespace trim written as `.replace(/^\s+|\s+$/g, '')`.
 * `Count` is the reference notion of "occurrence" that the replacement is
 * proved against.
 */
module JsStrings {

  /** `xs.join(sep)`: the elements in order, `sep` between neighbours. */
  function Join(xs: seq<string>, sep: string): string
  {
    if |xs| == 0 then ""
    else if |xs| == 1 then xs[0]
    else xs[0] + sep + Join(xs[1..], sep)
  }

  /** The elements laid end to end, as `Join(xs, "")` does. */
  function Concat(xs: seq<string>): string
  {
    if |xs| == 0 then "" else xs[0] + Concat(xs[1..])
  }

  /** Appending an element to a non-empty array adds one separator and that element. */
  lemma {:induction false} JoinSnoc(xs: seq<string>, x: string, sep: string)
    requires |xs| > 0
    ensures Join(xs + [x], sep) == Join(xs, sep) + sep + x
  {
    if |xs| == 1 {
      assert xs + [x] == [xs[0], x];
      assert [xs[0], x][1..] == [x];
    } else {
      assert (xs + [x])[1..] == xs[1..] + [x];
      JoinSnoc(xs[1..], x, sep);
    }
  }

  /** A character that occurs in no element does not occur in their concatenation. */
  lemma {:induction false} ConcatNoChar(xs: seq<string>, c: char)
    requires forall i | 0 <= i < |xs| :: c !in xs[i]
    ensures c !in Concat(xs)
  {
    if |xs| > 0 {
      ConcatNoChar(xs[1..], c);
      assert c !in xs[0];
    }
  }

  /**
   * `s.replace(new RegExp(p, 'g'), r)` where `p` holds no regular-expression
   * syntax and `r` no `$` pattern: the string is scanned from the left, and
   * each occurrence of `p` found is replaced by `r`, the scan resuming just
   * after it (occurrences do not overlap).
   */
  function ReplaceAll(s: string, p: string, r: string): string
    requires |p| > 0
    decreases |s|
  {
    if p <= s then r + ReplaceAll(s[|p|..], p, r)
    else if |s| == 0 then ""
    else [s[0]] + ReplaceAll(s[1..], p, r)
  }

  /** The number of positions at which `p` occurs in `s`. */
  function Count(s: string, p: string): nat
    requires |p| > 0
    decreases |s|
  {
    if |s| == 0 then 0
    else (if p <= s then 1 else 0) + Count(s[1..], p)
  }

  /** A string in which the pattern does not occur is returned unchanged. */
  lemma {:induction false} ReplaceAllAbsent(s: string, p: string, r: string)
    requires |p| > 0
    requires Count(s, p) == 0
    ensures ReplaceAll(s, p, r) == s
    decreases |s|
  {
    if |s| > 0 {
      ReplaceAllAbsent(s[1..], p, r);
      assert s == [s[0]] + s[1..];
    }
  }

  /**
   * A prefix with no `{` is copied as it is when the pattern starts with `{`:
   * no occurrence can begin inside it.
   */
  lemma {:induction false} ReplaceAllSkip(a: string, b: string, p: string, r: string)
    requires |p| > 0 && p[0] == '{'
    requires '{' !in a
    ensures ReplaceAll(a + b, p, r) == a + ReplaceAll(b, p, r)
    decreases |a|
  {
    if |a| > 0 {
      assert (a + b)[0] == a[0];
      assert (a + b)[1..] == a[1..] + b;
      ReplaceAllSkip(a[1..], b, p, r);
      assert a == [a[0]] + a[1..];
    } else {
      assert a + b == b;
    }
  }

  /** The counting counterpart of `ReplaceAllSkip`. */
  lemma {:induction false} CountSkip(a: string, b: string, p: string)
    requires |p| > 0 && p[0] == '{'
    requires '{' !in a
    ensures Count(a + b, p) == Count(b, p)
    decreases |a|
  {
    if |a| > 0 {
      assert (a + b)[0] == a[0];
      assert (a + b)[1..] == a[1..] + b;
      CountSkip(a[1..], b, p);
    } else {
      assert a + b == b;
    }
  }

  /** JavaScript's `\s`: the WhiteSpace and LineTerminator characters of ECMAScript. */
  predicate IsJsSpace(c: char)
  {
    || c == '\t' || c == '\n' || c == '\U{000B}' || c == '\U{000C}' || c == '\r'
    || c == ' ' || c == '\U{00A0}' || c == '\U{1680}'
    || ('\U{2000}' <= c <= '\U{200A}')
    || c == '\U{2028}' || c == '\U{2029}' || c == '\U{202F}' || c == '\U{205F}'
    || c == '\U{3000}' || c == '\U{FEFF}'
  }

  /** The length of the leading run of whitespace: what `^\s+` matches. */
  function LeadingSpaces(s: string): (n: nat)
    ensures n <= |s|
    ensures forall i | 0 <= i < n :: IsJsSpace(s[i])
    ensures n == |s| || !IsJsSpace(s[n])
  {
    if |s| > 0 && IsJsSpace(s[0]) then 1 + LeadingSpaces(s[1..]) else 0
  }

  /** The length of the trailing run of whitespace: what `\s+$` matches. */
  function TrailingSpaces(s: string): (n: nat)
    ensures n <= |s|
    ensures forall i | |s| - n <= i < |s| :: IsJsSpace(s[i])
    ensures n == |s| || !IsJsSpace(s[|s| - 1 - n])
  {
    if |s| > 0 && IsJsSpace(s[|s| - 1]) then 1 + TrailingSpaces(s[..|s| - 1]) else 0
  }

  /**
   * `s.replace(/^\s+|\s+$/g, '')`: the leading run is removed, then the
   * trailing run of what is left (when `s` is all whitespace the first
   * alternative consumes all of it and nothing is left for the second).
   */
  function Trim(s: string): string
  {
    var t := s[LeadingSpaces(s)..];
    t[..|t| - TrailingSpaces(t)]
  }

  /**
   * What trimming means: the result is the part of `s` between a run of
   * whitespace on each side, and it neither begins nor ends with whitespace.
   */
  lemma TrimCharacterization(s: string)
    ensures Trim(s) == [] || (!IsJsSpace(Trim(s)[0]) && !IsJsSpace(Trim(s)[|Trim(s)| - 1]))
    ensures exists i, j :: 0 <= i <= j <= |s| && s[i..j] == Trim(s)
                           && (forall k | 0 <= k < i :: IsJsSpace(s[k]))
                           && (forall k | j <= k < |s| :: IsJsSpace(s[k]))
  {
    var i := LeadingSpaces(s);
    var t := s[i..];
    var j := i + |t| - TrailingSpaces(t);
    assert Trim(s) == s[i..j];
    forall k | j <= k < |s|
      ensures IsJsSpace(s[k])
    {
      assert s[k] == t[k - i];
    }
  }

  /** Trimming twice is trimming once. */
  lemma TrimIdempotent(s: string)
    ensures Trim(Trim(s)) == Trim(s)
  {
    TrimCharacterization(s);
    var r := Trim(s);
    assert LeadingSpaces(r) == 0;
    assert TrailingSpaces(r) == 0;
  }
}
