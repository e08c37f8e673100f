/** The few JavaScript string and array built-ins the blog's code relies on:
    `String.prototype.trim`, `split(',')[0]`, `includes` and `slice`. Strings
    are sequences of characters; JavaScript counts UTF-16 code units instead. */
module JsText {
  import opened Wrappers

  /** The characters `trim` removes: WhiteSpace and LineTerminator of the
      ECMAScript grammar (TAB, VT, FF, ZWNBSP, every Zs space, LF, CR, LS, PS). */
  predicate IsWhiteSpace(c: char) {
    c == '\t' || c == '\n' || c == '\U{000B}' || c == '\U{000C}' || c == '\r'
    || c == ' ' || c == '\U{00A0}' || c == '\U{1680}'
    || ('\U{2000}' <= c <= '\U{200A}')
    || c == '\U{2028}' || c == '\U{2029}' || c == '\U{202F}' || c == '\U{205F}'
    || c == '\U{3000}' || c == '\U{FEFF}'
  }

  /** Number of white-space characters at the start of `s`. */
  function LeadingSpace(s: string): (n: nat)
    ensures n <= |s|
    ensures forall i :: 0 <= i < n ==> IsWhiteSpace(s[i])
    ensures n < |s| ==> !IsWhiteSpace(s[n])
  {
    if s == [] || !IsWhiteSpace(s[0]) then 0 else 1 + LeadingSpace(s[1..])
  }

  /** Number of white-space characters at the end of `s`. */
  function TrailingSpace(s: string): (n: nat)
    ensures n <= |s|
    ensures forall i :: |s| - n <= i < |s| ==> IsWhiteSpace(s[i])
    ensures n < |s| ==> !IsWhiteSpace(s[|s| - 1 - n])
  {
    if s == [] || !IsWhiteSpace(s[|s| - 1]) then 0 else 1 + TrailingSpace(s[..|s| - 1])
  }

  /** Only white space lies outside `s[a..b]`, and that slice neither starts
      nor ends with white space. */
  ghost predicate Unpadded(s: string, a: int, b: int)
    requires 0 <= a <= b <= |s|
  {
    && (forall i :: 0 <= i < a ==> IsWhiteSpace(s[i]))
    && (forall i :: b <= i < |s| ==> IsWhiteSpace(s[i]))
    && (a < b ==> !IsWhiteSpace(s[a]) && !IsWhiteSpace(s[b - 1]))
  }

  /** `r` is `s` with the white space around it removed. */
  ghost predicate IsTrimOf(r: string, s: string) {
    exists a, b :: 0 <= a <= b <= |s| && Unpadded(s, a, b) && r == s[a..b]
  }

  /** `String.prototype.trim`. */
  function Trim(s: string): (r: string)
    ensures IsTrimOf(r, s)
    ensures r == [] <==> forall i :: 0 <= i < |s| ==> IsWhiteSpace(s[i])
    ensures forall c :: c in r ==> c in s
  {
    var a := LeadingSpace(s);
    var t := TrailingSpace(s[a..]);
    var b := |s| - t;
    assert a < b ==> s[b - 1] == s[a..][|s| - a - 1 - t];
    assert forall i :: b <= i < |s| ==> s[i] == s[a..][i - a];
    assert Unpadded(s, a, b);
    s[a..b]
  }

  /** Trimming is determined by its specification: whatever `r` satisfies
      `IsTrimOf(r, s)` is `Trim(s)`. */
  lemma TrimUnique(r: string, s: string)
    requires IsTrimOf(r, s)
    ensures r == Trim(s)
  {
    var a, b :| 0 <= a <= b <= |s| && Unpadded(s, a, b) && r == s[a..b];
    var a', b' :| 0 <= a' <= b' <= |s| && Unpadded(s, a', b') && Trim(s) == s[a'..b'];
    if a < b && a' < b' {
      assert a == a' && b == b';
    }
  }

  /** Trimming twice is trimming once. */
  lemma TrimIdempotent(s: string)
    ensures Trim(Trim(s)) == Trim(s)
  {
    var r := Trim(s);
    var a, b :| 0 <= a <= b <= |s| && Unpadded(s, a, b) && r == s[a..b];
    assert Unpadded(r, 0, |r|);
    assert r == r[0..|r|];
    TrimUnique(r, r);
  }

  /** `s.split(',')[0]`: the text before the first comma, or all of `s`. */
  function BeforeFirstComma(s: string): (r: string)
    ensures r <= s
    ensures ',' !in r
    ensures |r| < |s| ==> s[|r|] == ','
  {
    if s == [] || s[0] == ',' then "" else [s[0]] + BeforeFirstComma(s[1..])
  }

  /** `s.includes(part)`. */
  predicate Includes(s: string, part: string) {
    exists i :: 0 <= i <= |s| - |part| && OccursAt(s, part, i)
  }

  predicate OccursAt(s: string, part: string, i: int)
    requires 0 <= i <= |s| - |part|
  {
    s[i..i + |part|] == part
  }

  /** The index `Array.prototype.slice` and `String.prototype.slice` make of
      an argument `k`: negative values count back from the end, and the result
      is clamped to `0..len`. */
  function SliceIndex(len: nat, k: int): (r: nat)
    ensures r <= len
    ensures 0 <= k <= len ==> r == k
    ensures k > len ==> r == len
    ensures k < 0 ==> r == if len + k < 0 then 0 else len + k
  {
    if k < 0 then (if len + k < 0 then 0 else len + k)
    else if k > len then len
    else k
  }

  /** `s.slice(start, end)`. */
  function Slice<T>(s: seq<T>, start: int, end: int): (r: seq<T>)
    ensures |r| <= |s|
    ensures 0 <= start <= end ==>
      r == s[Min(start, |s|)..Min(end, |s|)]
    ensures 0 <= end <= start ==> r == []
  {
    var from := SliceIndex(|s|, start);
    var to := SliceIndex(|s|, end);
    if from < to then s[from..to] else []
  }
}
