/**
 * The JavaScript string operations the request handlers use, with the
 * semantics of String.prototype for the arguments they are given there:
 * indexOf of one character, substring with clamped (and possibly swapped)
 * bounds, split on one character, and the UTF-8 byte length that
 * Buffer.from(s, 'utf8') produces.
 */
module JsString {

  import opened Types

  /** `s.indexOf(c)`: the index of the first occurrence of `c`, or -1 when there is none. */
  function IndexOf(s: string, c: char): (r: int)
    ensures -1 <= r < |s|
    ensures r == -1 <==> c !in s
    ensures 0 <= r ==> s[r] == c && c !in s[..r]
  {
    if s == [] then -1
    else if s[0] == c then 0
    else
      var k := IndexOf(s[1..], c);
      if k == -1 then -1
      else
        assert s[..k + 1] == [s[0]] + s[1..][..k];
        k + 1
  }

  /** The first occurrence of `c` in `a + [c] + b` is the one just after `a` when `a` has none. */
  lemma IndexOfFirst(a: string, c: char, b: string)
    requires c !in a
    ensures IndexOf(a + [c] + b, c) == |a|
  {
    var s := a + [c] + b;
    assert s[|a|] == c;
    assert forall i :: 0 <= i < |a| ==> s[i] == a[i];
  }

  /** `s.indexOf(c) == 0` holds exactly when `s` begins with `c`. */
  lemma IndexOfZero(s: string, c: char)
    ensures IndexOf(s, c) == 0 <==> |s| > 0 && s[0] == c
  {
  }

  /** JavaScript's treatment of a substring bound: below 0 reads as 0, above the length as the length. */
  function Clamp(i: int, len: nat): (r: nat)
    ensures r <= len
  {
    if i < 0 then 0 else if i > len then len else i
  }

  /**
   * `s.substring(start, end)`: both bounds are clamped into the string and,
   * when the first ends up after the second, they are swapped.
   */
  function Substring(s: string, start: int, end: int): (r: string)
    ensures |r| <= |s|
    ensures 0 <= start <= end <= |s| ==> r == s[start..end]
    ensures 0 <= end <= start <= |s| ==> r == s[end..start]
    ensures start <= 0 && end <= 0 ==> r == ""
  {
    var a := Clamp(start, |s|);
    var b := Clamp(end, |s|);
    if a <= b then s[a..b] else s[b..a]
  }

  /**
   * `s.split(sep)` for a one-character separator: the pieces between the
   * occurrences of `sep`, empty pieces included; a string without `sep`
   * (the empty string too) splits into itself alone.
   */
  function Split(s: string, sep: char): (parts: seq<string>)
    ensures |parts| >= 1
    ensures forall i :: 0 <= i < |parts| ==> sep !in parts[i]
    ensures |parts| == 1 <==> sep !in s
    decreases |s|
  {
    var k := IndexOf(s, sep);
    if k == -1 then [s] else [s[..k]] + Split(s[k + 1..], sep)
  }

  /** A string with a separator at `k` is the part before it, the separator, and the part after it. */
  lemma Around(s: string, k: nat)
    requires k < |s|
    ensures s == s[..k] + [s[k]] + s[k + 1..]
  {
    assert s[k..] == [s[k]] + s[k + 1..];
    assert s == s[..k] + s[k..];
  }

  /** One step of Split: the piece before the first separator, then the split of the rest. */
  lemma SplitStep(s: string, sep: char)
    requires sep in s
    ensures var k := IndexOf(s, sep);
      Split(s, sep) == [s[..k]] + Split(s[k + 1..], sep) && s == s[..k] + [sep] + s[k + 1..]
  {
    Around(s, IndexOf(s, sep));
  }

  /** `parts.join(sep)`, the inverse of Split. */
  function Join(parts: seq<string>, sep: char): string
  {
    if |parts| == 0 then ""
    else if |parts| == 1 then parts[0]
    else parts[0] + [sep] + Join(parts[1..], sep)
  }

  /** Joining the pieces of a split with the separator gives back the string. */
  lemma {:induction false} JoinSplit(s: string, sep: char)
    ensures Join(Split(s, sep), sep) == s
    decreases |s|
  {
    if sep in s {
      var k := IndexOf(s, sep);
      var rest := Split(s[k + 1..], sep);
      SplitStep(s, sep);
      JoinSplit(s[k + 1..], sep);
      assert ([s[..k]] + rest)[1..] == rest;
    }
  }

  /** Splitting a join of separator-free pieces gives back the pieces. */
  lemma {:induction false} SplitJoin(parts: seq<string>, sep: char)
    requires |parts| >= 1
    requires forall i :: 0 <= i < |parts| ==> sep !in parts[i]
    ensures Split(Join(parts, sep), sep) == parts
  {
    if |parts| > 1 {
      var head, tail := parts[0], Join(parts[1..], sep);
      var s := head + [sep] + tail;
      IndexOfFirst(head, sep, tail);
      assert s[|head|] == sep;
      SplitStep(s, sep);
      assert s[..|head|] == head && s[|head| + 1..] == tail;
      SplitJoin(parts[1..], sep);
      assert parts == [head] + parts[1..];
    }
  }

  /**
   * `s.split(sep)[0]`: the longest prefix of `s` that holds no `sep`; it is
   * followed by `sep` unless it is the whole string.
   */
  function FirstToken(s: string, sep: char): (token: string)
    ensures sep !in token
    ensures token <= s
    ensures |token| < |s| ==> s[|token|] == sep
  {
    Split(s, sep)[0]
  }

  /** `s.split(sep)[1]`, or None for JavaScript's `undefined` when there is no second piece. */
  function SecondToken(s: string, sep: char): (token: Option<string>)
    ensures token.None? <==> sep !in s
    ensures token.Some? ==> sep !in token.value
  {
    var parts := Split(s, sep);
    if |parts| < 2 then None else Some(parts[1])
  }

  /** The second token follows the first and one separator, and runs up to the next separator or the end. */
  lemma SecondTokenFollowsFirst(s: string, sep: char)
    requires sep in s
    ensures FirstToken(s, sep) + [sep] + SecondToken(s, sep).value <= s
    ensures var k := |FirstToken(s, sep)| + 1 + |SecondToken(s, sep).value|;
      k < |s| ==> s[k] == sep
  {
    var k := IndexOf(s, sep);
    var head, rest := s[..k], s[k + 1..];
    SplitStep(s, sep);
    var second := FirstToken(rest, sep);
    assert FirstToken(s, sep) == head && SecondToken(s, sep).value == second;
    PrefixExtends(head + [sep], second, rest);
    assert |head + [sep]| == k + 1;
    if k + 1 + |second| < |s| {
      assert s[k + 1 + |second|] == rest[|second|];
    }
  }

  /** A common prefix keeps one sequence a prefix of another. */
  lemma PrefixExtends(p: string, a: string, b: string)
    requires a <= b
    ensures p + a <= p + b
  {
    assert (p + b)[..|p + a|] == p + b[..|a|];
  }

  /** The number of bytes UTF-8 uses for one Unicode scalar value. */
  function Utf8Width(c: char): (n: nat)
    ensures 1 <= n <= 4
    ensures n == 1 <==> (c as int) < 0x80
  {
    if (c as int) < 0x80 then 1
    else if (c as int) < 0x800 then 2
    else if (c as int) < 0x1_0000 then 3
    else 4
  }

  /** The length of `Buffer.from(s, 'utf8')`. */
  function Utf8Length(s: string): (n: nat)
    ensures |s| <= n <= 4 * |s|
    ensures n == |s| <==> forall i :: 0 <= i < |s| ==> (s[i] as int) < 0x80
  {
    if s == [] then 0 else Utf8Width(s[0]) + Utf8Length(s[1..])
  }

  /** UTF-8 length adds up over concatenation: each character is encoded on its own. */
  lemma {:induction false} Utf8LengthAppend(a: string, b: string)
    ensures Utf8Length(a + b) == Utf8Length(a) + Utf8Length(b)
  {
    if a == [] {
      assert a + b == b;
    } else {
      assert (a + b)[0] == a[0];
      assert (a + b)[1..] == a[1..] + b;
      Utf8LengthAppend(a[1..], b);
    }
  }
}
