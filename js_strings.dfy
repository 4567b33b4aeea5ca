/**
 * The two JavaScript string operations the modelled code relies on:
 * `String.prototype.split` with a one-character separator and
 * `String.prototype.toLowerCase` (on the ASCII letters only).
 */
module JsStrings {

  /** Concatenates `parts`, putting `sep` between each pair of neighbours (`Array.prototype.join`). */
  function Join(parts: seq<string>, sep: char): string
  {
    if |parts| == 0 then ""
    else if |parts| == 1 then parts[0]
    else parts[0] + [sep] + Join(parts[1..], sep)
  }

  /**
   * `s.split(sep)`: the maximal pieces of `s` between occurrences of `sep`.
   * There is always at least one piece ("".split("=") is [""]), no piece holds
   * the separator, and joining the pieces back gives `s`.
   */
  function Split(s: string, sep: char): (parts: seq<string>)
    ensures |parts| >= 1
    ensures forall k :: 0 <= k < |parts| ==> sep !in parts[k]
    ensures Join(parts, sep) == s
    decreases |s|
  {
    if s == [] then [""]
    else
      var rest := Split(s[1..], sep);
      if s[0] == sep then [""] + rest
      else [[s[0]] + rest[0]] + rest[1..]
  }

  /** A string without the separator splits into itself alone. */
  lemma SplitWithoutSeparator(s: string, sep: char)
    requires sep !in s
    ensures Split(s, sep) == [s]
  {
  }

  /** `s.split(sep)` has a single piece exactly when `s` does not contain `sep`. */
  lemma SplitSinglePiece(s: string, sep: char)
    ensures |Split(s, sep)| == 1 <==> sep !in s
  {
  }

  /** Splitting `p + sep + d`, where neither side holds the separator, gives back `[p, d]`. */
  lemma {:induction false} SplitAroundSeparator(p: string, d: string, sep: char)
    requires sep !in p && sep !in d
    ensures Split(p + [sep] + d, sep) == [p, d]
    decreases |p|
  {
    var s := p + [sep] + d;
    if p == [] {
      assert s == [sep] + d && s[1..] == d;
      SplitWithoutSeparator(d, sep);
    } else {
      assert s[1..] == p[1..] + [sep] + d;
      SplitAroundSeparator(p[1..], d, sep);
      assert [p[0]] + p[1..] == p;
    }
  }

  /** The first piece of `p + rest` is `p` when `p` has no separator and `rest` is empty or starts with one. */
  lemma {:induction false} SplitFirstPiece(p: string, rest: string, sep: char)
    requires sep !in p
    requires rest == [] || rest[0] == sep
    ensures Split(p + rest, sep)[0] == p
    decreases |p|
  {
    if p == [] {
      assert p + rest == rest;
    } else {
      assert (p + rest)[1..] == p[1..] + rest;
      SplitFirstPiece(p[1..], rest, sep);
      assert [p[0]] + p[1..] == p;
    }
  }

  /**
   * `(a + sep + d + rest).split(sep)` starts with the pieces `a` and `d` when
   * neither holds the separator and `rest` is empty or starts with one.
   */
  lemma {:induction false} SplitFirstTwoPieces(a: string, d: string, rest: string, sep: char)
    requires sep !in a && sep !in d
    requires rest == [] || rest[0] == sep
    ensures var pieces := Split(a + [sep] + d + rest, sep);
      |pieces| >= 2 && pieces[0] == a && pieces[1] == d
    decreases |a|
  {
    var s := a + [sep] + d + rest;
    if a == [] {
      assert s[1..] == d + rest;
      SplitFirstPiece(d, rest, sep);
    } else {
      assert s[1..] == a[1..] + [sep] + d + rest;
      SplitFirstTwoPieces(a[1..], d, rest, sep);
      assert [a[0]] + a[1..] == a;
    }
  }

  /** `toLowerCase` on one character, restricted to the ASCII letters A to Z. */
  function LowerChar(c: char): char
  {
    if 'A' <= c <= 'Z' then (c as int + 32) as char else c
  }

  /** `s.toLowerCase()`: the same length, each character lowered in place. */
  function Lower(s: string): (r: string)
    ensures |r| == |s|
    ensures forall k :: 0 <= k < |s| ==> r[k] == LowerChar(s[k])
    ensures forall k :: 0 <= k < |r| ==> !('A' <= r[k] <= 'Z')
  {
    if s == [] then [] else [LowerChar(s[0])] + Lower(s[1..])
  }

  /** Lowering twice is lowering once. */
  lemma LowerIdempotent(s: string)
    ensures Lower(Lower(s)) == Lower(s)
  {
  }
}
