/**
 * The JavaScript string operations the page populator relies on:
 * truthiness of optional fields, `||` fallbacks, `toLowerCase`, `includes`,
 * `startsWith`, `replace(/\s/g, '')`, `join`, and the space-separated
 * token list a `class` attribute denotes.
 */
module JsStrings {
  import opened Wrappers

  // ---------------------------------------------------------------- truthiness

  /** JavaScript truthiness of an optional string field: present and non-empty. */
  predicate Truthy(o: Option<string>) {
    o.Some? && o.value != ""
  }

  /** `a || b` on two optional string fields. */
  function Or(a: Option<string>, b: Option<string>): Option<string> {
    if Truthy(a) then a else b
  }

  /** `a || fallback` where the fallback is a string literal. */
  function OrElse(a: Option<string>, fallback: string): string {
    if Truthy(a) then a.value else fallback
  }

  /** `field ? <fragment> : ''`: the field, kept only when it is truthy. */
  function WhenTruthy(o: Option<string>): Option<string> {
    if Truthy(o) then o else None
  }

  lemma OrFallback(a: Option<string>, b: Option<string>, fallback: string)
    ensures Truthy(a) ==> Or(a, b) == a && OrElse(a, fallback) == a.value
    ensures !Truthy(a) ==> Or(a, b) == b && OrElse(a, fallback) == fallback
    ensures OrElse(a, fallback) != "" <== fallback != ""
    ensures WhenTruthy(a).Some? <==> Truthy(a)
  {
  }

  // ---------------------------------------------------------------- case folding

  /** `toLowerCase` on one character (ASCII letters only). */
  function LowerChar(c: char): char {
    if 'A' <= c <= 'Z' then (c as int + 32) as char else c
  }

  /** `toLowerCase`: no ASCII capital remains, each is replaced by its small letter, and nothing else changes. */
  function Lower(s: string): (r: string)
    ensures |r| == |s|
    ensures forall i :: 0 <= i < |r| ==> !('A' <= r[i] <= 'Z')
    ensures forall i :: 0 <= i < |s| && 'A' <= s[i] <= 'Z' ==> r[i] as int == s[i] as int + 32
    ensures forall i :: 0 <= i < |s| && !('A' <= s[i] <= 'Z') ==> r[i] == s[i]
  {
    seq(|s|, i requires 0 <= i < |s| => LowerChar(s[i]))
  }

  /** Lower-casing twice is lower-casing once. */
  lemma LowerIdempotent(s: string)
    ensures Lower(Lower(s)) == Lower(s)
  {
  }

  // ---------------------------------------------------------------- prefixes and substrings

  /** `s.startsWith(p)`. */
  predicate StartsWith(s: string, p: string) {
    |p| <= |s| && s[..|p|] == p
  }

  /** `sub` occurs in `s` at position `i`. */
  ghost predicate OccursAt(s: string, sub: string, i: int) {
    0 <= i <= |s| - |sub| && s[i..i + |sub|] == sub
  }

  /** `s.includes(sub)`: try each start position in turn. */
  function Contains(s: string, sub: string): bool
    decreases |s|
  {
    StartsWith(s, sub) || (s != [] && Contains(s[1..], sub))
  }

  /** `Contains` finds exactly the substrings that occur somewhere in `s`. */
  lemma {:induction false} ContainsIff(s: string, sub: string)
    ensures Contains(s, sub) <==> exists i :: OccursAt(s, sub, i)
    decreases |s|
  {
    if StartsWith(s, sub) {
      assert OccursAt(s, sub, 0);
    } else if s != [] {
      ContainsIff(s[1..], sub);
      if j :| OccursAt(s[1..], sub, j) {
        assert s[1..][j..j + |sub|] == s[j + 1..j + 1 + |sub|];
        assert OccursAt(s, sub, j + 1);
      }
      if i :| OccursAt(s, sub, i) {
        assert i != 0;
        assert s[1..][i - 1..i - 1 + |sub|] == s[i..i + |sub|];
        assert OccursAt(s[1..], sub, i - 1);
      }
    }
  }

  // ---------------------------------------------------------------- searching for a character

  /** The index of the first `c` in `s`, or `|s|` when there is none. */
  function IndexOf(s: string, c: char): (i: nat)
    ensures i <= |s|
    ensures i < |s| ==> s[i] == c
    ensures forall k :: 0 <= k < i ==> s[k] != c
    decreases |s|
  {
    if s == [] then 0
    else if s[0] == c then 0
    else 1 + IndexOf(s[1..], c)
  }

  /** The first `c` is found just after a prefix that has none. */
  lemma IndexOfAfterPrefix(w: string, rest: string, c: char)
    requires c !in w
    requires rest == [] || rest[0] == c
    ensures IndexOf(w + rest, c) == |w|
  {
    assert forall k :: 0 <= k < |w| ==> (w + rest)[k] == w[k];
    assert |w| < |w + rest| ==> (w + rest)[|w|] == c;
  }

  // ---------------------------------------------------------------- class attribute tokens

  /**
   * The token list of a `class` attribute: the maximal runs of non-space
   * characters, in order.
   */
  function ClassList(s: string): seq<string>
    decreases |s|
  {
    if s == [] then []
    else if s[0] == ' ' then ClassList(s[1..])
    else
      var n := IndexOf(s, ' ');
      [s[..n]] + ClassList(s[n..])
  }

  /** A word without spaces, ended by a space or by the end of the string, is one token. */
  lemma ClassListWord(w: string, rest: string)
    requires w != [] && ' ' !in w
    requires rest == [] || rest[0] == ' '
    ensures ClassList(w + rest) == [w] + ClassList(rest)
  {
    IndexOfAfterPrefix(w, rest, ' ');
    assert (w + rest)[0] == w[0];
    assert (w + rest)[..|w|] == w;
    assert (w + rest)[|w|..] == rest;
  }

  /** A leading space separates tokens and is not part of any. */
  lemma ClassListSpace(rest: string)
    ensures ClassList(" " + rest) == ClassList(rest)
  {
    assert (" " + rest)[1..] == rest;
  }

  // ---------------------------------------------------------------- whitespace

  /** The characters `\s` matches in an ECMAScript regular expression. */
  predicate IsJsWhitespace(c: char) {
    var n := c as int;
    n == 0x09 || n == 0x0A || n == 0x0B || n == 0x0C || n == 0x0D || n == 0x20 ||
    n == 0xA0 || n == 0x1680 || (0x2000 <= n <= 0x200A) ||
    n == 0x2028 || n == 0x2029 || n == 0x202F || n == 0x205F || n == 0x3000 || n == 0xFEFF
  }

  /** `s.replace(/\s/g, '')`. */
  function StripWhitespace(s: string): string
    decreases |s|
  {
    if s == [] then ""
    else (if IsJsWhitespace(s[0]) then "" else [s[0]]) + StripWhitespace(s[1..])
  }

  /** The result has no whitespace and every other character as often as `s` has it. */
  lemma {:induction false} StripRemovesExactlyWhitespace(s: string)
    ensures forall i :: 0 <= i < |StripWhitespace(s)| ==> !IsJsWhitespace(StripWhitespace(s)[i])
    ensures forall c :: !IsJsWhitespace(c) ==> multiset(StripWhitespace(s))[c] == multiset(s)[c]
    decreases |s|
  {
    if s != [] {
      StripRemovesExactlyWhitespace(s[1..]);
      assert s == [s[0]] + s[1..];
    }
  }

  /** Stripping distributes over concatenation, so it keeps the order of the other characters. */
  lemma {:induction false} StripConcat(a: string, b: string)
    ensures StripWhitespace(a + b) == StripWhitespace(a) + StripWhitespace(b)
    decreases |a|
  {
    if a != [] {
      var head := if IsJsWhitespace(a[0]) then "" else [a[0]];
      assert (a + b)[0] == a[0];
      assert (a + b)[1..] == a[1..] + b;
      StripConcat(a[1..], b);
      calc {
        StripWhitespace(a + b);
        head + StripWhitespace(a[1..] + b);
        head + (StripWhitespace(a[1..]) + StripWhitespace(b));
        (head + StripWhitespace(a[1..])) + StripWhitespace(b);
      }
    } else {
      assert a + b == b;
    }
  }

  /** A string without whitespace is left as it is; in particular stripping is idempotent. */
  lemma {:induction false} StripNoWhitespace(s: string)
    requires forall i :: 0 <= i < |s| ==> !IsJsWhitespace(s[i])
    ensures StripWhitespace(s) == s
    decreases |s|
  {
    if s != [] {
      StripNoWhitespace(s[1..]);
    }
  }

  lemma StripIdempotent(s: string)
    ensures StripWhitespace(StripWhitespace(s)) == StripWhitespace(s)
  {
    StripRemovesExactlyWhitespace(s);
    StripNoWhitespace(StripWhitespace(s));
  }

  // ---------------------------------------------------------------- join

  /** `xs.join(sep)`. */
  function Join(xs: seq<string>, sep: string): string
    decreases |xs|
  {
    if xs == [] then ""
    else if |xs| == 1 then xs[0]
    else xs[0] + sep + Join(xs[1..], sep)
  }

  /** The joined string is the items plus one separator between each two. */
  lemma {:induction false} JoinLength(xs: seq<string>, sep: string)
    requires xs != []
    ensures |Join(xs, sep)| == TotalLength(xs) + (|xs| - 1) * |sep|
    decreases |xs|
  {
    if |xs| > 1 {
      JoinLength(xs[1..], sep);
    }
  }

  function TotalLength(xs: seq<string>): nat
    decreases |xs|
  {
    if xs == [] then 0 else |xs[0]| + TotalLength(xs[1..])
  }

  /**
   * Splits a keyword string at each ',' and drops the one character
   * that follows it: the inverse of `Join(_, ", ")`.
   */
  function SplitList(s: string): seq<string>
    decreases |s|
  {
    var i := IndexOf(s, ',');
    if i == |s| then [s]
    else [s[..i]] + SplitList(s[if i + 2 <= |s| then i + 2 else |s|..])
  }

  /** A comma-free word followed by `", "` splits off as one item. */
  lemma SplitStep(w: string, rest: string)
    requires ',' !in w
    ensures SplitList(w + (", " + rest)) == [w] + SplitList(rest)
  {
    var s := w + (", " + rest);
    IndexOfAfterPrefix(w, ", " + rest, ',');
    assert s[..|w|] == w;
    assert s[|w| + 2..] == rest;
  }

  /** A comma-free word is one item. */
  lemma SplitSingle(w: string)
    requires ',' !in w
    ensures SplitList(w) == [w]
  {
    IndexOfAfterPrefix(w, "", ',');
    assert w + "" == w;
  }

  /** Joining keywords that contain no comma can be undone. */
  lemma {:induction false} SplitJoin(xs: seq<string>)
    requires xs != []
    requires forall k :: 0 <= k < |xs| ==> ',' !in xs[k]
    ensures SplitList(Join(xs, ", ")) == xs
    decreases |xs|
  {
    if |xs| == 1 {
      SplitSingle(xs[0]);
    } else {
      var rest := Join(xs[1..], ", ");
      assert Join(xs, ", ") == xs[0] + (", " + rest);
      SplitStep(xs[0], rest);
      SplitJoin(xs[1..]);
      assert [xs[0]] + xs[1..] == xs;
    }
  }
}
