/**
 * The JavaScript values and built-ins that src/resources/instance.jsx relies on,
 * restricted to the way that file uses them: optional properties, truthiness of
 * strings, `String.prototype.toLowerCase` and `String.prototype.replace` with a
 * global regular expression that matches one literal word.
 */
module Js {

  /** A property that is `undefined` (None) or holds a value. */
  datatype Option<T> = None | Some(value: T) {
    /** The value, or `default` when undefined: a destructuring default `{ x = default }`. */
    function GetOr(default: T): T {
      match this
      case Some(v) => v
      case None => default
    }
  }

  /** A completed evaluation: a value, or a thrown `TypeError`. */
  datatype Result<T> = Ok(value: T) | TypeError

  /** JavaScript truthiness of an optional string: present and not empty. */
  predicate Truthy(v: Option<string>)
    ensures Truthy(v) <==> v.GetOr("") != ""
  {
    v.Some? && v.value != ""
  }

  /** `String(v)`, as `replace` applies it to its replacement argument. */
  function ToText(v: Option<string>): (r: string)
    ensures v.None? ==> r == "undefined"
    ensures v.Some? ==> r == v.value
  {
    match v
    case Some(s) => s
    case None => "undefined"
  }

  predicate IsUpper(c: char) {
    'A' <= c <= 'Z'
  }

  /** Lower-casing of one character (ASCII letters only). */
  function LowerChar(c: char): (r: char)
    ensures !IsUpper(r)
    ensures IsUpper(c) ==> r as int == c as int + 32
    ensures !IsUpper(c) ==> r == c
  {
    if IsUpper(c) then (c as int + 32) as char else c
  }

  /** `s.toLowerCase()`: every character lower-cased, the length unchanged. */
  function ToLowerCase(s: string): (r: string)
    ensures |r| == |s|
    ensures forall i :: 0 <= i < |s| ==> r[i] == LowerChar(s[i])
  {
    if s == [] then [] else [LowerChar(s[0])] + ToLowerCase(s[1..])
  }

  /** Lower-casing twice is lower-casing once. */
  lemma {:induction false} ToLowerCaseIdempotent(s: string)
    ensures ToLowerCase(ToLowerCase(s)) == ToLowerCase(s)
  {
    var r := ToLowerCase(s);
    var rr := ToLowerCase(r);
    assert |rr| == |r|;
    forall i | 0 <= i < |r| ensures rr[i] == r[i] {
      assert !IsUpper(r[i]);
    }
  }

  /** A string without upper-case letters is its own lower-case form. */
  lemma {:induction false} ToLowerCaseOfLower(s: string)
    requires forall i :: 0 <= i < |s| ==> !IsUpper(s[i])
    ensures ToLowerCase(s) == s
  {
    var r := ToLowerCase(s);
    forall i | 0 <= i < |s| ensures r[i] == s[i] {
      assert LowerChar(s[i]) == s[i];
    }
  }

  /** `pat` occurs in `s` starting at index `i`. */
  predicate OccursAt(s: string, pat: string, i: int) {
    0 <= i && i + |pat| <= |s| && s[i..i + |pat|] == pat
  }

  predicate Occurs(s: string, pat: string) {
    exists i | 0 <= i <= |s| :: OccursAt(s, pat, i)
  }

  /**
   * `s.replace(/pat/g, rep)` where `pat` is a plain word and `rep` contains no
   * `$`: scanning from the left, every occurrence of `pat` that does not
   * overlap an earlier replaced one is replaced by `rep`; text already
   * replaced is not scanned again.
   */
  function ReplaceAll(s: string, pat: string, rep: string): (r: string)
    requires pat != []
    ensures pat[0] !in s ==> r == s
    decreases |s|
  {
    if |s| < |pat| then s
    else if s[..|pat|] == pat then
      assert s[0] == pat[0];
      rep + ReplaceAll(s[|pat|..], pat, rep)
    else
      assert s == [s[0]] + s[1..];
      [s[0]] + ReplaceAll(s[1..], pat, rep)
  }

  /** Replacing brings in no character that is neither in the text nor in the replacement. */
  lemma {:induction false} ReplaceAllCharacters(s: string, pat: string, rep: string)
    requires pat != []
    ensures forall c :: c in ReplaceAll(s, pat, rep) ==> c in s || c in rep
    decreases |s|
  {
    if |s| < |pat| {
    } else if s[..|pat|] == pat {
      ReplaceAllCharacters(s[|pat|..], pat, rep);
      assert forall c :: c in s[|pat|..] ==> c in s;
    } else {
      ReplaceAllCharacters(s[1..], pat, rep);
      assert forall c :: c in s[1..] ==> c in s;
    }
  }

  /** Without an occurrence of the pattern, replacing changes nothing. */
  lemma {:induction false} ReplaceAllNoOccurrence(s: string, pat: string, rep: string)
    requires pat != []
    requires !Occurs(s, pat)
    ensures ReplaceAll(s, pat, rep) == s
    decreases |s|
  {
    if |s| < |pat| {
    } else {
      assert !OccursAt(s, pat, 0);
      assert s[..|pat|] != pat;
      forall i ensures !OccursAt(s[1..], pat, i) {
        if OccursAt(s[1..], pat, i) {
          assert s[1..][i..i + |pat|] == s[i + 1..i + 1 + |pat|];
          assert OccursAt(s, pat, i + 1);
        }
      }
      ReplaceAllNoOccurrence(s[1..], pat, rep);
      assert s == [s[0]] + s[1..];
    }
  }

  /** Replacing in the pattern itself yields the replacement. */
  lemma ReplaceAllOfPattern(pat: string, rep: string)
    requires pat != []
    ensures ReplaceAll(pat, pat, rep) == rep
  {
    assert pat[..|pat|] == pat;
    assert pat[|pat|..] == [];
    assert ReplaceAll([], pat, rep) == [];
  }

  /**
   * No occurrence of `pat` can straddle the seam between `x` and `y`: the
   * last character of `x` or the first of `y` is not in `pat`.
   */
  predicate Separated(x: string, y: string, pat: string) {
    x == [] || y == [] || x[|x| - 1] !in pat || y[0] !in pat
  }

  /** Across a seam that no occurrence can straddle, replacing distributes over concatenation. */
  lemma {:induction false} ReplaceAllConcat(x: string, y: string, pat: string, rep: string)
    requires pat != []
    requires Separated(x, y, pat)
    ensures ReplaceAll(x + y, pat, rep) == ReplaceAll(x, pat, rep) + ReplaceAll(y, pat, rep)
    decreases |x|, 1
  {
    var n := |pat|;
    if x == [] {
      assert x + y == y;
    } else if y == [] {
      assert x + y == x;
    } else if |x| < n {
      ReplaceAllConcatShortLeft(x, y, pat, rep);
    } else if x[..n] == pat {
      ReplaceAllConcatMatch(x, y, pat, rep);
    } else {
      ReplaceAllConcatSkip(x, y, pat, rep);
    }
  }

  /** The seam case where x is shorter than the pattern: x is kept as it is. */
  lemma {:induction false} ReplaceAllConcatShortLeft(x: string, y: string, pat: string, rep: string)
    requires pat != [] && x != [] && y != [] && |x| < |pat|
    requires Separated(x, y, pat)
    ensures ReplaceAll(x + y, pat, rep) == ReplaceAll(x, pat, rep) + ReplaceAll(y, pat, rep)
    decreases |x|, 0
  {
    assert ReplaceAll(x, pat, rep) == x;
    if |x + y| < |pat| {
      assert ReplaceAll(y, pat, rep) == y;
    } else {
      var t := x[1..];
      ShortLeftStep(x, y, pat, rep);
      assert Separated(t, y, pat) by {
        if t != [] {
          assert t[|t| - 1] == x[|x| - 1];
        }
      }
      ReplaceAllConcat(t, y, pat, rep);
      assert ReplaceAll(t, pat, rep) == t;
      assert x == [x[0]] + t;
    }
  }

  /** The first character of a short x before y is kept. */
  lemma ShortLeftStep(x: string, y: string, pat: string, rep: string)
    requires x != [] && y != [] && |x| < |pat| <= |x + y|
    requires Separated(x, y, pat)
    ensures ReplaceAll(x + y, pat, rep) == [x[0]] + ReplaceAll(x[1..] + y, pat, rep)
  {
    var s := x + y;
    SeamNotAtStart(x, y, pat);
    ReplaceAllSkip(s, pat, rep);
    assert s[1..] == x[1..] + y;
  }

  /** An occurrence at the start of x + y, with x shorter than it, would straddle the seam. */
  lemma SeamNotAtStart(x: string, y: string, pat: string)
    requires x != [] && y != [] && |x| < |pat| <= |x + y|
    requires Separated(x, y, pat)
    ensures (x + y)[..|pat|] != pat
  {
    var w := (x + y)[..|pat|];
    assert w[|x| - 1] == x[|x| - 1];
    assert w[|x|] == y[0];
    assert w[|x| - 1] in w && w[|x|] in w;
  }

  /** Where the text does not start with the pattern, its first character is kept. */
  lemma ReplaceAllSkip(s: string, pat: string, rep: string)
    requires pat != [] && |pat| <= |s| && s[..|pat|] != pat
    ensures ReplaceAll(s, pat, rep) == [s[0]] + ReplaceAll(s[1..], pat, rep)
  {
  }

  /** The seam case where x starts with the pattern. */
  lemma {:induction false} ReplaceAllConcatMatch(x: string, y: string, pat: string, rep: string)
    requires pat != [] && |pat| <= |x| && x[..|pat|] == pat
    requires Separated(x, y, pat)
    ensures ReplaceAll(x + y, pat, rep) == ReplaceAll(x, pat, rep) + ReplaceAll(y, pat, rep)
    decreases |x|, 0
  {
    var n := |pat|;
    var s := x + y;
    assert s[..n] == pat;
    assert s[n..] == x[n..] + y;
    assert ReplaceAll(s, pat, rep) == rep + ReplaceAll(x[n..] + y, pat, rep);
    if x[n..] != [] {
      assert x[n..][|x[n..]| - 1] == x[|x| - 1];
    }
    ReplaceAllConcat(x[n..], y, pat, rep);
  }

  /** The seam case where x is long enough but does not start with the pattern. */
  lemma {:induction false} ReplaceAllConcatSkip(x: string, y: string, pat: string, rep: string)
    requires pat != [] && |pat| <= |x| && x[..|pat|] != pat
    requires Separated(x, y, pat)
    ensures ReplaceAll(x + y, pat, rep) == ReplaceAll(x, pat, rep) + ReplaceAll(y, pat, rep)
    decreases |x|, 0
  {
    var n := |pat|;
    var s := x + y;
    assert s[..n] == x[..n];
    assert s[1..] == x[1..] + y;
    assert ReplaceAll(s, pat, rep) == [x[0]] + ReplaceAll(x[1..] + y, pat, rep);
    if x[1..] != [] {
      assert x[1..][|x[1..]| - 1] == x[|x| - 1];
    }
    ReplaceAllConcat(x[1..], y, pat, rep);
  }
}
