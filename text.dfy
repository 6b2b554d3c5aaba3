/**
 * String primitives the generators are built from, with the meaning they
 * have in JavaScript: `Array.prototype.join`, `String.prototype.split` with
 * a non-empty separator, `indexOf`/`includes`, `Array.prototype.slice(0, -k)`
 * and ASCII `toLowerCase`/`toUpperCase`.
 */
module Text {

  /** `xs.join(sep)`: the elements with `sep` between neighbours; `[].join(sep)` is "". */
  function Join(xs: seq<string>, sep: string): string
  {
    if |xs| == 0 then "" else if |xs| == 1 then xs[0] else xs[0] + sep + Join(xs[1..], sep)
  }

  /** True when `sub` occurs in `s` at position `i`. */
  predicate OccursAt(s: string, sub: string, i: int)
  {
    0 <= i && i + |sub| <= |s| && s[i..i + |sub|] == sub
  }

  /** `s.indexOf(sub, from)`: the leftmost occurrence at or after `from`, or -1. */
  function IndexFrom(s: string, sub: string, from: nat): (i: int)
    requires from <= |s| + 1
    decreases |s| + 1 - from
    ensures i == -1 || (from <= i && OccursAt(s, sub, i))
    ensures i == -1 ==> forall j :: from <= j && OccursAt(s, sub, j) ==> false
    ensures i != -1 ==> forall j :: from <= j < i ==> !OccursAt(s, sub, j)
  {
    if from + |sub| > |s| then -1
    else if s[from..from + |sub|] == sub then from
    else IndexFrom(s, sub, from + 1)
  }

  /** `s.indexOf(sub)`. */
  function IndexOf(s: string, sub: string): (i: int)
    ensures i == -1 || OccursAt(s, sub, i)
    ensures i == -1 <==> forall j :: !OccursAt(s, sub, j)
    ensures i != -1 ==> forall j :: 0 <= j < i ==> !OccursAt(s, sub, j)
  {
    IndexFrom(s, sub, 0)
  }

  /** `s.includes(sub)`. */
  predicate Contains(s: string, sub: string)
  {
    IndexOf(s, sub) != -1
  }

  /** `s.endsWith(suffix)`. */
  predicate EndsWith(s: string, suffix: string)
  {
    |suffix| <= |s| && s[|s| - |suffix|..] == suffix
  }

  /** `s` cannot contain `sub` when it is shorter or lacks the first character of `sub`. */
  lemma NotContains(s: string, sub: string)
    requires |sub| > 0 && (|s| < |sub| || sub[0] !in s)
    ensures !Contains(s, sub)
  {
    forall j | 0 <= j && j + |sub| <= |s| ensures !OccursAt(s, sub, j) {
      assert s[j..j + |sub|][0] == s[j];
    }
  }

  /** `s` contains `sub` when `sub` occurs at some position. */
  lemma ContainsAt(s: string, sub: string, j: int)
    requires OccursAt(s, sub, j)
    ensures Contains(s, sub)
  {
  }

  /**
   * `s.split(sep)` for a non-empty separator: cut at the leftmost occurrence,
   * then split the rest. A string without `sep` (the empty string included)
   * splits into one piece.
   */
  function Split(s: string, sep: string): (r: seq<string>)
    requires |sep| > 0
    decreases |s|
    ensures |r| >= 1
  {
    var i := IndexOf(s, sep);
    if i == -1 then [s] else [s[..i]] + Split(s[i + |sep|..], sep)
  }

  /** The condition under which `split` undoes `join`: the separator's first character occurs in no element. */
  predicate SeparableBy(xs: seq<string>, sep: string)
  {
    |sep| > 0 && forall k :: 0 <= k < |xs| ==> sep[0] !in xs[k]
  }

  /** A string free of `sep[0]` holds no occurrence of `sep` starting inside it. */
  lemma NoOccurrenceInside(x: string, rest: string, sep: string, j: nat)
    requires |sep| > 0 && sep[0] !in x && j < |x|
    ensures !OccursAt(x + rest, sep, j)
  {
    assert (x + rest)[j] == x[j];
  }

  /**
   * `join` then `split` returns the list, for a non-empty list whose elements
   * do not contain the separator's first character.
   */
  lemma {:induction false} SplitJoin(xs: seq<string>, sep: string)
    requires |xs| > 0 && SeparableBy(xs, sep)
    ensures Split(Join(xs, sep), sep) == xs
  {
    var x := xs[0];
    if |xs| == 1 {
      forall j | 0 <= j < |x| ensures !OccursAt(x, sep, j) {
        NoOccurrenceInside(x, "", sep, j);
        assert x + "" == x;
      }
      assert IndexOf(x, sep) == -1;
    } else {
      var rest := Join(xs[1..], sep);
      var s := x + sep + rest;
      assert Join(xs, sep) == s;
      forall j | 0 <= j < |x| ensures !OccursAt(s, sep, j) {
        NoOccurrenceInside(x, sep + rest, sep, j);
        assert s == x + (sep + rest);
      }
      assert s[|x|..|x| + |sep|] == sep;
      assert OccursAt(s, sep, |x|);
      var i := IndexOf(s, sep);
      assert i == |x|;
      assert s[..i] == x;
      assert s[i + |sep|..] == rest;
      assert SeparableBy(xs[1..], sep) by {
        forall k | 0 <= k < |xs[1..]| ensures sep[0] !in xs[1..][k] {
          assert xs[1..][k] == xs[k + 1];
        }
      }
      SplitJoin(xs[1..], sep);
      assert xs == [x] + xs[1..];
    }
  }

  /** Why the condition is not merely "no element contains `sep`": ["a", ""] joined by "aa" splits as ["", "a"]. */
  lemma SplitJoinNeedsFirstCharFree()
    ensures Split(Join(["a", ""], "aa"), "aa") == ["", "a"]
  {
    var s := Join(["a", ""], "aa");
    assert s == "aaa";
    assert OccursAt(s, "aa", 0);
    assert IndexOf(s, "aa") == 0;
    assert s[2..] == "a";
    assert IndexOf("a", "aa") == -1;
  }

  /**
   * `xs.slice(0, -k)`: everything but the last `k` elements, or nothing when
   * there are at most `k`; `-0` is the end index 0, so `k = 0` keeps nothing.
   */
  function DropLast<T>(xs: seq<T>, k: nat): (r: seq<T>)
    ensures k == 0 || |xs| <= k ==> r == []
    ensures 0 < k < |xs| ==> |r| == |xs| - k && forall i :: 0 <= i < |r| ==> r[i] == xs[i]
  {
    if k == 0 || |xs| <= k then [] else xs[..|xs| - k]
  }

  function LowerChar(c: char): char
  {
    if 'A' <= c <= 'Z' then (c as int + 32) as char else c
  }

  function UpperChar(c: char): char
  {
    if 'a' <= c <= 'z' then (c as int - 32) as char else c
  }

  /** ASCII `toLowerCase`. */
  function ToLower(s: string): (r: string)
    ensures |r| == |s|
    ensures forall i :: 0 <= i < |s| ==> r[i] == LowerChar(s[i])
  {
    if s == [] then [] else [LowerChar(s[0])] + ToLower(s[1..])
  }

  /** ASCII `toUpperCase`. */
  function ToUpper(s: string): (r: string)
    ensures |r| == |s|
    ensures forall i :: 0 <= i < |s| ==> r[i] == UpperChar(s[i])
  {
    if s == [] then [] else [UpperChar(s[0])] + ToUpper(s[1..])
  }

  /** Strings that differ only in upper/lower case. */
  predicate SameIgnoringCase(a: string, b: string)
  {
    |a| == |b| && forall i :: 0 <= i < |a| ==> LowerChar(a[i]) == LowerChar(b[i])
  }

  /** Lower-casing forgets case and nothing else. */
  lemma ToLowerEqualIff(a: string, b: string)
    ensures ToLower(a) == ToLower(b) <==> SameIgnoringCase(a, b)
  {
    if SameIgnoringCase(a, b) {
      assert forall i :: 0 <= i < |a| ==> ToLower(a)[i] == ToLower(b)[i];
    }
    if ToLower(a) == ToLower(b) {
      assert forall i :: 0 <= i < |a| ==> LowerChar(a[i]) == ToLower(a)[i];
    }
  }

  /** Upper-casing forgets case in the same way. */
  lemma UpperCharOfLowerChar(c: char)
    ensures UpperChar(LowerChar(c)) == UpperChar(c)
  {
  }

  lemma ToUpperCaseBlind(a: string, b: string)
    requires SameIgnoringCase(a, b)
    ensures ToUpper(a) == ToUpper(b)
  {
    forall i | 0 <= i < |a| ensures ToUpper(a)[i] == ToUpper(b)[i] {
      UpperCharOfLowerChar(a[i]);
      UpperCharOfLowerChar(b[i]);
    }
  }
}
