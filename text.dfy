/** String operations the chatbot borrows from JavaScript: `String.prototype.includes`,
    `String.prototype.trim` and `Array.prototype.join`. Strings are sequences of characters;
    no normalisation or case folding is applied anywhere. */
module Text {

  /** `sub` occurs in `s` as a contiguous run starting at position `i`. */
  predicate OccursAt(s: string, sub: string, i: nat)
  {
    i + |sub| <= |s| && s[i..i + |sub|] == sub
  }

  /** `s.includes(sub)`: scan `s` for a position where `sub` starts. */
  predicate Includes(s: string, sub: string)
    ensures sub == [] ==> Includes(s, sub)
    ensures Includes(s, sub) ==> |sub| <= |s|
    decreases |s|
  {
    sub <= s || (|s| > 0 && Includes(s[1..], sub))
  }

  /** Away from the first position, occurrences in `s` are occurrences in its tail. */
  lemma OccursShift(s: string, sub: string, i: nat)
    requires 0 < i && 0 < |s|
    ensures OccursAt(s, sub, i) <==> OccursAt(s[1..], sub, i - 1)
  {
    if i + |sub| <= |s| {
      assert s[1..][i - 1..i - 1 + |sub|] == s[i..i + |sub|];
    }
  }

  /** The scan finds `sub` exactly when `sub` occurs somewhere in `s`. */
  lemma {:induction false} IncludesIffOccurs(s: string, sub: string)
    ensures Includes(s, sub) <==> exists i: nat :: OccursAt(s, sub, i)
    decreases |s|
  {
    if sub <= s {
      assert OccursAt(s, sub, 0);
    } else if |s| > 0 {
      IncludesIffOccurs(s[1..], sub);
      assert OccursAt(s, sub, 0) ==> sub <= s;
      forall i: nat | 0 < i
        ensures OccursAt(s, sub, i) <==> OccursAt(s[1..], sub, i - 1)
      {
        OccursShift(s, sub, i);
      }
      if Includes(s[1..], sub) {
        var j: nat :| OccursAt(s[1..], sub, j);
        assert OccursAt(s, sub, j + 1);
      }
    }
  }

  /** An occurrence stays where it is when text is appended, and moves by the length of
      whatever is put in front. */
  lemma OccursInContext(x: string, s: string, y: string, sub: string, i: nat)
    requires OccursAt(s, sub, i)
    ensures OccursAt(x + s + y, sub, |x| + i)
  {
    assert (x + s + y)[|x| + i..|x| + i + |sub|] == s[i..i + |sub|];
  }

  /** Appending five parts one by one is appending the last four, grouped as the
      second and the last three. */
  lemma Regroup(p: string, a: string, b: string, c: string, d: string)
    ensures p + a + b + c + d == p + (a + (b + c + d))
  {
  }

  /** The first part of a concatenation is a prefix of it. */
  lemma FrontIsPrefix(x: string, y: string)
    ensures x <= x + y
  {
  }

  /** Dropping the first part of a concatenation leaves the second. */
  lemma DropFront(x: string, y: string)
    ensures (x + y)[|x|..] == y
  {
  }

  /** In a text assembled from five parts, the first starts it and the fourth follows
      the first three. */
  lemma FourthOfFive(a: string, b: string, c: string, d: string, e: string)
    ensures OccursAt(a + b + c + d + e, a, 0)
    ensures OccursAt(a + b + c + d + e, d, |a| + |b| + |c|)
  {
    var s := a + b + c + d + e;
    assert s[..|a|] == a;
    assert s[|a| + |b| + |c|..|a| + |b| + |c| + |d|] == d;
  }

  /** In `h` followed by six parts, the second part follows `h` and the first, and the
      fifth follows the first four as well. */
  lemma SecondAndFifthOfSix(h: string, a: string, b: string, c: string, d: string, e: string,
                            f: string)
    ensures OccursAt(h + (a + b + c + d + e + f), b, |h| + |a|)
    ensures OccursAt(h + (a + b + c + d + e + f), e, |h| + |a| + |b| + |c| + |d|)
  {
    var s := h + (a + b + c + d + e + f);
    var i := |h| + |a|;
    var k := i + |b| + |c| + |d|;
    assert s[i..i + |b|] == b;
    assert s[k..k + |e|] == e;
  }

  /** In `h` followed by seven parts, the third part follows `h` and the first two, and
      the sixth is followed only by the seventh. */
  lemma ThirdAndSixthOfSeven(h: string, a: string, b: string, c: string, d: string, e: string,
                             f: string, g: string)
    ensures OccursAt(h + (a + b + c + d + e + f + g), c, |h| + |a| + |b|)
    ensures OccursAt(h + (a + b + c + d + e + f + g), f,
                     |h + (a + b + c + d + e + f + g)| - |f| - |g|)
  {
    var s := h + (a + b + c + d + e + f + g);
    var i := |h| + |a| + |b|;
    var k := |s| - |f| - |g|;
    assert s[i..i + |c|] == c;
    assert s[k..k + |f|] == f;
  }

  /** The second part of a concatenation occurs right after the first. */
  lemma OccursAtEnd(x: string, y: string)
    ensures OccursAt(x + y, y, |x|)
  {
    assert (x + y)[|x|..|x| + |y|] == y;
  }

  /** An occurrence in a prefix is an occurrence in the whole. */
  lemma OccursInPrefix(u: string, s: string, sub: string, i: nat)
    requires u <= s && OccursAt(u, sub, i)
    ensures OccursAt(s, sub, i)
  {
    assert s == u + s[|u|..];
    OccursInContext("", u, s[|u|..], sub, i);
  }

  /** An occurrence of a longer word carries an occurrence of each of its contiguous parts. */
  lemma IncludesPart(s: string, word: string, from: nat, to: nat)
    requires from <= to <= |word|
    requires Includes(s, word)
    ensures Includes(s, word[from..to])
  {
    IncludesIffOccurs(s, word);
    var i: nat :| OccursAt(s, word, i);
    forall k | 0 <= k < to - from ensures word[from..to][k] == s[i + from..i + to][k] {
      assert word[from + k] == s[i..i + |word|][from + k];
    }
    assert OccursAt(s, word[from..to], i + from);
    IncludesIffOccurs(s, word[from..to]);
  }

  /** `xs.join(sep)`: the items with `sep` between neighbours, and "" for no items. */
  function Join(xs: seq<string>, sep: string): (r: string)
    ensures |xs| > 0 ==> xs[0] <= r
    decreases |xs|
  {
    if |xs| == 0 then ""
    else if |xs| == 1 then xs[0]
    else Join(xs[..|xs| - 1], sep) + sep + xs[|xs| - 1]
  }

  /** Joining a non-empty prefix of the items gives a prefix of the whole join. */
  lemma {:induction false} JoinPrefix(xs: seq<string>, sep: string, k: nat)
    requires 1 <= k <= |xs|
    ensures Join(xs[..k], sep) <= Join(xs, sep)
    decreases |xs|
  {
    if k < |xs| {
      var n := |xs|;
      assert xs[..n - 1][..k] == xs[..k];
      JoinPrefix(xs[..n - 1], sep, k);
      assert Join(xs, sep) == Join(xs[..n - 1], sep) + sep + xs[n - 1];
    } else {
      assert xs[..k] == xs;
    }
  }

  /** Item `j` of a join sits right after the join of the items before it and, unless it
      is the first, one separator; so the join holds every item, once each, in order. */
  lemma JoinItemAt(xs: seq<string>, sep: string, j: nat)
    requires j < |xs|
    ensures OccursAt(Join(xs, sep), xs[j], |Join(xs[..j], sep)| + if j == 0 then 0 else |sep|)
  {
    var upTo := Join(xs[..j + 1], sep);
    JoinPrefix(xs, sep, j + 1);
    if j == 0 {
      assert upTo == xs[0];
      assert OccursAt(upTo, xs[0], 0);
    } else {
      assert xs[..j + 1][..j] == xs[..j];
      OccursAtEnd(Join(xs[..j], sep) + sep, xs[j]);
    }
    OccursInPrefix(upTo, Join(xs, sep), xs[j], |Join(xs[..j], sep)| + if j == 0 then 0 else |sep|);
  }

  /** The characters `String.prototype.trim` removes: ECMAScript WhiteSpace
      (tab, vertical tab, form feed, space, no-break space, byte order mark and the
      Unicode space separators) and LineTerminator (LF, CR, LS, PS). */
  predicate IsTrimmable(c: char)
  {
    c in {'\t', '\n', '\U{000B}', '\U{000C}', '\r', ' ', '\U{00A0}', '\U{1680}',
          '\U{2000}', '\U{2001}', '\U{2002}', '\U{2003}', '\U{2004}', '\U{2005}',
          '\U{2006}', '\U{2007}', '\U{2008}', '\U{2009}', '\U{200A}', '\U{2028}',
          '\U{2029}', '\U{202F}', '\U{205F}', '\U{3000}', '\U{FEFF}'}
  }

  /** Every character of `s` is one that `trim` removes. */
  predicate AllTrimmable(s: string)
  {
    forall i :: 0 <= i < |s| ==> IsTrimmable(s[i])
  }

  /** `s` without its leading whitespace. */
  function TrimStart(s: string): (r: string)
    ensures |r| <= |s| && r == s[|s| - |r|..]
    ensures r == [] || !IsTrimmable(r[0])
    ensures AllTrimmable(s[..|s| - |r|])
    decreases |s|
  {
    if |s| > 0 && IsTrimmable(s[0]) then TrimStart(s[1..]) else s
  }

  /** `s` without its trailing whitespace. */
  function TrimEnd(s: string): (r: string)
    ensures r <= s
    ensures r == [] || !IsTrimmable(r[|r| - 1])
    ensures AllTrimmable(s[|r|..])
    ensures s != [] && !IsTrimmable(s[0]) ==> r != [] && r[0] == s[0]
    decreases |s|
  {
    if |s| > 0 && IsTrimmable(s[|s| - 1]) then
      assert |s| > 1 ==> s[..|s| - 1][0] == s[0];
      TrimEnd(s[..|s| - 1])
    else s
  }

  /** `s.trim()`: empty exactly when `s` is all whitespace (the empty text included), and
      otherwise neither starting nor ending with whitespace; `TrimKeepsMiddle` states that
      it is what remains once the whitespace at both ends is removed. */
  function Trim(s: string): (r: string)
    ensures r == [] <==> AllTrimmable(s)
    ensures r == [] || (!IsTrimmable(r[0]) && !IsTrimmable(r[|r| - 1]))
  {
    TrimStartEmptyIff(s);
    TrimEnd(TrimStart(s))
  }

  /** `s.trim()` is a contiguous part of `s`, and everything removed before and after it
      is whitespace. */
  lemma TrimKeepsMiddle(s: string)
    ensures exists i, j :: 0 <= i <= j <= |s| && Trim(s) == s[i..j]
                           && AllTrimmable(s[..i]) && AllTrimmable(s[j..])
  {
    var t := TrimStart(s);
    var r := TrimEnd(t);
    TrimParts(s, t, r);
    assert Trim(s) == r;
  }

  /** Trimming the end of what remains after trimming the start keeps a slice of `s`
      with whitespace on either side. */
  lemma TrimParts(s: string, t: string, r: string)
    requires t == TrimStart(s) && r == TrimEnd(t)
    ensures |s| - |t| + |r| <= |s| && r == s[|s| - |t|..|s| - |t| + |r|]
    ensures AllTrimmable(s[..|s| - |t|]) && AllTrimmable(s[|s| - |t| + |r|..])
  {
    PrefixOfSuffix(s, t, r);
  }

  /** A prefix `r` of a suffix `t` of `s` is the slice of `s` that starts where `t` does,
      and what follows `r` in `t` is what follows that slice in `s`. */
  lemma PrefixOfSuffix(s: string, t: string, r: string)
    requires |t| <= |s| && t == s[|s| - |t|..] && r <= t
    ensures r == s[|s| - |t|..|s| - |t| + |r|]
    ensures t[|r|..] == s[|s| - |t| + |r|..]
  {
  }

  lemma {:induction false} TrimStartEmptyIff(s: string)
    ensures TrimStart(s) == [] <==> AllTrimmable(s)
    decreases |s|
  {
    if |s| > 0 {
      TrimStartEmptyIff(s[1..]);
      if IsTrimmable(s[0]) {
        assert AllTrimmable(s) <==> AllTrimmable(s[1..]) by {
          if AllTrimmable(s[1..]) {
            forall i | 0 <= i < |s| ensures IsTrimmable(s[i]) {
              if i > 0 { assert s[i] == s[1..][i - 1]; }
            }
          }
        }
      }
    }
  }

}
