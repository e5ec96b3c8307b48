/**
 * String primitives that the TypeScript sources use through the JavaScript
 * standard library: `toLowerCase`, `includes`, `startsWith`, `split`,
 * `join`, `trim`, and the tokenising `split(/\s+/).filter(Boolean)`.
 * Strings are sequences of characters; only ASCII letters are case-folded
 * and only the ASCII whitespace characters count as whitespace.
 */
module Text {

  datatype Option<+T> = None | Some(value: T)

  /** The ASCII members of JavaScript's `\s` class (and of what `trim` strips). */
  predicate IsSpace(c: char) {
    c == ' ' || c == '\t' || c == '\n' || c == '\r' || c == '\U{000B}' || c == '\U{000C}'
  }

  function LowerChar(c: char): char {
    if 'A' <= c <= 'Z' then (c as int + 32) as char else c
  }

  /** `s.toLowerCase()`, restricted to ASCII letters. */
  function Lower(s: string): string {
    seq(|s|, i requires 0 <= i < |s| => LowerChar(s[i]))
  }

  lemma LowerIdempotent(s: string)
    ensures Lower(Lower(s)) == Lower(s)
  {
  }

  /** A string without upper-case ASCII letters is its own lowercase. */
  lemma LowerNoUpper(s: string)
    requires forall c :: c in s ==> !('A' <= c <= 'Z')
    ensures Lower(s) == s
  {
    forall i | 0 <= i < |s| ensures Lower(s)[i] == s[i] {
      assert s[i] in s;
    }
  }

  /** `hay.includes(needle)`: some suffix of `hay` starts with `needle`. */
  predicate Contains(hay: string, needle: string) {
    exists i :: 0 <= i <= |hay| && needle <= hay[i..]
  }

  /** A witness position proves `Contains`. */
  lemma ContainsAt(hay: string, needle: string, i: nat)
    requires i + |needle| <= |hay| && hay[i..i + |needle|] == needle
    ensures Contains(hay, needle)
  {
    assert needle <= hay[i..];
  }

  /** Every string includes the empty string. */
  lemma ContainsEmpty(hay: string)
    ensures Contains(hay, "")
  {
    assert "" <= hay[0..];
  }

  /** A needle with a character that `hay` lacks is not included in `hay`. */
  lemma NotContainsMissingChar(hay: string, needle: string, k: nat)
    requires k < |needle| && needle[k] !in hay
    ensures !Contains(hay, needle)
  {
    forall i | 0 <= i <= |hay| ensures !(needle <= hay[i..]) {
      if i + k < |hay| {
        assert hay[i + k] in hay;
        assert hay[i..][k] == hay[i + k];
      }
    }
  }

  /** `s.startsWith(p)`. */
  predicate StartsWith(s: string, p: string) {
    p <= s
  }

  /** What a `split` separates on: one fixed character, or any whitespace character. */
  datatype Separator = Char(c: char) | Whitespace

  predicate IsSep(sep: Separator, c: char) {
    match sep
    case Char(d) => c == d
    case Whitespace => IsSpace(c)
  }

  predicate NoSep(s: string, sep: Separator) {
    forall i :: 0 <= i < |s| ==> !IsSep(sep, s[i])
  }

  /**
   * `s.split(c)` for a one-character separator: the pieces between
   * separators, empty pieces included, so `""` splits into `[""]`.
   */
  function Split(s: string, sep: Separator): (r: seq<string>)
    ensures |r| >= 1
    ensures forall k :: 0 <= k < |r| ==> NoSep(r[k], sep)
  {
    if |s| == 0 then [""]
    else
      var rest := Split(s[1..], sep);
      if IsSep(sep, s[0]) then [""] + rest
      else [[s[0]] + rest[0]] + rest[1..]
  }

  /** `xs.join(sep)`. */
  function Join(xs: seq<string>, sep: string): string {
    if |xs| == 0 then ""
    else if |xs| == 1 then xs[0]
    else xs[0] + sep + Join(xs[1..], sep)
  }

  /** The strings of `xs` one after another (repeated `+=`). */
  function Concat(xs: seq<string>): string {
    if |xs| == 0 then "" else Concat(xs[..|xs| - 1]) + xs[|xs| - 1]
  }

  /** One more `+=` of the next string. */
  lemma ConcatStep(h: string, xs: seq<string>, i: nat)
    requires i < |xs|
    ensures h + Concat(xs[..i]) + xs[i] == h + Concat(xs[..i + 1])
  {
    assert xs[..i + 1][..i] == xs[..i];
  }

  /** The `filter(Boolean)` / `filter(x => x.length > 0)` step: drop empty strings. */
  function NonEmpty(xs: seq<string>): (r: seq<string>)
    ensures forall k :: 0 <= k < |r| ==> r[k] != ""
    ensures forall x :: x in r <==> x in xs && x != ""
  {
    if |xs| == 0 then []
    else
      assert xs == [xs[0]] + xs[1..];
      if xs[0] == "" then NonEmpty(xs[1..]) else [xs[0]] + NonEmpty(xs[1..])
  }

  lemma {:induction false} NonEmptyConcat(xs: seq<string>, ys: seq<string>)
    ensures NonEmpty(xs + ys) == NonEmpty(xs) + NonEmpty(ys)
  {
    if |xs| == 0 {
      assert xs + ys == ys;
    } else {
      assert (xs + ys)[0] == xs[0];
      assert (xs + ys)[1..] == xs[1..] + ys;
      NonEmptyConcat(xs[1..], ys);
    }
  }

  /** A separator-free string is one piece. */
  lemma {:induction false} SplitNoSep(a: string, sep: Separator)
    requires NoSep(a, sep)
    ensures Split(a, sep) == [a]
  {
    if |a| > 0 {
      SplitNoSep(a[1..], sep);
      assert [a[0]] + a[1..] == a;
    }
  }

  /** Splitting at the first separator peels off the first piece. */
  lemma {:induction false} SplitAtSep(a: string, c: char, b: string, sep: Separator)
    requires NoSep(a, sep) && IsSep(sep, c)
    ensures Split(a + [c] + b, sep) == [a] + Split(b, sep)
  {
    var s := a + [c] + b;
    if |a| > 0 {
      assert s[1..] == a[1..] + [c] + b;
      SplitAtSep(a[1..], c, b, sep);
      assert [a[0]] + a[1..] == a;
    } else {
      assert s[1..] == b;
    }
  }

  /** Splitting at any separator splits the two sides independently. */
  lemma {:induction false} SplitConcatSep(a: string, c: char, b: string, sep: Separator)
    requires IsSep(sep, c)
    ensures Split(a + [c] + b, sep) == Split(a, sep) + Split(b, sep)
  {
    if |a| > 0 {
      SplitConcatSep(a[1..], c, b, sep);
      ConsRegroup(a, c, b);
      SplitConsAppend(a[0], a[1..], a[1..] + [c] + b, Split(b, sep), sep);
    } else {
      assert a + [c] + b == [c] + b;
      SplitCons(c, b, sep);
    }
  }

  /** If `u` splits into the pieces of `t` and then `back`, so do both with one more character in front. */
  lemma SplitConsAppend(x: char, t: string, u: string, back: seq<string>, sep: Separator)
    requires Split(u, sep) == Split(t, sep) + back
    ensures Split([x] + u, sep) == Split([x] + t, sep) + back
  {
    SplitCons(x, u, sep);
    SplitCons(x, t, sep);
    ConsPieceAppend(x, sep, Split(t, sep), back);
  }

  /** The pieces of `[x] + t`, given the pieces `ps` of `t`. */
  function ConsPiece(x: char, sep: Separator, ps: seq<string>): seq<string>
    requires |ps| >= 1
  {
    if IsSep(sep, x) then [""] + ps else [[x] + ps[0]] + ps[1..]
  }

  lemma ConsPieceAppend(x: char, sep: Separator, ps: seq<string>, back: seq<string>)
    requires |ps| >= 1
    ensures ConsPiece(x, sep, ps + back) == ConsPiece(x, sep, ps) + back
  {
    assert (ps + back)[0] == ps[0] && (ps + back)[1..] == ps[1..] + back;
  }

  lemma ConsRegroup(a: string, c: char, b: string)
    requires |a| > 0
    ensures a == [a[0]] + a[1..] && a + [c] + b == [a[0]] + (a[1..] + [c] + b)
  {
  }

  /** Splitting a string one character longer at the front. */
  lemma SplitCons(x: char, t: string, sep: Separator)
    ensures Split([x] + t, sep) == ConsPiece(x, sep, Split(t, sep))
  {
    assert ([x] + t)[0] == x && ([x] + t)[1..] == t;
  }

  /** Joining the pieces of a split with the separator gives the string back. */
  lemma {:induction false} JoinSplit(s: string, c: char)
    ensures Join(Split(s, Char(c)), [c]) == s
  {
    if |s| > 0 {
      var rest := Split(s[1..], Char(c));
      JoinSplit(s[1..], c);
      if s[0] == c {
        assert Split(s, Char(c)) == [""] + rest;
        assert s == "" + [c] + Join(rest, [c]);
      } else {
        var r := Split(s, Char(c));
        assert r == [[s[0]] + rest[0]] + rest[1..];
        if |rest| == 1 {
          assert Join(r, [c]) == [s[0]] + rest[0];
        } else {
          assert rest == [rest[0]] + rest[1..];
          assert Join(rest, [c]) == rest[0] + [c] + Join(rest[1..], [c]);
          assert Join(r, [c]) == [s[0]] + rest[0] + [c] + Join(rest[1..], [c]);
        }
        assert s == [s[0]] + s[1..];
      }
    }
  }

  /** Splitting a join of separator-free pieces gives the pieces back. */
  lemma {:induction false} SplitJoin(xs: seq<string>, c: char)
    requires |xs| >= 1
    requires forall k :: 0 <= k < |xs| ==> NoSep(xs[k], Char(c))
    ensures Split(Join(xs, [c]), Char(c)) == xs
  {
    if |xs| == 1 {
      SplitNoSep(xs[0], Char(c));
    } else {
      SplitJoin(xs[1..], c);
      SplitAtSep(xs[0], c, Join(xs[1..], [c]), Char(c));
      assert [xs[0]] + xs[1..] == xs;
    }
  }

  // ---- trim ----

  function TrimStart(s: string): (r: string)
    ensures |r| <= |s| && r == s[|s| - |r|..]
    ensures |r| > 0 ==> !IsSpace(r[0])
  {
    if |s| > 0 && IsSpace(s[0]) then TrimStart(s[1..]) else s
  }

  function TrimEnd(s: string): (r: string)
    ensures |r| <= |s| && r == s[..|r|]
    ensures |r| > 0 ==> !IsSpace(r[|r| - 1])
  {
    if |s| > 0 && IsSpace(s[|s| - 1]) then TrimEnd(s[..|s| - 1]) else s
  }

  /** `s.trim()`: strip leading and trailing whitespace. */
  function Trim(s: string): string {
    TrimEnd(TrimStart(s))
  }

  predicate IsBlank(s: string) {
    forall i :: 0 <= i < |s| ==> IsSpace(s[i])
  }

  /** No whitespace at either end. */
  predicate IsTrimmed(s: string) {
    |s| == 0 || (!IsSpace(s[0]) && !IsSpace(s[|s| - 1]))
  }

  /** `!s.trim()` holds exactly for all-whitespace strings. */
  lemma {:induction false} TrimEmptyIffBlank(s: string)
    ensures Trim(s) == "" <==> IsBlank(s)
  {
    TrimStartBlank(s);
    var t := TrimStart(s);
    if |t| > 0 {
      assert TrimEnd(t) != "" by {
        TrimEndKeepsNonSpaceHead(t);
      }
    }
  }

  lemma {:induction false} TrimStartBlank(s: string)
    ensures TrimStart(s) == "" <==> IsBlank(s)
  {
    if |s| > 0 && IsSpace(s[0]) {
      TrimStartBlank(s[1..]);
      if IsBlank(s[1..]) {
        assert IsBlank(s);
      } else {
        var i :| 0 <= i < |s[1..]| && !IsSpace(s[1..][i]);
        assert !IsSpace(s[i + 1]);
      }
    }
  }

  lemma {:induction false} TrimEndKeepsNonSpaceHead(t: string)
    requires |t| > 0 && !IsSpace(t[0])
    ensures |TrimEnd(t)| > 0
  {
    if IsSpace(t[|t| - 1]) {
      TrimEndKeepsNonSpaceHead(t[..|t| - 1]);
    }
  }

  /** The result of `trim` has no whitespace at either end and is a slice of the input. */
  lemma {:induction false} TrimShape(s: string)
    ensures IsTrimmed(Trim(s))
    ensures var i := |s| - |TrimStart(s)|; i + |Trim(s)| <= |s| && Trim(s) == s[i..i + |Trim(s)|]
  {
    var t := TrimStart(s);
    var r := TrimEnd(t);
    SliceOfSuffix(s, t, r);
  }

  /** Only whitespace lies before and after the slice that `trim` keeps. */
  lemma {:induction false} TrimRemovesOnlyBlank(s: string)
    ensures var i := |s| - |TrimStart(s)|;
      i + |Trim(s)| <= |s| && IsBlank(s[..i]) && IsBlank(s[i + |Trim(s)|..])
  {
    var t := TrimStart(s);
    TrimStartDropsBlank(s);
    TrimEndDropsBlank(t);
    BlankAfterSlice(s, t, TrimEnd(t));
  }

  lemma BlankAfterSlice(s: string, t: string, r: string)
    requires |t| <= |s| && t == s[|s| - |t|..]
    requires |r| <= |t| && r == t[..|r|]
    requires IsBlank(t[|r|..])
    ensures IsBlank(s[|s| - |t| + |r|..])
  {
    assert s[|s| - |t| + |r|..] == t[|r|..];
  }

  /** `TrimStart` removes only whitespace. */
  lemma {:induction false} TrimStartDropsBlank(s: string)
    ensures IsBlank(s[..|s| - |TrimStart(s)|])
  {
    if |s| > 0 && IsSpace(s[0]) {
      TrimStartDropsBlank(s[1..]);
      var n := |s| - |TrimStart(s)|;
      assert s[..n] == [s[0]] + s[1..][..n - 1];
    }
  }

  /** `TrimEnd` removes only whitespace. */
  lemma {:induction false} TrimEndDropsBlank(s: string)
    ensures IsBlank(s[|TrimEnd(s)|..])
  {
    if |s| > 0 && IsSpace(s[|s| - 1]) {
      var u := s[..|s| - 1];
      TrimEndDropsBlank(u);
      var n := |TrimEnd(s)|;
      assert s[n..] == u[n..] + [s[|s| - 1]];
    }
  }

  /** A prefix of a suffix is a slice, and starts where the suffix does. */
  lemma SliceOfSuffix(s: string, t: string, r: string)
    requires |t| <= |s| && t == s[|s| - |t|..]
    requires |r| <= |t| && r == t[..|r|]
    ensures r == s[|s| - |t|..|s| - |t| + |r|]
    ensures |r| > 0 ==> r[0] == t[0]
  {
  }

  lemma TrimOfTrimmed(s: string)
    requires IsTrimmed(s)
    ensures Trim(s) == s
  {
  }

  /** Trimming a leading space off an already trimmed string. */
  lemma TrimSpaceThenTrimmed(s: string)
    requires IsTrimmed(s)
    ensures Trim(" " + s) == s
  {
    assert (" " + s)[1..] == s;
    assert TrimStart(" " + s) == TrimStart(s) == s;
    assert TrimEnd(s) == s;
  }

  /** A slice of a separator-free string is separator-free. */
  lemma NoSepSlice(s: string, sep: Separator, i: nat, j: nat)
    requires NoSep(s, sep) && i <= j <= |s|
    ensures NoSep(s[i..j], sep)
  {
    assert forall k :: 0 <= k < j - i ==> s[i..j][k] == s[i + k];
  }

  // ---- tokenising ----

  /**
   * `s.split(/\s+/).filter(Boolean)`: the maximal runs of non-whitespace.
   * Splitting at every whitespace character and dropping the empty pieces
   * gives the same list as splitting at whitespace runs.
   */
  function Words(s: string): seq<string> {
    NonEmpty(Split(s, Whitespace))
  }

  /** Every word is non-empty, holds no whitespace and occurs in the string. */
  lemma WordsShape(s: string)
    ensures forall w :: w in Words(s) ==> w != "" && NoSep(w, Whitespace) && Contains(s, w)
  {
    SplitPiecesOccur(s, Whitespace);
  }

  /** Moving one character to the front keeps an occurrence. */
  lemma ContainsInTail(s: string, w: string)
    requires |s| > 0 && Contains(s[1..], w)
    ensures Contains(s, w)
  {
    var i :| 0 <= i <= |s[1..]| && w <= s[1..][i..];
    assert s[1..][i..] == s[i + 1..];
  }

  /** The first piece of a split is a prefix of the string. */
  lemma {:induction false} SplitFirstIsPrefix(s: string, sep: Separator)
    ensures Split(s, sep)[0] <= s
  {
    if |s| > 0 && !IsSep(sep, s[0]) {
      SplitFirstIsPrefix(s[1..], sep);
      assert s == [s[0]] + s[1..];
    }
  }

  /** Every piece of a split occurs in the string. */
  lemma {:induction false} SplitPiecesOccur(s: string, sep: Separator)
    ensures forall w :: w in Split(s, sep) ==> Contains(s, w)
  {
    if |s| == 0 {
      ContainsEmpty(s);
    } else {
      var rest := Split(s[1..], sep);
      SplitPiecesOccur(s[1..], sep);
      forall w | w in rest ensures Contains(s, w) {
        ContainsInTail(s, w);
      }
      if IsSep(sep, s[0]) {
        ContainsEmpty(s);
      } else {
        SplitFirstIsPrefix(s[1..], sep);
        assert [s[0]] + rest[0] <= s[0..];
        assert Split(s, sep) == [[s[0]] + rest[0]] + rest[1..];
      }
    }
  }

  /** A query has no words exactly when it is empty or all whitespace. */
  lemma {:induction false} WordsEmptyIffBlank(s: string)
    ensures Words(s) == [] <==> IsBlank(s)
  {
    if |s| > 0 {
      var rest := Split(s[1..], Whitespace);
      WordsEmptyIffBlank(s[1..]);
      if IsSpace(s[0]) {
        assert Split(s, Whitespace) == [""] + rest;
        NonEmptyConcat([""], rest);
        assert IsBlank(s) <==> IsBlank(s[1..]) by {
          if IsBlank(s[1..]) {
            forall i | 0 <= i < |s| ensures IsSpace(s[i]) {
              if i > 0 { assert s[i] == s[1..][i - 1]; }
            }
          }
        }
      } else {
        assert Split(s, Whitespace)[0] == [s[0]] + rest[0];
        assert Words(s) != [];
      }
    }
  }

  /** A single whitespace-free, non-empty string is its own only word. */
  lemma WordsOfWord(w: string)
    requires w != "" && NoSep(w, Whitespace)
    ensures Words(w) == [w]
  {
    SplitNoSep(w, Whitespace);
    assert NonEmpty([w]) == [w] + NonEmpty([]);
  }
}
