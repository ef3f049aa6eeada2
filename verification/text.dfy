/**
 * Character classes and scanners over text (`string` is `seq<char>`).
 * These stand in for the few pieces of Python's `re` and `str` behaviour
 * that the CQL translator relies on.
 */
module Text {
  import opened Wrappers

  /** Python's `str.isspace()`; it is also the class that `\s` matches in a `str` pattern. */
  predicate IsSpace(c: char) {
    var n := c as int;
    (9 <= n <= 13) || (28 <= n <= 32) || n == 0x85 || n == 0xA0 || n == 0x1680
    || (0x2000 <= n <= 0x200A) || n == 0x2028 || n == 0x2029 || n == 0x202F
    || n == 0x205F || n == 0x3000
  }

  /** `\d`, restricted to ASCII digits. */
  predicate IsDigit(c: char) {
    '0' <= c <= '9'
  }

  /** `\w`, restricted to ASCII letters, digits and the underscore. */
  predicate IsWordChar(c: char) {
    ('a' <= c <= 'z') || ('A' <= c <= 'Z') || IsDigit(c) || c == '_'
  }

  /** `s.strip() == ""`: the text holds nothing but whitespace. */
  predicate IsBlank(s: string) {
    forall i :: 0 <= i < |s| ==> IsSpace(s[i])
  }

  /**
   * The representative of a character's class under `re.IGNORECASE`:
   * ASCII letters fold to lower case, and the four non-ASCII characters that
   * Python's matcher treats as equal to an ASCII letter fold to that letter.
   */
  function FoldCase(c: char): char {
    if 'A' <= c <= 'Z' then (c as int + 32) as char
    else if c as int == 0x130 || c as int == 0x131 then 'i'
    else if c as int == 0x17F then 's'
    else if c as int == 0x212A then 'k'
    else c
  }

  /** `str.upper()` on one character, for ASCII letters. */
  function ToUpper(c: char): char {
    if 'a' <= c <= 'z' then (c as int - 32) as char else c
  }

  /** `pat` occurs in `s` at position `i`. */
  predicate StartsWithAt(s: string, i: nat, pat: string) {
    i + |pat| <= |s| && s[i..i + |pat|] == pat
  }

  /** `pat` occurs somewhere in `s`. */
  ghost predicate Occurs(s: string, pat: string) {
    exists i: nat :: StartsWithAt(s, i, pat)
  }

  /** `pat` occurs at position `i` of `s` when letter case is ignored. */
  predicate MatchesFoldedAt(s: string, i: nat, pat: string) {
    i + |pat| <= |s| && forall k :: 0 <= k < |pat| ==> FoldCase(s[i + k]) == FoldCase(pat[k])
  }

  /** `s.endswith(suffix)`. */
  predicate EndsWith(s: string, suffix: string) {
    |suffix| <= |s| && s[|s| - |suffix|..] == suffix
  }

  /** The end of the longest run of characters satisfying `P` that starts at `i`. */
  function RunEnd(s: string, i: nat, P: char -> bool): (r: nat)
    requires i <= |s|
    ensures i <= r <= |s|
    ensures forall k :: i <= k < r ==> P(s[k])
    ensures r == |s| || !P(s[r])
    decreases |s| - i
  {
    if i == |s| || !P(s[i]) then i else RunEnd(s, i + 1, P)
  }

  /** The run's end is the one position where the run stops. */
  lemma {:induction false} RunEndIsUnique(s: string, i: nat, j: nat, P: char -> bool)
    requires i <= j <= |s|
    requires forall k :: i <= k < j ==> P(s[k])
    requires j == |s| || !P(s[j])
    ensures RunEnd(s, i, P) == j
    decreases j - i
  {
    if i < j {
      RunEndIsUnique(s, i + 1, j, P);
    }
  }

  /** The position of the first line break at or after `i`, or `|s|` when there is none. */
  function LineEnd(s: string, i: nat): (r: nat)
    requires i <= |s|
    ensures i <= r <= |s|
    ensures forall k :: i <= k < r ==> s[k] != '\n'
    ensures r == |s| || s[r] == '\n'
  {
    RunEnd(s, i, c => c != '\n')
  }

  /** The smallest `k` in `[lo, hi)` with `P(k)`: a left-to-right scan. */
  function FirstWhere(lo: nat, hi: nat, P: nat -> bool): (r: Option<nat>)
    ensures r.Some? ==> lo <= r.value < hi && P(r.value)
    ensures r.Some? ==> forall k :: lo <= k < r.value ==> !P(k)
    ensures r.None? ==> forall k :: lo <= k < hi ==> !P(k)
    decreases hi - lo
  {
    if lo >= hi then None
    else if P(lo) then Some(lo)
    else FirstWhere(lo + 1, hi, P)
  }

  /** The largest `k` in `[lo, hi)` with `P(k)`: a right-to-left scan (greedy backtracking). */
  function LastWhere(lo: nat, hi: nat, P: nat -> bool): (r: Option<nat>)
    ensures r.Some? ==> lo <= r.value < hi && P(r.value)
    ensures r.Some? ==> forall k :: r.value < k < hi ==> !P(k)
    ensures r.None? ==> forall k :: lo <= k < hi ==> !P(k)
    decreases hi
  {
    if hi <= lo then None
    else if P(hi - 1) then Some(hi - 1)
    else LastWhere(lo, hi - 1, P)
  }

  /** `s.find(pat)`, as an option: the leftmost occurrence of `pat` in `s`. */
  function FirstOccurrence(s: string, pat: string): (r: Option<nat>)
    ensures r.Some? ==> StartsWithAt(s, r.value, pat)
    ensures r.Some? ==> forall k: nat :: k < r.value ==> !StartsWithAt(s, k, pat)
    ensures r.None? <==> !Occurs(s, pat)
  {
    var r := FirstWhere(0, |s| + 1, (i: nat) => StartsWithAt(s, i, pat));
    assert r.Some? ==> forall k: nat :: k < r.value ==> !StartsWithAt(s, k, pat) by {
      if r.Some? {
        forall k: nat | k < r.value ensures !StartsWithAt(s, k, pat) {
          assert !((i: nat) => StartsWithAt(s, i, pat))(k);
        }
      }
    }
    assert r.None? ==> forall k: nat :: !StartsWithAt(s, k, pat) by {
      if r.None? {
        forall k: nat ensures !StartsWithAt(s, k, pat) {
          if k <= |s| {
            assert !((i: nat) => StartsWithAt(s, i, pat))(k);
          }
        }
      }
    }
    r
  }

  /** `re.search(pat, s, re.IGNORECASE)` succeeds, for a pattern made of literal characters. */
  function ContainsFolded(s: string, pat: string): (r: bool)
    ensures r <==> exists i: nat :: MatchesFoldedAt(s, i, pat)
  {
    var f := FirstWhere(0, |s| + 1, (i: nat) => MatchesFoldedAt(s, i, pat));
    assert f.None? ==> forall k: nat :: !MatchesFoldedAt(s, k, pat) by {
      if f.None? {
        forall k: nat ensures !MatchesFoldedAt(s, k, pat) {
          if k <= |s| {
            assert !((i: nat) => MatchesFoldedAt(s, i, pat))(k);
          }
        }
      }
    }
    f.Some?
  }

  /** `s.replace(c, "")`: every occurrence of `c` removed. */
  function RemoveChar(s: string, c: char): (r: string)
    ensures c !in r
    ensures c !in s ==> r == s
    ensures |r| <= |s|
    ensures forall x :: x != c ==> multiset(r)[x] == multiset(s)[x]
  {
    if s == [] then []
    else
      assert s == [s[0]] + s[1..];
      (if s[0] == c then [] else [s[0]]) + RemoveChar(s[1..], c)
  }

  /** Removing a character commutes with concatenation, so the characters kept stay in order. */
  lemma {:induction false} RemoveCharConcat(a: string, b: string, c: char)
    ensures RemoveChar(a + b, c) == RemoveChar(a, c) + RemoveChar(b, c)
  {
    if a == [] {
      assert a + b == b;
    } else {
      assert (a + b)[0] == a[0];
      assert (a + b)[1..] == a[1..] + b;
      RemoveCharConcat(a[1..], b, c);
    }
  }

  /** `s.split(c)[0]`: the text before the first `c`, or all of it. */
  function PrefixBefore(s: string, c: char): (r: string)
    ensures |r| <= |s| && r == s[..|r|]
    ensures c !in r
    ensures |r| == |s| || s[|r|] == c
  {
    if s == [] || s[0] == c then []
    else [s[0]] + PrefixBefore(s[1..], c)
  }

  /** The prefix stops at the first occurrence of the separator. */
  lemma {:induction false} PrefixBeforeIsUnique(s: string, c: char, n: nat)
    requires n <= |s|
    requires c !in s[..n]
    requires n == |s| || s[n] == c
    ensures PrefixBefore(s, c) == s[..n]
  {
    if n > 0 {
      assert s[0] == s[..n][0];
      assert s[1..][..n - 1] == s[..n][1..];
      PrefixBeforeIsUnique(s[1..], c, n - 1);
    }
  }

  /** `s.split()`: the maximal runs of non-whitespace characters, in order. */
  function SplitWords(s: string): (r: seq<string>)
    ensures forall k :: 0 <= k < |r| ==> IsWord(r[k])
    decreases |s|
  {
    if s == [] then []
    else if IsSpace(s[0]) then SplitWords(s[1..])
    else
      var e := RunEnd(s, 0, c => !IsSpace(c));
      [s[..e]] + SplitWords(s[e..])
  }

  /** A non-empty run of non-whitespace characters. */
  predicate IsWord(w: string) {
    w != [] && forall k :: 0 <= k < |w| ==> !IsSpace(w[k])
  }

  /** `" ".join(ws)`. */
  function JoinWords(ws: seq<string>): string {
    if ws == [] then ""
    else if |ws| == 1 then ws[0]
    else ws[0] + " " + JoinWords(ws[1..])
  }

  /** Splitting words joined by single spaces gives the words back. */
  lemma {:induction false} SplitJoinWords(ws: seq<string>)
    requires forall k :: 0 <= k < |ws| ==> IsWord(ws[k])
    ensures SplitWords(JoinWords(ws)) == ws
    decreases |ws|
  {
    if ws == [] {
    } else {
      var w := ws[0];
      var s := JoinWords(ws);
      SplitLeadingWord(w, if |ws| == 1 then "" else " " + JoinWords(ws[1..]));
      if |ws| == 1 {
        assert s == w + "";
        assert SplitWords("") == [];
      } else {
        assert s == w + (" " + JoinWords(ws[1..]));
        var rest := " " + JoinWords(ws[1..]);
        assert IsSpace(rest[0]);
        assert rest[1..] == JoinWords(ws[1..]);
        SplitJoinWords(ws[1..]);
      }
    }
  }

  /** A word followed by text that is empty or starts with whitespace is split off first. */
  lemma SplitLeadingWord(w: string, rest: string)
    requires IsWord(w)
    requires rest == [] || IsSpace(rest[0])
    ensures SplitWords(w + rest) == [w] + SplitWords(rest)
  {
    var s := w + rest;
    var P := (c: char) => !IsSpace(c);
    forall k | 0 <= k < |w| ensures P(s[k]) {
      assert s[k] == w[k];
    }
    if rest != [] {
      assert s[|w|] == rest[0];
    }
    RunEndIsUnique(s, 0, |w|, P);
    var e := RunEnd(s, 0, P);
    assert s[..e] == w;
    assert s[e..] == rest;
  }

  /**
   * Gaps that may surround `n` words: all whitespace, the outer two possibly
   * empty, every inner one non-empty.
   */
  predicate Separators(gaps: seq<string>, n: nat) {
    && |gaps| == n + 1
    && (forall k :: 0 <= k < |gaps| ==> IsBlank(gaps[k]))
    && (forall k :: 0 < k < n ==> gaps[k] != [])
  }

  /** The words with the gaps placed before, between and after them. */
  function Spaced(gaps: seq<string>, ws: seq<string>): string
    requires |gaps| == |ws| + 1
  {
    if ws == [] then gaps[0] else gaps[0] + ws[0] + Spaced(gaps[1..], ws[1..])
  }

  /** Leading whitespace does not change the split. */
  lemma {:induction false} SplitAfterBlank(b: string, t: string)
    requires IsBlank(b)
    ensures SplitWords(b + t) == SplitWords(t)
    decreases |b|
  {
    if b != [] {
      assert (b + t)[0] == b[0] && IsSpace(b[0]);
      assert (b + t)[1..] == b[1..] + t;
      assert SplitWords(b + t) == SplitWords(b[1..] + t);
      assert IsBlank(b[1..]) by {
        forall k | 0 <= k < |b[1..]| ensures IsSpace(b[1..][k]) {
          assert b[1..][k] == b[k + 1];
        }
      }
      SplitAfterBlank(b[1..], t);
    } else {
      assert b + t == t;
    }
  }

  /**
   * `str.split()` gives back the words however they are separated: by any
   * non-empty whitespace between them and any whitespace around them.
   */
  lemma {:induction false} SplitSpaced(gaps: seq<string>, ws: seq<string>)
    requires forall k :: 0 <= k < |ws| ==> IsWord(ws[k])
    requires Separators(gaps, |ws|)
    ensures SplitWords(Spaced(gaps, ws)) == ws
    decreases |ws|
  {
    if ws == [] {
      SplitAfterBlank(gaps[0], "");
      assert gaps[0] + "" == gaps[0];
    } else {
      var rest := Spaced(gaps[1..], ws[1..]);
      assert Separators(gaps[1..], |ws[1..]|) by {
        forall k | 0 < k < |ws[1..]| ensures gaps[1..][k] != [] {
          assert gaps[1..][k] == gaps[k + 1];
        }
      }
      assert rest == [] || IsSpace(rest[0]) by {
        if |ws| > 1 {
          assert gaps[1] != [] && IsBlank(gaps[1]);
          assert rest == gaps[1] + ws[1] + Spaced(gaps[2..], ws[2..]) by {
            assert gaps[1..][0] == gaps[1] && gaps[1..][1..] == gaps[2..];
            assert ws[1..][0] == ws[1] && ws[1..][1..] == ws[2..];
          }
          assert rest[0] == gaps[1][0];
        } else {
          assert rest == gaps[1..][0];
          if rest != [] {
            assert IsBlank(gaps[1]);
          }
        }
      }
      SplitAfterBlank(gaps[0], ws[0] + rest);
      assert Spaced(gaps, ws) == gaps[0] + (ws[0] + rest);
      SplitLeadingWord(ws[0], rest);
      SplitSpaced(gaps[1..], ws[1..]);
    }
  }

  /**
   * The whitespace around and between the pieces of `SplitWords(s)`: the
   * text is its pieces with these gaps, so every non-whitespace character
   * of the text lies in a piece, in order.
   */
  ghost function SplitGaps(s: string): (g: seq<string>)
    ensures Separators(g, |SplitWords(s)|)
    ensures Spaced(g, SplitWords(s)) == s
    ensures s != [] && IsSpace(s[0]) ==> g[0] != []
    decreases |s|
  {
    if s == [] then [""]
    else if IsSpace(s[0]) then
      var g := SplitGaps(s[1..]);
      var ws := SplitWords(s[1..]);
      var g' := [[s[0]] + g[0]] + g[1..];
      assert IsBlank(g'[0]);
      assert forall k :: 1 <= k < |g'| ==> g'[k] == g[k];
      SpacedHead([s[0]], g, ws);
      assert s == [s[0]] + s[1..];
      g'
    else
      var e := RunEnd(s, 0, c => !IsSpace(c));
      var t := s[e..];
      var g := SplitGaps(t);
      var ws := SplitWords(t);
      assert SplitWords(s) == [s[..e]] + ws;
      var g' := [""] + g;
      assert g'[1..] == g;
      assert ([s[..e]] + ws)[1..] == ws;
      assert Spaced(g', [s[..e]] + ws) == "" + s[..e] + Spaced(g, ws);
      assert s == s[..e] + t;
      assert ws != [] ==> g[0] != [] by {
        if ws != [] {
          assert t != [];
          assert IsSpace(t[0]);
        }
      }
      assert forall k :: 0 < k < |g'| - 1 ==> g'[k] == g[k - 1];
      g'
  }

  /** Whitespace added in front of the text joins its first gap. */
  lemma SpacedHead(b: string, g: seq<string>, ws: seq<string>)
    requires |g| == |ws| + 1
    ensures Spaced([b + g[0]] + g[1..], ws) == b + Spaced(g, ws)
  {
    var g' := [b + g[0]] + g[1..];
    assert g'[1..] == g[1..];
  }

  /** Five concatenated sequences, grouped to the right. */
  lemma Regroup<T>(a: seq<T>, b: seq<T>, c: seq<T>, d: seq<T>, e: seq<T>)
    ensures a + (b + (c + (d + e))) == a + b + c + d + e
  {
  }
}
