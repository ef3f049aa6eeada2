/**
 * Line structure of rendered text: `s.split("\n")`, `"\n".join(lines)`, and
 * the final pass of the Measure builder that drops every line holding only
 * whitespace.
 */
module LineText {
  import opened Text

  /** `s.split("\n")`: the text between line breaks; never empty, as in Python. */
  function Lines(s: string): (r: seq<string>)
    ensures |r| >= 1
    ensures forall k :: 0 <= k < |r| ==> '\n' !in r[k]
    ensures JoinLines(r) == s
    decreases |s|
  {
    var e := LineEnd(s, 0);
    if e == |s| then
      assert s[..e] == s;
      [s]
    else
      var rest := Lines(s[e + 1..]);
      assert s == s[..e] + "\n" + s[e + 1..];
      [s[..e]] + rest
  }

  /** `"\n".join(ls)`. */
  function JoinLines(ls: seq<string>): string {
    if |ls| == 0 then ""
    else if |ls| == 1 then ls[0]
    else ls[0] + "\n" + JoinLines(ls[1..])
  }

  /** Splitting joined lines gives the lines back, as long as no line holds a break. */
  lemma {:induction false} LinesOfJoinLines(ls: seq<string>)
    requires |ls| >= 1
    requires forall k :: 0 <= k < |ls| ==> '\n' !in ls[k]
    ensures Lines(JoinLines(ls)) == ls
    decreases |ls|
  {
    var s := JoinLines(ls);
    var w := ls[0];
    forall k | 0 <= k < |w| ensures s[k] != '\n' {
      assert s[k] == w[k];
    }
    if |ls| == 1 {
      RunEndIsUnique(s, 0, |s|, c => c != '\n');
    } else {
      var tail := JoinLines(ls[1..]);
      assert s == w + "\n" + tail;
      assert s[|w|] == '\n';
      RunEndIsUnique(s, 0, |w|, c => c != '\n');
      assert s[..|w|] == w;
      assert s[|w| + 1..] == tail;
      LinesOfJoinLines(ls[1..]);
    }
  }

  /** The lines that hold something other than whitespace, in their original order. */
  function NonBlankLines(ls: seq<string>): (r: seq<string>)
    ensures |r| <= |ls|
    ensures forall k :: 0 <= k < |r| ==> !IsBlank(r[k]) && r[k] in ls
    ensures forall k :: 0 <= k < |ls| && !IsBlank(ls[k]) ==> ls[k] in r
  {
    if ls == [] then []
    else (if IsBlank(ls[0]) then [] else [ls[0]]) + NonBlankLines(ls[1..])
  }

  /**
   * `"\n".join([line for line in s.split("\n") if line.strip()])`.
   */
  function DropBlankLines(s: string): (r: string)
    ensures IsBlank(s) <==> r == ""
    ensures r != "" ==> Lines(r) == NonBlankLines(Lines(s))
    ensures r != "" ==> forall k :: 0 <= k < |Lines(r)| ==> !IsBlank(Lines(r)[k])
  {
    var kept := NonBlankLines(Lines(s));
    var r := JoinLines(kept);
    if IsBlank(s) then
      BlankTextHasBlankLines(s);
      r
    else
      NonBlankTextHasNonBlankLine(s);
      assert kept != [];
      assert kept[0] != "";
      assert r[..|kept[0]|] == kept[0] by { JoinLinesStartsWithFirst(kept); }
      LinesOfJoinLines(kept);
      r
  }

  /** Joined lines start with the first line. */
  lemma {:induction false} JoinLinesStartsWithFirst(ls: seq<string>)
    requires |ls| >= 1
    ensures |ls[0]| <= |JoinLines(ls)| && JoinLines(ls)[..|ls[0]|] == ls[0]
  {
    if |ls| > 1 {
      assert JoinLines(ls) == ls[0] + ("\n" + JoinLines(ls[1..]));
    }
  }

  /** A whitespace-only text has only whitespace-only lines. */
  lemma {:induction false} BlankTextHasBlankLines(s: string)
    requires IsBlank(s)
    ensures NonBlankLines(Lines(s)) == []
    decreases |s|
  {
    var e := LineEnd(s, 0);
    if e == |s| {
    } else {
      assert IsBlank(s[..e]);
      assert IsBlank(s[e + 1..]);
      BlankTextHasBlankLines(s[e + 1..]);
    }
  }

  /** A text with a non-whitespace character keeps at least one line. */
  lemma {:induction false} NonBlankTextHasNonBlankLine(s: string)
    requires !IsBlank(s)
    ensures NonBlankLines(Lines(s)) != []
    decreases |s|
  {
    var e := LineEnd(s, 0);
    if e == |s| {
      assert s[..e] == s;
    } else if !IsBlank(s[..e]) {
    } else {
      forall j | 0 <= j <= e ensures IsSpace(s[j]) {
        if j < e {
          assert s[..e][j] == s[j];
        }
      }
      var i :| 0 <= i < |s| && !IsSpace(s[i]);
      assert i > e;
      assert s[e + 1..][i - e - 1] == s[i];
      NonBlankTextHasNonBlankLine(s[e + 1..]);
    }
  }
}
