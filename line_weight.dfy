// A script's weight: the number of its lines that are neither blank nor a
// `//` line comment (CodeOverview.cs, the inner loop of ScanProjectScripts).
module LineWeight {
  import opened Text

  const CommentFlag: string := "//"

  /** The test applied to each line of a script. */
  predicate CountsTowardWeight(line: string) {
    !IsNullOrWhiteSpace(line) && !StartsWith(TrimStart(line), CommentFlag)
  }

  /** `k` is the index of the first character of `line` that is not whitespace. */
  ghost predicate FirstNonWhiteSpace(line: string, k: int) {
    0 <= k < |line| && !IsWhiteSpace(line[k])
    && forall j :: 0 <= j < k ==> IsWhiteSpace(line[j])
  }

  /** The first two characters from index `k` on are the comment flag. */
  ghost predicate OpensComment(line: string, k: int) {
    0 <= k && k + 1 < |line| && line[k] == '/' && line[k + 1] == '/'
  }

  /** TrimStart stops at the first non-whitespace character, if there is one. */
  lemma TrimStartStopsAtFirst(line: string)
    ensures IsNullOrWhiteSpace(line) <==> TrimStart(line) == []
    ensures !IsNullOrWhiteSpace(line) ==> FirstNonWhiteSpace(line, |line| - |TrimStart(line)|)
  {
  }

  lemma FirstNonWhiteSpaceUnique(line: string, j: int, k: int)
    requires FirstNonWhiteSpace(line, j) && FirstNonWhiteSpace(line, k)
    ensures j == k
  {
  }

  /** A line counts exactly when it has a non-whitespace character and the
    * first such character does not open a `//` comment. */
  lemma CountsTowardWeightIff(line: string)
    ensures CountsTowardWeight(line) <==>
      exists k :: FirstNonWhiteSpace(line, k) && !OpensComment(line, k)
  {
    TrimStartStopsAtFirst(line);
    var r := TrimStart(line);
    var k := |line| - |r|;
    if !IsNullOrWhiteSpace(line) {
      forall j | FirstNonWhiteSpace(line, j) ensures j == k {
        FirstNonWhiteSpaceUnique(line, j, k);
      }
      assert StartsWith(r, CommentFlag) <==> OpensComment(line, k) by {
        if 2 <= |r| {
          assert r[..2] == [line[k], line[k + 1]];
        }
      }
    }
  }

  /** Blank and whitespace-only lines do not count. */
  lemma BlankLinesExamples()
    ensures !CountsTowardWeight("")
    ensures !CountsTowardWeight("   ")
    ensures !CountsTowardWeight("\r")
  {
  }

  /** A comment line does not count. */
  lemma CommentLineExample()
    ensures !CountsTowardWeight("// comment")
  {
    CountsTowardWeightIff("// comment");
    assert FirstNonWhiteSpace("// comment", 0);
  }

  /** An indented comment line does not count either. */
  lemma IndentedCommentExample()
    ensures !CountsTowardWeight("  // x")
  {
    CountsTowardWeightIff("  // x");
    assert FirstNonWhiteSpace("  // x", 2);
  }

  /** An indented code line counts. */
  lemma CodeLineExample()
    ensures CountsTowardWeight("  int x;")
  {
    var s := "  int x;";
    assert IsWhiteSpace(s[0]) && IsWhiteSpace(s[1]) && !IsWhiteSpace(s[2]);
    assert FirstNonWhiteSpace(s, 2) && !OpensComment(s, 2);
    CountsTowardWeightIff(s);
  }

  /** A code line with a trailing comment counts. */
  lemma TrailingCommentExample()
    ensures CountsTowardWeight("x = a / b; // half")
  {
    var s := "x = a / b; // half";
    assert FirstNonWhiteSpace(s, 0) && !OpensComment(s, 0);
    CountsTowardWeightIff(s);
  }

  /** Number of counting lines in `lines`. */
  function LinesWeight(lines: seq<string>): (n: nat)
    ensures n <= |lines|
  {
    if |lines| == 0 then 0
    else LinesWeight(lines[..|lines| - 1]) + (if CountsTowardWeight(lines[|lines| - 1]) then 1 else 0)
  }

  /** The weight of a script's text: its counting lines once split on '\n'. */
  function Weight(text: string): nat {
    LinesWeight(Split(text))
  }

  lemma {:induction false} LinesWeightAppend(xs: seq<string>, ys: seq<string>)
    ensures LinesWeight(xs + ys) == LinesWeight(xs) + LinesWeight(ys)
    decreases |ys|
  {
    if |ys| > 0 {
      var n := |ys| - 1;
      var zs := xs + ys;
      assert zs[..|zs| - 1] == xs + ys[..n];
      assert zs[|zs| - 1] == ys[n];
      LinesWeightAppend(xs, ys[..n]);
      assert LinesWeight(zs) == LinesWeight(xs + ys[..n]) + (if CountsTowardWeight(ys[n]) then 1 else 0);
    } else {
      assert xs + ys == xs;
    }
  }

  /** Weight adds up over the line feed joining two texts. */
  lemma WeightConcat(a: string, b: string)
    ensures Weight(a + "\n" + b) == Weight(a) + Weight(b)
  {
    SplitConcat(a, b);
    LinesWeightAppend(Split(a), Split(b));
  }

  /** A text without a line feed weighs 1 if it counts and 0 otherwise. */
  lemma WeightSingleLine(line: string)
    requires '\n' !in line
    ensures Weight(line) == if CountsTowardWeight(line) then 1 else 0
  {
    SplitSingle(line);
    assert Split(line)[..0] == [];
  }

  /** The weight never exceeds the number of lines, which is one more than
    * the number of line feeds. */
  lemma WeightBound(text: string)
    ensures Weight(text) <= |Split(text)| == NewlineCount(text) + 1
  {
    SplitLength(text);
  }

  function NewlineCount(s: string): nat {
    if |s| == 0 then 0 else (if s[0] == '\n' then 1 else 0) + NewlineCount(s[1..])
  }

  lemma {:induction false} SplitLength(s: string)
    ensures |Split(s)| == NewlineCount(s) + 1
  {
    if |s| > 0 { SplitLength(s[1..]); }
  }

  /** The counting loop over the lines of a script text. */
  method CountWeight(text: string) returns (classLineCount: nat)
    ensures classLineCount == Weight(text)
  {
    var fileLines := Split(text);
    classLineCount := 0;
    var i := 0;
    while i < |fileLines|
      invariant 0 <= i <= |fileLines|
      invariant classLineCount == LinesWeight(fileLines[..i])
    {
      var line := fileLines[i];
      assert fileLines[..i + 1][..i] == fileLines[..i] && fileLines[..i + 1][i] == line;
      if CountsTowardWeight(line) {
        classLineCount := classLineCount + 1;
      }
      i := i + 1;
    }
    assert fileLines[..i] == fileLines;
  }
}
