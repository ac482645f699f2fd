/** `count_total_lines`: the number of lines of a file that are not `//` comments. */
module LineCount {
  import opened Wrappers
  import opened Seqs
  import opened Text

  const CommentPrefix: string := "//"

  /** A line that starts with `//` at its first column (indented comments do not qualify). */
  predicate IsCommentLine(line: string)
  {
    StartsWith(line, CommentPrefix)
  }

  predicate IsCountedLine(line: string)
  {
    !IsCommentLine(line)
  }

  /** `len([line for line in fileContent if not line.startswith("//")])` */
  function CountNonComment(lines: seq<string>): (n: nat)
  {
    |Filter(IsCountedLine, lines)|
  }

  /**
   * `count_total_lines`, given the outcome of reading the file: 0 when both
   * encodings failed, else the non-comment lines of what was read.
   */
  function CountTotalLines(read: Option<seq<string>>): (n: nat)
    ensures read.None? ==> n == 0
    ensures read.Some? ==> n + |Filter(IsCommentLine, read.value)| == |read.value|
  {
    match read
    case None => 0
    case Some(lines) =>
      CommentLinesComplement(lines);
      CountNonComment(lines)
  }

  /** Each line is either counted or a comment: the two counts add up to the number of lines. */
  lemma CommentLinesComplement(lines: seq<string>)
    ensures CountNonComment(lines) + |Filter(IsCommentLine, lines)| == |lines|
  {
    FilterComplement(IsCountedLine, IsCommentLine, lines);
  }

  /** The count is the number of lines exactly when no line is a comment. */
  lemma CountIsAllLinesIffNoComments(lines: seq<string>)
    ensures CountNonComment(lines) == |lines| <==> forall i :: 0 <= i < |lines| ==> !IsCommentLine(lines[i])
  {
    CommentLinesComplement(lines);
    if CountNonComment(lines) == |lines| {
      var comments := Filter(IsCommentLine, lines);
      assert |comments| == 0;
    } else {
      var comments := Filter(IsCommentLine, lines);
      assert |comments| > 0;
      assert comments[0] in lines && IsCommentLine(comments[0]);
    }
  }
}
