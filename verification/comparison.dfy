/**
 * `compare_folders`: every primary file adds its line count to the total,
 * and, when its best match scores at least the threshold, the score times
 * that line count to the similar-lines total; the overall similarity is the
 * quotient of the two totals.
 */
module Comparison {
  import opened Wrappers
  import opened Environment
  import opened FileDiscovery
  import opened LineCount
  import opened Matching
  import opened Seqs

  /** The running totals of `compare_folders`. */
  datatype Report = Report(totalSimilarLines: real, totalLines: nat, processedFiles: nat)

  /** The `.cs` files of a walked tree, build output removed, as `compare_folders` prepares both trees. */
  function SourceFiles(host: Host, walk: seq<WalkStep>): seq<string>
  {
    RemoveBuildFiles(CsFilesOf(walk, host.join))
  }

  function LinesIn(host: Host, file: string): nat
  {
    CountTotalLines(host.read(file))
  }

  /**
   * `file_similarity(file1, best_match)` recomputed after the search: the
   * score of the match, or 0.0 when there is none (opening `None` raises, and
   * both `except` branches turn that into 0.0).
   */
  function SimilarityTo(host: Host, file: string, bestMatch: Option<string>): real
  {
    match bestMatch
    case None => 0.0
    case Some(other) => host.similarity(file, other)
  }

  /** `score × lines`: a file's line count weighted by its similarity score. */
  function Weighted(score: real, lines: nat): (w: real)
    ensures 0.0 <= score <= 1.0 ==> 0.0 <= w <= lines as real
    ensures score == 0.0 ==> w == 0.0
  {
    assert 0.0 <= score <= 1.0 ==> score * lines as real <= 1.0 * lines as real;
    score * lines as real
  }

  /** What one primary file adds to the similar-lines total. */
  function Contribution(host: Host, file: string, refs: seq<string>, threshold: real): (c: real)
    ensures var m := BestMatchOf(file, refs, host.similarity);
            && (m.similarity >= threshold && m.best.Some? ==> c == Weighted(m.similarity, LinesIn(host, file)))
            && (m.similarity < threshold || m.best.None? ==> c == 0.0)
  {
    var m := BestMatchOf(file, refs, host.similarity);
    MatchScoreIsScoreOfMatch(file, refs, host.similarity);
    if m.similarity >= threshold then Weighted(SimilarityTo(host, file, m.best), LinesIn(host, file))
    else 0.0
  }

  /** With scores in [0, 1], a file contributes at most its own line count. */
  lemma ContributionBounded(host: Host, file: string, refs: seq<string>, threshold: real)
    requires ScoresInRange(host)
    ensures 0.0 <= Contribution(host, file, refs, threshold) <= LinesIn(host, file) as real
  {
    var m := BestMatchOf(file, refs, host.similarity);
    if m.similarity >= threshold && m.best.Some? {
      MatchScoreIsScoreOfMatch(file, refs, host.similarity);
      assert 0.0 <= host.similarity(file, m.best.value) <= 1.0;
    }
  }

  /** `total_lines` after the given primary files. */
  function TotalLinesOf(host: Host, files: seq<string>): nat
    decreases |files|
  {
    if files == [] then 0
    else TotalLinesOf(host, files[..|files| - 1]) + LinesIn(host, files[|files| - 1])
  }

  /** `total_similar_lines` after the given primary files. */
  function TotalSimilarOf(host: Host, files: seq<string>, refs: seq<string>, threshold: real): real
    decreases |files|
  {
    if files == [] then 0.0
    else TotalSimilarOf(host, files[..|files| - 1], refs, threshold) + Contribution(host, files[|files| - 1], refs, threshold)
  }

  /** With scores in [0, 1], the similar lines never exceed the lines. */
  lemma {:induction false} SimilarLinesBounded(host: Host, files: seq<string>, refs: seq<string>, threshold: real)
    requires ScoresInRange(host)
    ensures 0.0 <= TotalSimilarOf(host, files, refs, threshold) <= TotalLinesOf(host, files) as real
    decreases |files|
  {
    if files != [] {
      SimilarLinesBounded(host, files[..|files| - 1], refs, threshold);
      ContributionBounded(host, files[|files| - 1], refs, threshold);
    }
  }

  /** With no reference files there is never a match, so no similar lines. */
  lemma {:induction false} NoReferencesNoSimilarLines(host: Host, files: seq<string>, threshold: real)
    ensures TotalSimilarOf(host, files, [], threshold) == 0.0
    decreases |files|
  {
    if files != [] {
      NoReferencesNoSimilarLines(host, files[..|files| - 1], threshold);
    }
  }

  /**
   * Two primary files A (10 code lines) and B (5 code lines); A's best match
   * A' scores 0.9, B's best match C scores 0.3; threshold 0.8. Then 15 lines
   * are counted, 9 of them similar, a ratio of 0.6.
   */
  lemma TwoFileScenario()
    ensures var host := Host(
              (root: string, name: string) => root + "\\" + name,
              (path: string) => if path == "A" then Some(seq(10, _ => "x")) else if path == "B" then Some(seq(5, _ => "y")) else None,
              (p: string, q: string) => if p == "A" && q == "A'" then 0.9 else if p == "B" && q == "C" then 0.3 else 0.0);
            var report := Report(TotalSimilarOf(host, ["A", "B"], ["A'", "C"], 0.8), TotalLinesOf(host, ["A", "B"]), 2);
            report.totalLines == 15 && report.totalSimilarLines == 9.0 && Ratio(report) == Some(0.6)
  {
    var host := Host(
      (root: string, name: string) => root + "\\" + name,
      (path: string) => if path == "A" then Some(seq(10, _ => "x")) else if path == "B" then Some(seq(5, _ => "y")) else None,
      (p: string, q: string) => if p == "A" && q == "A'" then 0.9 else if p == "B" && q == "C" then 0.3 else 0.0);
    var files, refs := ["A", "B"], ["A'", "C"];
    FilterKeepsAll(IsCountedLine, seq(10, _ => "x"));
    FilterKeepsAll(IsCountedLine, seq(5, _ => "y"));
    assert files[..1] == ["A"];
    assert refs[..1] == ["A'"];
    assert BestMatchOf("A", refs, host.similarity) == Match(Some("A'"), 0.9);
    assert BestMatchOf("B", refs, host.similarity) == Match(Some("C"), 0.3);
  }

  /** `total_similar_lines / total_lines`, or `None` where the source divides by zero. */
  function Ratio(report: Report): (r: Option<real>)
    ensures r.None? <==> report.totalLines == 0
    ensures r.Some? ==> r.value * report.totalLines as real == report.totalSimilarLines
    ensures r.Some? && 0.0 <= report.totalSimilarLines <= report.totalLines as real ==> 0.0 <= r.value <= 1.0
  {
    if report.totalLines == 0 then None
    else Some(report.totalSimilarLines / report.totalLines as real)
  }

  /**
   * The loop of `compare_folders` over the primary files `files`, each
   * matched against `refs`.
   */
  method Aggregate(host: Host, files: seq<string>, refs: seq<string>, threshold: real) returns (report: Report)
    ensures report.processedFiles == |files|
    ensures report.totalLines == TotalLinesOf(host, files)
    ensures report.totalSimilarLines == TotalSimilarOf(host, files, refs, threshold)
  {
    var totalSimilarLines: real := 0.0;
    var totalLines: nat := 0;
    var processedFiles: nat := 0;

    for k := 0 to |files|
      invariant processedFiles == k
      invariant totalLines == TotalLinesOf(host, files[..k])
      invariant totalSimilarLines == TotalSimilarOf(host, files[..k], refs, threshold)
    {
      var file1 := files[k];
      var bestMatch, bestSimilarity := BestMatch(file1, refs, host.similarity);
      if bestSimilarity >= threshold {
        var linesInFile1 := CountTotalLines(host.read(file1));
        totalLines := totalLines + linesInFile1;
        var similarLines := Weighted(SimilarityTo(host, file1, bestMatch), linesInFile1);
        assert similarLines == Contribution(host, file1, refs, threshold);
        totalSimilarLines := totalSimilarLines + similarLines;
      } else {
        var linesInFile1 := CountTotalLines(host.read(file1));
        totalLines := totalLines + linesInFile1;
        assert Contribution(host, file1, refs, threshold) == 0.0;
      }
      processedFiles := processedFiles + 1;
      assert files[..k + 1][..k] == files[..k];
    }
    assert files[..|files|] == files;
    report := Report(totalSimilarLines, totalLines, processedFiles);
  }

  /**
   * `compare_folders(folder1, folder2, similarity_threshold)`, with the two
   * trees given as their walks. Returns the totals and the overall ratio.
   */
  method CompareFolders(host: Host, walk1: seq<WalkStep>, walk2: seq<WalkStep>, threshold: real := 0.8)
    returns (report: Report, overall: Option<real>)
    ensures report.processedFiles == |SourceFiles(host, walk1)|
    ensures report.totalLines == TotalLinesOf(host, SourceFiles(host, walk1))
    ensures report.totalSimilarLines == TotalSimilarOf(host, SourceFiles(host, walk1), SourceFiles(host, walk2), threshold)
    ensures overall == Ratio(report)
    ensures ScoresInRange(host) ==> 0.0 <= report.totalSimilarLines <= report.totalLines as real
    ensures ScoresInRange(host) && overall.Some? ==> 0.0 <= overall.value <= 1.0
  {
    var found1 := CsFiles(walk1, host.join);
    var csFiles1 := RemoveBuildFiles(found1);
    var found2 := CsFiles(walk2, host.join);
    var csFiles2 := RemoveBuildFiles(found2);
    report := Aggregate(host, csFiles1, csFiles2, threshold);
    if ScoresInRange(host) {
      SimilarLinesBounded(host, csFiles1, csFiles2, threshold);
    }
    overall := Ratio(report);
  }
}
