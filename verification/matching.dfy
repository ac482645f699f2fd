/**
 * The inner loop of `compare_folders`: the reference file most similar to
 * one primary file, by a running maximum that starts at 0 and moves only on
 * a strictly greater score.
 */
module Matching {
  import opened Wrappers

  /** `best_match` and `best_similarity` after the inner loop. */
  datatype Match = Match(best: Option<string>, similarity: real)

  /** The running maximum over `refs`, as the loop leaves it. */
  function BestMatchOf(file: string, refs: seq<string>, similarity: (string, string) -> real): Match
    decreases |refs|
  {
    if refs == [] then Match(None, 0.0)
    else
      var m := BestMatchOf(file, refs[..|refs| - 1], similarity);
      var candidate := refs[|refs| - 1];
      var score := similarity(file, candidate);
      if score > m.similarity then Match(Some(candidate), score) else m
  }

  /** `refs[k]` has the greatest score, and every earlier reference scores strictly less. */
  ghost predicate IsFirstMaximum(file: string, refs: seq<string>, similarity: (string, string) -> real, k: int)
  {
    && 0 <= k < |refs|
    && (forall i :: 0 <= i < |refs| ==> similarity(file, refs[i]) <= similarity(file, refs[k]))
    && (forall j :: 0 <= j < k ==> similarity(file, refs[j]) < similarity(file, refs[k]))
  }

  /**
   * The selected score is the maximum of 0 and all scores; there is a match
   * exactly when some score is positive, and then it is the first reference
   * that reaches the maximum.
   */
  lemma {:induction false} BestMatchIsFirstMaximum(file: string, refs: seq<string>, similarity: (string, string) -> real)
    ensures 0.0 <= BestMatchOf(file, refs, similarity).similarity
    ensures forall i :: 0 <= i < |refs| ==> similarity(file, refs[i]) <= BestMatchOf(file, refs, similarity).similarity
    ensures BestMatchOf(file, refs, similarity).best.None? <==> forall i :: 0 <= i < |refs| ==> similarity(file, refs[i]) <= 0.0
    ensures BestMatchOf(file, refs, similarity).best.None? ==> BestMatchOf(file, refs, similarity).similarity == 0.0
    ensures BestMatchOf(file, refs, similarity).best.Some? ==>
              exists k :: IsFirstMaximum(file, refs, similarity, k)
                       && refs[k] == BestMatchOf(file, refs, similarity).best.value
                       && similarity(file, refs[k]) == BestMatchOf(file, refs, similarity).similarity
    decreases |refs|
  {
    if refs != [] {
      var init := refs[..|refs| - 1];
      var n := |refs| - 1;
      BestMatchIsFirstMaximum(file, init, similarity);
      var m := BestMatchOf(file, init, similarity);
      var score := similarity(file, refs[n]);
      assert forall i :: 0 <= i < n ==> refs[i] == init[i];
      if score > m.similarity {
        assert IsFirstMaximum(file, refs, similarity, n);
      } else if m.best.Some? {
        var k :| IsFirstMaximum(file, init, similarity, k) && init[k] == m.best.value
                 && similarity(file, init[k]) == m.similarity;
        assert IsFirstMaximum(file, refs, similarity, k);
      }
    }
  }

  /** The score kept with a match is that match's own score. */
  lemma MatchScoreIsScoreOfMatch(file: string, refs: seq<string>, similarity: (string, string) -> real)
    ensures var m := BestMatchOf(file, refs, similarity);
            m.best.Some? ==> similarity(file, m.best.value) == m.similarity
  {
    BestMatchIsFirstMaximum(file, refs, similarity);
  }

  /** Best match and score of `file` against `refs`: the inner loop of `compare_folders`. */
  method BestMatch(file: string, refs: seq<string>, similarity: (string, string) -> real)
    returns (bestMatch: Option<string>, bestSimilarity: real)
    ensures Match(bestMatch, bestSimilarity) == BestMatchOf(file, refs, similarity)
  {
    bestMatch := None;
    bestSimilarity := 0.0;
    for i := 0 to |refs|
      invariant Match(bestMatch, bestSimilarity) == BestMatchOf(file, refs[..i], similarity)
    {
      var score := similarity(file, refs[i]);
      if score > bestSimilarity {
        bestSimilarity := score;
        bestMatch := Some(refs[i]);
      }
      assert refs[..i + 1][..i] == refs[..i];
    }
    assert refs[..|refs|] == refs;
  }

  /**
   * A later reference that ties the top score does not displace an earlier
   * one: the match is the earlier reference or one before it.
   */
  lemma FirstOfEqualScoresWins(file: string, refs: seq<string>, similarity: (string, string) -> real, j: nat, k: nat)
    requires j < k < |refs|
    requires similarity(file, refs[j]) == similarity(file, refs[k]) > 0.0
    requires forall i :: 0 <= i < |refs| ==> similarity(file, refs[i]) <= similarity(file, refs[j])
    ensures BestMatchOf(file, refs, similarity).similarity == similarity(file, refs[j])
    ensures exists w :: 0 <= w <= j && BestMatchOf(file, refs, similarity).best == Some(refs[w])
  {
    BestMatchIsFirstMaximum(file, refs, similarity);
    var m := BestMatchOf(file, refs, similarity);
    assert m.best.Some?;
    var w :| IsFirstMaximum(file, refs, similarity, w) && refs[w] == m.best.value
             && similarity(file, refs[w]) == m.similarity;
    assert w <= j;
  }
}
