# SourceCodeDifferences: a verified model of `FileDifferences.py`

`FileDifferences.py` estimates how much of one C# source tree (the primary
folder) was copied from another (the reference folder). It lists the `.cs`
files of both trees, drops those under `\Release\` or `\Debug\` build
folders, and pairs every primary file with the reference file whose
`difflib` ratio is highest. Every primary file adds its count of
non-`//` lines to `total_lines`. If its best ratio reaches the threshold, it
also adds ratio × lines to `total_similar_lines`. The result printed at the end is
`total_similar_lines / total_lines`.

The model is split into modules:

- `Wrappers`: `Option`.
- `Seqs`: `Filter`, the meaning of a list comprehension with an `if`, and its lemmas (order, membership, concatenation, composition, complement).
- `Text`: `str.startswith`, `str.endswith` and the substring test `in`.
- `Environment`: `Host`, the opaque collaborators:
  - `os.path.join`;
  - the outcome of reading a file (`None` when both encodings fail);
  - `file_similarity`, whose values are assumed to lie in [0, 1] (`ScoresInRange`).
- `FileDiscovery`: `get_cs_files` as a method with the source's nested loops over the steps of `os.walk`, and `remove_build_files`.
- `LineCount`: `count_total_lines`, given the read outcome.
- `Matching`: the inner best-match loop of `compare_folders`, as a method proved equal to a fold, and the fold characterised as "first maximum".
- `Comparison`: the outer loop, with its counters tied to sums over the primary files; the final ratio; `compare_folders` as a whole.

How the model renders the code's edge cases:

- The final division has no guard in the code: with `total_lines == 0` it raises `ZeroDivisionError`. The model does not raise; `Ratio` returns `None` in exactly that case.
- The threshold defaults to 0.8, as in the code, and is not range-checked by `compare_folders`. The model accepts any real threshold. With a threshold ≤ 0 and no positive score, `best_match` is `None`. The code then calls `file_similarity(file1, None)`: opening `None` fails, the bare `except` blocks return 0.0, and the file contributes 0 (`SimilarityTo`, `Contribution`).
- Line 83 recomputes `file_similarity(file1, best_match)`. Reading and comparing are functions of the paths here, so the recomputed value is the best score (`MatchScoreIsScoreOfMatch`).

## Model

| member | source | states |
|---|---|---|
| `FileDiscovery.CsFiles` | FileDifferences.py:4-11 | the list the nested walk loop builds equals `CsFilesOf`, whose characterisation is proved below |
| `FileDiscovery.CsFilesAreTheCsEntries` | FileDifferences.py:7-10 | the found paths are exactly the walk's (folder, name) entries whose name ends in `.cs`, joined, in walk order |
| `FileDiscovery.CsFilesMembership` | FileDifferences.py:8-10 | a path is found if and only if it is the joined path of some listed file whose name ends in `.cs` |
| `FileDiscovery.RemoveBuildFiles` | FileDifferences.py:45-48 | the two passes equal one filter keeping the paths that contain neither `\Release\` nor `\Debug\`; the result is a subsequence of the input; a path is kept if and only if it is in the input and is not a build artifact |
| `FileDiscovery.RemoveBuildFilesIdempotent` | FileDifferences.py:45-48 | filtering an already filtered list returns it unchanged |
| `Text.ContainsAtOffset` | FileDifferences.py:46-47 | the substring test holds if and only if the segment occurs at some offset of the path |
| `LineCount.CountTotalLines` | FileDifferences.py:13-25 | 0 when the file cannot be read; otherwise the counted lines plus the `//` lines are all the lines read |
| `LineCount.CommentLinesComplement` | FileDifferences.py:25 | every line is either counted or starts with `//`, so the two counts add up to the number of lines |
| `LineCount.CountIsAllLinesIffNoComments` | FileDifferences.py:25 | the count equals the number of lines if and only if no line starts with `//` |
| `Matching.BestMatch` | FileDifferences.py:65-72 | the loop's `best_match` and `best_similarity` equal the fold `BestMatchOf` |
| `Matching.BestMatchIsFirstMaximum` | FileDifferences.py:65-72 | the best score is the maximum of 0 and every score; there is no match if and only if no score is positive (in particular for no references); a match is the first reference reaching the maximum |
| `Matching.MatchScoreIsScoreOfMatch` | FileDifferences.py:70-72 | the kept score is the score of the kept reference |
| `Matching.FirstOfEqualScoresWins` | FileDifferences.py:70 | when a later reference ties the top score of an earlier one, the kept score is that top score and the match is the reference at the earlier position or at one before it |
| `Comparison.Contribution` | FileDifferences.py:75-89 | at or above the threshold (inclusive) with a match, a file adds best score × its lines; below the threshold, or with no match, it adds 0 |
| `Comparison.Weighted` | FileDifferences.py:83 | a score in [0, 1] weights a file's line count to a value between 0 and that count; a zero score gives 0 |
| `Comparison.ContributionBounded` | FileDifferences.py:83-84 | with scores in [0, 1] a file adds between 0 and its own line count |
| `Comparison.Aggregate` | FileDifferences.py:59-91 | after the loop, `processed_files` is the number of primary files, `total_lines` the sum of their line counts over both branches, `total_similar_lines` the sum of their contributions |
| `Comparison.SimilarLinesBounded` | FileDifferences.py:59-91 | with scores in [0, 1], 0 ≤ `total_similar_lines` ≤ `total_lines` |
| `Comparison.NoReferencesNoSimilarLines` | FileDifferences.py:64-75 | with an empty reference list, `total_similar_lines` is 0 |
| `Comparison.Ratio` | FileDifferences.py:96 | no ratio exactly when `total_lines` is 0; otherwise ratio × `total_lines` = `total_similar_lines`, and the ratio is in [0, 1] when the totals are ordered |
| `Comparison.CompareFolders` | FileDifferences.py:50-96 | both trees are discovered and filtered; the totals are the sums above over the primary files against the reference files; with scores in [0, 1] the overall ratio, when defined, lies in [0, 1] |
| `Comparison.TwoFileScenario` | FileDifferences.py:59-96 | two primary files of 10 and 5 lines, with best scores 0.9 and 0.3 and threshold 0.8, give 15 lines, 9 similar lines and a ratio of 0.6 |

## Left out

- Directory traversal: `os.walk` is an input sequence of (root, dirs, files) steps. `os.path.join` is the opaque `Host.join`.
- Opening files, `readlines` and the default-then-UTF-8 encoding fallback are I/O. `Host.read` gives their combined outcome: the lines read, or `None` when both attempts fail.
- `file_similarity` and `difflib.SequenceMatcher.ratio()` (Ratcliff/Obershelp) are not modelled. `Host.similarity` stands for them. The bound claims assume the documented [0, 1] range (`ScoresInRange`).
- Determinism of the host: a file is assumed to read the same way each time it is opened, and a pair to score the same each time.
- IEEE floating-point rounding in `score × lines` and in the running sums: the model uses exact `real` arithmetic.
- Console output is not modelled: the found-file counts, the per-file progress lines with `zfill`, the final summary and the percentage formatting. `CompareFolders` returns the totals and the ratio instead of printing them.
- The hard-coded `__main__` folders.
