/**
 * What the comparison takes from the operating system and from `difflib`,
 * as opaque functions. Reading and comparing the same files twice gives the
 * same answer, so both are functions of the paths.
 */
module Environment {
  import opened Wrappers

  datatype Host = Host(
    /** `os.path.join(root, name)` */
    join: (string, string) -> string,
    /** the lines `readlines` yields after the default-then-UTF-8 attempts, `None` when both fail */
    read: string -> Option<seq<string>>,
    /** `file_similarity(file1, file2)`: the `difflib` ratio of the two files, `0.0` when they cannot be read */
    similarity: (string, string) -> real)

  /** `SequenceMatcher.ratio()` is documented to lie in [0, 1]. */
  ghost predicate ScoresInRange(host: Host)
  {
    forall p, q :: 0.0 <= host.similarity(p, q) <= 1.0
  }
}
