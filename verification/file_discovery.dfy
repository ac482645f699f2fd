/**
 * Finding the `.cs` files of a tree (`get_cs_files`) and dropping the ones
 * that lie under a build-output folder (`remove_build_files`).
 */
module FileDiscovery {
  import opened Seqs
  import opened Text

  const CsSuffix: string := ".cs"
  const ReleaseSegment: string := "\\Release\\"
  const DebugSegment: string := "\\Debug\\"

  /** One triple `(root, dirs, files)` yielded by `os.walk`. */
  datatype WalkStep = WalkStep(root: string, dirs: seq<string>, files: seq<string>)

  /** A file of the walk: the folder it was listed in and its name. */
  type Entry = (string, string)

  predicate IsCsName(name: string)
  {
    EndsWith(name, CsSuffix)
  }

  predicate IsCsEntry(e: Entry)
  {
    IsCsName(e.1)
  }

  /** The joined paths of the `.cs` names among `names`, listed in folder `root`, in order. */
  function CsIn(root: string, names: seq<string>, join: (string, string) -> string): seq<string>
    decreases |names|
  {
    if names == [] then []
    else
      var name := names[|names| - 1];
      CsIn(root, names[..|names| - 1], join) + (if IsCsName(name) then [join(root, name)] else [])
  }

  /** The list `get_cs_files` builds from the steps of a walk. */
  function CsFilesOf(walk: seq<WalkStep>, join: (string, string) -> string): seq<string>
    decreases |walk|
  {
    if walk == [] then []
    else
      var step := walk[|walk| - 1];
      CsFilesOf(walk[..|walk| - 1], join) + CsIn(step.root, step.files, join)
  }

  /** Every file the walk lists, as (folder, name) pairs, in walk order. */
  function Entries(walk: seq<WalkStep>): (es: seq<Entry>)
    decreases |walk|
  {
    if walk == [] then []
    else
      var step := walk[|walk| - 1];
      Entries(walk[..|walk| - 1]) + EntriesOf(step.root, step.files)
  }

  function EntriesOf(root: string, names: seq<string>): (es: seq<Entry>)
    ensures |es| == |names|
    ensures forall i :: 0 <= i < |names| ==> es[i] == (root, names[i])
  {
    seq(|names|, i requires 0 <= i < |names| => (root, names[i]))
  }

  function JoinAll(es: seq<Entry>, join: (string, string) -> string): (paths: seq<string>)
    ensures |paths| == |es|
    ensures forall i :: 0 <= i < |es| ==> paths[i] == join(es[i].0, es[i].1)
  {
    seq(|es|, i requires 0 <= i < |es| => join(es[i].0, es[i].1))
  }

  lemma JoinAllConcat(a: seq<Entry>, b: seq<Entry>, join: (string, string) -> string)
    ensures JoinAll(a + b, join) == JoinAll(a, join) + JoinAll(b, join)
  {
  }

  lemma {:induction false} CsInIsFilter(root: string, names: seq<string>, join: (string, string) -> string)
    ensures CsIn(root, names, join) == JoinAll(Filter(IsCsEntry, EntriesOf(root, names)), join)
    decreases |names|
  {
    if names != [] {
      var init, name := names[..|names| - 1], names[|names| - 1];
      CsInIsFilter(root, init, join);
      assert EntriesOf(root, names) == EntriesOf(root, init) + [(root, name)];
      FilterConcat(IsCsEntry, EntriesOf(root, init), [(root, name)]);
      JoinAllConcat(Filter(IsCsEntry, EntriesOf(root, init)), Filter(IsCsEntry, [(root, name)]), join);
      assert Filter(IsCsEntry, [(root, name)]) == if IsCsName(name) then [(root, name)] else [];
    }
  }

  /**
   * `get_cs_files` keeps exactly the listed files whose name ends in `.cs`,
   * joined to their folder, in walk order.
   */
  lemma {:induction false} CsFilesAreTheCsEntries(walk: seq<WalkStep>, join: (string, string) -> string)
    ensures CsFilesOf(walk, join) == JoinAll(Filter(IsCsEntry, Entries(walk)), join)
    decreases |walk|
  {
    if walk != [] {
      var init, step := walk[..|walk| - 1], walk[|walk| - 1];
      CsFilesAreTheCsEntries(init, join);
      CsInIsFilter(step.root, step.files, join);
      FilterConcat(IsCsEntry, Entries(init), EntriesOf(step.root, step.files));
      JoinAllConcat(Filter(IsCsEntry, Entries(init)), Filter(IsCsEntry, EntriesOf(step.root, step.files)), join);
    }
  }

  /** A path is found exactly when it is the joined path of a listed `.cs` name. */
  lemma CsFilesMembership(walk: seq<WalkStep>, join: (string, string) -> string, path: string)
    ensures path in CsFilesOf(walk, join) <==>
              exists e :: e in Entries(walk) && IsCsName(e.1) && path == join(e.0, e.1)
  {
    CsFilesAreTheCsEntries(walk, join);
    var kept := Filter(IsCsEntry, Entries(walk));
    if path in CsFilesOf(walk, join) {
      var i :| 0 <= i < |kept| && JoinAll(kept, join)[i] == path;
      assert kept[i] in Entries(walk) && IsCsName(kept[i].1);
    }
    if exists e :: e in Entries(walk) && IsCsName(e.1) && path == join(e.0, e.1) {
      var e :| e in Entries(walk) && IsCsName(e.1) && path == join(e.0, e.1);
      var i :| 0 <= i < |Entries(walk)| && Entries(walk)[i] == e;
      var j :| 0 <= j < |kept| && kept[j] == e;
      assert JoinAll(kept, join)[j] == path;
    }
  }

  /** `get_cs_files`, with `os.walk` supplied as the sequence of its steps. */
  method CsFiles(walk: seq<WalkStep>, join: (string, string) -> string) returns (csFiles: seq<string>)
    ensures csFiles == CsFilesOf(walk, join)
  {
    csFiles := [];
    for i := 0 to |walk|
      invariant csFiles == CsFilesOf(walk[..i], join)
    {
      var step := walk[i];
      for j := 0 to |step.files|
        invariant csFiles == CsFilesOf(walk[..i], join) + CsIn(step.root, step.files[..j], join)
      {
        var file := step.files[j];
        if IsCsName(file) {
          csFiles := csFiles + [join(step.root, file)];
        }
        assert step.files[..j + 1][..j] == step.files[..j];
      }
      assert step.files[..|step.files|] == step.files;
      assert walk[..i + 1][..i] == walk[..i];
    }
    assert walk[..|walk|] == walk;
  }

  /** A path that lies under a `\Release\` or a `\Debug\` folder. */
  predicate IsBuildArtifact(path: string)
  {
    Contains(path, ReleaseSegment) || Contains(path, DebugSegment)
  }

  predicate IsSourcePath(path: string)
  {
    !IsBuildArtifact(path)
  }

  predicate OutsideRelease(path: string)
  {
    !Contains(path, ReleaseSegment)
  }

  predicate OutsideDebug(path: string)
  {
    !Contains(path, DebugSegment)
  }

  /**
   * `remove_build_files`: a pass dropping `\Release\` paths, then a pass
   * dropping `\Debug\` paths. The result is the one-pass filter of the paths
   * that are not build artifacts, a subsequence of the input.
   */
  function RemoveBuildFiles(files: seq<string>): (r: seq<string>)
    ensures r == Filter(IsSourcePath, files)
    ensures IsSubsequence(r, files)
    ensures forall i :: 0 <= i < |r| ==> !IsBuildArtifact(r[i]) && r[i] in files
    ensures forall i :: 0 <= i < |files| && !IsBuildArtifact(files[i]) ==> files[i] in r
  {
    var withoutRelease := Filter(OutsideRelease, files);
    FilterFilter(OutsideRelease, OutsideDebug, IsSourcePath, files);
    FilterIsSubsequence(IsSourcePath, files);
    Filter(OutsideDebug, withoutRelease)
  }

  /** Removing build files from a list that has none left changes nothing. */
  lemma RemoveBuildFilesIdempotent(files: seq<string>)
    ensures RemoveBuildFiles(RemoveBuildFiles(files)) == RemoveBuildFiles(files)
  {
    var once := RemoveBuildFiles(files);
    FilterKeepsAll(IsSourcePath, once);
  }
}
