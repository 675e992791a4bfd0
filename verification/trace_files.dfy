/**
 * The file driver of the padding defense: globbed trace files are split into
 * closed-world and open-world lists by their basename, processed closed-world
 * first, and each simulated trace is dumped under its own basename.
 */
module TraceFiles {
  import opened Seqs

  /** `path.split("/")[-1]`: the text after the last `/`, or all of it when there is none. */
  function Basename(path: string): (r: string)
    ensures '/' !in r
    ensures |r| <= |path| && r == path[|path| - |r|..]
    ensures |r| < |path| ==> path[|path| - |r| - 1] == '/'
    decreases |path|
  {
    if |path| == 0 || path[|path| - 1] == '/' then ""
    else
      var front := path[..|path| - 1];
      var r := Basename(front) + [path[|path| - 1]];
      assert path == front + [path[|path| - 1]];
      r
  }

  /** A name without `/` ending a path that is empty or ends in `/` is that path's basename. */
  lemma {:induction false} BasenameAfterSlash(dir: string, name: string)
    requires '/' !in name
    requires |dir| == 0 || dir[|dir| - 1] == '/'
    ensures Basename(dir + name) == name
    decreases |name|
  {
    if |name| > 0 {
      var front := name[..|name| - 1];
      DropLastOfAppend(dir, name);
      BasenameAfterSlash(dir, front);
      TakeSnoc(name);
    }
  }

  /** A closed-world trace file has a `-` in its basename (`<site>-<instance>`). */
  predicate IsClosedWorld(path: string) {
    '-' in Basename(path)
  }

  function ClosedWorld(paths: seq<string>): (r: seq<string>)
    ensures forall i :: 0 <= i < |r| ==> IsClosedWorld(r[i])
  {
    Filter(paths, IsClosedWorld)
  }

  function OpenWorld(paths: seq<string>): (r: seq<string>)
    ensures forall i :: 0 <= i < |r| ==> !IsClosedWorld(r[i])
  {
    Filter(paths, Reject(IsClosedWorld))
  }

  /** The loop order of `main`: `cw_filenames + ow_filenames`. */
  function ProcessingOrder(paths: seq<string>): (r: seq<string>)
    ensures |r| == |ClosedWorld(paths)| + |OpenWorld(paths)|
    ensures forall i :: 0 <= i < |ClosedWorld(paths)| ==> IsClosedWorld(r[i])
    ensures forall i :: |ClosedWorld(paths)| <= i < |r| ==> !IsClosedWorld(r[i])
  {
    ClosedWorld(paths) + OpenWorld(paths)
  }

  /**
   * Every globbed file is processed exactly as often as it was globbed, in
   * exactly one of the two lists, and each list keeps the glob order.
   */
  lemma PartitionIsExact(paths: seq<string>)
    ensures multiset(ProcessingOrder(paths)) == multiset(paths)
    ensures forall p :: p in ClosedWorld(paths) <==> p in paths && IsClosedWorld(p)
    ensures forall p :: p in OpenWorld(paths) <==> p in paths && !IsClosedWorld(p)
    ensures IsSubsequence(ClosedWorld(paths), paths) && IsSubsequence(OpenWorld(paths), paths)
  {
    FilterSplit(paths, IsClosedWorld);
    FilterMembers(paths, IsClosedWorld);
    FilterMembers(paths, Reject(IsClosedWorld));
    FilterIsSubsequence(paths, IsClosedWorld);
    FilterIsSubsequence(paths, Reject(IsClosedWorld));
    forall p
      ensures Reject(IsClosedWorld)(p) == !IsClosedWorld(p)
    {
      RejectIs(IsClosedWorld, p);
    }
  }

  /** `os.path.join(dir, name)` with POSIX separators. */
  function Join(dir: string, name: string): (r: string)
    ensures |name| > 0 && name[0] == '/' ==> r == name
    ensures |r| >= |name| && r[|r| - |name|..] == name
    ensures !(|name| > 0 && name[0] == '/') ==> |r| >= |dir| && r[..|dir|] == dir
  {
    if |name| > 0 && name[0] == '/' then name
    else if |dir| == 0 || dir[|dir| - 1] == '/' then dir + name
    else dir + "/" + name
  }

  /** Where the simulated trace of `path` is dumped: `join(output_dir, fname)`. */
  function DumpTarget(outputDir: string, path: string): string {
    Join(outputDir, Basename(path))
  }

  /** The dumped file has the basename of the trace it came from. */
  lemma DumpKeepsBasename(outputDir: string, path: string)
    ensures Basename(DumpTarget(outputDir, path)) == Basename(path)
  {
    var name := Basename(path);
    if |outputDir| == 0 || outputDir[|outputDir| - 1] == '/' {
      BasenameAfterSlash(outputDir, name);
    } else {
      assert outputDir + "/" + name == (outputDir + "/") + name;
      BasenameAfterSlash(outputDir + "/", name);
    }
  }

  /** Traces with different basenames are dumped to different files. */
  lemma DistinctBasenamesDoNotCollide(outputDir: string, a: string, b: string)
    requires Basename(a) != Basename(b)
    ensures DumpTarget(outputDir, a) != DumpTarget(outputDir, b)
  {
    DumpKeepsBasename(outputDir, a);
    DumpKeepsBasename(outputDir, b);
  }
}
