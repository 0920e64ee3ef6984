/**
 * The change-list filter of `getChangedFiles` (deployments/utils.js): the
 * output of `git diff --name-only` is split into lines, and only the lines
 * naming a file under the deployable source tree are kept.
 */
module ChangeList {
  import opened Text

  /** The source subtree whose files can be deployed. */
  const DeployableTree: string := "force-app/main/default"

  predicate IsDeployable(line: string) {
    Contains(line, DeployableTree)
  }

  /**
   * The lines that name a deployable file, in their original order. A line
   * is kept exactly when it is one of the input lines and names the
   * deployable tree.
   */
  function KeepDeployable(lines: seq<string>): (kept: seq<string>)
    ensures |kept| <= |lines|
    ensures forall x :: x in kept <==> x in lines && IsDeployable(x)
  {
    if lines == [] then []
    else if IsDeployable(lines[0]) then [lines[0]] + KeepDeployable(lines[1..])
    else KeepDeployable(lines[1..])
  }

  /** Filtering a concatenation filters each part: the order of the kept lines is the input order. */
  lemma {:induction false} KeepDeployableAppend(a: seq<string>, b: seq<string>)
    ensures KeepDeployable(a + b) == KeepDeployable(a) + KeepDeployable(b)
    decreases |a|
  {
    if a == [] {
      assert a + b == b;
    } else {
      assert (a + b)[0] == a[0];
      assert (a + b)[1..] == a[1..] + b;
      KeepDeployableAppend(a[1..], b);
    }
  }

  /** The empty line (what follows a trailing newline) never names a deployable file. */
  lemma EmptyLineNotDeployable()
    ensures !IsDeployable([])
  {
    assert !OccursAt([], DeployableTree, 0);
  }

  /**
   * The changed-file list: the diff output split on newlines, filtered to
   * the deployable tree. Every entry is a whole line of the output that
   * names the deployable tree; none is empty.
   */
  function ChangedFiles(diffOutput: string): (files: seq<string>)
    ensures files == KeepDeployable(Split(diffOutput, '\n'))
    ensures forall f :: f in files ==> IsDeployable(f) && f != [] && '\n' !in f
    ensures forall f :: f in files <==> f in Split(diffOutput, '\n') && IsDeployable(f)
  {
    EmptyLineNotDeployable();
    KeepDeployable(Split(diffOutput, '\n'))
  }

  /** A diff output written as lines joined by newlines yields exactly the deployable lines, in order. */
  lemma ChangedFilesOfLines(lines: seq<string>)
    requires |lines| >= 1
    requires forall k | 0 <= k < |lines| :: '\n' !in lines[k]
    ensures ChangedFiles(Join(lines, '\n')) == KeepDeployable(lines)
  {
    SplitJoin(lines, '\n');
  }

  /** A newline at the end of the diff output does not change the list. */
  lemma ChangedFilesTrailingNewline(diffOutput: string)
    ensures ChangedFiles(diffOutput + "\n") == ChangedFiles(diffOutput)
  {
    SplitTrailing(diffOutput, '\n');
    KeepDeployableAppend(Split(diffOutput, '\n'), [[]]);
    EmptyLineNotDeployable();
  }
}
