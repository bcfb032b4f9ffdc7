/**
 * Path names the plugin builds: `os.path.join` for two components, the step
 * directory `execute_{step:03d}_{timestamp}`, the three per-step artifact
 * names and the run summary `all_plans_{timestamp}.json`.
 */
module Paths {
  import opened Options
  import opened StepFormat

  type Path = string

  const ScreenshotName: Path := "screenshot.png"
  const PlanName: Path := "plan.json"
  const ResultsName: Path := "results.json"

  /** The names a step directory holds. */
  predicate IsArtifactName(name: Path) {
    name == ScreenshotName || name == PlanName || name == ResultsName
  }

  predicate IsAbsolute(p: Path) { |p| > 0 && p[0] == '/' }

  /** What `os.path.join(a, b)` puts in front of a relative b. */
  function DirPrefix(a: Path): (p: Path)
    ensures a <= p
  {
    if a == [] || a[|a| - 1] == '/' then a else a + "/"
  }

  /** `os.path.join(a, b)`: an absolute b replaces a; otherwise a separator is added unless a is empty or ends in one. */
  function Join(a: Path, b: Path): (r: Path)
  {
    if IsAbsolute(b) then b else DirPrefix(a) + b
  }

  /**
   * An absolute second component replaces the first; a relative one follows
   * the first, with one separator added unless the first is empty or
   * already ends in one.
   */
  lemma JoinShape(a: Path, b: Path)
    ensures IsAbsolute(b) ==> Join(a, b) == b
    ensures !IsAbsolute(b) ==> a <= Join(a, b) && |Join(a, b)| >= |b| && Join(a, b)[|Join(a, b)| - |b|..] == b
    ensures !IsAbsolute(b) && a != [] ==> |Join(a, b)| > |b| && Join(a, b)[|Join(a, b)| - |b| - 1] == '/'
    ensures !IsAbsolute(b) ==> |Join(a, b)| == |a| + |b| + (if a != [] && a[|a| - 1] != '/' then 1 else 0)
  {
  }

  /** `f"execute_{step:03d}_{timestamp}"`. */
  function ExecuteDirName(step: int, stamp: string): (r: Path)
  {
    "execute_" + FormatStep(step) + "_" + stamp
  }

  /** The step directory `os.path.join(base_dir, ExecuteDirName(step, stamp))`. */
  function ExecuteDir(base: Path, step: int, stamp: string): (r: Path)
  {
    Join(base, ExecuteDirName(step, stamp))
  }

  /** `f"all_plans_{timestamp}.json"`. */
  function AllPlansName(stamp: string): (r: Path)
    ensures |r| == 15 + |stamp|
    ensures r[..10] == "all_plans_" && r[10..10 + |stamp|] == stamp && r[10 + |stamp|..] == ".json"
  {
    "all_plans_" + stamp + ".json"
  }

  /** The first position of c in s, or |s| when c does not occur. */
  function IndexOf(s: string, c: char): (k: nat)
    ensures k <= |s|
    ensures k < |s| ==> s[k] == c
    ensures forall i :: 0 <= i < k ==> s[i] != c
  {
    if s == [] then 0 else if s[0] == c then 0 else 1 + IndexOf(s[1..], c)
  }

  /** Reads a step directory name back into its step and timestamp. */
  function ParseExecuteDirName(name: Path): Option<(int, string)>
  {
    if |name| < 8 || name[..8] != "execute_" then None
    else
      var rest := name[8..];
      var k := IndexOf(rest, '_');
      if k == |rest| then None
      else match ParseStep(rest[..k])
        case None => None
        case Some(step) => Some((step, rest[k + 1..]))
  }

  /** A step directory name records its step and its timestamp. */
  lemma ExecuteDirNameRoundTrip(step: int, stamp: string)
    ensures ParseExecuteDirName(ExecuteDirName(step, stamp)) == Some((step, stamp))
  {
    var f := FormatStep(step);
    var name := ExecuteDirName(step, stamp);
    assert name[8..] == f + ['_'] + stamp;
    FieldHasNoUnderscore(step);
    FirstOccurrence(f, '_', stamp);
    FormatStepRoundTrip(step);
  }

  /** The step field never holds the `_` that ends it. */
  lemma FieldHasNoUnderscore(step: int)
    ensures forall i :: 0 <= i < |FormatStep(step)| ==> FormatStep(step)[i] != '_'
  {
    var f := FormatStep(step);
    forall i | 0 <= i < |f| ensures f[i] != '_' {
      if step < 0 && i > 0 {
        assert f[i] == f[1..][i - 1];
      }
    }
  }

  /** In f + [c] + t with no c in f, the first c is the one after f. */
  lemma FirstOccurrence(f: string, c: char, t: string)
    requires forall i :: 0 <= i < |f| ==> f[i] != c
    ensures var s := f + [c] + t;
      IndexOf(s, c) == |f| && s[..|f|] == f && s[|f| + 1..] == t
  {
    var s := f + [c] + t;
    assert s[|f|] == c;
    assert forall i :: 0 <= i < |f| ==> s[i] == f[i];
  }

  /** Two step directory names coincide exactly when both the step and the timestamp do. */
  lemma ExecuteDirNameInjective(s1: int, t1: string, s2: int, t2: string)
    ensures ExecuteDirName(s1, t1) == ExecuteDirName(s2, t2) <==> s1 == s2 && t1 == t2
  {
    ExecuteDirNameRoundTrip(s1, t1);
    ExecuteDirNameRoundTrip(s2, t2);
  }

  /** Joining one directory with two relative names gives one path exactly when the names agree. */
  lemma JoinInjective(a: Path, b: Path, c: Path)
    requires !IsAbsolute(b) && !IsAbsolute(c)
    ensures Join(a, b) == Join(a, c) <==> b == c
  {
    var p := DirPrefix(a);
    if Join(a, b) == Join(a, c) {
      assert b == Join(a, b)[|p|..];
      assert c == Join(a, c)[|p|..];
    }
  }

  /**
   * Under one base directory, the step directory determines the step and the
   * timestamp: two saves land in the same directory exactly when both agree.
   */
  lemma ExecuteDirInjective(base: Path, s1: int, t1: string, s2: int, t2: string)
    ensures ExecuteDir(base, s1, t1) == ExecuteDir(base, s2, t2) <==> s1 == s2 && t1 == t2
  {
    JoinInjective(base, ExecuteDirName(s1, t1), ExecuteDirName(s2, t2));
    ExecuteDirNameInjective(s1, t1, s2, t2);
  }

  /**
   * The run summary, written at the root of the base directory, is never a
   * step directory nor any file inside one, whatever the timestamps.
   */
  lemma SummaryIsNoStepPath(base: Path, dumpStamp: string, step: int, stamp: string, name: Path)
    requires IsArtifactName(name)
    ensures Join(base, AllPlansName(dumpStamp)) != ExecuteDir(base, step, stamp)
    ensures Join(base, AllPlansName(dumpStamp)) != Join(ExecuteDir(base, step, stamp), name)
  {
    var p := DirPrefix(base);
    var summary := Join(base, AllPlansName(dumpStamp));
    var dir := ExecuteDir(base, step, stamp);
    var file := Join(dir, name);
    assert summary[|p|] == 'a';
    assert dir[|p|] == 'e';
    assert file == DirPrefix(dir) + name;
    assert dir <= file;
    assert file[|p|] == 'e';
  }

  /** The clock stamps in names are `strftime("%Y%m%d_%H%M%S")` output, which never holds a separator. */
  predicate NoSeparator(t: string) { forall i :: 0 <= i < |t| ==> t[i] != '/' }

  /** Reads a path under `base` back into the step, the timestamp and the file name of an artifact. */
  function ParseArtifactPath(base: Path, p: Path): Option<(int, string, Path)>
  {
    var pre := DirPrefix(base);
    if |p| < |pre| || p[..|pre|] != pre then None
    else
      var rest := p[|pre|..];
      var k := IndexOf(rest, '/');
      if k == |rest| then None
      else match ParseExecuteDirName(rest[..k])
        case None => None
        case Some((step, stamp)) => Some((step, stamp, rest[k + 1..]))
  }

  /**
   * With a separator-free timestamp, an artifact path reads back into its
   * step, its timestamp and its name.
   */
  lemma ArtifactPathRoundTrip(base: Path, step: int, stamp: string, name: Path)
    requires NoSeparator(stamp) && IsArtifactName(name)
    ensures ParseArtifactPath(base, Join(ExecuteDir(base, step, stamp), name)) == Some((step, stamp, name))
  {
    var pre := DirPrefix(base);
    var d := ExecuteDirName(step, stamp);
    NameWithoutSeparator(step, stamp);
    ArtifactPathShape(base, d, name);
    var p := pre + (d + ['/'] + name);
    assert p[..|pre|] == pre;
    assert p[|pre|..] == d + ['/'] + name;
    FirstOccurrence(d, '/', name);
    ExecuteDirNameRoundTrip(step, stamp);
  }

  /**
   * With separator-free timestamps, an artifact path determines its step,
   * its timestamp and its name: saves for different steps, different
   * seconds or different artifacts never overwrite one another.
   */
  lemma ArtifactPathInjective(base: Path, s1: int, t1: string, n1: Path, s2: int, t2: string, n2: Path)
    requires NoSeparator(t1) && NoSeparator(t2)
    requires IsArtifactName(n1) && IsArtifactName(n2)
    ensures Join(ExecuteDir(base, s1, t1), n1) == Join(ExecuteDir(base, s2, t2), n2)
        <==> s1 == s2 && t1 == t2 && n1 == n2
  {
    ArtifactPathRoundTrip(base, s1, t1, n1);
    ArtifactPathRoundTrip(base, s2, t2, n2);
  }

  /** Artifacts of two different steps never share a path. */
  lemma ArtifactPathsOfStepsDiffer(base: Path, s1: int, t1: string, n1: Path, s2: int, t2: string, n2: Path)
    requires s1 != s2 && NoSeparator(t1) && NoSeparator(t2)
    requires IsArtifactName(n1) && IsArtifactName(n2)
    ensures Join(ExecuteDir(base, s1, t1), n1) != Join(ExecuteDir(base, s2, t2), n2)
  {
    ArtifactPathRoundTrip(base, s1, t1, n1);
    ArtifactPathRoundTrip(base, s2, t2, n2);
  }

  lemma ArtifactPathShape(base: Path, d: Path, name: Path)
    requires NoSeparator(d) && |d| > 0 && d[0] == 'e' && IsArtifactName(name)
    ensures Join(Join(base, d), name) == DirPrefix(base) + (d + ['/'] + name)
  {
    var x := DirPrefix(base) + d;
    assert x[|x| - 1] == d[|d| - 1];
    assert DirPrefix(x) == x + "/";
    assert !IsAbsolute(name);
    assert x + "/" + name == DirPrefix(base) + (d + ['/'] + name);
  }

  lemma NameWithoutSeparator(step: int, stamp: string)
    requires NoSeparator(stamp)
    ensures NoSeparator(ExecuteDirName(step, stamp)) && ExecuteDirName(step, stamp)[0] == 'e'
  {
    var f := FormatStep(step);
    assert NoSeparator(f) by {
      forall i | 0 <= i < |f| ensures f[i] != '/' {
        if step < 0 && i > 0 {
          assert f[i] == f[1..][i - 1];
        }
      }
    }
    NoSeparatorConcat("execute_", f);
    NoSeparatorConcat("execute_" + f, "_");
    NoSeparatorConcat("execute_" + f + "_", stamp);
  }

  lemma NoSeparatorConcat(a: string, b: string)
    requires NoSeparator(a) && NoSeparator(b)
    ensures NoSeparator(a + b)
  {
    forall i | 0 <= i < |a + b| ensures (a + b)[i] != '/' {
      if i >= |a| {
        assert (a + b)[i] == b[i - |a|];
      }
    }
  }

  /** Every timestamp of a run is free of separators. */
  predicate AllNoSeparator(stamps: seq<string>) {
    forall j :: 0 <= j < |stamps| ==> NoSeparator(stamps[j])
  }

  /**
   * Where the plan of the j-th step of a run is written, when the run's
   * steps are first - 1, first, ... and `stamps` are the clock readings of
   * their plan directories.
   */
  function RunPlanPath(base: Path, first: int, stamps: seq<string>, j: int): Path
    requires 0 <= j < |stamps|
  {
    Join(ExecuteDir(base, first - 1 + j, stamps[j]), PlanName)
  }
}
