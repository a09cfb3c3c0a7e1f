/**
 * The duplicate-line counter of wordcount/main.go, without its file and
 * terminal I/O.  Every command-line argument has already been opened (or has
 * failed to open) and split into lines; the counting loop folds all of them
 * into one frequency map, and the reporting loop selects the lines seen at
 * least twice.
 */
module WordCount {

  /** One command-line argument: the lines its scanner yields, or a failure to open it. */
  datatype FileInput = Opened(lines: seq<string>) | OpenFailed

  /** One line of the report: a count and the line it belongs to. */
  datatype Report = Report(count: nat, line: string)

  /** The lines a file contributes: all of an opened file's, none of a failed one's. */
  function LinesOf(f: FileInput): seq<string>
  {
    match f
    case Opened(lines) => lines
    case OpenFailed => []
  }

  /** The number of times `l` occurs in `lines`. */
  function Occurrences(lines: seq<string>, l: string): nat
  {
    if lines == [] then 0
    else Occurrences(lines[..|lines| - 1], l) + (if lines[|lines| - 1] == l then 1 else 0)
  }

  /** The specification of the counter: how often `l` occurs, over all files that opened. */
  function Count(files: seq<FileInput>, l: string): nat
  {
    if files == [] then 0
    else Count(files[..|files| - 1], l) + Occurrences(LinesOf(files[|files| - 1]), l)
  }

  /** Every line read, in the order the scanners yield them. */
  function LinesRead(files: seq<FileInput>): seq<string>
  {
    if files == [] then []
    else LinesRead(files[..|files| - 1]) + LinesOf(files[|files| - 1])
  }

  /** Go's map read `m[k]`, which yields the zero value for a missing key. */
  function Get(m: map<string, nat>, k: string): nat
  {
    if k in m then m[k] else 0
  }

  /** Some key of a non-empty map, fixed once so that sums over the map are well defined. */
  ghost function PickKey(m: map<string, nat>): (k: string)
    requires m != map[]
    ensures k in m
  {
    var k :| k in m; k
  }

  /** The sum of all counts held in `m`. */
  ghost function Total(m: map<string, nat>): nat
    decreases |m|
  {
    if m == map[] then 0
    else
      var k := PickKey(m);
      assert (m - {k}).Keys == m.Keys - {k};
      m[k] + Total(m - {k})
  }

  /** `Total` does not depend on which key is taken out first. */
  lemma TotalRemove(m: map<string, nat>, k: string)
    requires k in m
    ensures Total(m) == m[k] + Total(m - {k})
    decreases |m|
  {
    var k' := PickKey(m);
    if k' != k {
      assert (m - {k'}).Keys == m.Keys - {k'};
      assert (m - {k}).Keys == m.Keys - {k};
      TotalRemove(m - {k'}, k);
      TotalRemove(m - {k}, k');
      assert (m - {k'}) - {k} == (m - {k}) - {k'};
    }
  }

  /** One `lineCounts[line]++` adds exactly one to the sum of the counts. */
  lemma TotalIncrement(m: map<string, nat>, k: string)
    ensures Total(m[k := Get(m, k) + 1]) == Total(m) + 1
  {
    var m' := m[k := Get(m, k) + 1];
    TotalRemove(m', k);
    if k in m {
      TotalRemove(m, k);
      assert m' - {k} == m - {k};
    } else {
      assert m' - {k} == m;
    }
  }

  /**
   * The counting loop: one map, created before the loop over the files and
   * never reset, into which every line of every opened file is counted; a
   * file that failed to open is skipped.
   */
  method CountLines(files: seq<FileInput>) returns (lineCounts: map<string, nat>)
    ensures forall l :: l in lineCounts <==> Count(files, l) > 0
    ensures forall l :: l in lineCounts ==> lineCounts[l] == Count(files, l) >= 1
    ensures Total(lineCounts) == |LinesRead(files)|
  {
    lineCounts := map[];
    for i := 0 to |files|
      invariant forall l :: Get(lineCounts, l) == Count(files[..i], l)
      invariant forall l :: l in lineCounts ==> lineCounts[l] >= 1
      invariant Total(lineCounts) == |LinesRead(files[..i])|
    {
      assert files[..i + 1][..i] == files[..i];
      if files[i].OpenFailed? {
        continue;
      }
      var lines := files[i].lines;
      for j := 0 to |lines|
        invariant forall l :: Get(lineCounts, l) == Count(files[..i], l) + Occurrences(lines[..j], l)
        invariant forall l :: l in lineCounts ==> lineCounts[l] >= 1
        invariant Total(lineCounts) == |LinesRead(files[..i])| + j
      {
        var line := lines[j];
        assert lines[..j + 1][..j] == lines[..j];
        TotalIncrement(lineCounts, line);
        lineCounts := lineCounts[line := Get(lineCounts, line) + 1];
      }
      assert lines[..|lines|] == lines;
    }
    assert files[..|files|] == files;
  }

  /**
   * The reporting loop: visits every key of the map once, in no particular
   * order, and reports the line with its count when the count is at least 2.
   */
  method ReportDuplicates(lineCounts: map<string, nat>) returns (reported: set<Report>)
    ensures forall r :: r in reported <==>
      r.line in lineCounts && lineCounts[r.line] >= 2 && r.count == lineCounts[r.line]
    ensures forall r, r' :: r in reported && r' in reported && r.line == r'.line ==> r == r'
  {
    reported := {};
    var remaining := lineCounts.Keys;
    while remaining != {}
      invariant remaining <= lineCounts.Keys
      invariant forall r :: r in reported <==>
        r.line in lineCounts.Keys - remaining && lineCounts[r.line] >= 2 && r.count == lineCounts[r.line]
      decreases remaining
    {
      var line :| line in remaining;
      var count := lineCounts[line];
      if count >= 2 {
        reported := reported + {Report(count, line)};
      }
      remaining := remaining - {line};
    }
  }

  /** The whole program: count every file, then report the duplicated lines. */
  method FindDuplicates(files: seq<FileInput>) returns (reported: set<Report>)
    ensures forall r :: r in reported <==> Count(files, r.line) >= 2 && r.count == Count(files, r.line)
    ensures forall l :: Count(files, l) >= 2 ==> Report(Count(files, l), l) in reported
    ensures forall r :: r in reported ==> Count(files, r.line) != 1
  {
    var lineCounts := CountLines(files);
    reported := ReportDuplicates(lineCounts);
  }

  /** Counts of consecutive runs of files add up: nothing is reset between files. */
  lemma {:induction false} CountAppend(a: seq<FileInput>, b: seq<FileInput>, l: string)
    ensures Count(a + b, l) == Count(a, l) + Count(b, l)
    decreases |b|
  {
    if b == [] {
      assert a + b == a;
    } else {
      var b' := b[..|b| - 1];
      assert (a + b)[..|a + b| - 1] == a + b';
      assert (a + b)[|a + b| - 1] == b[|b| - 1];
      CountAppend(a, b', l);
    }
  }

  /** A file that fails to open, wherever it stands, changes no count. */
  lemma FailedFileContributesNothing(files: seq<FileInput>, i: nat, l: string)
    requires i <= |files|
    ensures Count(files[..i] + [OpenFailed] + files[i..], l) == Count(files, l)
  {
    CountAppend(files[..i] + [OpenFailed], files[i..], l);
    CountAppend(files[..i], [OpenFailed], l);
    CountAppend(files[..i], files[i..], l);
    assert [OpenFailed][..0] == [];
    assert files[..i] + files[i..] == files;
  }

  /** Occurrences are the multiplicity of the line in the multiset of lines. */
  lemma {:induction false} OccurrencesIsMultiplicity(lines: seq<string>, l: string)
    ensures Occurrences(lines, l) == multiset(lines)[l]
    decreases |lines|
  {
    if lines != [] {
      var n := |lines| - 1;
      OccurrencesIsMultiplicity(lines[..n], l);
      assert lines == lines[..n] + [lines[n]];
      assert multiset(lines) == multiset(lines[..n]) + multiset{lines[n]};
    }
  }

  /** The count of a line is its multiplicity among all lines read. */
  lemma {:induction false} CountIsMultiplicity(files: seq<FileInput>, l: string)
    ensures Count(files, l) == multiset(LinesRead(files))[l]
    decreases |files|
  {
    if files != [] {
      var n := |files| - 1;
      CountIsMultiplicity(files[..n], l);
      OccurrencesIsMultiplicity(LinesOf(files[n]), l);
      assert multiset(LinesRead(files)) == multiset(LinesRead(files[..n])) + multiset(LinesOf(files[n]));
    }
  }

  /** A line has a positive count exactly when some opened file contains it. */
  lemma {:induction false} CountPositiveIffOccurs(files: seq<FileInput>, l: string)
    ensures Count(files, l) > 0 <==> exists i :: 0 <= i < |files| && l in LinesOf(files[i])
    decreases |files|
  {
    if files != [] {
      var n := |files| - 1;
      CountPositiveIffOccurs(files[..n], l);
      OccurrencesIsMultiplicity(LinesOf(files[n]), l);
      if Count(files, l) > 0 {
        if Occurrences(LinesOf(files[n]), l) == 0 {
          var i :| 0 <= i < n && l in LinesOf(files[..n][i]);
          assert files[..n][i] == files[i];
        }
      } else {
        forall i | 0 <= i < |files|
          ensures l !in LinesOf(files[i])
        {
          if i < n {
            assert files[..n][i] == files[i];
          }
        }
      }
    }
  }
}
