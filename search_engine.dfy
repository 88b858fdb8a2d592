// The per-directory line scanner: a worker walks a directory tree and appends
// one record per matching line of every readable regular file to a buffer
// owned by its caller.

module SearchEngine {

  /** One match: the file it came from, the 1-based number of the line and
      the line exactly as it was read. */
  datatype SearchResult = SearchResult(filePath: string, lineNumber: nat, lineText: string)

  /** One entry produced by the recursive directory walk: its path, whether it
      is a regular file, whether opening it for reading succeeds, and the
      lines reading it yields. */
  datatype Entry = Entry(path: string, isRegularFile: bool, readable: bool, lines: seq<string>)

  datatype Option<T> = None | Some(value: T)

  /** What the file system shows a worker started at some directory: whether
      that directory exists and is a directory, the entries the recursive walk
      yields in order, and, when the walk raises an error, how many entries it
      yielded before it did. */
  datatype Walk = Walk(rootIsDirectory: bool, entries: seq<Entry>, failsAfter: Option<nat>)

  /** The line matcher, left uninterpreted: any total predicate on a line and
      a query. */
  type Matcher = (string, string) -> bool

  /** Number of entries the walk yields before it ends or raises. */
  function Visited(walk: Walk): (k: nat)
    ensures k <= |walk.entries|
    ensures walk.failsAfter.None? ==> k == |walk.entries|
  {
    match walk.failsAfter
    case Some(j) => if j < |walk.entries| then j else |walk.entries|
    case None => |walk.entries|
  }

  /** Records for the matching lines of `lines`, numbered from 1, in order. */
  function LineRecords(path: string, lines: seq<string>, query: string, containsQuery: Matcher): (rs: seq<SearchResult>)
  {
    if lines == [] then []
    else
      var last := lines[|lines| - 1];
      LineRecords(path, lines[..|lines| - 1], query, containsQuery)
        + (if containsQuery(last, query) then [SearchResult(path, |lines|, last)] else [])
  }

  /** Records one walk entry contributes: none unless it is a regular file
      that opens. */
  function EntryRecords(e: Entry, query: string, containsQuery: Matcher): (rs: seq<SearchResult>)
  {
    if e.isRegularFile && e.readable then LineRecords(e.path, e.lines, query, containsQuery) else []
  }

  /** Records a sequence of walk entries contributes, entry by entry. */
  function WalkRecords(entries: seq<Entry>, query: string, containsQuery: Matcher): (rs: seq<SearchResult>)
  {
    if entries == [] then []
    else WalkRecords(entries[..|entries| - 1], query, containsQuery)
           + EntryRecords(entries[|entries| - 1], query, containsQuery)
  }

  /** Everything one worker appends: nothing when the start directory is
      missing or not a directory, else the records of the entries visited
      before the walk ended or raised. */
  function WorkerOutput(walk: Walk, query: string, containsQuery: Matcher): (rs: seq<SearchResult>)
  {
    if walk.rootIsDirectory then WalkRecords(walk.entries[..Visited(walk)], query, containsQuery) else []
  }

  /** `r` is the record of a matching line of the regular, readable file `e`. */
  ghost predicate MatchOf(e: Entry, r: SearchResult, query: string, containsQuery: Matcher)
  {
    && e.isRegularFile
    && e.readable
    && r.filePath == e.path
    && 1 <= r.lineNumber <= |e.lines|
    && r.lineText == e.lines[r.lineNumber - 1]
    && containsQuery(r.lineText, query)
  }

  /** A record is produced for a file exactly when it names that file, a line
      number between 1 and the line count, that line verbatim, and the line
      matches. */
  lemma {:induction false} LineRecordsMembership(path: string, lines: seq<string>, query: string, containsQuery: Matcher, r: SearchResult)
    ensures r in LineRecords(path, lines, query, containsQuery) <==>
      && r.filePath == path
      && 1 <= r.lineNumber <= |lines|
      && r.lineText == lines[r.lineNumber - 1]
      && containsQuery(r.lineText, query)
  {
    if lines != [] {
      var init := lines[..|lines| - 1];
      LineRecordsMembership(path, init, query, containsQuery, r);
      if 1 <= r.lineNumber < |lines| {
        assert init[r.lineNumber - 1] == lines[r.lineNumber - 1];
      }
    }
  }

  /** Within one file, line numbers strictly increase and none exceeds the
      file's line count. */
  lemma {:induction false} LineRecordsIncreasing(path: string, lines: seq<string>, query: string, containsQuery: Matcher)
    ensures forall a :: 0 <= a < |LineRecords(path, lines, query, containsQuery)| ==>
      1 <= LineRecords(path, lines, query, containsQuery)[a].lineNumber <= |lines|
    ensures forall a, b :: 0 <= a < b < |LineRecords(path, lines, query, containsQuery)| ==>
      LineRecords(path, lines, query, containsQuery)[a].lineNumber < LineRecords(path, lines, query, containsQuery)[b].lineNumber
  {
    if lines != [] {
      var init := lines[..|lines| - 1];
      LineRecordsIncreasing(path, init, query, containsQuery);
      var front := LineRecords(path, init, query, containsQuery);
      var rs := LineRecords(path, lines, query, containsQuery);
      assert rs[..|front|] == front;
      forall a | |front| <= a < |rs| ensures rs[a].lineNumber == |lines| {
      }
    }
  }

  /** The first record of a file that matches on its first line is line 1. */
  lemma FirstLineIsOne(path: string, lines: seq<string>, query: string, containsQuery: Matcher)
    requires |lines| > 0 && containsQuery(lines[0], query)
    ensures LineRecords(path, lines, query, containsQuery) != []
    ensures LineRecords(path, lines, query, containsQuery)[0] == SearchResult(path, 1, lines[0])
  {
    var r := SearchResult(path, 1, lines[0]);
    LineRecordsMembership(path, lines, query, containsQuery, r);
    var rs := LineRecords(path, lines, query, containsQuery);
    LineRecordsIncreasing(path, lines, query, containsQuery);
    var i :| 0 <= i < |rs| && rs[i] == r;
    assert rs[0].lineNumber >= 1;
    assert i == 0;
  }

  /** An entry contributes a record exactly when it is a matching line of it. */
  lemma EntryRecordsMembership(e: Entry, query: string, containsQuery: Matcher, r: SearchResult)
    ensures r in EntryRecords(e, query, containsQuery) <==> MatchOf(e, r, query, containsQuery)
  {
    LineRecordsMembership(e.path, e.lines, query, containsQuery, r);
  }

  /** Every record an entry contributes carries that entry's path. */
  lemma EntryRecordsPath(e: Entry, query: string, containsQuery: Matcher)
    ensures forall r :: r in EntryRecords(e, query, containsQuery) ==> r.filePath == e.path
  {
    forall r | r in EntryRecords(e, query, containsQuery) ensures r.filePath == e.path {
      EntryRecordsMembership(e, query, containsQuery, r);
    }
  }

  /** Walking two runs of entries one after the other produces their records
      one after the other. */
  lemma {:induction false} WalkRecordsAppend(xs: seq<Entry>, ys: seq<Entry>, query: string, containsQuery: Matcher)
    ensures WalkRecords(xs + ys, query, containsQuery)
         == WalkRecords(xs, query, containsQuery) + WalkRecords(ys, query, containsQuery)
  {
    if ys != [] {
      var init := ys[..|ys| - 1];
      assert (xs + ys)[..|xs + ys| - 1] == xs + init;
      WalkRecordsAppend(xs, init, query, containsQuery);
    } else {
      assert xs + ys == xs;
    }
  }

  /** An entry that is not a regular file, or that fails to open, adds nothing,
      and the records of the entries after it follow directly. */
  lemma SkippedEntryAddsNothing(xs: seq<Entry>, e: Entry, ys: seq<Entry>, query: string, containsQuery: Matcher)
    requires !e.isRegularFile || !e.readable
    ensures WalkRecords(xs + [e] + ys, query, containsQuery) == WalkRecords(xs + ys, query, containsQuery)
  {
    WalkRecordsAppend(xs + [e], ys, query, containsQuery);
    WalkRecordsAppend(xs, ys, query, containsQuery);
    assert (xs + [e])[..|xs + [e]| - 1] == xs;
  }

  /** What a walk cut short after `k` entries produces is a prefix of what the
      full walk produces. */
  lemma WalkRecordsPrefix(entries: seq<Entry>, k: nat, query: string, containsQuery: Matcher)
    requires k <= |entries|
    ensures WalkRecords(entries[..k], query, containsQuery) <= WalkRecords(entries, query, containsQuery)
  {
    WalkRecordsAppend(entries[..k], entries[k..], query, containsQuery);
    assert entries[..k] + entries[k..] == entries;
  }

  /** A record comes out of a run of entries exactly when it is a matching
      line of one of them. */
  lemma {:induction false} WalkRecordsMembership(entries: seq<Entry>, query: string, containsQuery: Matcher, r: SearchResult)
    ensures r in WalkRecords(entries, query, containsQuery) <==>
      exists i :: 0 <= i < |entries| && MatchOf(entries[i], r, query, containsQuery)
  {
    if entries != [] {
      var n := |entries|;
      var init := entries[..n - 1];
      WalkRecordsMembership(init, query, containsQuery, r);
      EntryRecordsMembership(entries[n - 1], query, containsQuery, r);
      if r in WalkRecords(init, query, containsQuery) {
        var i :| 0 <= i < n - 1 && MatchOf(init[i], r, query, containsQuery);
        assert entries[i] == init[i];
      } else if r in EntryRecords(entries[n - 1], query, containsQuery) {
        assert MatchOf(entries[n - 1], r, query, containsQuery);
      } else {
        forall i | 0 <= i < n ensures !MatchOf(entries[i], r, query, containsQuery) {
          if i < n - 1 {
            assert entries[i] == init[i];
          }
        }
      }
    }
  }

  /** A worker's output is exactly the matching lines of the readable regular
      files among the entries its walk visited; a missing or non-directory
      start yields nothing. */
  lemma WorkerOutputMembership(walk: Walk, query: string, containsQuery: Matcher, r: SearchResult)
    ensures r in WorkerOutput(walk, query, containsQuery) <==>
      && walk.rootIsDirectory
      && exists i :: 0 <= i < Visited(walk) && MatchOf(walk.entries[i], r, query, containsQuery)
  {
    var k := Visited(walk);
    WalkRecordsMembership(walk.entries[..k], query, containsQuery, r);
    if exists i :: 0 <= i < k && MatchOf(walk.entries[i], r, query, containsQuery) {
      var i :| 0 <= i < k && MatchOf(walk.entries[i], r, query, containsQuery);
      assert walk.entries[..k][i] == walk.entries[i];
    }
  }

  /** When the walk raises after `k` entries, the output is what those `k`
      entries produced, a prefix of what the complete walk would have
      produced. */
  lemma WorkerOutputOnFailure(walk: Walk, k: nat, query: string, containsQuery: Matcher)
    requires walk.rootIsDirectory && walk.failsAfter == Some(k) && k <= |walk.entries|
    ensures WorkerOutput(walk, query, containsQuery) == WalkRecords(walk.entries[..k], query, containsQuery)
    ensures WorkerOutput(walk, query, containsQuery)
         <= WorkerOutput(Walk(true, walk.entries, None), query, containsQuery)
  {
    WalkRecordsPrefix(walk.entries, k, query, containsQuery);
    assert walk.entries[..|walk.entries|] == walk.entries;
  }

  /** The caller-owned result vector a worker appends to. */
  class ResultBuffer {
    var items: seq<SearchResult>

    constructor ()
      ensures items == []
    {
      items := [];
    }

    method PushBack(r: SearchResult)
      modifies this
      ensures items == old(items) + [r]
    {
      items := items + [r];
    }
  }

  /** The read loop over one opened file: numbers its lines from 1 and
      appends the record of every matching line, verbatim, in line order. */
  method ScanFile(path: string, lines: seq<string>, query: string, containsQuery: Matcher, localResults: ResultBuffer)
    modifies localResults
    ensures localResults.items == old(localResults.items) + LineRecords(path, lines, query, containsQuery)
  {
    ghost var fileStart := localResults.items;
    var lineNum := 0;
    while lineNum < |lines|
      invariant lineNum <= |lines|
      invariant localResults.items == fileStart + LineRecords(path, lines[..lineNum], query, containsQuery)
    {
      lineNum := lineNum + 1;
      var line := lines[lineNum - 1];
      assert lines[..lineNum][..lineNum - 1] == lines[..lineNum - 1];
      if containsQuery(line, query) {
        localResults.PushBack(SearchResult(path, lineNum, line));
      }
    }
    assert lines[..lineNum] == lines;
  }

  /** Scans the walk and appends to `localResults` the record of every
      matching line of every readable regular file, in walk order and line
      order. An unopenable file is skipped; a walk error ends the scan, keeping
      what was appended so far; an invalid start directory appends nothing. */
  method SearchWorker(walk: Walk, query: string, containsQuery: Matcher, localResults: ResultBuffer)
    modifies localResults
    ensures localResults.items == old(localResults.items) + WorkerOutput(walk, query, containsQuery)
  {
    ghost var before := localResults.items;
    if walk.rootIsDirectory {
      var entries := walk.entries;
      var k := 0;
      while k < |entries|
        invariant k <= Visited(walk)
        invariant localResults.items == before + WalkRecords(entries[..k], query, containsQuery)
      {
        if walk.failsAfter == Some(k) {
          // the directory iterator raised; the error is reported and the scan ends
          assert k == Visited(walk);
          break;
        }
        var entry := entries[k];
        assert entries[..k + 1][..k] == entries[..k];
        if entry.isRegularFile {
          if !entry.readable {
            // the open failure is reported and the next entry is taken
            k := k + 1;
            continue;
          }
          ScanFile(entry.path, entry.lines, query, containsQuery, localResults);
        }
        k := k + 1;
      }
      assert k == Visited(walk);
    } else {
      // the invalid start directory is reported
    }
  }
}
