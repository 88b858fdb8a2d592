// The interactive session: the current root directory, the query-result
// cache, and the search that fans out one worker per partition plus one for
// the root and concatenates their buffers.

module Session {
  import opened SearchEngine

  /** Above this many cached queries, a miss wipes the whole cache. */
  const MAX_CACHE_SIZE: nat := 2048

  /** The file system as the session sees it: the walk a worker started at a
      directory gets, and the partition directories that directory splits
      into (the partitioner itself is not part of this model). */
  datatype FileSystem = FileSystem(walkFrom: string -> Walk, partitionsOf: string -> seq<string>)

  /** The slots laid end to end, in slot order. */
  function Flatten<T>(slots: seq<seq<T>>): (merged: seq<T>)
  {
    if slots == [] then [] else Flatten(slots[..|slots| - 1]) + slots[|slots| - 1]
  }

  /** Sum of the slot lengths. */
  function TotalLength<T>(slots: seq<seq<T>>): (total: nat)
  {
    if slots == [] then 0 else TotalLength(slots[..|slots| - 1]) + |slots[|slots| - 1]|
  }

  /** The merge holds as many records as all slots together. */
  lemma {:induction false} FlattenLength<T>(slots: seq<seq<T>>)
    ensures |Flatten(slots)| == TotalLength(slots)
  {
    if slots != [] {
      FlattenLength(slots[..|slots| - 1]);
    }
  }

  /** Element `k` of slot `i` sits in the merge right after all records of
      slots `0..i-1`: slots keep their order and their contents. */
  lemma {:induction false} FlattenAt<T>(slots: seq<seq<T>>, i: nat, k: nat)
    requires i < |slots| && k < |slots[i]|
    ensures TotalLength(slots[..i]) + k < |Flatten(slots)|
    ensures Flatten(slots)[TotalLength(slots[..i]) + k] == slots[i][k]
  {
    var n := |slots|;
    var init := slots[..n - 1];
    FlattenLength(init);
    if i == n - 1 {
      assert slots[..i] == init;
    } else {
      assert init[..i] == slots[..i];
      FlattenAt(init, i, k);
    }
  }

  /** One worker output per partition, in partition order. */
  function PartitionOutputs(fs: FileSystem, partitions: seq<string>, query: string, containsQuery: Matcher): (slots: seq<seq<SearchResult>>)
  {
    seq(|partitions|, i requires 0 <= i < |partitions| => WorkerOutput(fs.walkFrom(partitions[i]), query, containsQuery))
  }

  /** The combined results of a search that missed the cache: the
      partitions' outputs in partition order, then the root worker's. */
  function CombinedResults(fs: FileSystem, rootPath: string, query: string, containsQuery: Matcher): (rs: seq<SearchResult>)
  {
    Flatten(PartitionOutputs(fs, fs.partitionsOf(rootPath), query, containsQuery))
      + WorkerOutput(fs.walkFrom(rootPath), query, containsQuery)
  }

  /** The combined results are as long as all partition outputs plus the root
      worker's output. */
  lemma CombinedResultsLength(fs: FileSystem, rootPath: string, query: string, containsQuery: Matcher)
    ensures |CombinedResults(fs, rootPath, query, containsQuery)|
         == TotalLength(PartitionOutputs(fs, fs.partitionsOf(rootPath), query, containsQuery))
            + |WorkerOutput(fs.walkFrom(rootPath), query, containsQuery)|
  {
    FlattenLength(PartitionOutputs(fs, fs.partitionsOf(rootPath), query, containsQuery));
  }

  /** A record is in the merge exactly when it is in some slot. */
  lemma {:induction false} FlattenMembership<T>(slots: seq<seq<T>>, x: T)
    ensures x in Flatten(slots) <==> exists i :: 0 <= i < |slots| && x in slots[i]
  {
    if slots != [] {
      var n := |slots|;
      var init := slots[..n - 1];
      FlattenMembership(init, x);
      if exists i :: 0 <= i < n && x in slots[i] {
        var i :| 0 <= i < n && x in slots[i];
        if i < n - 1 {
          assert init[i] == slots[i];
        }
      }
      if exists i :: 0 <= i < n - 1 && x in init[i] {
        var i :| 0 <= i < n - 1 && x in init[i];
        assert slots[i] == init[i];
      }
    }
  }

  /** Every record of a search is a matching line, verbatim, of a readable
      regular file visited by the root worker or by a partition worker. */
  lemma CombinedResultsSound(fs: FileSystem, rootPath: string, query: string, containsQuery: Matcher, r: SearchResult)
    requires r in CombinedResults(fs, rootPath, query, containsQuery)
    ensures containsQuery(r.lineText, query) && r.lineNumber >= 1
    ensures
      || (exists i :: 0 <= i < |fs.partitionsOf(rootPath)| && r in WorkerOutput(fs.walkFrom(fs.partitionsOf(rootPath)[i]), query, containsQuery))
      || r in WorkerOutput(fs.walkFrom(rootPath), query, containsQuery)
  {
    var parts := fs.partitionsOf(rootPath);
    var slots := PartitionOutputs(fs, parts, query, containsQuery);
    FlattenMembership(slots, r);
    var w: Walk;
    if r in Flatten(slots) {
      var i :| 0 <= i < |slots| && r in slots[i];
      w := fs.walkFrom(parts[i]);
    } else {
      w := fs.walkFrom(rootPath);
    }
    WorkerOutputMembership(w, query, containsQuery, r);
  }

  /** `schedule` is an order in which the `workers` threads may finish: each
      worker exactly once. Worker `i < workers - 1` is the one for partition
      `i`; the last is the root worker. */
  predicate IsSchedule(schedule: seq<nat>, workers: nat)
  {
    && (forall t :: 0 <= t < |schedule| ==> schedule[t] < workers)
    && (forall s, t :: 0 <= s < t < |schedule| ==> schedule[s] != schedule[t])
    && (forall w :: 0 <= w < workers ==> w in schedule)
  }

  /** `n` fresh, distinct, empty result slots. */
  method NewSlots(n: nat) returns (slots: seq<ResultBuffer>)
    ensures |slots| == n
    ensures forall a :: 0 <= a < n ==> fresh(slots[a]) && slots[a].items == []
    ensures forall a, b :: 0 <= a < b < n ==> slots[a] != slots[b]
  {
    slots := [];
    while |slots| < n
      invariant |slots| <= n
      invariant forall a :: 0 <= a < |slots| ==> fresh(slots[a]) && slots[a].items == []
      invariant forall a, b :: 0 <= a < b < |slots| ==> slots[a] != slots[b]
    {
      var slot := new ResultBuffer();
      slots := slots + [slot];
    }
  }

  /** Runs the workers to completion in the order `schedule` gives. Worker
      `w < |walks|` scans `walks[w]` into `slots[w]` and touches no other slot;
      the last worker scans `rootWalk` into `rootResults`. */
  method RunWorkers(walks: seq<Walk>, rootWalk: Walk, query: string, containsQuery: Matcher,
                    slots: seq<ResultBuffer>, rootResults: ResultBuffer, schedule: seq<nat>)
    requires |slots| == |walks|
    requires IsSchedule(schedule, |walks| + 1)
    requires forall a, b :: 0 <= a < b < |slots| ==> slots[a] != slots[b]
    requires rootResults !in slots
    modifies slots, rootResults
    ensures forall a :: 0 <= a < |slots| ==>
      slots[a].items == old(slots[a].items) + WorkerOutput(walks[a], query, containsQuery)
    ensures rootResults.items == old(rootResults.items) + WorkerOutput(rootWalk, query, containsQuery)
  {
    var n := |walks|;
    var t := 0;
    while t < |schedule|
      invariant t <= |schedule|
      invariant forall a :: 0 <= a < n ==>
        slots[a].items == old(slots[a].items)
          + if a in schedule[..t] then WorkerOutput(walks[a], query, containsQuery) else []
      invariant rootResults.items == old(rootResults.items)
          + if n in schedule[..t] then WorkerOutput(rootWalk, query, containsQuery) else []
    {
      var w := schedule[t];
      assert schedule[..t + 1] == schedule[..t] + [w];
      assert w !in schedule[..t];
      if w < n {
        SearchWorker(walks[w], query, containsQuery, slots[w]);
      } else {
        SearchWorker(rootWalk, query, containsQuery, rootResults);
      }
      t := t + 1;
    }
    assert schedule[..t] == schedule;
  }

  /** The contents of the slots, in slot order. */
  ghost function SlotContents(slots: seq<ResultBuffer>): (s: seq<seq<SearchResult>>)
    reads slots
    ensures |s| == |slots|
    ensures forall a :: 0 <= a < |slots| ==> s[a] == slots[a].items
  {
    if slots == [] then [] else SlotContents(slots[..|slots| - 1]) + [slots[|slots| - 1].items]
  }

  /** The merge: appends each slot in turn, then the root worker's results. */
  method CombineResults(localResults: seq<ResultBuffer>, rootResults: ResultBuffer)
      returns (combinedResults: seq<SearchResult>)
    ensures combinedResults == Flatten(SlotContents(localResults)) + rootResults.items
  {
    ghost var slots := SlotContents(localResults);
    combinedResults := [];
    var i := 0;
    while i < |localResults|
      invariant i <= |localResults|
      invariant combinedResults == Flatten(slots[..i])
    {
      assert slots[..i + 1][..i] == slots[..i];
      combinedResults := combinedResults + localResults[i].items;
      i := i + 1;
    }
    assert slots[..i] == slots;
    combinedResults := combinedResults + rootResults.items;
  }

  /** Two slot lists that agree slot by slot are equal. */
  lemma SameSlots(xs: seq<seq<SearchResult>>, ys: seq<seq<SearchResult>>)
    requires |xs| == |ys| && forall a :: 0 <= a < |xs| ==> xs[a] == ys[a]
    ensures xs == ys
  {
  }

  /** A search that missed the cache: one empty slot per partition, one
      worker per partition plus one on the root, all run to completion in the
      order `schedule` gives, then the merge. */
  method RunSearch(fs: FileSystem, rootPath: string, query: string, containsQuery: Matcher, schedule: seq<nat>)
      returns (combinedResults: seq<SearchResult>)
    requires IsSchedule(schedule, |fs.partitionsOf(rootPath)| + 1)
    ensures combinedResults == CombinedResults(fs, rootPath, query, containsQuery)
  {
    var partitions := fs.partitionsOf(rootPath);
    var n := |partitions|;
    ghost var expected := PartitionOutputs(fs, partitions, query, containsQuery);
    var walks := seq(n, j requires 0 <= j < n => fs.walkFrom(partitions[j]));
    var localResults := NewSlots(n);
    var rootResults := new ResultBuffer();
    assert forall a :: 0 <= a < n ==> walks[a] == fs.walkFrom(partitions[a]);
    assert rootResults !in localResults;
    assert forall a :: 0 <= a < n ==> localResults[a].items == [];
    RunWorkers(walks, fs.walkFrom(rootPath), query, containsQuery, localResults, rootResults, schedule);
    assert forall a :: 0 <= a < n ==> localResults[a].items == expected[a];
    assert rootResults.items == WorkerOutput(fs.walkFrom(rootPath), query, containsQuery);
    SameSlots(SlotContents(localResults), expected);
    combinedResults := CombineResults(localResults, rootResults);
  }

  /** What one pass through the menu did. */
  datatype MenuOutcome =
    | Displayed(fromCache: bool, results: seq<SearchResult>)
    | DirectoryChanged(newRoot: string)
    | Quit
    | BadChoice

  class SearchSession {
    var rootPath: string
    var resultCache: map<string, seq<SearchResult>>

    /** A session starts at an accepted root directory with an empty cache. */
    constructor (rootPath: string)
      ensures this.rootPath == rootPath && resultCache == map[]
    {
      this.rootPath := rootPath;
      resultCache := map[];
    }

    /** Runs one query. A cached query is answered from the cache with nothing
        else touched. Otherwise the cache is wiped if it holds more than
        MAX_CACHE_SIZE queries, one worker runs per partition into its own
        slot plus one on the root, the workers finish in the order `schedule`
        gives, and the slots are concatenated in partition order followed by
        the root worker's results. */
    method Search(query: string, fs: FileSystem, containsQuery: Matcher, schedule: seq<nat>)
        returns (fromCache: bool, results: seq<SearchResult>)
      requires IsSchedule(schedule, |fs.partitionsOf(rootPath)| + 1)
      modifies this
      ensures rootPath == old(rootPath)
      ensures fromCache <==> query in old(resultCache)
      ensures fromCache ==> results == old(resultCache)[query] && resultCache == old(resultCache)
      ensures !fromCache ==> results == CombinedResults(fs, rootPath, query, containsQuery)
      ensures !fromCache ==>
        resultCache == if |old(resultCache)| > MAX_CACHE_SIZE then map[] else old(resultCache)
    {
      if query in resultCache {
        // served from the cache and shown as a cache hit
        return true, resultCache[query];
      }
      fromCache := false;
      if |resultCache| > MAX_CACHE_SIZE {
        resultCache := map[];
      }
      results := RunSearch(fs, rootPath, query, containsQuery, schedule);
    }

    /** Switches to an accepted new root directory and empties the cache. */
    method ChangeDirectory(newRoot: string)
      modifies this
      ensures rootPath == newRoot && resultCache == map[]
    {
      rootPath := newRoot;
      resultCache := map[];
    }

    /** One pass through the menu: "1" searches for `query`, "2" changes to
        `newRoot`, "3" quits, anything else is rejected with nothing changed. */
    method HandleChoice(choice: string, query: string, newRoot: string, fs: FileSystem,
                        containsQuery: Matcher, schedule: seq<nat>)
        returns (outcome: MenuOutcome)
      requires choice == "1" ==> IsSchedule(schedule, |fs.partitionsOf(rootPath)| + 1)
      modifies this
      ensures choice == "1" ==> outcome.Displayed? && rootPath == old(rootPath)
      ensures choice == "1" ==> (outcome.fromCache <==> query in old(resultCache))
      ensures choice == "1" && outcome.fromCache ==>
        outcome.results == old(resultCache)[query] && resultCache == old(resultCache)
      ensures choice == "1" && !outcome.fromCache ==>
        && outcome.results == CombinedResults(fs, rootPath, query, containsQuery)
        && resultCache == if |old(resultCache)| > MAX_CACHE_SIZE then map[] else old(resultCache)
      ensures choice == "2" ==> outcome == DirectoryChanged(newRoot) && rootPath == newRoot && resultCache == map[]
      ensures choice == "3" ==> outcome == Quit && rootPath == old(rootPath) && resultCache == old(resultCache)
      ensures choice !in {"1", "2", "3"} ==>
        outcome == BadChoice && rootPath == old(rootPath) && resultCache == old(resultCache)
    {
      if choice == "1" {
        var fromCache, results := Search(query, fs, containsQuery, schedule);
        outcome := Displayed(fromCache, results);
      } else if choice == "2" {
        ChangeDirectory(newRoot);
        outcome := DirectoryChanged(newRoot);
      } else if choice == "3" {
        outcome := Quit;
      } else {
        // reported as a bad choice; the menu is shown again
        outcome := BadChoice;
      }
    }
  }

  /** After a directory change, a query that was cached for the old root
      misses and is searched afresh under the new one. */
  method ChangeDirectoryForcesMiss(oldRoot: string, newRoot: string, query: string,
                                   cached: seq<SearchResult>, fs: FileSystem,
                                   containsQuery: Matcher, schedule: seq<nat>)
      returns (fromCache: bool, results: seq<SearchResult>)
    requires IsSchedule(schedule, |fs.partitionsOf(newRoot)| + 1)
    ensures !fromCache
    ensures results == CombinedResults(fs, newRoot, query, containsQuery)
  {
    var session := new SearchSession(oldRoot);
    session.resultCache := map[query := cached];
    session.ChangeDirectory(newRoot);
    fromCache, results := session.Search(query, fs, containsQuery, schedule);
  }

  /** Asking the same query twice against a session whose cache holds it
      returns the cached list both times, whatever the file system shows. */
  method CacheHitIgnoresFileSystem(rootPath: string, query: string, cached: seq<SearchResult>,
                                   fs1: FileSystem, fs2: FileSystem, containsQuery: Matcher,
                                   schedule1: seq<nat>, schedule2: seq<nat>)
      returns (first: seq<SearchResult>, second: seq<SearchResult>)
    requires IsSchedule(schedule1, |fs1.partitionsOf(rootPath)| + 1)
    requires IsSchedule(schedule2, |fs2.partitionsOf(rootPath)| + 1)
    ensures first == cached && second == cached
  {
    var session := new SearchSession(rootPath);
    session.resultCache := map[query := cached];
    var hit1, hit2;
    hit1, first := session.Search(query, fs1, containsQuery, schedule1);
    hit2, second := session.Search(query, fs2, containsQuery, schedule2);
  }
}
