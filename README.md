# Search engine core, modelled in Dafny

A model of the core of a small C++ search engine. The engine scans a
directory tree for lines that contain a query. It runs one worker thread per
partition of the current root directory, plus one worker on the root itself.
It concatenates the workers' result vectors and keeps a per-query result
cache. The model also covers the path normaliser in app/main.cpp. The
recursive database insert applies it to each file path it finds.

- `paths.dfy`, module `Paths`: `ReplaceBackslashes`, which rewrites every `\` as `/`.
- `search_engine.dfy`, module `SearchEngine`: the `SearchResult` record, an
  abstract view of a recursive directory walk (`Walk`, `Entry`), and
  `SearchWorker`. It is an imperative method with nested loops over entries
  and lines. It appends to a caller-owned `ResultBuffer`, and is proved
  against the specification function `WorkerOutput`.
- `session.dfy`, module `Session`: the `SearchSession` class, which holds the
  fields `rootPath` and `resultCache`. Its methods cover the menu dispatch,
  the cache lookup, the capacity wipe, the fan-out into per-partition slots,
  the merge, and the directory change that clears the cache.

The line matcher `containsQuery` is declared in assig2/SearchEngine.h and has
no definition in these sources. Here it is the parameter
`containsQuery: Matcher`, so it can be any total predicate on a line and a
query. The partitioner `getPartitions` is likewise only declared there. Here it
is the field `partitionsOf` of the `FileSystem` parameter, so the partition
list can be anything.

Thread completion order is the `schedule` parameter of `Search`: any order in
which each worker finishes exactly once. Each worker writes only its own slot,
and the postcondition of `Search` does not mention `schedule`. So the
combined result is the same for every completion order.

Three behaviours of the code that the model keeps:

- The root worker scans the root recursively, so it scans the partition
  directories again. The combined list can hold the same record twice.
- assig2/SearchEngine.cpp and assig2/main.cpp never insert into
  `resultCache`. They read it, wipe it on overflow and wipe it on a directory
  change. So every cache property here is stated for an arbitrary cache
  state, since other code may fill the global cache.
- The merge is plain concatenation: nothing in assig2/main.cpp sorts the
  combined list. The matcher is uninterpreted, so no case folding is assumed.

## Model

| member | source | states |
|---|---|---|
| `Paths.ReplaceBackslashesAt` | app/main.cpp:10-13 | the output has the input's length; at each position a `\` becomes `/` and any other character is unchanged |
| `Paths.ReplaceBackslashesLength` | app/main.cpp:10-13 | normalising preserves the length of the string |
| `Paths.ReplaceBackslashesNoBackslash` | app/main.cpp:11-12 | no `\` remains in the output |
| `Paths.ReplaceBackslashesFixesClean` | app/main.cpp:11-12 | a string without `\` is returned unchanged |
| `Paths.ReplaceBackslashesIdempotent` | app/main.cpp:11-12 | normalising twice equals normalising once |
| `Paths.ReplaceBackslashesAppend` | app/main.cpp:11-12 | normalising a concatenation equals concatenating the normalised parts |
| `Paths.ReplaceBackslashesExamples` | app/main.cpp:10-13 | the empty string maps to itself; `a\b` maps to `a/b` |
| `SearchEngine.Visited` | assig2/SearchEngine.cpp:11 | the walk yields at most its entries, and all of them when it does not raise |
| `SearchEngine.LineRecordsMembership` | assig2/SearchEngine.cpp:19-26 | a record is produced for a file exactly when it carries that file's path, a line number from 1 to the line count, that line verbatim, and the line matches |
| `SearchEngine.LineRecordsIncreasing` | assig2/SearchEngine.cpp:20-25 | within one file, line numbers lie between 1 and the line count and strictly increase |
| `SearchEngine.FirstLineIsOne` | assig2/SearchEngine.cpp:20-24 | numbering starts at 1: a match on the first line is the first record, with number 1 |
| `SearchEngine.EntryRecordsMembership` | assig2/SearchEngine.cpp:12-26 | an entry contributes a record exactly when the entry is a regular file that opens and the record is one of its matching lines |
| `SearchEngine.EntryRecordsPath` | assig2/SearchEngine.cpp:24 | every record from a file carries that file's path |
| `SearchEngine.WalkRecordsAppend` | assig2/SearchEngine.cpp:11-28 | the records of two runs of entries, walked in turn, are the two outputs concatenated |
| `SearchEngine.SkippedEntryAddsNothing` | assig2/SearchEngine.cpp:12-17 | a non-regular or unopenable entry adds nothing, and the scan goes on with the next entry |
| `SearchEngine.WalkRecordsPrefix` | assig2/SearchEngine.cpp:11-28 | the output of the first k entries is a prefix of the output of the whole walk |
| `SearchEngine.WalkRecordsMembership` | assig2/SearchEngine.cpp:11-28 | a record is in a walk's output exactly when it is a matching line of one of the walk's readable regular files |
| `SearchEngine.WorkerOutputMembership` | assig2/SearchEngine.cpp:8-35 | a worker outputs exactly the matching lines of the readable regular files it visited, and nothing when the start directory is missing or not a directory |
| `SearchEngine.WorkerOutputOnFailure` | assig2/SearchEngine.cpp:29-34 | when the walk raises after k entries, the output is exactly what those k entries produced, a prefix of the output of the complete walk |
| `SearchEngine.ResultBuffer.constructor` | assig2/main.cpp:48 | a new result slot is empty |
| `SearchEngine.ResultBuffer.PushBack` | assig2/SearchEngine.cpp:24 | push_back appends one record and keeps the earlier contents |
| `SearchEngine.ScanFile` | assig2/SearchEngine.cpp:19-26 | the buffer afterwards is its old contents followed by the records of the file's matching lines, numbered from 1, in line order |
| `SearchEngine.SearchWorker` | assig2/SearchEngine.cpp:8-35 | the buffer afterwards is its old contents followed by `WorkerOutput`: append-only, unchanged for an invalid start directory, and cut after k entries when the walk raises |
| `Session.FlattenLength` | assig2/main.cpp:64-67 | the concatenated slots hold as many records as all slots together |
| `Session.FlattenAt` | assig2/main.cpp:64-67 | element k of slot i sits right after all records of the slots before i, so slot order and slot contents are kept |
| `Session.FlattenMembership` | assig2/main.cpp:64-67 | a record is in the concatenation exactly when it is in some slot |
| `Session.CombinedResultsLength` | assig2/main.cpp:64-68 | the combined length is the sum of the slot lengths plus the root worker's length |
| `Session.CombinedResultsSound` | assig2/main.cpp:64-68 | every combined record is a matching line, numbered from 1, that came from the root worker or from a partition worker |
| `Session.NewSlots` | assig2/main.cpp:48 | n distinct, fresh, empty result slots |
| `Session.RunWorkers` | assig2/main.cpp:48-62 | one slot per partition; for every order in which the workers finish, worker i writes only slot i, so each partition slot holds exactly its own worker's output and the root slot holds the root worker's output |
| `Session.CombineResults` | assig2/main.cpp:64-68 | the merge is the slots in slot order followed by the root worker's results |
| `Session.RunSearch` | assig2/main.cpp:45-68 | a search that misses the cache returns the partition outputs in partition order followed by the root output, whatever the schedule |
| `Session.SearchSession.constructor` | assig2/main.cpp:12-19 | a session starts at the accepted root with an empty cache |
| `Session.SearchSession.Search` | assig2/main.cpp:31-70 | a hit returns the cached list and changes nothing. A miss wipes the cache exactly when it holds more than 2048 queries and otherwise leaves it alone. The result is the partition slots in partition order followed by the root worker's output, for every thread completion order |
| `Session.SearchSession.ChangeDirectory` | assig2/main.cpp:72-80 | the root becomes the accepted new directory and the cache is empty |
| `Session.SearchSession.HandleChoice` | assig2/main.cpp:29-87 | choice 1 searches, 2 changes directory and clears the cache, 3 quits with nothing changed, and any other choice changes neither the root nor the cache |
| `Session.ChangeDirectoryForcesMiss` | assig2/main.cpp:36-43 | after a directory change, a query cached for the old root misses and is searched under the new root |
| `Session.CacheHitIgnoresFileSystem` | assig2/main.cpp:36-40 | a cached query is answered with the cached list whatever the file system or the schedule shows, so no search takes place |

## Left out

- Database code in app/main.cpp: the connection, inserts, deletes, SQL search, result printing and `main`. These are foreign calls into the PostgreSQL client.
- Threads: creating and joining threads is not modelled. The workers run one after another, in the order given by `schedule`. Each worker owns its slot, so this gives the same merge as the threads.
- `containsQuery`, `getPartitions` and `processAndDisplayResults` are declared in assig2/SearchEngine.h and have no definition in these sources. The first two are parameters. The third is not modelled, so showing results, sorting them and storing them in the cache are not part of this model.
- `processAndDisplayResults` takes the result vector by mutable reference, and on a hit that vector is the cache entry itself. Any change it makes to the cached list is not modelled.
- Real file system and stream behaviour: the directory iterator, `ifstream`, and the splitting of a file into lines by `getline`. A walk is given as a sequence of entries, each with its lines. A walk error is modelled only between entries, as "raises after k entries".
- Diagnostics written to the error stream are left out. Only the control flow they sit in is kept.
- The `while (true)` menu loop of assig2/main.cpp:21-87 is modelled one pass at a time, by `HandleChoice`. The repetition itself and the `break` on choice 3 that ends the program are not modelled.
- Console prompts and the loops that re-prompt until a valid directory is typed. The constructor and `ChangeDirectory` take the accepted path.
- The `size_t` line counter is an unbounded `nat`. A file with 2^64 lines or more is out of reach.
- Disjointness and freedom from duplicates of the merged list are not claimed. The root worker scans the partitions again.
- `ReplaceBackslashes` works on characters, while the C++ `std::string` is a sequence of bytes and the regular expression rewrites every 0x5C byte. The two agree for UTF-8 paths, where 0x5C never occurs inside a multi-byte character. They disagree for double-byte code pages such as Shift-JIS, where 0x5C can be the second byte of a character that the C++ then corrupts. The model does not capture that corruption.
