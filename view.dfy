/** `cmd/view.go`: the logic behind the `view` command. Loading a run's folder,
    pairing the records of two runs by query number, resolving a test file to its
    folder, choosing between the single and the diff view, and the rule that marks a
    median as significantly changed. */
module View {
  import opened Wrappers
  import opened Driver
  import opened Text
  import opened Sequences
  import opened Config
  import opened Stats
  import opened QueryRecords
  import Sorting

  /* ---------------------------------------------------------------------------
     Pairing two runs
     --------------------------------------------------------------------------- */

  /** The pairs the second loop of `buildQueryRecordsDiff` appends: one for each
      right-hand record whose number is a key of `lhsMap`, in right-hand order. */
  function Matched(lhsMap: map<int, QueryRecordWithStats>, rhs: seq<QueryRecordWithStats>)
    : seq<QueryRecordPair>
  {
    if rhs == [] then []
    else
      var x := rhs[|rhs| - 1];
      Matched(lhsMap, rhs[..|rhs| - 1]) +
      (if Number(x) in lhsMap then [QueryRecordPair(lhsMap[Number(x)], x)] else [])
  }

  /** Every pair holds a right-hand record whose number is a key of the map, next to
      the map's record for that number; and every such right-hand record is paired. */
  lemma {:induction false} MatchedMembers(lhsMap: map<int, QueryRecordWithStats>, rhs: seq<QueryRecordWithStats>)
    ensures forall p :: p in Matched(lhsMap, rhs) ==>
              p.rhs in rhs && Number(p.rhs) in lhsMap && p.lhs == lhsMap[Number(p.rhs)]
    ensures forall i :: 0 <= i < |rhs| && Number(rhs[i]) in lhsMap ==>
              QueryRecordPair(lhsMap[Number(rhs[i])], rhs[i]) in Matched(lhsMap, rhs)
    decreases |rhs|
  {
    if rhs != [] {
      var front := rhs[..|rhs| - 1];
      MatchedMembers(lhsMap, front);
      assert forall i :: 0 <= i < |front| ==> front[i] == rhs[i];
    }
  }

  lemma MatchedSnoc(lhsMap: map<int, QueryRecordWithStats>, rhs: seq<QueryRecordWithStats>,
                    x: QueryRecordWithStats)
    ensures Matched(lhsMap, rhs + [x]) ==
            Matched(lhsMap, rhs) + (if Number(x) in lhsMap then [QueryRecordPair(lhsMap[Number(x)], x)] else [])
  {
    assert (rhs + [x])[..|rhs|] == rhs;
  }

  /** The positions of the right-hand records that find a partner. */
  function MatchedPositions(lhsMap: map<int, QueryRecordWithStats>, rhs: seq<QueryRecordWithStats>)
    : set<nat>
  {
    set i: nat | i < |rhs| && Number(rhs[i]) in lhsMap
  }

  /** There is one pair per right-hand record whose number occurs on the left. */
  lemma {:induction false} MatchedCount(lhsMap: map<int, QueryRecordWithStats>, rhs: seq<QueryRecordWithStats>)
    ensures |Matched(lhsMap, rhs)| == |MatchedPositions(lhsMap, rhs)|
    decreases |rhs|
  {
    if rhs != [] {
      var n := |rhs| - 1;
      var front := rhs[..n];
      MatchedCount(lhsMap, front);
      var before := MatchedPositions(lhsMap, front);
      assert MatchedPositions(lhsMap, rhs) ==
             before + (if Number(rhs[n]) in lhsMap then {n} else {});
      assert n !in before;
    }
  }

  /** `buildQueryRecordsDiff`. The first loop keys the left-hand records by query
      number, a later record replacing an earlier one; the second keeps each
      right-hand record whose number has a left-hand record, paired with it; the pairs
      are then sorted by query number (Go's `sort.Slice`, which is not stable). */
  method BuildQueryRecordsDiff(lhs: seq<QueryRecordWithStats>, rhs: seq<QueryRecordWithStats>)
    returns (pairs: seq<QueryRecordPair>)
    ensures Sorting.SortedBy(pairs, PairNumber)
    ensures multiset(pairs) == multiset(Matched(LastByKey(lhs, Number), rhs))
  {
    var lhsMap: map<int, QueryRecordWithStats> := map[];
    for i := 0 to |lhs|
      invariant lhsMap == LastByKey(lhs[..i], Number)
    {
      assert lhs[..i + 1][..i] == lhs[..i];
      lhsMap := lhsMap[Number(lhs[i]) := lhs[i]];
    }
    assert lhs[..|lhs|] == lhs;

    var queryPairs: seq<QueryRecordPair> := [];
    for i := 0 to |rhs|
      invariant queryPairs == Matched(lhsMap, rhs[..i])
    {
      assert rhs[..i + 1][..i] == rhs[..i];
      if Number(rhs[i]) in lhsMap {
        queryPairs := queryPairs + [QueryRecordPair(lhsMap[Number(rhs[i])], rhs[i])];
      }
    }
    assert rhs[..|rhs|] == rhs;

    var a := new QueryRecordPair[|queryPairs|](i requires 0 <= i < |queryPairs| => queryPairs[i]);
    assert a[..] == queryPairs;
    Sorting.SortByKey(a, PairNumber);
    pairs := a[..];
  }

  /** Any ordering of the pairs holds one pair per right-hand record whose number
      occurs on the left. */
  lemma DiffCount(lhs: seq<QueryRecordWithStats>, rhs: seq<QueryRecordWithStats>,
                  pairs: seq<QueryRecordPair>)
    requires multiset(pairs) == multiset(Matched(LastByKey(lhs, Number), rhs))
    ensures |pairs| == |MatchedPositions(LastByKey(lhs, Number), rhs)|
  {
    var lhsMap := LastByKey(lhs, Number);
    MatchedCount(lhsMap, rhs);
    assert |multiset(pairs)| == |multiset(Matched(lhsMap, rhs))|;
  }

  /** In any ordering of the pairs, both records of a pair have the same query number,
      the right one comes from `rhs`, and the left one is the last record of `lhs`
      with that number. */
  lemma DiffPairsMatch(lhs: seq<QueryRecordWithStats>, rhs: seq<QueryRecordWithStats>,
                       pairs: seq<QueryRecordPair>)
    requires multiset(pairs) == multiset(Matched(LastByKey(lhs, Number), rhs))
    ensures forall p :: p in pairs ==> p.rhs in rhs && PairNumber(p) == Number(p.rhs)
    ensures forall p :: p in pairs ==>
              exists i :: 0 <= i < |lhs| && lhs[i] == p.lhs && Number(lhs[i]) == Number(p.rhs) &&
                          forall j :: i < j < |lhs| ==> Number(lhs[j]) != Number(p.rhs)
  {
    LastByKeyEntries(lhs, Number);
    MatchedMembers(LastByKey(lhs, Number), rhs);
    forall p | p in pairs
      ensures p in Matched(LastByKey(lhs, Number), rhs)
    {
      assert p in multiset(pairs);
    }
  }

  /** A right-hand record is paired exactly when some left-hand record has its query
      number. */
  lemma DiffPairedIff(lhs: seq<QueryRecordWithStats>, rhs: seq<QueryRecordWithStats>,
                      pairs: seq<QueryRecordPair>, i: nat)
    requires multiset(pairs) == multiset(Matched(LastByKey(lhs, Number), rhs))
    requires i < |rhs|
    ensures (exists p :: p in pairs && p.rhs == rhs[i]) <==>
            (exists k :: 0 <= k < |lhs| && Number(lhs[k]) == Number(rhs[i]))
  {
    var lhsMap := LastByKey(lhs, Number);
    var matched := Matched(lhsMap, rhs);
    LastByKeyEntries(lhs, Number);
    MatchedMembers(lhsMap, rhs);
    if exists p :: p in pairs && p.rhs == rhs[i] {
      var p :| p in pairs && p.rhs == rhs[i];
      assert p in multiset(pairs);
      assert p in matched;
    }
    if exists k :: 0 <= k < |lhs| && Number(lhs[k]) == Number(rhs[i]) {
      var p := QueryRecordPair(lhsMap[Number(rhs[i])], rhs[i]);
      assert p in matched;
      assert p in multiset(matched);
      assert p in pairs;
    }
  }

  /** A record with no samples, numbered `n`. */
  function Sample(n: int): QueryRecordWithStats {
    QueryRecordWithStats(QueryRecord(n, "", [], []), Zero)
  }

  /** The map the first loop builds from left-hand queries 0, 1, 2. */
  lemma ExampleLhsMap()
    ensures LastByKey([Sample(0), Sample(1), Sample(2)], Number) ==
            map[0 := Sample(0), 1 := Sample(1), 2 := Sample(2)]
  {
    var s0, s1, s2 := Sample(0), Sample(1), Sample(2);
    assert [s0][..0] == [] && [s0, s1][..1] == [s0] && [s0, s1, s2][..2] == [s0, s1];
    assert LastByKey([s0], Number) == map[0 := s0];
    assert LastByKey([s0, s1], Number) == map[0 := s0, 1 := s1];
  }

  /** Right-hand queries 0, 1, 3 against the map of left-hand queries 0, 1, 2: the
      pairs for 0 and 1, in right-hand order, before sorting. */
  lemma ExampleMatched()
    ensures Matched(map[0 := Sample(0), 1 := Sample(1), 2 := Sample(2)], [Sample(0), Sample(1), Sample(3)])
         == [QueryRecordPair(Sample(0), Sample(0)), QueryRecordPair(Sample(1), Sample(1))]
  {
    var s0, s1, s3 := Sample(0), Sample(1), Sample(3);
    var m := map[0 := s0, 1 := s1, 2 := Sample(2)];
    assert [s0][..0] == [] && [s0, s1][..1] == [s0] && [s0, s1, s3][..2] == [s0, s1];
    assert Matched(m, [s0]) == [QueryRecordPair(s0, s0)];
  }

  /** The same example after sorting: every ordering the sort may return is the pair
      for 0 followed by the pair for 1. */
  lemma DiffExample(pairs: seq<QueryRecordPair>)
    requires Sorting.SortedBy(pairs, PairNumber)
    requires multiset(pairs) ==
             multiset(Matched(LastByKey([Sample(0), Sample(1), Sample(2)], Number),
                              [Sample(0), Sample(1), Sample(3)]))
    ensures pairs == [QueryRecordPair(Sample(0), Sample(0)), QueryRecordPair(Sample(1), Sample(1))]
  {
    var p0, p1 := QueryRecordPair(Sample(0), Sample(0)), QueryRecordPair(Sample(1), Sample(1));
    ExampleLhsMap();
    ExampleMatched();
    SortedPairOf(pairs, p0, p1);
  }

  /** A sorted arrangement of two pairs with increasing numbers is that order. */
  lemma SortedPairOf(pairs: seq<QueryRecordPair>, p0: QueryRecordPair, p1: QueryRecordPair)
    requires PairNumber(p0) < PairNumber(p1)
    requires Sorting.SortedBy(pairs, PairNumber)
    requires multiset(pairs) == multiset([p0, p1])
    ensures pairs == [p0, p1]
  {
    assert |pairs| == 2 by {
      assert |multiset(pairs)| == |multiset([p0, p1])|;
    }
    assert pairs[0] in multiset(pairs) && pairs[1] in multiset(pairs);
    assert PairNumber(pairs[0]) <= PairNumber(pairs[1]);
  }

  /* ---------------------------------------------------------------------------
     Loading a run's folder
     --------------------------------------------------------------------------- */

  /** One entry of a directory listing. */
  datatype DirEntry = DirEntry(name: string, isDir: bool)

  const QueryFolderPrefix := "query_"

  const QueryRecordFile := "query_record.json"

  /** The first check of `parseTestFolder`'s loop: the entry is a directory called
      `query_` followed by the decimal digits of a number that fits in a `uint64`. */
  predicate IsQueryFolder(e: DirEntry) {
    e.isDir && HasPrefix(e.name, QueryFolderPrefix) &&
    ParseUint64(TrimPrefix(e.name, QueryFolderPrefix)).Some?
  }

  /** Which entries are query folders, spelled out digit by digit. */
  lemma QueryFolderNames(e: DirEntry)
    ensures IsQueryFolder(e) <==>
              e.isDir && |e.name| > |QueryFolderPrefix| && e.name[..6] == QueryFolderPrefix &&
              AllDigits(e.name[6..]) && DecimalValue(e.name[6..]) <= MaxUint64
  {
  }

  /** The record file of a query folder. `filepath.Join` also cleans the path (it
      collapses repeated and trailing separators); this model joins with `/`. */
  function RecordPath(folder: string, e: DirEntry): string {
    folder + "/" + e.name + "/" + QueryRecordFile
  }

  /** The query folders of a listing, in listing order. */
  function QueryFolders(entries: seq<DirEntry>): (r: seq<DirEntry>)
    ensures forall e :: e in r <==> e in entries && IsQueryFolder(e)
  {
    if entries == [] then []
    else
      var front, e := entries[..|entries| - 1], entries[|entries| - 1];
      assert entries == front + [e];
      QueryFolders(front) + (if IsQueryFolder(e) then [e] else [])
  }

  lemma {:induction false} QueryFoldersAppend(xs: seq<DirEntry>, ys: seq<DirEntry>)
    ensures QueryFolders(xs + ys) == QueryFolders(xs) + QueryFolders(ys)
    decreases |ys|
  {
    if ys == [] {
      assert xs + ys == xs;
    } else {
      var front, e := ys[..|ys| - 1], ys[|ys| - 1];
      assert (xs + ys)[..|xs + ys| - 1] == xs + front;
      QueryFoldersAppend(xs, front);
    }
  }

  /** Loading the record files of the query folders, in order: the records, each
      with the statistics `summary` computes from its samples, or the error of the
      first record file that cannot be loaded. `load` stands for
      `deserializeQueryRecord`. */
  function LoadRecords(folder: string, folders: seq<DirEntry>, load: string -> Result<QueryRecord>,
                       summary: seq<ExecutionTime> -> Stats)
    : (r: Result<seq<QueryRecordWithStats>>)
    ensures r.Ok? ==> |r.value| == |folders|
    ensures r.Ok? ==> forall k :: 0 <= k < |folders| ==>
              load(RecordPath(folder, folders[k])) == Ok(r.value[k].record) &&
              r.value[k].stats == summary(r.value[k].record.executionTimes)
    ensures r.Ok? <==> forall k :: 0 <= k < |folders| ==> load(RecordPath(folder, folders[k])).Ok?
  {
    if folders == [] then Ok([])
    else
      var front, e := folders[..|folders| - 1], folders[|folders| - 1];
      assert forall k :: 0 <= k < |front| ==> front[k] == folders[k];
      match LoadRecords(folder, front, load, summary)
      case Err(err) => Err(err)
      case Ok(records) =>
        var path := RecordPath(folder, e);
        match load(path)
        case Err(err) => Err("error reading query record file " + path + ": " + err)
        case Ok(record) => Ok(records + [QueryRecordWithStats(record, summary(record.executionTimes))])
  }

  /** Loading stops at the first record file that cannot be loaded, and reports that
      file. */
  lemma {:induction false} LoadRecordsFirstError(folder: string, folders: seq<DirEntry>,
                                                 load: string -> Result<QueryRecord>,
                                                 summary: seq<ExecutionTime> -> Stats, k: nat)
    requires k < |folders| && load(RecordPath(folder, folders[k])).Err?
    requires forall j :: 0 <= j < k ==> load(RecordPath(folder, folders[j])).Ok?
    ensures LoadRecords(folder, folders, load, summary) ==
            Err("error reading query record file " + RecordPath(folder, folders[k]) + ": " +
                load(RecordPath(folder, folders[k])).error)
    decreases |folders|
  {
    var front := folders[..|folders| - 1];
    if k < |front| {
      LoadRecordsFirstError(folder, front, load, summary, k);
    } else {
      assert forall j :: 0 <= j < |front| ==> front[j] == folders[j];
    }
  }

  /** Once loading has failed, further folders do not change the error. */
  lemma {:induction false} LoadRecordsFailed(folder: string, xs: seq<DirEntry>, ys: seq<DirEntry>,
                                             load: string -> Result<QueryRecord>,
                                             summary: seq<ExecutionTime> -> Stats)
    requires LoadRecords(folder, xs, load, summary).Err?
    ensures LoadRecords(folder, xs + ys, load, summary) == LoadRecords(folder, xs, load, summary)
    decreases |ys|
  {
    if ys == [] {
      assert xs + ys == xs;
    } else {
      var front := ys[..|ys| - 1];
      assert (xs + ys)[..|xs + ys| - 1] == xs + front;
      LoadRecordsFailed(folder, xs, front, load, summary);
    }
  }

  lemma QueryFoldersSnoc(entries: seq<DirEntry>, i: nat)
    requires i < |entries|
    ensures QueryFolders(entries[..i + 1]) ==
            QueryFolders(entries[..i]) + (if IsQueryFolder(entries[i]) then [entries[i]] else [])
  {
    assert entries[..i + 1][..i] == entries[..i];
  }

  /** Loading one more folder: the error so far, or that folder's error, or one more
      record. */
  lemma LoadRecordsSnoc(folder: string, folders: seq<DirEntry>, e: DirEntry,
                        load: string -> Result<QueryRecord>, summary: seq<ExecutionTime> -> Stats)
    ensures LoadRecords(folder, folders + [e], load, summary) ==
            match LoadRecords(folder, folders, load, summary)
            case Err(err) => Err(err)
            case Ok(records) =>
              match load(RecordPath(folder, e))
              case Err(err) => Err("error reading query record file " + RecordPath(folder, e) + ": " + err)
              case Ok(record) => Ok(records + [QueryRecordWithStats(record, summary(record.executionTimes))])
  {
    assert (folders + [e])[..|folders|] == folders;
  }

  /** A failure while loading the query folders among the first `n` entries is the
      failure of loading all of them. */
  lemma LoadFailsWithin(folder: string, entries: seq<DirEntry>, n: nat,
                        load: string -> Result<QueryRecord>, summary: seq<ExecutionTime> -> Stats)
    requires n <= |entries|
    requires LoadRecords(folder, QueryFolders(entries[..n]), load, summary).Err?
    ensures LoadRecords(folder, QueryFolders(entries), load, summary) ==
            LoadRecords(folder, QueryFolders(entries[..n]), load, summary)
  {
    assert entries == entries[..n] + entries[n..];
    QueryFoldersAppend(entries[..n], entries[n..]);
    LoadRecordsFailed(folder, QueryFolders(entries[..n]), QueryFolders(entries[n..]), load, summary);
  }

  /** The loop of `parseTestFolder` over the entries of the listing: it skips every
      entry that is not a query folder, loads the record file of each query folder
      and computes its statistics with `GetStats`, and stops at the first record file
      that cannot be loaded. */
  method LoadQueryFolders(folder: string, files: seq<DirEntry>, load: string -> Result<QueryRecord>)
    returns (r: Result<seq<QueryRecordWithStats>>)
    ensures r == LoadRecords(folder, QueryFolders(files), load, StatsOf)
  {
    var records: seq<QueryRecordWithStats> := [];
    for i := 0 to |files|
      invariant LoadRecords(folder, QueryFolders(files[..i]), load, StatsOf) == Ok(records)
    {
      var file := files[i];
      QueryFoldersSnoc(files, i);
      if !file.isDir || !HasPrefix(file.name, QueryFolderPrefix) {
        assert QueryFolders(files[..i + 1]) == QueryFolders(files[..i]);
        continue;
      }
      var queryIndexStr := TrimPrefix(file.name, QueryFolderPrefix);
      if ParseUint64(queryIndexStr).None? {
        assert QueryFolders(files[..i + 1]) == QueryFolders(files[..i]);
        continue;
      }
      assert QueryFolders(files[..i + 1]) == QueryFolders(files[..i]) + [file];
      var queryRecordPath := RecordPath(folder, file);
      var queryRecord := load(queryRecordPath);
      LoadRecordsSnoc(folder, QueryFolders(files[..i]), file, load, StatsOf);
      if queryRecord.Err? {
        LoadFailsWithin(folder, files, i + 1, load, StatsOf);
        return Err("error reading query record file " + queryRecordPath + ": " + queryRecord.error);
      }
      var stats := GetStats(queryRecord.value.executionTimes);
      assert LoadRecords(folder, QueryFolders(files[..i + 1]), load, StatsOf) ==
             Ok(records + [QueryRecordWithStats(queryRecord.value, stats)]);
      records := records + [QueryRecordWithStats(queryRecord.value, stats)];
    }
    assert files[..|files|] == files;
    return Ok(records);
  }

  /** `parseTestFolder`: `listing` is what `os.ReadDir` returned for `folder`. A
      listing error is reported with the folder. Otherwise the record files of the
      query folders are loaded in listing order, each record with its statistics, the
      first unreadable record file ends the loading with its error, and the records
      are sorted by query number. */
  method ParseTestFolder(folder: string, listing: Result<seq<DirEntry>>, load: string -> Result<QueryRecord>)
    returns (r: Result<seq<QueryRecordWithStats>>)
    ensures listing.Err? ==> r == Err("error reading directory " + folder + ": " + listing.error)
    ensures listing.Ok? && LoadRecords(folder, QueryFolders(listing.value), load, StatsOf).Err? ==>
              r == LoadRecords(folder, QueryFolders(listing.value), load, StatsOf)
    ensures listing.Ok? && LoadRecords(folder, QueryFolders(listing.value), load, StatsOf).Ok? ==>
              r.Ok? && Sorting.SortedBy(r.value, Number) &&
              multiset(r.value) == multiset(LoadRecords(folder, QueryFolders(listing.value), load, StatsOf).value)
  {
    if listing.Err? {
      return Err("error reading directory " + folder + ": " + listing.error);
    }
    var records := LoadQueryFolders(folder, listing.value, load);
    if records.Err? {
      return records;
    }
    var a := new QueryRecordWithStats[|records.value|](i requires 0 <= i < |records.value| => records.value[i]);
    assert a[..] == records.value;
    Sorting.SortByKey(a, Number);
    r := Ok(a[..]);
  }

  /* ---------------------------------------------------------------------------
     Choosing the view
     --------------------------------------------------------------------------- */

  /** `convertPathToFolder`: a path ending in `.yaml` is a test file and stands for the
      folder named after the test; any other path is the folder itself. `parse` stands
      for `config.ParseTestFileYaml`; a parse error ends the process. */
  function ConvertPathToFolder(path: string, parse: string -> Result<Test>): (r: Process<string>)
    ensures !HasSuffix(path, ".yaml") ==> r == Running(path)
    ensures HasSuffix(path, ".yaml") && parse(path).Ok? ==> r == Running(parse(path).value.name)
    ensures HasSuffix(path, ".yaml") && parse(path).Err? ==>
              r == Exited("Failed to parse test file " + path + ": " + parse(path).error)
  {
    if HasSuffix(path, ".yaml") then
      match parse(path)
      case Err(e) => Exited("Failed to parse test file " + path + ": " + e)
      case Ok(test) => Running(test.name)
    else Running(path)
  }

  /** Only test files are parsed: for any other path the result does not depend on
      what the parser would say. */
  lemma FolderPathNotParsed(path: string, parse: string -> Result<Test>, other: string -> Result<Test>)
    requires !HasSuffix(path, ".yaml")
    ensures ConvertPathToFolder(path, parse) == ConvertPathToFolder(path, other)
  {
  }

  /** The two views `View` chooses between, with the folders they show. */
  datatype ViewRequest = Single(folder: string) | Diff(lhsFolder: string, rhsFolder: string)

  /** `View`: one argument shows one run, two arguments compare two runs (the left
      one resolved first), any other count ends the process. */
  function ViewCommand(args: seq<string>, parse: string -> Result<Test>): (r: Process<ViewRequest>)
    ensures r.Running? ==> (r.value.Single? <==> |args| == 1) && (r.value.Diff? <==> |args| == 2)
    ensures |args| != 1 && |args| != 2 ==>
              r == Exited("Invalid number of arguments: " + IntToString(|args|))
    ensures |args| == 1 ==>
              match ConvertPathToFolder(args[0], parse)
              case Running(folder) => r == Running(Single(folder))
              case Exited(log) => r == Exited(log)
    ensures |args| == 2 ==>
              match ConvertPathToFolder(args[0], parse)
              case Exited(log) => r == Exited(log)
              case Running(lhs) =>
                match ConvertPathToFolder(args[1], parse)
                case Exited(log) => r == Exited(log)
                case Running(rhs) => r == Running(Diff(lhs, rhs))
  {
    if |args| == 1 then
      match ConvertPathToFolder(args[0], parse)
      case Exited(log) => Exited(log)
      case Running(folder) => Running(Single(folder))
    else if |args| == 2 then
      match ConvertPathToFolder(args[0], parse)
      case Exited(log) => Exited(log)
      case Running(lhs) =>
        match ConvertPathToFolder(args[1], parse)
        case Exited(log) => Exited(log)
        case Running(rhs) => Running(Diff(lhs, rhs))
    else Exited("Invalid number of arguments: " + IntToString(|args|))
  }

  /* ---------------------------------------------------------------------------
     Marking a changed median
     --------------------------------------------------------------------------- */

  /** What stands in for a zero left-hand value, so that the division is defined. */
  const ZeroReplacement: real := 0.000001

  function Abs(x: real): real {
    if x < 0.0 then -x else x
  }

  /** `getRelativeDiff`: the change from `lhs` to `rhs` in percent of `lhs`, with a
      zero `lhs` replaced by one millionth. The model computes over the reals. */
  function RelativeDiff(lhs: real, rhs: real): (r: real)
    ensures lhs != 0.0 ==> r * lhs == (rhs - lhs) * 100.0
    ensures lhs == 0.0 ==> r * ZeroReplacement == (rhs - ZeroReplacement) * 100.0
  {
    var base := if lhs == 0.0 then ZeroReplacement else lhs;
    (rhs - base) / base * 100.0
  }

  const SignificantNegativeDiff := "significant-negative-diff"

  const SignificantPositiveDiff := "significant-positive-diff"

  /** `getMedianRowClass`: a change of more than five percent either way is marked;
      a slower right-hand run is the negative mark. */
  function RowClass(lhs: real, rhs: real): (r: string)
    ensures r == SignificantNegativeDiff <==> RelativeDiff(lhs, rhs) > 5.0
    ensures r == SignificantPositiveDiff <==> RelativeDiff(lhs, rhs) < -5.0
    ensures r == "" <==> -5.0 <= RelativeDiff(lhs, rhs) <= 5.0
  {
    var d := RelativeDiff(lhs, rhs);
    if Abs(d) > 5.0 then
      if d > 0.0 then SignificantNegativeDiff else SignificantPositiveDiff
    else ""
  }

  /** For a positive left-hand median the mark depends only on the ratio of the two
      medians: above 1.05 is a significant slowdown, below 0.95 a significant
      speed-up. */
  lemma RowClassByRatio(lhs: real, rhs: real)
    requires lhs > 0.0
    ensures RowClass(lhs, rhs) == SignificantNegativeDiff <==> rhs > lhs * 1.05
    ensures RowClass(lhs, rhs) == SignificantPositiveDiff <==> rhs < lhs * 0.95
  {
    var d := RelativeDiff(lhs, rhs);
    assert d * lhs == (rhs - lhs) * 100.0;
    assert d > 5.0 <==> d * lhs > 5.0 * lhs;
    assert d < -5.0 <==> d * lhs < -5.0 * lhs;
  }
}
