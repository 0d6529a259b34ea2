/** `HdrLogProcessor` of bin/common.py: for each histogram log, the distinct
    tags of its data rows are collected, one extraction command is run per
    tag and one `summarize` command after them, all in the directory of the
    log.  The log's rows arrive already split into fields; the working
    directory is the ghost `cwd` of the trace. */
module Processing {
  import opened Effects
  import opened Paths
  import opened Merging

  /** Rows of a log before the data rows (`for i in range(5): next(reader, None)`). */
  const HEADER_ROWS: nat := 5

  const HISTOGRAM_TOOL: string := "/HdrHistogram-2.1.9.jar org.HdrHistogram.HistogramLogProcessor -i "
  const SUMMARIZE_TOOL: string := "/processor.jar CommandDispatcherMain summarize -if "

  /** `first_column[4:]`: what follows the first four characters (`Tag=`),
      empty for a field of at most four characters. */
  function TagOf(field: string): (r: string)
    ensures |field| <= 4 ==> r == ""
    ensures |field| > 4 ==> field == field[..4] + r
  {
    if |field| <= 4 then "" else field[4..]
  }

  /** Tags of the non-empty data rows before row `n`. */
  function TagsBefore(rows: seq<seq<string>>, n: nat): set<string>
  {
    set j | HEADER_ROWS <= j < n && j < |rows| && rows[j] != [] :: TagOf(rows[j][0])
  }

  /** The tags of a well-formed log: `{ row[0][4:] | row in rows[5:] }`. */
  function TagSet(rows: seq<seq<string>>): (r: set<string>)
    ensures |rows| <= HEADER_ROWS ==> r == {}
    ensures forall j :: HEADER_ROWS <= j < |rows| && rows[j] != [] ==> TagOf(rows[j][0]) in r
  {
    TagsBefore(rows, |rows|)
  }

  /** The tags of a list of data rows, without reference to positions. */
  function DataTags(data: seq<seq<string>>): set<string>
  {
    set r | r in data && r != [] :: TagOf(r[0])
  }

  /** Every data row has a first field (`row[0]` does not raise). */
  predicate WellFormed(rows: seq<seq<string>>)
  {
    forall j :: HEADER_ROWS <= j < |rows| ==> rows[j] != []
  }

  /** `row` is the first data row of `rows` that is empty. */
  predicate FirstEmptyRow(rows: seq<seq<string>>, row: nat)
  {
    HEADER_ROWS <= row < |rows| && rows[row] == []
    && forall j :: HEADER_ROWS <= j < row ==> rows[j] != []
  }

  /** A log the recursive glob of `process` yields: its path as found, its
      `os.path.realpath`, and its rows as the CSV reader splits them. */
  datatype LogFile = LogFile(path: string, resolved: string, rows: seq<seq<string>>)

  /** `failure` is what reading `f` raises: `row[0]` on its first empty data row. */
  predicate RaisedOn(f: LogFile, failure: Failure)
  {
    failure.EmptyRow? && failure.file == f.path && FirstEmptyRow(f.rows, failure.row)
  }

  /** The outcome of reading a log: its tags, or the first empty data row
      (on which `row[0]` raises). */
  datatype Scan = Tags(tags: set<string>) | EmptyAt(row: nat)

  lemma TagsBeforeStep(rows: seq<seq<string>>, n: nat)
    requires HEADER_ROWS <= n < |rows| && rows[n] != []
    ensures TagsBefore(rows, n + 1) == TagsBefore(rows, n) + {TagOf(rows[n][0])}
  {
  }

  /** The reading loop of `__process`. */
  method CollectTags(rows: seq<seq<string>>) returns (r: Scan)
    ensures r.EmptyAt? ==> FirstEmptyRow(rows, r.row)
    ensures r.Tags? ==> WellFormed(rows) && r.tags == TagSet(rows)
  {
    var tags: set<string> := {};
    var i := if |rows| < HEADER_ROWS then |rows| else HEADER_ROWS;
    while i < |rows|
      invariant i <= |rows| && (i < HEADER_ROWS ==> i == |rows|)
      invariant forall j :: HEADER_ROWS <= j < i ==> rows[j] != []
      invariant tags == TagsBefore(rows, i)
    {
      if rows[i] == [] {
        return EmptyAt(i);
      }
      TagsBeforeStep(rows, i);
      tags := tags + {TagOf(rows[i][0])};
      i := i + 1;
    }
    return Tags(tags);
  }

  /** The tag set does not depend on the order of the data rows or on
      repeated rows: only on which rows occur. */
  lemma TagSetIgnoresOrder(header: seq<seq<string>>, d1: seq<seq<string>>, d2: seq<seq<string>>)
    requires |header| == HEADER_ROWS
    requires forall r :: r in d1 <==> r in d2
    ensures TagSet(header + d1) == TagSet(header + d2)
  {
    TagSetOfData(header, d1);
    TagSetOfData(header, d2);
  }

  lemma TagSetOfData(header: seq<seq<string>>, data: seq<seq<string>>)
    requires |header| == HEADER_ROWS
    ensures TagSet(header + data) == DataTags(data)
  {
    var rows := header + data;
    forall t | t in TagSet(rows)
      ensures t in DataTags(data)
    {
      var j :| HEADER_ROWS <= j < |rows| && rows[j] != [] && TagOf(rows[j][0]) == t;
      assert rows[j] == data[j - HEADER_ROWS];
    }
    forall t | t in DataTags(data)
      ensures t in TagSet(rows)
    {
      var r :| r in data && r != [] && TagOf(r[0]) == t;
      var k :| 0 <= k < |data| && data[k] == r;
      assert rows[HEADER_ROWS + k] == r;
    }
  }

  // ----- the commands -------------------------------------------------------

  /** Where the extraction of `tag` writes: `filename_no_ext + "_" + tag`. */
  function ExtractOutput(stem: string, tag: string): string { stem + "_" + tag }

  function ExtractCommand(jvmPath: string, ssoHome: string, filename: string, stem: string, tag: string): string
  {
    jvmPath + "/bin/java -cp " + LibDir(ssoHome) + HISTOGRAM_TOOL
      + filename + " -o " + ExtractOutput(stem, tag) + " -csv -tag " + tag
  }

  function SummarizeCommand(jvmPath: string, ssoHome: string, stem: string): string
  {
    jvmPath + "/bin/java -cp " + LibDir(ssoHome) + SUMMARIZE_TOOL
      + stem + ".hdr >  " + stem + "-summary.txt"
  }

  /** Distinct tags are extracted by distinct commands into distinct files. */
  lemma ExtractDistinct(jvmPath: string, ssoHome: string, filename: string, stem: string, t1: string, t2: string)
    requires t1 != t2
    ensures ExtractOutput(stem, t1) != ExtractOutput(stem, t2)
    ensures ExtractCommand(jvmPath, ssoHome, filename, stem, t1) != ExtractCommand(jvmPath, ssoHome, filename, stem, t2)
  {
    var p := jvmPath + "/bin/java -cp " + LibDir(ssoHome) + HISTOGRAM_TOOL
      + filename + " -o " + stem + "_";
    var c1 := ExtractCommand(jvmPath, ssoHome, filename, stem, t1);
    var c2 := ExtractCommand(jvmPath, ssoHome, filename, stem, t2);
    assert c1 == p + t1 + " -csv -tag " + t1;
    assert c2 == p + t2 + " -csv -tag " + t2;
    if |t1| == |t2| {
      assert c1[|p|..|p| + |t1|] == t1;
      assert c2[|p|..|p| + |t2|] == t2;
    }
    var q := stem + "_";
    assert ExtractOutput(stem, t1)[|q|..] == t1;
    assert ExtractOutput(stem, t2)[|q|..] == t2;
  }

  /** `order` lists each tag of `tags` exactly once: an iteration order of the set. */
  ghost predicate Enumerates(order: seq<string>, tags: set<string>)
  {
    Distinct(order) && forall t :: t in tags <==> t in order
  }

  /** The extraction commands for the tags in `order`. */
  function Extracts(jvmPath: string, ssoHome: string, filename: string, stem: string, order: seq<string>): (r: seq<string>)
    ensures |r| == |order|
  {
    seq(|order|, k requires 0 <= k < |order| => ExtractCommand(jvmPath, ssoHome, filename, stem, order[k]))
  }

  lemma ExtractsSnoc(jvmPath: string, ssoHome: string, filename: string, stem: string, order: seq<string>, tag: string)
    ensures Extracts(jvmPath, ssoHome, filename, stem, order + [tag])
      == Extracts(jvmPath, ssoHome, filename, stem, order) + [ExtractCommand(jvmPath, ssoHome, filename, stem, tag)]
  {
  }

  /** The local commands of one `__process` call that returns normally, with
      the tags taken in `order`. */
  function FilePlan(jvmPath: string, ssoHome: string, path: string, order: seq<string>): (r: seq<string>)
    ensures |r| == |order| + 1
  {
    var filename := Basename(path);
    var stem := ExtRoot(filename);
    Extracts(jvmPath, ssoHome, filename, stem, order) + [SummarizeCommand(jvmPath, ssoHome, stem)]
  }

  /** The events of a file plan: the extractions, then the summary. */
  lemma FilePlanEvents(jvmPath: string, ssoHome: string, path: string, order: seq<string>, extracted: seq<Event>)
    requires extracted == LocalEvents(Extracts(jvmPath, ssoHome, Basename(path), ExtRoot(Basename(path)), order))
    ensures LocalEvents(FilePlan(jvmPath, ssoHome, path, order))
      == extracted + [Local(SummarizeCommand(jvmPath, ssoHome, ExtRoot(Basename(path))))]
  {
    var stem := ExtRoot(Basename(path));
    LocalEventsAppend(Extracts(jvmPath, ssoHome, Basename(path), stem, order), [SummarizeCommand(jvmPath, ssoHome, stem)]);
  }

  /** For every distinct tag there is exactly one extraction command, writing
      `<stem>_<tag>`, and after all of them one `summarize` command writing
      `<stem>-summary.txt`. */
  lemma FilePlanOnePerTag(jvmPath: string, ssoHome: string, path: string, order: seq<string>, tags: set<string>)
    requires Enumerates(order, tags)
    ensures var plan := FilePlan(jvmPath, ssoHome, path, order);
      var filename := Basename(path);
      var stem := ExtRoot(filename);
      |plan| == |tags| + 1
      && plan[|plan| - 1] == SummarizeCommand(jvmPath, ssoHome, stem)
      && (forall k :: 0 <= k < |plan| - 1 ==> order[k] in tags && plan[k] == ExtractCommand(jvmPath, ssoHome, filename, stem, order[k]))
      && (forall t, k1, k2 :: 0 <= k1 < k2 < |plan| - 1 && plan[k1] == ExtractCommand(jvmPath, ssoHome, filename, stem, t)
            ==> plan[k2] != ExtractCommand(jvmPath, ssoHome, filename, stem, t))
  {
    var plan := FilePlan(jvmPath, ssoHome, path, order);
    var filename := Basename(path);
    var stem := ExtRoot(filename);
    DistinctCard(order, tags);
    forall t, k1, k2 | 0 <= k1 < k2 < |plan| - 1 && plan[k1] == ExtractCommand(jvmPath, ssoHome, filename, stem, t)
      ensures plan[k2] != ExtractCommand(jvmPath, ssoHome, filename, stem, t)
    {
      if order[k1] != t {
        ExtractDistinct(jvmPath, ssoHome, filename, stem, order[k1], t);
      }
      ExtractDistinct(jvmPath, ssoHome, filename, stem, order[k2], t);
    }
  }

  /** A list without repetitions has as many elements as the set it enumerates. */
  lemma {:induction false} DistinctCard(order: seq<string>, tags: set<string>)
    requires Enumerates(order, tags)
    ensures |order| == |tags|
    decreases |order|
  {
    if order != [] {
      var last := order[|order| - 1];
      var init := order[..|order| - 1];
      assert Enumerates(init, tags - {last}) by {
        forall t
          ensures t in tags - {last} <==> t in init
        {
          if t in init {
            var k :| 0 <= k < |init| && init[k] == t;
            assert order[k] == t;
          }
          if t in order && t != last {
            var k :| 0 <= k < |order| && order[k] == t;
            assert k < |init|;
            assert init[k] == t;
          }
        }
      }
      DistinctCard(init, tags - {last});
    }
  }

  /** The local commands of the first `|orders|` logs of `found`, each with
      its tags taken in the matching order. */
  function ProcessPlan(jvmPath: string, ssoHome: string, found: seq<LogFile>, orders: seq<seq<string>>): (r: seq<string>)
    requires |orders| <= |found|
    decreases |orders|
  {
    if orders == [] then []
    else
      var k := |orders| - 1;
      ProcessPlan(jvmPath, ssoHome, found, orders[..k]) + FilePlan(jvmPath, ssoHome, found[k].path, orders[k])
  }

  /** The first `|orders|` logs of `found` are well formed and `orders`
      enumerates the tags of each. */
  ghost predicate Processed(found: seq<LogFile>, orders: seq<seq<string>>)
  {
    |orders| <= |found|
    && forall k :: 0 <= k < |orders| ==> WellFormed(found[k].rows) && Enumerates(orders[k], TagSet(found[k].rows))
  }

  lemma ProcessedSnoc(found: seq<LogFile>, orders: seq<seq<string>>, order: seq<string>)
    requires Processed(found, orders) && |orders| < |found|
    requires WellFormed(found[|orders|].rows) && Enumerates(order, TagSet(found[|orders|].rows))
    ensures Processed(found, orders + [order])
  {
  }

  /** Processing one more log appends its file plan to the trace. */
  lemma ProcessPlanStep(jvmPath: string, ssoHome: string, found: seq<LogFile>, orders: seq<seq<string>>, order: seq<string>,
                        start: seq<Event>, mid: seq<Event>, end: seq<Event>)
    requires |orders| < |found|
    requires mid == start + LocalEvents(ProcessPlan(jvmPath, ssoHome, found, orders))
    requires end == mid + LocalEvents(FilePlan(jvmPath, ssoHome, found[|orders|].path, order))
    ensures end == start + LocalEvents(ProcessPlan(jvmPath, ssoHome, found, orders + [order]))
  {
    var next := orders + [order];
    var pp, fp := ProcessPlan(jvmPath, ssoHome, found, orders), FilePlan(jvmPath, ssoHome, found[|orders|].path, order);
    assert next[..|orders|] == orders;
    assert ProcessPlan(jvmPath, ssoHome, found, next) == pp + fp;
    LocalEventsSnoc(start, mid, end, pp, fp);
  }

  /** The number of commands `process` issues over well-formed logs: one per
      distinct tag of each log, plus one summary per log. */
  lemma {:induction false} ProcessPlanSize(jvmPath: string, ssoHome: string, found: seq<LogFile>, orders: seq<seq<string>>)
    requires Processed(found, orders)
    ensures |ProcessPlan(jvmPath, ssoHome, found, orders)| == TagCounts(found, |orders|) + |orders|
    decreases |orders|
  {
    if orders != [] {
      var k := |orders| - 1;
      ProcessPlanSize(jvmPath, ssoHome, found, orders[..k]);
      DistinctCard(orders[k], TagSet(found[k].rows));
    }
  }

  /** The total number of distinct tags of the first `n` logs. */
  function TagCounts(found: seq<LogFile>, n: nat): nat
    requires n <= |found|
  {
    if n == 0 then 0 else TagCounts(found, n - 1) + |TagSet(found[n - 1].rows)|
  }

  class HdrLogProcessor {
    /** `properties['jvm_path']`. */
    const jvmPath: string
    /** The `SSO` environment variable. */
    const ssoHome: string

    constructor (jvmPath: string, ssoHome: string)
      ensures this.jvmPath == jvmPath && this.ssoHome == ssoHome
    {
      this.jvmPath := jvmPath;
      this.ssoHome := ssoHome;
    }

    /** The `for tag in tags` loop of `__process`; the set is taken in some
        order, returned as `order`. */
    method RunExtractions(env: Env, filename: string, stem: string, tags: set<string>) returns (ghost order: seq<string>)
      modifies env
      ensures Enumerates(order, tags)
      ensures env.events == old(env.events) + LocalEvents(Extracts(jvmPath, ssoHome, filename, stem, order))
      ensures env.cwd == old(env.cwd)
    {
      ghost var start := env.events;
      var remaining := tags;
      order := [];
      while remaining != {}
        invariant Distinct(order)
        invariant forall t :: t in tags <==> t in remaining || t in order
        invariant forall t :: t in remaining ==> t !in order
        invariant env.events == start + LocalEvents(Extracts(jvmPath, ssoHome, filename, stem, order))
        invariant env.cwd == old(env.cwd)
        decreases |remaining|
      {
        var tag :| tag in remaining;
        var cmd := ExtractCommand(jvmPath, ssoHome, filename, stem, tag);
        ExtractsSnoc(jvmPath, ssoHome, filename, stem, order, tag);
        ghost var mid := env.events;
        var _ := env.Spawn(Local(cmd));
        LocalEventsPush(start, mid, env.events, Extracts(jvmPath, ssoHome, filename, stem, order), cmd);
        order := order + [tag];
        remaining := remaining - {tag};
      }
    }

    /** `__process(file)`.  `resolved` is `os.path.realpath(file)` and `rows`
        the rows of the log opened there.  The tags are taken in some order of
        the set, returned as `order`.  An empty data row raises before any
        command is run, and leaves the working directory at the log's. */
    method ProcessFile(env: Env, path: string, resolved: string, rows: seq<seq<string>>) returns (s: Status, ghost order: seq<string>)
      modifies env
      ensures s.Ok? <==> WellFormed(rows)
      ensures s.Fail? ==>
        s.failure.EmptyRow? && s.failure.file == path && FirstEmptyRow(rows, s.failure.row)
        && env.events == old(env.events) && env.cwd == Dirname(resolved)
      ensures s.Ok? ==>
        Enumerates(order, TagSet(rows))
        && env.events == old(env.events) + LocalEvents(FilePlan(jvmPath, ssoHome, path, order))
        && env.cwd == old(env.cwd)
    {
      var filename := Basename(path);
      var stem := ExtRoot(filename);
      ghost var oldCwd := env.cwd;
      env.ChangeDir(Dirname(resolved));
      var scan := CollectTags(rows);
      if scan.EmptyAt? {
        assert rows[scan.row] == [];
        assert !WellFormed(rows);
        return Fail(EmptyRow(path, scan.row)), [];
      }
      order := RunExtractions(env, filename, stem, scan.tags);
      FilePlanEvents(jvmPath, ssoHome, path, order, env.events[|old(env.events)|..]);
      var _ := env.Spawn(Local(SummarizeCommand(jvmPath, ssoHome, stem)));
      env.ChangeDir(oldCwd);
      assert WellFormed(rows);
      s := Ok;
    }

    /** `process(dir)`, given the logs the recursive glob below `dir` yields,
        in that order.  The first log with an empty data row raises out of the
        loop: the logs before it have been processed completely and the logs
        after it not at all.  The tag orders of the processed logs are
        returned as `orders`. */
    method Process(env: Env, found: seq<LogFile>) returns (s: Status, ghost orders: seq<seq<string>>)
      modifies env
      ensures |orders| <= |found|
      ensures Processed(found, orders)
      ensures env.events == old(env.events) + LocalEvents(ProcessPlan(jvmPath, ssoHome, found, orders))
      ensures s.Ok? <==> |orders| == |found|
      ensures s.Ok? ==> env.cwd == old(env.cwd)
      ensures s.Fail? ==> RaisedOn(found[|orders|], s.failure) && env.cwd == Dirname(found[|orders|].resolved)
    {
      orders := [];
      var i := 0;
      while i < |found|
        invariant i == |orders| <= |found|
        invariant Processed(found, orders)
        invariant env.events == old(env.events) + LocalEvents(ProcessPlan(jvmPath, ssoHome, found, orders))
        invariant env.cwd == old(env.cwd)
      {
        ghost var mid := env.events;
        ghost var order;
        s, order := ProcessFile(env, found[i].path, found[i].resolved, found[i].rows);
        if s.Fail? {
          return;
        }
        ghost var next := orders + [order];
        ProcessedSnoc(found, orders, order);
        ProcessPlanStep(jvmPath, ssoHome, found, orders, order, old(env.events), mid, env.events);
        orders := next;
        i := i + 1;
      }
      s := Ok;
    }
  }
}
