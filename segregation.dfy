/** `start_segregation`: pull pages from the paginator, route every file of a page to a dated
    directory or to the error directory, submit one move per file, and let the page's moves
    finish before the next page is pulled. */
module Segregation {
  import opened Wrappers
  import opened PathCodec
  import opened DateTimes
  import opened DateExtractor
  import opened ObjectStore
  import opened Mover
  import opened Paginator

  /** The entries of the refined configuration that the run reads. */
  datatype RunConfig = RunConfig(
    s3Dir: string,
    s3SegregatedDir: string,
    s3ErrorDir: string,
    matchPattern: Option<string>,
    datetimeFormat: string,
    nKeys: nat,
    nLoops: int)

  /** The library machinery the run calls: the regex engine, `strptime` and `strftime`. */
  datatype Engines = Engines(
    search: (string, string) -> SearchOutcome,
    strptime: (string, string) -> Option<DateTime>,
    strftime: (DateTime, string) -> string)

  /** Which client calls raise: the listing call made for page `n`, and the copy and delete
      of file `j` of page `i`. */
  datatype Faults = Faults(listFails: nat -> bool, moveFault: (nat, nat) -> MoveFault)

  function PageFaults(faults: Faults, page: nat): nat -> MoveFault
  {
    (j: nat) => faults.moveFault(page, j)
  }

  /** `not match_pattern`: the key is missing or empty. */
  predicate NoPattern(matchPattern: Option<string>)
  {
    matchPattern.None? || matchPattern.value == ""
  }

  /** One `executor.submit(move_files_to_s3, s3_client, file, destination)`. */
  datatype MoveTask = MoveTask(source: string, destinationDir: string)

  /** The date a file is routed by: `default_date` when no pattern is configured, else the
      date extracted from its base name (which may raise for a pattern that does not compile). */
  function Classify(cfg: RunConfig, defaultDate: DateTime, eng: Engines, file: string): Result<Classification, RegexError>
  {
    if NoPattern(cfg.matchPattern) then Success(Dated(defaultDate))
    else ExtractDatetimeFromFilename(Basename(file), cfg.matchPattern.value, cfg.datetimeFormat, eng.search, eng.strptime)
  }

  /** An unclassified file goes to `s3_error_dir`; a dated one to `date.strftime(s3_segregated_dir)`. */
  function DestinationDir(cfg: RunConfig, eng: Engines, c: Classification): string
  {
    match c
    case Unclassified(_) => cfg.s3ErrorDir
    case Dated(d) => eng.strftime(d, cfg.s3SegregatedDir)
  }

  /** The move submitted for one file, or `None` when classifying it raises. */
  function Route(cfg: RunConfig, defaultDate: DateTime, eng: Engines, file: string): Option<MoveTask>
  {
    match Classify(cfg, defaultDate, eng, file)
    case Failure(_) => None
    case Success(c) => Some(MoveTask(file, DestinationDir(cfg, eng, c)))
  }

  /** The moves submitted for a page, and whether a classification raised part way. */
  datatype Routing = Routing(tasks: seq<MoveTask>, aborted: bool)

  /** One task per file in page order, up to the first file whose classification raises. */
  function RoutePage(cfg: RunConfig, defaultDate: DateTime, eng: Engines, files: seq<string>): (r: Routing)
    ensures |r.tasks| <= |files|
    ensures r.aborted <==> |r.tasks| < |files|
    ensures forall i :: 0 <= i < |r.tasks| ==> Route(cfg, defaultDate, eng, files[i]) == Some(r.tasks[i])
    ensures r.aborted ==> Route(cfg, defaultDate, eng, files[|r.tasks|]) == None
  {
    if files == [] then Routing([], false)
    else
      var prev := RoutePage(cfg, defaultDate, eng, files[..|files| - 1]);
      if prev.aborted then prev
      else match Route(cfg, defaultDate, eng, files[|files| - 1])
        case None => Routing(prev.tasks, true)
        case Some(task) => Routing(prev.tasks + [task], false)
  }

  /** Once a classification has raised, the files after it are never looked at. */
  lemma {:induction false} AbortedPageIgnoresRest(cfg: RunConfig, defaultDate: DateTime, eng: Engines, files: seq<string>, n: nat)
    requires n <= |files|
    requires RoutePage(cfg, defaultDate, eng, files[..n]).aborted
    ensures RoutePage(cfg, defaultDate, eng, files) == RoutePage(cfg, defaultDate, eng, files[..n])
    decreases |files|
  {
    if n == |files| {
      assert files[..n] == files;
    } else {
      var init := files[..|files| - 1];
      assert init[..n] == files[..n];
      AbortedPageIgnoresRest(cfg, defaultDate, eng, init, n);
    }
  }

  /** The inner `for file in files` loop: route each file and submit its move. */
  method SubmitPage(cfg: RunConfig, defaultDate: DateTime, eng: Engines, files: seq<string>)
    returns (futures: seq<MoveTask>, aborted: bool)
    ensures Routing(futures, aborted) == RoutePage(cfg, defaultDate, eng, files)
  {
    futures := [];
    aborted := false;
    for i := 0 to |files|
      invariant Routing(futures, false) == RoutePage(cfg, defaultDate, eng, files[..i])
    {
      var file := files[i];
      assert files[..i + 1][..i] == files[..i];
      var date := Classify(cfg, defaultDate, eng, file);
      if date.Failure? {
        aborted := true;
        AbortedPageIgnoresRest(cfg, defaultDate, eng, files, i + 1);
        return;
      }
      futures := futures + [MoveTask(file, DestinationDir(cfg, eng, date.value))];
    }
    assert files[..|files|] == files;
  }

  /** The effect of one page's moves, run one after another, and what each logged. */
  datatype PageResult = PageResult(outcomes: seq<MoveOutcome>, objects: Objects)

  function RunMoves(objects: Objects, tasks: seq<MoveTask>, faults: nat -> MoveFault): (r: PageResult)
    ensures |r.outcomes| == |tasks|
  {
    if tasks == [] then PageResult([], objects)
    else
      var prev := RunMoves(objects, tasks[..|tasks| - 1], faults);
      var last := tasks[|tasks| - 1];
      var m := Move(prev.objects, last.source, last.destinationDir, faults(|tasks| - 1));
      PageResult(prev.outcomes + [m.outcome], m.objects)
  }

  /** `wait(futures)`: every submitted move runs to completion; none can stop another. */
  method RunPage(client: Client, futures: seq<MoveTask>, faults: nat -> MoveFault) returns (outcomes: seq<MoveOutcome>)
    modifies client
    ensures PageResult(outcomes, client.objects) == RunMoves(old(client.objects), futures, faults)
  {
    outcomes := [];
    for i := 0 to |futures|
      invariant PageResult(outcomes, client.objects) == RunMoves(old(client.objects), futures[..i], faults)
    {
      assert futures[..i + 1][..i] == futures[..i];
      var outcome := MoveFilesToS3(client, futures[i].source, futures[i].destinationDir, faults(i));
      outcomes := outcomes + [outcome];
    }
    assert futures[..|futures|] == futures;
  }

  /** How the run ended; each non-`Completed` ending is an exception caught and logged at the
      top of `start_segregation`. */
  datatype RunEnd = Completed | BadSourceDir | ListingAborted | PatternAborted

  /** What happened to one page: the store it was listed from, the listing answer, the files,
      the submitted moves, and whether classification raised part way. */
  datatype PageRun = PageRun(before: Objects, response: seq<string>, files: seq<string>,
                             tasks: seq<MoveTask>, aborted: bool)

  function After(run: PageRun, faults: Faults, index: nat): Objects
  {
    RunMoves(run.before, run.tasks, PageFaults(faults, index)).objects
  }

  /** A page that holds the files of a listing of the store it started from, routed. */
  ghost predicate PageListed(run: PageRun, cfg: RunConfig, bucket: string, directory: string,
                             defaultDate: DateTime, eng: Engines)
  {
    && IsListing(run.before, bucket, directory, cfg.nKeys, run.response)
    && run.files == PagePaths(bucket, run.response)
    && run.files != []
    && Routing(run.tasks, run.aborted) == RoutePage(cfg, defaultDate, eng, run.files)
  }

  /** The facts every processed page satisfies: it was listed from the store as the previous
      page left it, holds the files of that answer, and its moves are the routed ones. */
  ghost predicate PagesFollow(pages: seq<PageRun>, start: Objects, cfg: RunConfig, bucket: string,
                              directory: string, defaultDate: DateTime, eng: Engines, faults: Faults)
  {
    && (pages != [] ==> pages[0].before == start)
    && (forall i :: 0 <= i < |pages| ==> PageListed(pages[i], cfg, bucket, directory, defaultDate, eng))
    && (forall i :: 0 <= i < |pages| - 1 ==> !pages[i].aborted && pages[i + 1].before == After(pages[i], faults, i))
  }

  function FinalObjects(pages: seq<PageRun>, start: Objects, faults: Faults): Objects
  {
    if pages == [] then start else After(pages[|pages| - 1], faults, |pages| - 1)
  }

  /** A page listed from the store the previous pages left extends the run's history. */
  lemma ExtendPages(pages: seq<PageRun>, start: Objects, cfg: RunConfig, bucket: string, directory: string,
                    defaultDate: DateTime, eng: Engines, faults: Faults, run: PageRun)
    requires PagesFollow(pages, start, cfg, bucket, directory, defaultDate, eng, faults)
    requires pages != [] ==> !pages[|pages| - 1].aborted
    requires run.before == FinalObjects(pages, start, faults)
    requires PageListed(run, cfg, bucket, directory, defaultDate, eng)
    ensures PagesFollow(pages + [run], start, cfg, bucket, directory, defaultDate, eng, faults)
  {
    var extended := pages + [run];
    forall i | 0 <= i < |extended|
      ensures PageListed(extended[i], cfg, bucket, directory, defaultDate, eng)
    {
      if i < |pages| {
        assert extended[i] == pages[i];
      }
    }
    forall i | 0 <= i < |extended| - 1
      ensures !extended[i].aborted && extended[i + 1].before == After(extended[i], faults, i)
    {
      assert extended[i] == pages[i];
      if i + 1 < |pages| {
        assert extended[i + 1] == pages[i + 1];
      }
    }
  }

  /** One iteration of the outer `for files in ...` loop: route the page, run its moves, and
      record it in the run's history. */
  method SegregatePage(client: Client, cfg: RunConfig, defaultDate: DateTime, eng: Engines, faults: Faults,
                       bucket: string, directory: string, pageIndex: nat, files: seq<string>,
                       ghost pages: seq<PageRun>, ghost start: Objects, ghost response: seq<string>)
    returns (aborted: bool, ghost run: PageRun)
    requires PagesFollow(pages, start, cfg, bucket, directory, defaultDate, eng, faults)
    requires |pages| == pageIndex && (pages != [] ==> !pages[|pages| - 1].aborted)
    requires client.objects == FinalObjects(pages, start, faults)
    requires IsListing(client.objects, bucket, directory, cfg.nKeys, response)
    requires files == PagePaths(bucket, response) && files != []
    modifies client
    ensures PagesFollow(pages + [run], start, cfg, bucket, directory, defaultDate, eng, faults)
    ensures client.objects == FinalObjects(pages + [run], start, faults)
    ensures run.aborted == aborted
  {
    var before := client.objects;
    var futures;
    futures, aborted := SubmitPage(cfg, defaultDate, eng, files);
    var _ := RunPage(client, futures, PageFaults(faults, pageIndex));
    run := PageRun(before, response, files, futures, aborted);
    assert PageListed(run, cfg, bucket, directory, defaultDate, eng);
    ExtendPages(pages, start, cfg, bucket, directory, defaultDate, eng, faults, run);
    assert client.objects == After(run, faults, pageIndex);
    assert (pages + [run])[|pages|] == run;
  }

  /** What a run that parsed `s3_dir` into `bucket` and `directory` guarantees: its pages follow
      one another, the store is what their moves left, and the run stopped for a reason. */
  ghost predicate RunOutcome(ending: RunEnd, pages: seq<PageRun>, lastResponse: seq<string>, start: Objects,
                             final: Objects, cfg: RunConfig, bucket: string, directory: string,
                             defaultDate: DateTime, eng: Engines, faults: Faults)
  {
    && PagesFollow(pages, start, cfg, bucket, directory, defaultDate, eng, faults)
    && final == FinalObjects(pages, start, faults)
    && (pages == [] || |pages| <= cfg.nLoops)
    && (ending == PatternAborted <==> pages != [] && pages[|pages| - 1].aborted)
    && (ending == ListingAborted ==> faults.listFails(|pages|))
    && (ending == Completed && |pages| < cfg.nLoops ==>
          && IsListing(final, bucket, directory, cfg.nKeys, lastResponse)
          && PagePaths(bucket, lastResponse) == [])
    && ending != BadSourceDir
  }

  method StartSegregation(client: Client, cfg: RunConfig, defaultDate: DateTime, eng: Engines, faults: Faults)
    returns (ending: RunEnd, ghost pages: seq<PageRun>, ghost lastResponse: seq<string>)
    modifies client
    ensures ParseS3Uri(cfg.s3Dir).Failure? ==> ending == BadSourceDir && pages == [] && client.objects == old(client.objects)
    ensures ParseS3Uri(cfg.s3Dir).Success? ==>
              RunOutcome(ending, pages, lastResponse, old(client.objects), client.objects, cfg,
                         ParseS3Uri(cfg.s3Dir).value.bucket, ParseS3Uri(cfg.s3Dir).value.key, defaultDate, eng, faults)
  {
    lastResponse := [];
    pages := [];
    var parsed := ParseS3Uri(cfg.s3Dir);
    if parsed.Failure? {
      return BadSourceDir, pages, lastResponse;
    }
    var bucket, directory := parsed.value.bucket, parsed.value.key;
    var lister := new FileLister(bucket, directory, cfg.nKeys, cfg.nLoops);
    ending := Completed;
    var pageIndex: nat := 0;
    while true
      invariant lister.Valid() && lister.bucket == bucket && lister.directory == directory
      invariant lister.nKeys == cfg.nKeys && lister.nLoops == cfg.nLoops && !lister.isEmpty && !lister.raised
      invariant |lister.yielded| == |pages| == pageIndex
      invariant PagesFollow(pages, old(client.objects), cfg, bucket, directory, defaultDate, eng, faults)
      invariant client.objects == FinalObjects(pages, old(client.objects), faults)
      invariant pages != [] ==> !pages[|pages| - 1].aborted
      decreases cfg.nLoops - lister.countLoop + 1
    {
      var pull, response := lister.Next(client, faults.listFails(pageIndex));
      if pull.ListFailed? {
        return ListingAborted, pages, lastResponse;
      }
      if pull.Exhausted? {
        return Completed, pages, response;
      }
      var aborted;
      ghost var run;
      aborted, run := SegregatePage(client, cfg, defaultDate, eng, faults, bucket, directory, pageIndex,
                                    pull.paths, pages, old(client.objects), response);
      pages := pages + [run];
      pageIndex := pageIndex + 1;
      if aborted {
        return PatternAborted, pages, lastResponse;
      }
    }
  }

  // ---------------------------------------------------------------------------
  // Properties

  /** Without a pattern every file of a page is moved under the default date's directory. */
  lemma {:induction false} NoPatternUsesDefaultDate(cfg: RunConfig, defaultDate: DateTime, eng: Engines, files: seq<string>)
    requires NoPattern(cfg.matchPattern)
    ensures var r := RoutePage(cfg, defaultDate, eng, files);
            && !r.aborted && |r.tasks| == |files|
            && forall i :: 0 <= i < |files| ==>
                 r.tasks[i] == MoveTask(files[i], eng.strftime(defaultDate, cfg.s3SegregatedDir))
  {
    forall f ensures Route(cfg, defaultDate, eng, f) == Some(MoveTask(f, eng.strftime(defaultDate, cfg.s3SegregatedDir))) {
    }
  }

  /** A file the extractor could not date is moved to the error directory; a dated one under
      its date's directory. */
  lemma RoutedByClassification(cfg: RunConfig, defaultDate: DateTime, eng: Engines, files: seq<string>, i: nat)
    requires i < |RoutePage(cfg, defaultDate, eng, files).tasks|
    ensures var task := RoutePage(cfg, defaultDate, eng, files).tasks[i];
            && Classify(cfg, defaultDate, eng, files[i]).Success?
            && task.source == files[i]
            && (Classify(cfg, defaultDate, eng, files[i]).value.Unclassified? ==> task.destinationDir == cfg.s3ErrorDir)
            && (Classify(cfg, defaultDate, eng, files[i]).value.Dated? ==>
                  task.destinationDir == eng.strftime(Classify(cfg, defaultDate, eng, files[i]).value.date, cfg.s3SegregatedDir))
  {
    var r := RoutePage(cfg, defaultDate, eng, files);
    assert Route(cfg, defaultDate, eng, files[i]) == Some(r.tasks[i]);
  }

  /** Running the first `k` moves of a page gives the first `k` outcomes of running them all. */
  lemma {:induction false} RunMovesPrefix(objects: Objects, tasks: seq<MoveTask>, faults: nat -> MoveFault, k: nat)
    requires k <= |tasks|
    ensures RunMoves(objects, tasks, faults).outcomes[..k] == RunMoves(objects, tasks[..k], faults).outcomes
    decreases |tasks|
  {
    if k == |tasks| {
      assert tasks[..k] == tasks;
    } else {
      var init := tasks[..|tasks| - 1];
      assert init[..k] == tasks[..k];
      RunMovesPrefix(objects, init, faults, k);
    }
  }

  /** Every submitted move runs, on the store the earlier moves of the page left, and its
      outcome depends only on that store and its own faults: a failed sibling stops nothing. */
  lemma EachMoveRuns(objects: Objects, tasks: seq<MoveTask>, faults: nat -> MoveFault, i: nat)
    requires i < |tasks|
    ensures var before := RunMoves(objects, tasks[..i], faults).objects;
            RunMoves(objects, tasks, faults).outcomes[i]
              == Move(before, tasks[i].source, tasks[i].destinationDir, faults(i)).outcome
  {
    RunMovesPrefix(objects, tasks, faults, i + 1);
    var upto := tasks[..i + 1];
    assert upto[..i] == tasks[..i];
    assert RunMoves(objects, tasks, faults).outcomes[i] == RunMoves(objects, tasks, faults).outcomes[..i + 1][i];
  }

  /** `loc` is neither where the move copies to nor what it deletes. */
  predicate Untouched(task: MoveTask, loc: Locator)
  {
    match PlanMove(task.source, task.destinationDir)
    case None => true
    case Some(plan) => loc != plan.destination && loc != plan.deleteTarget
  }

  /** A move changes the store only at its destination and its delete target. */
  lemma MoveFrame(objects: Objects, task: MoveTask, fault: MoveFault, loc: Locator)
    requires Untouched(task, loc)
    ensures var after := Move(objects, task.source, task.destinationDir, fault).objects;
            && (loc in after <==> loc in objects)
            && (loc in objects ==> after[loc] == objects[loc])
  {
  }

  /** A page's moves leave every object they do not name exactly as it was. */
  lemma {:induction false} RunMovesFrame(objects: Objects, tasks: seq<MoveTask>, faults: nat -> MoveFault, loc: Locator)
    requires forall i :: 0 <= i < |tasks| ==> Untouched(tasks[i], loc)
    ensures var after := RunMoves(objects, tasks, faults).objects;
            && (loc in after <==> loc in objects)
            && (loc in objects ==> after[loc] == objects[loc])
    decreases |tasks|
  {
    if tasks != [] {
      var init := tasks[..|tasks| - 1];
      RunMovesFrame(objects, init, faults, loc);
      var prev := RunMoves(objects, init, faults);
      MoveFrame(prev.objects, tasks[|tasks| - 1], faults(|tasks| - 1), loc);
    }
  }

  /** When the directory holds nothing but folder markers, no page is produced and the store
      is left exactly as it was. */
  lemma OnlyMarkersMovesNothing(ending: RunEnd, pages: seq<PageRun>, lastResponse: seq<string>, start: Objects,
                                final: Objects, cfg: RunConfig, bucket: string, directory: string,
                                defaultDate: DateTime, eng: Engines, faults: Faults)
    requires RunOutcome(ending, pages, lastResponse, start, final, cfg, bucket, directory, defaultDate, eng, faults)
    requires forall k :: k in KeysUnder(start, bucket, directory) ==> IsDirectoryMarker(k)
    ensures pages == [] && final == start
  {
    if pages != [] {
      var first := pages[0];
      assert PageListed(first, cfg, bucket, directory, defaultDate, eng);
      forall k | k in first.response
        ensures IsDirectoryMarker(k)
      {
        var j :| 0 <= j < |first.response| && first.response[j] == k;
        assert k in KeysUnder(start, bucket, directory);
      }
      EmptyPageIffOnlyMarkers(bucket, first.response);
      assert false;
    }
  }

  /** The outcome of a move whose copy source no other move of the page copies to or deletes is
      the outcome it has alone on the store the page started from, whichever order the pool runs
      the moves in. */
  lemma IsolatedMoveOutcome(objects: Objects, tasks: seq<MoveTask>, faults: nat -> MoveFault, i: nat)
    requires i < |tasks|
    requires forall j :: 0 <= j < |tasks| && j != i ==>
               || PlanMove(tasks[i].source, tasks[i].destinationDir).None?
               || Untouched(tasks[j], PlanMove(tasks[i].source, tasks[i].destinationDir).value.copySource)
    ensures RunMoves(objects, tasks, faults).outcomes[i]
              == Move(objects, tasks[i].source, tasks[i].destinationDir, faults(i)).outcome
  {
    EachMoveRuns(objects, tasks, faults, i);
    var task := tasks[i];
    var plan := PlanMove(task.source, task.destinationDir);
    var before := RunMoves(objects, tasks[..i], faults).objects;
    if plan.Some? {
      var earlier, source := tasks[..i], plan.value.copySource;
      forall j | 0 <= j < |earlier|
        ensures Untouched(earlier[j], source)
      {
        assert earlier[j] == tasks[j] && j != i;
      }
      RunMovesFrame(objects, earlier, faults, source);
    }
    OutcomeReadsOnlySource(before, objects, task, faults(i));
  }

  /** A move's outcome depends on the store only through whether its copy source exists. */
  lemma OutcomeReadsOnlySource(a: Objects, b: Objects, task: MoveTask, fault: MoveFault)
    requires PlanMove(task.source, task.destinationDir).Some? ==>
               var source := PlanMove(task.source, task.destinationDir).value.copySource;
               source in a <==> source in b
    ensures Move(a, task.source, task.destinationDir, fault).outcome == Move(b, task.source, task.destinationDir, fault).outcome
  {
  }
}
