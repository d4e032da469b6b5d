/** `main`: parse the options, check them, then inside one session index the
    projects and then the screens, closing the session however that ends. */
module Cli {
  import opened Values
  import opened ObjectGraph
  import opened Pruning
  import opened Documents
  import opened World
  import opened Options
  import opened Indexer

  /** How `main` gets past its command line: `getopt` raised (usage, exit
      2), `int()` / `long()` raised (exit 1), the usage check failed (exit
      2), or the indexing starts with these settings and ids. */
  datatype Start =
    | GetoptFailed
    | ValueFailed(argument: string)
    | UsageFailed
    | Indexing(index: string, dryRun: bool, projectIds: seq<int>, screenIds: seq<int>)

  /** The part of `main` before the session: `-a` replaces both id lists by
      every project and every screen the server knows; without `--url`
      nothing is sent to Elasticsearch. */
  function StartOf(parsed: Option<seq<Opt>>, allProjectIds: seq<int>, allScreenIds: seq<int>): Start
  {
    match parsed
    case None => GetoptFailed
    case Some(opts) =>
      match ApplyOptions(opts)
      case Err(a) => ValueFailed(a)
      case Ok(c) =>
        if NeedsUsage(c) then UsageFailed
        else Indexing(c.index, c.url.None?,
                      if c.all then allProjectIds else c.projectIds,
                      if c.all then allScreenIds else c.screenIds)
  }

  /** The exit status of a run that never opened a session. */
  function EarlyExit(start: Start): (code: int)
    requires !start.Indexing?
    ensures code == 1 <==> start.ValueFailed?
    ensures code == 2 <==> !start.ValueFailed?
  {
    if start.ValueFailed? then 1 else 2
  }

  /** The settings a run starts with follow the command line: it is a dry
      run exactly when there is no `--url`; the index is the last `--index`
      or 'omero'; the ids are those of `--project` / `--screen` in order,
      or every id when `-a` was given. */
  lemma StartOfSpec(opts: seq<Opt>, allProjectIds: seq<int>, allScreenIds: seq<int>)
    requires StartOf(Some(opts), allProjectIds, allScreenIds).Indexing?
    ensures var s := StartOf(Some(opts), allProjectIds, allScreenIds);
      && s.dryRun == LastArgument(opts, "--url").None?
      && s.index == (match LastArgument(opts, "--index") case Some(a) => a case None => "omero")
      && ((exists k :: 0 <= k < |opts| && opts[k].name == "-a") ==>
            s.projectIds == allProjectIds && s.screenIds == allScreenIds)
      && (!(exists k :: 0 <= k < |opts| && opts[k].name == "-a") ==>
            ParsesTo(Arguments(opts, "--project"), s.projectIds) && ParsesTo(Arguments(opts, "--screen"), s.screenIds))
  {
    ApplyOptionsReflects(opts);
  }

  /** A run gets as far as the session exactly when `getopt` succeeded, every
      numeric argument parses, and `-a`, a `--project` or a `--screen` was
      given. */
  lemma StartsIndexing(opts: seq<Opt>, allProjectIds: seq<int>, allScreenIds: seq<int>)
    ensures StartOf(Some(opts), allProjectIds, allScreenIds).Indexing? <==>
      && (forall k :: 0 <= k < |opts| ==> !Bad(opts[k]))
      && exists k :: 0 <= k < |opts| && (opts[k].name == "-a" || opts[k].name == "--project" || opts[k].name == "--screen")
  {
    ApplyOptionsFails(opts);
    if ApplyOptions(opts).Ok? {
      ApplyOptionsReflects(opts);
      var c := ApplyOptions(opts).value;
      if (exists k :: 0 <= k < |opts| && (opts[k].name == "-a" || opts[k].name == "--project" || opts[k].name == "--screen")) {
        UsageSatisfied(opts);
      } else {
        assert !c.all;
        NoArguments(opts, "--project");
        NoArguments(opts, "--screen");
      }
    }
  }

  lemma {:induction false} NoArguments(opts: seq<Opt>, name: string)
    requires forall k :: 0 <= k < |opts| ==> opts[k].name != name
    ensures Arguments(opts, name) == []
  {
    if opts != [] {
      NoArguments(opts[..|opts| - 1], name);
    }
  }

  /** Plates the screen query can return are plates of `world`. */
  ghost predicate ScreensTyped(platesOf: int -> seq<ModelObject>, world: set<ModelObject>)
  {
    forall id :: PlatesTyped(PlatesOf(platesOf, id), world)
  }

  lemma {:induction false} AllPlatesTyped(screenIds: seq<int>, platesOf: int -> seq<ModelObject>, world: set<ModelObject>)
    requires ScreensTyped(platesOf, world)
    ensures PlatesTyped(AllPlates(screenIds, platesOf), world)
  {
    if screenIds != [] {
      AllPlatesTyped(screenIds[..|screenIds| - 1], platesOf, world);
      assert PlatesTyped(PlatesOf(platesOf, screenIds[|screenIds| - 1]), world);
    }
  }

  /** The session block of `main`: the projects, then (when no project
      raised) the screens, then the session closes however that ends. */
  method IndexInSession(trace: Trace, dryRun: bool, index: string, projectIds: seq<int>, screenIds: seq<int>,
                        lookup: int -> ModelObject?, countsOf: int -> map<int, int>,
                        fetchImages: (int, nat) -> seq<ModelObject>, ghost imageBound: nat,
                        fetchWells: (int, nat) -> seq<ModelObject>, ghost wellBound: nat, platesOf: int -> seq<ModelObject>,
                        encode: StructuralEncoder, ghost world: set<ModelObject>)
    returns (ghost projectSteps: seq<Step<ImageDocument>>, ghost plateSteps: seq<Step<WellDocument>>,
             ghost projectDetails: seq<bool>, ghost plateDetails: seq<bool>,
             projectFailure: Option<Failure>, plateFailure: Option<Failure>, exitCode: int)
    requires AllShortBeyond(fetchImages, imageBound) && Serves(fetchImages, world, Image)
    requires AllShortBeyond(fetchWells, wellBound) && Serves(fetchWells, world, Well)
    requires Closed(world) && Typed(world)
    requires forall id :: ProjectOf(lookup, id) != null ==>
      ProjectOf(lookup, id) in world && ProjectOf(lookup, id).kind == Project && DetailsTyped(ProjectOf(lookup, id))
    requires ScreensTyped(platesOf, world)
    modifies trace, Parts(world)
    ensures |projectSteps| <= |projectIds|
    ensures trace.events == old(trace.events)
      + ProjectRunEvents(dryRun, index, projectIds[..|projectSteps|], projectSteps)
      + PlateRunEvents(dryRun, index, plateSteps)
      + [SessionClosed]
    ensures ProjectStepsAgree(projectSteps, projectIds, lookup, projectDetails, countsOf, fetchImages, imageBound, encode)
    ensures forall k :: 0 <= k < |projectSteps| && ProjectOf(lookup, projectIds[k]) != null ==>
      projectDetails[k] == old(ProjectOf(lookup, projectIds[k]).detailsLoaded)
    ensures PlateStepsAgree(plateSteps, AllPlates(screenIds, platesOf), plateDetails, fetchWells, wellBound, encode)
    ensures forall k :: 0 <= k < |plateDetails| && AllPlates(screenIds, platesOf)[k] in world ==>
      plateDetails[k] == old(AllPlates(screenIds, platesOf)[k].detailsLoaded)
    ensures FailsAtEnd(projectSteps, projectFailure)
    ensures projectFailure.None? ==> |projectSteps| == |projectIds|
    ensures projectFailure.Some? ==> plateSteps == [] && plateFailure.None?
    ensures FailsAtEnd(plateSteps, plateFailure)
    ensures projectFailure.None? && plateFailure.None? ==> |plateSteps| == |AllPlates(screenIds, platesOf)|
    ensures exitCode == (if projectFailure.Some? || plateFailure.Some? then 1 else 0)
  {
    plateSteps, plateDetails, plateFailure := [], [], None;
    AllPlatesTyped(screenIds, platesOf, world);
    ghost var all := AllPlates(screenIds, platesOf);
    ghost var before := trace.events;
    projectSteps, projectDetails, projectFailure := IndexProjects(trace, dryRun, index, projectIds, lookup, countsOf, fetchImages, imageBound, encode, world);
    ghost var projectEvents := ProjectRunEvents(dryRun, index, projectIds[..|projectSteps|], projectSteps);
    assert trace.events == before + projectEvents;
    if projectFailure.None? {
      plateSteps, plateDetails, plateFailure := IndexScreens(trace, dryRun, index, screenIds, platesOf, fetchWells, wellBound, encode, world);
      forall k | 0 <= k < |plateDetails| && all[k] in world ensures plateDetails[k] == old(all[k].detailsLoaded) {
        assert all[k] in all;
      }
    }
    assert trace.events == before + projectEvents + PlateRunEvents(dryRun, index, plateSteps);
    trace.Emit(SessionClosed);
    exitCode := if projectFailure.Some? || plateFailure.Some? then 1 else 0;
  }

  /** `main`. The query service is `lookup` (a project by id), `countsOf`
      (image counts per dataset of a project), `fetchImages` (a page of the
      images query, by dataset id), `fetchWells` (a page of the wells query,
      by plate id), `platesOf` (the plates of a screen) and the id lists `-a`
      finds; `encode` is the encoder registry. The two paged queries are
      separate because datasets and plates are numbered apart. */
  method Run(trace: Trace, parsed: Option<seq<Opt>>,
             lookup: int -> ModelObject?, countsOf: int -> map<int, int>,
             fetchImages: (int, nat) -> seq<ModelObject>, ghost imageBound: nat,
             fetchWells: (int, nat) -> seq<ModelObject>, ghost wellBound: nat, platesOf: int -> seq<ModelObject>,
             allProjectIds: seq<int>, allScreenIds: seq<int>,
             encode: StructuralEncoder, ghost world: set<ModelObject>)
    returns (ghost projectSteps: seq<Step<ImageDocument>>, ghost plateSteps: seq<Step<WellDocument>>,
             ghost projectDetails: seq<bool>, ghost plateDetails: seq<bool>,
             projectFailure: Option<Failure>, plateFailure: Option<Failure>, exitCode: int)
    requires AllShortBeyond(fetchImages, imageBound) && Serves(fetchImages, world, Image)
    requires AllShortBeyond(fetchWells, wellBound) && Serves(fetchWells, world, Well)
    requires Closed(world) && Typed(world)
    requires forall id :: ProjectOf(lookup, id) != null ==>
      ProjectOf(lookup, id) in world && ProjectOf(lookup, id).kind == Project && DetailsTyped(ProjectOf(lookup, id))
    requires ScreensTyped(platesOf, world)
    modifies trace, Parts(world)
    ensures var start := StartOf(parsed, allProjectIds, allScreenIds);
      !start.Indexing? ==> exitCode == EarlyExit(start) && trace.events == old(trace.events)
    ensures var start := StartOf(parsed, allProjectIds, allScreenIds);
      start.Indexing? ==>
        && |projectSteps| <= |start.projectIds|
        && trace.events == old(trace.events)
             + ProjectRunEvents(start.dryRun, start.index, start.projectIds[..|projectSteps|], projectSteps)
             + PlateRunEvents(start.dryRun, start.index, plateSteps)
             + [SessionClosed]
        && ProjectStepsAgree(projectSteps, start.projectIds, lookup, projectDetails, countsOf, fetchImages, imageBound, encode)
        && (forall k :: 0 <= k < |projectSteps| && ProjectOf(lookup, start.projectIds[k]) != null ==>
              projectDetails[k] == old(ProjectOf(lookup, start.projectIds[k]).detailsLoaded))
        && PlateStepsAgree(plateSteps, AllPlates(start.screenIds, platesOf), plateDetails, fetchWells, wellBound, encode)
        && (forall k :: 0 <= k < |plateDetails| && AllPlates(start.screenIds, platesOf)[k] in world ==>
              plateDetails[k] == old(AllPlates(start.screenIds, platesOf)[k].detailsLoaded))
        && FailsAtEnd(projectSteps, projectFailure)
        && (projectFailure.None? ==> |projectSteps| == |start.projectIds|)
        && (projectFailure.Some? ==> plateSteps == [] && plateFailure.None?)
        && FailsAtEnd(plateSteps, plateFailure)
        && (projectFailure.None? && plateFailure.None? ==> |plateSteps| == |AllPlates(start.screenIds, platesOf)|)
        && exitCode == (if projectFailure.Some? || plateFailure.Some? then 1 else 0)
  {
    projectSteps, plateSteps, projectDetails, plateDetails, projectFailure, plateFailure := [], [], [], [], None, None;
    if parsed.None? {
      return projectSteps, plateSteps, projectDetails, plateDetails, projectFailure, plateFailure, 2;
    }
    var r := ParseOptions(parsed.value);
    if r.Err? {
      return projectSteps, plateSteps, projectDetails, plateDetails, projectFailure, plateFailure, 1;
    }
    var c := r.value;
    if NeedsUsage(c) {
      return projectSteps, plateSteps, projectDetails, plateDetails, projectFailure, plateFailure, 2;
    }
    var projectIds, screenIds := c.projectIds, c.screenIds;
    if c.all {
      projectIds, screenIds := allProjectIds, allScreenIds;
    }
    var dryRun := c.url.None?;
    assert StartOf(parsed, allProjectIds, allScreenIds) == Indexing(c.index, dryRun, projectIds, screenIds);
    projectSteps, plateSteps, projectDetails, plateDetails, projectFailure, plateFailure, exitCode :=
      IndexInSession(trace, dryRun, c.index, projectIds, screenIds, lookup, countsOf, fetchImages, imageBound, fetchWells, wellBound, platesOf, encode, world);
  }
}
