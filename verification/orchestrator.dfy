/** The connector's entry point, `main.py`: two flags choose the ingest
    phase, the transform phase or both, after the environment check; the
    four jobs run one after another and the first exception ends the run. */
module Orchestrator {

  datatype Job = IngestCubes | IngestIndicators | TransformCubes | TransformIndicators

  /** One effectful call of `main()` */
  datatype Step = ValidateEnvironment | RunJob(job: Job)

  predicate IsIngest(s: Step) {
    s == RunJob(IngestCubes) || s == RunJob(IngestIndicators)
  }

  predicate IsTransform(s: Step) {
    s == RunJob(TransformCubes) || s == RunJob(TransformIndicators)
  }

  /** `should_ingest = not args.transform_only` */
  function ShouldIngest(transformOnly: bool): bool {
    !transformOnly
  }

  /** `should_transform = not args.ingest_only` */
  function ShouldTransform(ingestOnly: bool): bool {
    !ingestOnly
  }

  /** Every call `main()` makes when nothing raises, in order */
  function Plan(ingestOnly: bool, transformOnly: bool): (plan: seq<Step>)
    ensures |plan| == 1 + (if transformOnly then 0 else 2) + (if ingestOnly then 0 else 2)
    ensures plan[0] == ValidateEnvironment
  {
    [ValidateEnvironment]
    + (if ShouldIngest(transformOnly) then [RunJob(IngestCubes), RunJob(IngestIndicators)] else [])
    + (if ShouldTransform(ingestOnly) then [RunJob(TransformCubes), RunJob(TransformIndicators)] else [])
  }

  /** Each job runs exactly when its phase's flag allows it: ingest jobs
      unless `--transform-only`, transform jobs unless `--ingest-only`. */
  lemma FlagsDecide(ingestOnly: bool, transformOnly: bool)
    ensures RunJob(IngestCubes) in Plan(ingestOnly, transformOnly) <==> !transformOnly
    ensures RunJob(IngestIndicators) in Plan(ingestOnly, transformOnly) <==> !transformOnly
    ensures RunJob(TransformCubes) in Plan(ingestOnly, transformOnly) <==> !ingestOnly
    ensures RunJob(TransformIndicators) in Plan(ingestOnly, transformOnly) <==> !ingestOnly
    ensures ValidateEnvironment in Plan(ingestOnly, transformOnly)
  {
  }

  /** With neither flag, all four jobs run, in their fixed order. */
  lemma NoFlags()
    ensures Plan(false, false) ==
      [ValidateEnvironment, RunJob(IngestCubes), RunJob(IngestIndicators),
       RunJob(TransformCubes), RunJob(TransformIndicators)]
  {
  }

  /** With both flags, only the environment check runs. */
  lemma BothFlags()
    ensures Plan(true, true) == [ValidateEnvironment]
  {
  }

  /** Every occurrence in `plan` of a step satisfying `first` comes before
      every occurrence of a step satisfying `second`. */
  predicate Before(plan: seq<Step>, first: Step -> bool, second: Step -> bool) {
    forall i, j :: 0 <= i < |plan| && 0 <= j < |plan| && first(plan[i]) && second(plan[j]) ==> i < j
  }

  /** The environment check comes first and only once; every ingest job
      precedes every transform job; within each phase cubes come before
      indicators; no step repeats. */
  lemma Ordering(ingestOnly: bool, transformOnly: bool)
    ensures Plan(ingestOnly, transformOnly)[0] == ValidateEnvironment
    ensures Before(Plan(ingestOnly, transformOnly), s => s == ValidateEnvironment, (s: Step) => s.RunJob?)
    ensures Before(Plan(ingestOnly, transformOnly), IsIngest, IsTransform)
    ensures Before(Plan(ingestOnly, transformOnly), s => s == RunJob(IngestCubes), s => s == RunJob(IngestIndicators))
    ensures Before(Plan(ingestOnly, transformOnly), s => s == RunJob(TransformCubes), s => s == RunJob(TransformIndicators))
    ensures forall i, j :: 0 <= i < j < |Plan(ingestOnly, transformOnly)| ==>
              Plan(ingestOnly, transformOnly)[i] != Plan(ingestOnly, transformOnly)[j]
  {
  }

  /** `main()` after argument parsing. `fails(s)` says whether the call
      `s` raises; the first one that does ends the run, uncaught. */
  method RunConnector(ingestOnly: bool, transformOnly: bool, fails: Step -> bool) returns (trace: seq<Step>, ok: bool)
    ensures trace <= Plan(ingestOnly, transformOnly) && |trace| >= 1
    ensures ok <==> trace == Plan(ingestOnly, transformOnly) && forall s :: s in trace ==> !fails(s)
    ensures !ok ==> fails(trace[|trace| - 1]) && forall i :: 0 <= i < |trace| - 1 ==> !fails(trace[i])
  {
    trace := [ValidateEnvironment];
    if fails(ValidateEnvironment) {
      return trace, false;
    }
    var shouldIngest := ShouldIngest(transformOnly);
    var shouldTransform := ShouldTransform(ingestOnly);
    if shouldIngest {
      trace := trace + [RunJob(IngestCubes)];
      if fails(RunJob(IngestCubes)) {
        return trace, false;
      }
      trace := trace + [RunJob(IngestIndicators)];
      if fails(RunJob(IngestIndicators)) {
        return trace, false;
      }
    }
    if shouldTransform {
      trace := trace + [RunJob(TransformCubes)];
      if fails(RunJob(TransformCubes)) {
        return trace, false;
      }
      trace := trace + [RunJob(TransformIndicators)];
      if fails(RunJob(TransformIndicators)) {
        return trace, false;
      }
    }
    return trace, true;
  }
}
