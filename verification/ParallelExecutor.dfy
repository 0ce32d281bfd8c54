/**
 * TMVA::ParallelExecutor: runs every booked method of a Factory, or every
 * fold of a CrossValidation, as one job of a worker pool, and returns a
 * ParallelExecutorResults record. The pool's Map is modelled as an
 * order-preserving sequential map over the job indices 0..n-1; training,
 * testing, evaluation and ROC integrals are abstract (recorded calls and
 * uninterpreted functions); the wall clock is a parameter.
 */
module ParallelExecutor {
  import opened Wrappers

  /** A value held in a TMVA::OptionMap. */
  datatype OptionValue = Text(text: string) | Number(number: real) | Flag(flag: bool)

  type OptionMap = map<string, OptionValue>

  datatype AnalysisType = Classification | Regression | Multiclass | NoAnalysisType

  /** A job of the factory run: a dataset name and a method's position in that dataset's vector. */
  datatype Job = Job(dataset: string, position: nat)

  /** One entry of the factory's methods map: a dataset and the names of the methods booked on it. */
  datatype MethodGroup = MethodGroup(dataset: string, methods: seq<string>)

  /** TMVA::ParallelExecutorResults: label, worker count, elapsed real time, options. */
  datatype ExecutorResults = ExecutorResults(name: string, numWorkers: nat, realTime: real, options: OptionMap)

  /** What a factory job asks of the factory, in order. */
  datatype FactoryCall =
    | Trained(job: Job)
    | Tested(job: Job)
    | Evaluated(job: Job)
    | RocRead(dataset: string, methodName: string)

  /** The keys of a std::map are distinct. */
  predicate DistinctDatasets(groups: seq<MethodGroup>)
  {
    forall p, q :: 0 <= p < q < |groups| ==> groups[p].dataset != groups[q].dataset
  }

  // ---------------------------------------------------------------------
  // The job list: the methods map flattened into (dataset, position) pairs

  /** The jobs of one dataset: positions 0 .. size-1, ascending. */
  function GroupJobs(g: MethodGroup): seq<Job>
  {
    seq(|g.methods|, i requires 0 <= i < |g.methods| => Job(g.dataset, i))
  }

  /** The jobs of all datasets, grouped by dataset in map iteration order. */
  function Flatten(groups: seq<MethodGroup>): seq<Job>
  {
    if groups == [] then []
    else Flatten(groups[..|groups| - 1]) + GroupJobs(groups[|groups| - 1])
  }

  /** Total number of booked methods. */
  function TotalSize(groups: seq<MethodGroup>): nat
  {
    if groups == [] then 0
    else TotalSize(groups[..|groups| - 1]) + |groups[|groups| - 1].methods|
  }

  /** The job names a method booked on one of the map's datasets. */
  predicate Booked(groups: seq<MethodGroup>, job: Job)
  {
    exists j :: 0 <= j < |groups| && groups[j].dataset == job.dataset && job.position < |groups[j].methods|
  }

  /** The nested push_back loops over the methods map. */
  method BuildJobList(groups: seq<MethodGroup>) returns (methods: seq<Job>)
    ensures methods == Flatten(groups)
  {
    methods := [];
    var g := 0;
    while g < |groups|
      invariant g <= |groups|
      invariant methods == Flatten(groups[..g])
    {
      var i := 0;
      while i < |groups[g].methods|
        invariant i <= |groups[g].methods|
        invariant methods == Flatten(groups[..g]) + GroupJobs(groups[g])[..i]
      {
        assert GroupJobs(groups[g])[..i + 1] == GroupJobs(groups[g])[..i] + [Job(groups[g].dataset, i)];
        methods := methods + [Job(groups[g].dataset, i)];
        i := i + 1;
      }
      assert groups[..g + 1][..g] == groups[..g];
      assert GroupJobs(groups[g])[..i] == GroupJobs(groups[g]);
      g := g + 1;
    }
    assert groups[..g] == groups;
  }

  /** The job list has one entry per booked method. */
  lemma {:induction false} FlattenLength(groups: seq<MethodGroup>)
    ensures |Flatten(groups)| == TotalSize(groups)
  {
    if groups != [] {
      FlattenLength(groups[..|groups| - 1]);
    }
  }

  /**
   * Dataset j's jobs sit, in ascending position, right after the jobs of
   * the datasets before it.
   */
  lemma {:induction false} FlattenAt(groups: seq<MethodGroup>, j: nat, i: nat)
    requires j < |groups| && i < |groups[j].methods|
    ensures TotalSize(groups[..j]) + i < |Flatten(groups)|
    ensures Flatten(groups)[TotalSize(groups[..j]) + i] == Job(groups[j].dataset, i)
  {
    var last := |groups| - 1;
    var front := groups[..last];
    FlattenLength(front);
    FlattenLength(groups);
    if j == last {
      assert groups[..j] == front;
    } else {
      assert front[..j] == groups[..j] && front[j] == groups[j];
      FlattenAt(front, j, i);
      TotalSizeMonotone(groups, last);
    }
  }

  lemma {:induction false} TotalSizeMonotone(groups: seq<MethodGroup>, k: nat)
    requires k <= |groups|
    ensures TotalSize(groups[..k]) <= TotalSize(groups)
  {
    if k < |groups| {
      var last := |groups| - 1;
      assert groups[..last][..k] == groups[..k];
      TotalSizeMonotone(groups[..last], k);
    } else {
      assert groups[..k] == groups;
    }
  }

  /** A pair is in the job list exactly when it names a method booked on one of the datasets. */
  lemma {:induction false} FlattenMembers(groups: seq<MethodGroup>, job: Job)
    ensures job in Flatten(groups) <==> Booked(groups, job)
  {
    if groups != [] {
      var last := |groups| - 1;
      var front := groups[..last];
      FlattenMembers(front, job);
      if Booked(front, job) {
        var j :| 0 <= j < |front| && front[j].dataset == job.dataset && job.position < |front[j].methods|;
        assert groups[j] == front[j];
      }
      if Booked(groups, job) && !Booked(front, job) {
        var j :| 0 <= j < |groups| && groups[j].dataset == job.dataset && job.position < |groups[j].methods|;
        assert GroupJobs(groups[last])[job.position] == job;
      }
    }
  }

  /** With distinct dataset names, no (dataset, position) pair occurs twice. */
  lemma {:induction false} FlattenDistinct(groups: seq<MethodGroup>)
    requires DistinctDatasets(groups)
    ensures forall p, q :: 0 <= p < q < |Flatten(groups)| ==> Flatten(groups)[p] != Flatten(groups)[q]
  {
    if groups != [] {
      var last := |groups| - 1;
      var front := groups[..last];
      var f := Flatten(front);
      var tail := GroupJobs(groups[last]);
      FlattenDistinct(front);
      forall p, q | 0 <= p < q < |Flatten(groups)|
        ensures Flatten(groups)[p] != Flatten(groups)[q]
      {
        if p < |f| && |f| <= q {
          var job := f[p];
          FlattenMembers(front, job);
          var j :| 0 <= j < |front| && front[j].dataset == job.dataset && job.position < |front[j].methods|;
          assert groups[j] == front[j];
          assert Flatten(groups)[q] == tail[q - |f|];
        }
      }
    }
  }

  // ---------------------------------------------------------------------
  // Factory::GetMethodName: looking a method up by dataset name and position

  /** Index of the first entry of the map for the given dataset. */
  function FindDataset(groups: seq<MethodGroup>, dataset: string): (r: Option<nat>)
    ensures r.Some? ==> r.value < |groups| && groups[r.value].dataset == dataset
    ensures r.None? ==> forall j :: 0 <= j < |groups| ==> groups[j].dataset != dataset
  {
    if groups == [] then None
    else if groups[0].dataset == dataset then Some(0)
    else match FindDataset(groups[1..], dataset)
      case None => None
      case Some(j) => Some(j + 1)
  }

  predicate ValidJob(groups: seq<MethodGroup>, job: Job)
  {
    var r := FindDataset(groups, job.dataset);
    r.Some? && job.position < |groups[r.value].methods|
  }

  function MethodName(groups: seq<MethodGroup>, job: Job): string
    requires ValidJob(groups, job)
  {
    groups[FindDataset(groups, job.dataset).value].methods[job.position]
  }

  /** With distinct names, looking up dataset j's name finds entry j. */
  lemma FindDistinct(groups: seq<MethodGroup>, j: nat)
    requires DistinctDatasets(groups) && j < |groups|
    ensures FindDataset(groups, groups[j].dataset) == Some(j)
  {
  }

  /** Every job of the list names a booked method, so GetMethodName finds it. */
  lemma FlattenJobsValid(groups: seq<MethodGroup>)
    requires DistinctDatasets(groups)
    ensures forall k :: 0 <= k < |Flatten(groups)| ==> ValidJob(groups, Flatten(groups)[k])
  {
    forall k | 0 <= k < |Flatten(groups)|
      ensures ValidJob(groups, Flatten(groups)[k])
    {
      var job := Flatten(groups)[k];
      FlattenMembers(groups, job);
      var j :| 0 <= j < |groups| && groups[j].dataset == job.dataset && job.position < |groups[j].methods|;
      FindDistinct(groups, j);
    }
  }

  // ---------------------------------------------------------------------
  // The per-job record and calls of the classification path

  /** The calls one job makes on the factory: train, test, evaluate, then read the ROC integral. */
  function JobCalls(groups: seq<MethodGroup>, job: Job): seq<FactoryCall>
    requires ValidJob(groups, job)
  {
    [Trained(job), Tested(job), Evaluated(job), RocRead(job.dataset, MethodName(groups, job))]
  }

  /** The calls of jobs 0 .. |jobs|-1, run in index order. */
  function AllJobCalls(groups: seq<MethodGroup>, jobs: seq<Job>): seq<FactoryCall>
    requires forall k :: 0 <= k < |jobs| ==> ValidJob(groups, jobs[k])
  {
    if jobs == [] then []
    else AllJobCalls(groups, jobs[..|jobs| - 1]) + JobCalls(groups, jobs[|jobs| - 1])
  }

  /** Every call of the classification path: each booked method's jobs calls, in job order. */
  function ClassificationCalls(groups: seq<MethodGroup>): seq<FactoryCall>
    requires DistinctDatasets(groups)
  {
    FlattenJobsValid(groups);
    AllJobCalls(groups, Flatten(groups))
  }

  /** The OptionMap a job returns: its dataset, its method's name and that method's ROC integral. */
  function JobRecord(groups: seq<MethodGroup>, rocIntegral: (string, string) -> real, job: Job): OptionMap
    requires ValidJob(groups, job)
  {
    var name := MethodName(groups, job);
    map["dataset" := Text(job.dataset), "rocint" := Number(rocIntegral(job.dataset, name)), "method" := Text(name)]
  }

  /** The results of the classification path, in job order. */
  function ClassificationResults(groups: seq<MethodGroup>, rocIntegral: (string, string) -> real): seq<OptionMap>
    requires DistinctDatasets(groups)
  {
    var jobs := Flatten(groups);
    FlattenJobsValid(groups);
    seq(|jobs|, k requires 0 <= k < |jobs| => JobRecord(groups, rocIntegral, jobs[k]))
  }

  /**
   * The classification path returns one record per booked method; the
   * record for method i of dataset j names that dataset and method and
   * holds the method's ROC integral.
   */
  lemma ClassificationResultsAt(groups: seq<MethodGroup>, rocIntegral: (string, string) -> real, j: nat, i: nat)
    requires DistinctDatasets(groups)
    requires j < |groups| && i < |groups[j].methods|
    ensures |ClassificationResults(groups, rocIntegral)| == TotalSize(groups)
    ensures TotalSize(groups[..j]) + i < TotalSize(groups)
    ensures RecordOf(ClassificationResults(groups, rocIntegral)[TotalSize(groups[..j]) + i],
                     groups[j].dataset, groups[j].methods[i], rocIntegral)
  {
    FlattenLength(groups);
    FlattenAt(groups, j, i);
    var k := TotalSize(groups[..j]) + i;
    ClassificationResultAt(groups, rocIntegral, k);
    JobRecordOf(groups, rocIntegral, j, i);
    assert ClassificationResults(groups, rocIntegral)[k] == JobRecord(groups, rocIntegral, Job(groups[j].dataset, i));
  }

  /** r is the record of the given method of the given dataset: its name, the dataset and its ROC integral. */
  predicate RecordOf(r: OptionMap, dataset: string, methodName: string, rocIntegral: (string, string) -> real)
  {
    && r.Keys == {"dataset", "rocint", "method"}
    && r["dataset"] == Text(dataset)
    && r["method"] == Text(methodName)
    && r["rocint"] == Number(rocIntegral(dataset, methodName))
  }

  /** Entry k of the results is the record of job k. */
  lemma ClassificationResultAt(groups: seq<MethodGroup>, rocIntegral: (string, string) -> real, k: nat)
    requires DistinctDatasets(groups) && k < |Flatten(groups)|
    ensures ValidJob(groups, Flatten(groups)[k])
    ensures |ClassificationResults(groups, rocIntegral)| == |Flatten(groups)|
    ensures ClassificationResults(groups, rocIntegral)[k] == JobRecord(groups, rocIntegral, Flatten(groups)[k])
  {
    FlattenJobsValid(groups);
  }

  /** The record of method i of dataset j. */
  lemma JobRecordOf(groups: seq<MethodGroup>, rocIntegral: (string, string) -> real, j: nat, i: nat)
    requires DistinctDatasets(groups)
    requires j < |groups| && i < |groups[j].methods|
    ensures ValidJob(groups, Job(groups[j].dataset, i))
    ensures RecordOf(JobRecord(groups, rocIntegral, Job(groups[j].dataset, i)),
                     groups[j].dataset, groups[j].methods[i], rocIntegral)
  {
    FindDistinct(groups, j);
  }

  /** TMVA::Factory as the executor sees it. */
  class Factory {
    const methodsMap: seq<MethodGroup>
    const analysisType: AnalysisType
    const rocIntegral: (string, string) -> real
    var calls: seq<FactoryCall>

    constructor (methodsMap: seq<MethodGroup>, analysisType: AnalysisType, rocIntegral: (string, string) -> real)
      requires DistinctDatasets(methodsMap)
      ensures this.methodsMap == methodsMap && this.analysisType == analysisType
      ensures this.rocIntegral == rocIntegral && calls == []
    {
      this.methodsMap := methodsMap;
      this.analysisType := analysisType;
      this.rocIntegral := rocIntegral;
      calls := [];
    }

    method TrainMethod(job: Job)
      modifies this
      ensures calls == old(calls) + [Trained(job)]
    {
      calls := calls + [Trained(job)];
    }

    method TestMethod(job: Job)
      modifies this
      ensures calls == old(calls) + [Tested(job)]
    {
      calls := calls + [Tested(job)];
    }

    method EvaluateMethod(job: Job)
      modifies this
      ensures calls == old(calls) + [Evaluated(job)]
    {
      calls := calls + [Evaluated(job)];
    }

    method GetROCIntegral(dataset: string, methodName: string) returns (roc: real)
      modifies this
      ensures calls == old(calls) + [RocRead(dataset, methodName)]
      ensures roc == rocIntegral(dataset, methodName)
    {
      calls := calls + [RocRead(dataset, methodName)];
      roc := rocIntegral(dataset, methodName);
    }
  }

  /**
   * The classification job lambda for job `workerID`: builds the record
   * with "rocint" 0, trains, tests and evaluates the method, then
   * overwrites "rocint" with its ROC integral.
   */
  method RunFactoryJob(factory: Factory, methods: seq<Job>, workerID: nat) returns (r: OptionMap)
    requires workerID < |methods| && ValidJob(factory.methodsMap, methods[workerID])
    modifies factory
    ensures r == JobRecord(factory.methodsMap, factory.rocIntegral, methods[workerID])
    ensures factory.calls == old(factory.calls) + JobCalls(factory.methodsMap, methods[workerID])
  {
    var job := methods[workerID];
    r := map[];
    r := r["dataset" := Text(job.dataset)];
    r := r["rocint" := Number(0.0)];
    r := r["method" := Text(MethodName(factory.methodsMap, job))];
    factory.TrainMethod(job);
    factory.TestMethod(job);
    factory.EvaluateMethod(job);
    var roc := factory.GetROCIntegral(job.dataset, r["method"].text);
    r := r["rocint" := Number(roc)];
  }

  lemma AllJobCallsStep(groups: seq<MethodGroup>, jobs: seq<Job>, k: nat)
    requires k < |jobs| && forall m :: 0 <= m < |jobs| ==> ValidJob(groups, jobs[m])
    ensures AllJobCalls(groups, jobs[..k + 1]) == AllJobCalls(groups, jobs[..k]) + JobCalls(groups, jobs[k])
  {
    assert jobs[..k + 1][..k] == jobs[..k];
  }

  lemma ClassificationResultsStep(groups: seq<MethodGroup>, rocIntegral: (string, string) -> real, k: nat)
    requires DistinctDatasets(groups) && k < |Flatten(groups)| && ValidJob(groups, Flatten(groups)[k])
    ensures ClassificationResults(groups, rocIntegral)[..k + 1] ==
      ClassificationResults(groups, rocIntegral)[..k] + [JobRecord(groups, rocIntegral, Flatten(groups)[k])]
  {
    FlattenJobsValid(groups);
  }

  /** fWorkers.Map(executor, TSeqI(methods.size())), run in index order. */
  method MapFactoryJobs(factory: Factory, methods: seq<Job>) returns (results: seq<OptionMap>)
    requires DistinctDatasets(factory.methodsMap) && methods == Flatten(factory.methodsMap)
    modifies factory
    ensures results == ClassificationResults(factory.methodsMap, factory.rocIntegral)
    ensures factory.calls == old(factory.calls) + ClassificationCalls(factory.methodsMap)
  {
    ghost var groups, roc, before := factory.methodsMap, factory.rocIntegral, factory.calls;
    FlattenJobsValid(groups);
    ghost var expected := ClassificationResults(groups, roc);
    results := [];
    var k := 0;
    while k < |methods|
      invariant k <= |methods|
      invariant results == expected[..k]
      invariant factory.calls == before + AllJobCalls(groups, methods[..k])
    {
      var r := RunFactoryJob(factory, methods, k);
      AllJobCallsStep(groups, methods, k);
      ClassificationResultsStep(groups, roc, k);
      results := results + [r];
      k := k + 1;
    }
    assert methods[..k] == methods;
  }

  // ---------------------------------------------------------------------
  // The cross-validation path

  /** TMVA::CrossValidation as the executor sees it. */
  class CrossValidation {
    const numFolds: nat
    const foldRoc: nat -> real
    var rocValues: map<nat, real>
    var evaluatedFolds: seq<nat>

    constructor (numFolds: nat, foldRoc: nat -> real)
      ensures this.numFolds == numFolds && this.foldRoc == foldRoc
      ensures rocValues == map[] && evaluatedFolds == []
    {
      this.numFolds := numFolds;
      this.foldRoc := foldRoc;
      rocValues := map[];
      evaluatedFolds := [];
    }

    /** EvaluateFold(k): afterwards GetResults().GetROCValues()[k] is fold k's ROC integral. */
    method EvaluateFold(k: nat)
      modifies this
      ensures evaluatedFolds == old(evaluatedFolds) + [k]
      ensures rocValues == old(rocValues)[k := foldRoc(k)]
    {
      evaluatedFolds := evaluatedFolds + [k];
      rocValues := rocValues[k := foldRoc(k)];
    }
  }

  /** fWorkers.Map(workItem, ROOT::TSeqI(numFolds)), run in fold order. */
  method MapFolds(cv: CrossValidation) returns (scores: seq<real>)
    modifies cv
    ensures |scores| == cv.numFolds && forall k :: 0 <= k < |scores| ==> scores[k] == cv.foldRoc(k)
    ensures cv.evaluatedFolds == old(cv.evaluatedFolds) + FoldRange(cv.numFolds)
    ensures cv.rocValues == old(cv.rocValues) + FoldValues(cv.foldRoc, cv.numFolds)
  {
    scores := [];
    var k := 0;
    while k < cv.numFolds
      invariant k <= cv.numFolds
      invariant |scores| == k && forall m :: 0 <= m < k ==> scores[m] == cv.foldRoc(m)
      invariant cv.evaluatedFolds == old(cv.evaluatedFolds) + FoldRange(k)
      invariant cv.rocValues == old(cv.rocValues) + FoldValues(cv.foldRoc, k)
    {
      var roc := RunFoldJob(cv, k);
      assert FoldRange(k + 1) == FoldRange(k) + [k];
      FoldValuesStep(old(cv.rocValues), cv.foldRoc, k);
      scores := scores + [roc];
      k := k + 1;
    }
  }

  method RunFoldJob(cv: CrossValidation, workerID: nat) returns (roc: real)
    modifies cv
    ensures roc == cv.foldRoc(workerID)
    ensures cv.evaluatedFolds == old(cv.evaluatedFolds) + [workerID]
    ensures cv.rocValues == old(cv.rocValues)[workerID := cv.foldRoc(workerID)]
  {
    cv.EvaluateFold(workerID);
    roc := cv.rocValues[workerID];
  }

  /** The ROC values of folds 0 .. n-1, keyed by fold index. */
  function FoldValues(foldRoc: nat -> real, n: nat): (r: map<nat, real>)
    ensures forall k: nat :: k in r <==> k < n
    ensures forall k :: k in r ==> r[k] == foldRoc(k)
  {
    map k: nat | k < n :: foldRoc(k)
  }

  /** Evaluating fold k after folds 0 .. k-1 extends the map by fold k. */
  lemma FoldValuesStep(m: map<nat, real>, foldRoc: nat -> real, k: nat)
    ensures (m + FoldValues(foldRoc, k))[k := foldRoc(k)] == m + FoldValues(foldRoc, k + 1)
  {
    var lhs := (m + FoldValues(foldRoc, k))[k := foldRoc(k)];
    var rhs := m + FoldValues(foldRoc, k + 1);
    assert lhs.Keys == rhs.Keys;
    forall j | j in lhs
      ensures lhs[j] == rhs[j]
    {
      if j < k {
        assert j in FoldValues(foldRoc, k) && j in FoldValues(foldRoc, k + 1);
      }
    }
  }

  /** Fold indices 0 .. n-1 in order. */
  function FoldRange(n: nat): seq<nat>
  {
    seq(n, k requires 0 <= k < n => k)
  }

  function SumOf(s: seq<real>): real
  {
    if s == [] then 0.0 else SumOf(s[..|s| - 1]) + s[|s| - 1]
  }

  /** The average of the fold scores; none for zero folds, where the source divides 0 by 0. */
  function Mean(s: seq<real>): (r: Option<real>)
    ensures r.None? <==> s == []
    ensures r.Some? ==> r.value * |s| as real == SumOf(s)
  {
    if |s| == 0 then None else Some(SumOf(s) / |s| as real)
  }

  /** The fROCAvg loop and the division that follows it. */
  method AverageROC(scores: seq<real>) returns (average: Option<real>)
    ensures average.None? <==> scores == []
    ensures average.Some? ==> average.value * |scores| as real == SumOf(scores)
    ensures average == Mean(scores)
  {
    var sum := 0.0;
    var i := 0;
    while i < |scores|
      invariant i <= |scores|
      invariant sum == SumOf(scores[..i])
    {
      assert scores[..i + 1][..i] == scores[..i];
      sum := sum + scores[i];
      i := i + 1;
    }
    assert scores[..i] == scores;
    average := if |scores| == 0 then None else Some(sum / |scores| as real);
  }

  /** When every score lies in [lo, hi], so does their sum divided by their count. */
  lemma {:induction false} SumBounds(s: seq<real>, lo: real, hi: real)
    requires forall k :: 0 <= k < |s| ==> lo <= s[k] <= hi
    ensures |s| as real * lo <= SumOf(s) <= |s| as real * hi
  {
    if s != [] {
      SumBounds(s[..|s| - 1], lo, hi);
    }
  }

  lemma MeanBounds(s: seq<real>, lo: real, hi: real)
    requires s != []
    requires forall k :: 0 <= k < |s| ==> lo <= s[k] <= hi
    ensures Mean(s).Some? && lo <= Mean(s).value <= hi
  {
    SumBounds(s, lo, hi);
    var n := |s| as real;
    assert SumOf(s) / n >= (n * lo) / n;
    assert SumOf(s) / n <= (n * hi) / n;
  }

  // ---------------------------------------------------------------------
  // Process-wide flags and the executor itself

  /** TMVA::gConfig()'s silent flag and the static MsgLogger output switch. */
  class Globals {
    var silent: bool
    var outputInhibited: bool

    constructor (silent: bool, outputInhibited: bool)
      ensures this.silent == silent && this.outputInhibited == outputInhibited
    {
      this.silent := silent;
      this.outputInhibited := outputInhibited;
    }

    method SetSilent(s: bool)
      modifies this
      ensures silent == s && outputInhibited == old(outputInhibited)
    {
      silent := s;
    }

    method EnableOutput()
      modifies this
      ensures !outputInhibited && silent == old(silent)
    {
      outputInhibited := false;
    }

    method InhibitOutput()
      modifies this
      ensures outputInhibited && silent == old(silent)
    {
      outputInhibited := true;
    }
  }

  /**
   * TMVA::ParallelExecutor: its worker pool size, its stopwatch `fTimer`
   * (running or stopped, with `realTime` the reading at its last stop) and
   * its logger's name.
   */
  class Executor {
    var numWorkers: nat
    var timerRunning: bool
    var realTime: real
    var logName: string

    /** A TStopwatch starts running, with nothing accumulated, when it is constructed. */
    constructor (poolSize: nat, logName: string)
      ensures numWorkers == poolSize && timerRunning && realTime == 0.0 && this.logName == logName
    {
      numWorkers := poolSize;
      timerRunning := true;
      realTime := 0.0;
      this.logName := logName;
    }

    /** fWorkers.SetNWorkers(n). */
    method SetNWorkers(n: nat)
      modifies this
      ensures numWorkers == n
      ensures timerRunning == old(timerRunning) && realTime == old(realTime) && logName == old(logName)
    {
      numWorkers := n;
    }

    /** fTimer.Reset(); fTimer.Start(). */
    method RestartTimer()
      modifies this
      ensures timerRunning && realTime == 0.0
      ensures numWorkers == old(numWorkers) && logName == old(logName)
    {
      realTime := 0.0;
      timerRunning := true;
    }

    /** fTimer.Stop(), with `elapsed` the wall-clock time since the start. */
    method StopTimer(elapsed: real)
      requires elapsed >= 0.0
      modifies this
      ensures !timerRunning && realTime == elapsed
      ensures numWorkers == old(numWorkers) && logName == old(logName)
    {
      timerRunning := false;
      realTime := elapsed;
    }

    /**
     * fTimer.RealTime(): a running stopwatch is stopped first, with
     * `elapsed` its reading at that stop; then the reading is returned.
     */
    method ReadRealTime(elapsed: real) returns (t: real)
      requires elapsed >= 0.0
      modifies this
      ensures !timerRunning && t == realTime
      ensures realTime == (if old(timerRunning) then elapsed else old(realTime))
      ensures numWorkers == old(numWorkers) && logName == old(logName)
    {
      if timerRunning {
        StopTimer(elapsed);
      }
      t := realTime;
    }

    /**
     * Execute(Factory*, jobs, options). In classification mode every booked
     * method runs as one job and the results table is returned beside the
     * record; otherwise nothing runs, and the record carries the stopwatch's
     * reading, which stops it if it was still running.
     */
    method ExecuteFactory(factory: Factory, jobs: nat, options: OptionMap, globals: Globals, elapsed: real)
      returns (res: ExecutorResults, table: seq<OptionMap>)
      requires DistinctDatasets(factory.methodsMap) && elapsed >= 0.0
      modifies this, factory, globals
      ensures numWorkers == jobs && res.numWorkers == jobs && res.options == options
      ensures factory.analysisType == Classification ==>
        && res == ExecutorResults("ParallelExecutor(Factory)", jobs, elapsed, options)
        && table == ClassificationResults(factory.methodsMap, factory.rocIntegral)
        && factory.calls == old(factory.calls) + ClassificationCalls(factory.methodsMap)
        && globals.silent && !globals.outputInhibited
        && !timerRunning && realTime == elapsed && logName == "ParallelExecutor(Factory)"
      ensures factory.analysisType != Classification ==>
        && res == ExecutorResults("Unknow", jobs, if old(timerRunning) then elapsed else old(realTime), options)
        && table == [] && factory.calls == old(factory.calls)
        && globals.silent == old(globals.silent) && globals.outputInhibited == old(globals.outputInhibited)
        && !timerRunning && realTime == res.realTime && logName == old(logName)
    {
      SetNWorkers(jobs);
      var methods := BuildJobList(factory.methodsMap);
      FlattenJobsValid(factory.methodsMap);

      if factory.analysisType == Classification {
        RestartTimer();
        var results := MapFactoryJobs(factory, methods);
        StopTimer(elapsed);
        globals.EnableOutput();
        globals.SetSilent(false);
        logName := "ParallelExecutor(Factory)";
        globals.SetSilent(true);
        table := results;
        var t := ReadRealTime(elapsed);
        res := ExecutorResults("ParallelExecutor(Factory)", jobs, t, options);
      } else {
        table := [];
        var t := ReadRealTime(elapsed);
        res := ExecutorResults("Unknow", jobs, t, options);
      }
    }

    /**
     * Execute(CrossValidation*, jobs, options): job k evaluates fold k and
     * returns its ROC value; the fold scores and their average are returned
     * beside the record.
     */
    method ExecuteCV(cv: CrossValidation, jobs: nat, options: OptionMap, globals: Globals, elapsed: real)
      returns (res: ExecutorResults, scores: seq<real>, average: Option<real>)
      requires elapsed >= 0.0
      modifies this, cv, globals
      ensures numWorkers == jobs
      ensures res == ExecutorResults("ParallelExecutor(CV)", jobs, elapsed, options)
      ensures |scores| == cv.numFolds && forall k :: 0 <= k < |scores| ==> scores[k] == cv.foldRoc(k)
      ensures cv.evaluatedFolds == old(cv.evaluatedFolds) + FoldRange(cv.numFolds)
      ensures cv.rocValues == old(cv.rocValues) + FoldValues(cv.foldRoc, cv.numFolds)
      ensures average == Mean(scores)
      ensures globals.silent && !globals.outputInhibited
      ensures !timerRunning && realTime == elapsed && logName == "ParallelExecutor(CV)"
    {
      globals.InhibitOutput();
      globals.SetSilent(true);
      SetNWorkers(jobs);

      RestartTimer();
      scores := MapFolds(cv);
      StopTimer(elapsed);

      logName := "ParallelExecutor(CV)";
      globals.EnableOutput();
      globals.SetSilent(false);
      average := AverageROC(scores);
      globals.SetSilent(true);
      var t := ReadRealTime(elapsed);
      res := ExecutorResults("ParallelExecutor(CV)", jobs, t, options);
    }
  }
}
