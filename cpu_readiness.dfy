/** The decisions of the CPU training script (`main` in
    `train_sentinel1_cpu.py`) around the training call it makes: the
    preconditions on the processed data, the data-adequacy ladder over image
    counts, and the readiness verdict, message and grade derived from the
    measured mAP@0.5, gathered into the deployment record. */
module CpuReadiness {
  import opened Dataset

  datatype Failure = NoProcessedData | InsufficientTrainingData

  datatype DeploymentStatus = ProductionReady | BetaReady | DemoReady {
    function Name(): string {
      match this
      case ProductionReady => "production_ready"
      case BetaReady => "beta_ready"
      case DemoReady => "demo_ready"
    }
  }

  /** The data-adequacy ladder over the total number of images. */
  function StatusFor(totalImages: nat): DeploymentStatus {
    if totalImages >= 50 then ProductionReady
    else if totalImages >= 20 then BetaReady
    else DemoReady
  }

  function AccuracyPrediction(status: DeploymentStatus): string {
    match status
    case ProductionReady => "95-98%"
    case BetaReady => "90-95%"
    case DemoReady => "85-90%"
  }

  lemma StatusForBands(total: nat)
    ensures StatusFor(total) == ProductionReady <==> total >= 50
    ensures StatusFor(total) == BetaReady <==> 20 <= total < 50
    ensures StatusFor(total) == DemoReady <==> total < 20
  {
  }

  datatype Message = Success | Excellent | Good | Decent | NeedsImprovement

  /** The deployment-decision ladder: the message, and whether it declares
      the model ready. */
  function Decision(map50: real): (Message, bool) {
    if map50 >= 0.98 then (Success, true)
    else if map50 >= 0.95 then (Excellent, true)
    else if map50 >= 0.90 then (Good, true)
    else if map50 >= 0.80 then (Decent, false)
    else (NeedsImprovement, false)
  }

  datatype Grade = A | B | C

  /** `"A" if map50 >= 0.95 else "B" if map50 >= 0.90 else "C"`. */
  function GradeFor(map50: real): Grade {
    if map50 >= 0.95 then A else if map50 >= 0.90 then B else C
  }

  /** The five-step ladder amounts to one threshold: ready exactly from 0.90
      on, so the "decent" band from 0.80 is still not ready; and the grade is
      A or B exactly when the model is ready. */
  lemma DecisionSpec(map50: real)
    ensures Decision(map50).1 <==> map50 >= 0.90
    ensures 0.80 <= map50 < 0.90 ==> Decision(map50) == (Decent, false)
    ensures GradeFor(map50) in {A, B} <==> Decision(map50).1
    ensures GradeFor(map50) == A <==> map50 >= 0.95
    ensures GradeFor(map50) == B <==> 0.90 <= map50 < 0.95
  {
  }

  /** The fields of `deployment_config.json` that depend on the run. */
  datatype CpuDeployment = CpuDeployment(
    mAP50: real,
    mAP50To95: real,
    precision: real,
    recall: real,
    grade: Grade,
    totalImages: nat,
    trainImages: nat,
    valImages: nat,
    dataSizeGb: real,
    polarizations: seq<string>,
    tileSize: nat,
    ready: bool,
    status: DeploymentStatus,
    confidenceThreshold: real)

  datatype Outcome = Failed(reason: Failure) | Completed(message: Message, config: CpuDeployment)

  /** `main` around the training call: the directory and count checks, then
      the record built from the image counts and the validation metrics. */
  function Run(trainDirExists: bool, valDirExists: bool, trainImages: nat, valImages: nat,
               metrics: map<string, real>): Outcome
  {
    if !trainDirExists || !valDirExists then Failed(NoProcessedData)
    else if trainImages < 5 then Failed(InsufficientTrainingData)
    else
      var total := trainImages + valImages;
      var status := StatusFor(total);
      var map50 := Metric(metrics, MapKey);
      var (message, ready) := Decision(map50);
      Completed(message, CpuDeployment(
        map50, Metric(metrics, "metrics/mAP50-95(B)"), Metric(metrics, "metrics/precision(B)"),
        Metric(metrics, "metrics/recall(B)"), GradeFor(map50), total, trainImages, valImages,
        1.6, ["VH"], 640, ready, status, 0.25))
  }

  /** The run fails exactly when a directory is missing or fewer than five
      training images exist; otherwise the record's status follows the image
      count, its readiness the mAP alone, and missing metrics read as 0.0. */
  lemma RunSpec(trainDirExists: bool, valDirExists: bool, trainImages: nat, valImages: nat,
                metrics: map<string, real>)
    ensures var o := Run(trainDirExists, valDirExists, trainImages, valImages, metrics);
      (o == Failed(NoProcessedData) <==> !trainDirExists || !valDirExists) &&
      (o == Failed(InsufficientTrainingData) <==> trainDirExists && valDirExists && trainImages < 5) &&
      (o.Completed? ==>
        o.config.totalImages == trainImages + valImages &&
        o.config.status == StatusFor(trainImages + valImages) &&
        (o.config.ready <==> Metric(metrics, MapKey) >= 0.90) &&
        (o.config.grade in {A, B} <==> o.config.ready))
    ensures MapKey !in metrics && Run(trainDirExists, valDirExists, trainImages, valImages, metrics).Completed? ==>
      !Run(trainDirExists, valDirExists, trainImages, valImages, metrics).config.ready &&
      Run(trainDirExists, valDirExists, trainImages, valImages, metrics).config.grade == C
  {
    DecisionSpec(Metric(metrics, MapKey));
  }

  /** Status and readiness are decided independently and can disagree: 50
      images with mAP 0.5 are "production_ready" yet not ready, and 5 images
      with mAP 0.99 are "demo_ready" yet ready. */
  lemma StatusAndReadinessDisagree()
    ensures var o := Run(true, true, 40, 10, map[MapKey := 0.5]);
      o.Completed? && o.config.status == ProductionReady && !o.config.ready
    ensures var o := Run(true, true, 5, 0, map[MapKey := 0.99]);
      o.Completed? && o.config.status == DemoReady && o.config.ready
  {
  }
}
