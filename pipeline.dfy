/** The single-image pipeline: decode, exposure (manual or metered), optional
    lens correction, the camera-match boost, gamut transform with a floor,
    curve encoding, optional LUT with a clamp, and save. Every foreign call
    (RAW decoding, the statistics behind metering, the core's lens step, the
    gamut matrix, the encoding curve, LUT reading and application, and the
    raster writer) is a field of `Env`. `Run` specifies one invocation;
    `ProcessImage` performs it step by step on a mutable buffer. */
module Pipeline {
  import opened Wrappers
  import opened Images
  import Metering
  import Boost
  import LogSpaces

  type NonNegReal = x: real | x >= 0.0

  /** The grey level every metering policy aims at. */
  const TargetGray: real := 0.18

  /** The floor applied after the gamut transform, before curve encoding. */
  const GamutFloor: real := 0.000001

  datatype MeteringMode = Average | CenterWeighted | HighlightSafe | Hybrid

  /** A LUT as the LUT reader returns it: a 3-D table or any other LUT. */
  datatype Lut =
    | Lut3D(table: seq<Pixel>, size: nat, domainLow: Pixel, domainHigh: Pixel)
    | OtherLut(description: string)

  /** The arguments of `process_image` (the log queue is left out). */
  datatype Config = Config(
    rawPath: string,
    outputPath: string,
    logSpace: string,
    lutPath: Option<string>,
    exposure: Option<real>,
    lensCorrect: bool,
    meteringMode: string,
    customDbPath: Option<string>)

  /** The collaborators of the pipeline. A `Result.Err` stands for an exception. */
  datatype Env = Env(
    decode: string -> Result<Image>,
    geometricMean: Image -> NonNegReal,
    weightedMean: Image -> real,
    maxChannelPercentile: (Image, real) -> real,
    exp2: real -> real,
    lensStep: (Image, Option<string>) -> Result<Image>,
    gamutMatrix: string -> Result<Matrix3>,
    curve: string -> Result<real -> real>,
    readLut: string -> Result<Lut>,
    lutKernel: (Image, seq<Pixel>, Pixel, Pixel) -> Result<Image>,
    lutApply: (Lut, Image) -> Result<Image>,
    save: (string, Image) -> Option<string>)

  /** The step messages the pipeline logs, in the order it can log them. */
  datatype Step =
    | Decoding
    | ManualExposure(stops: real)
    | AutoExposure(mode: MeteringMode)
    | LensCorrection
    | CameraMatchBoost
    | ColorTransform(gamut: string, curve: string)
    | ApplyingLut(path: string)
    | GenericLut
    | LutError(message: string)
    | Saving(path: string)
    | Done

  datatype Error = External(message: string) | UnknownLogSpace(name: string)

  datatype Outcome = Saved(image: Image) | Raised(error: Error)

  /** What one invocation logged and how it ended. */
  datatype RunResult = RunResult(log: seq<Step>, outcome: Outcome)

  /** The metering dispatch: three names select their own policy, every other
      string (including "hybrid") selects the hybrid policy. */
  function SelectMetering(name: string): (m: MeteringMode)
    ensures m == CenterWeighted <==> name == "center-weighted"
    ensures m == HighlightSafe <==> name == "highlight-safe"
    ensures m == Average <==> name == "average"
    ensures m == Hybrid <==> name != "center-weighted" && name != "highlight-safe" && name != "average"
  {
    if name == "center-weighted" then CenterWeighted
    else if name == "highlight-safe" then HighlightSafe
    else if name == "average" then Average
    else Hybrid
  }

  /** Every offered metering mode selects the policy of the same name. */
  lemma MeteringModesSelectThemselves()
    ensures SelectMetering(LogSpaces.MeteringModes[0]) == Average
    ensures SelectMetering(LogSpaces.MeteringModes[1]) == CenterWeighted
    ensures SelectMetering(LogSpaces.MeteringModes[2]) == HighlightSafe
    ensures SelectMetering(LogSpaces.MeteringModes[3]) == Hybrid
  {
  }

  /** The selected metering policy applied to the image. */
  function Meter(mode: MeteringMode, env: Env, img: Image): Image
  {
    match mode
    case CenterWeighted => Metering.AutoExposeCenterWeighted(img, env.weightedMean(img), TargetGray)
    case HighlightSafe => Metering.AutoExposeHighlightSafe(img, env.maxChannelPercentile(img, 99.5))
    case Average => Metering.AutoExposeLinear(img, env.geometricMean(img), TargetGray)
    case Hybrid =>
      Metering.AutoExposeHybrid(img, env.geometricMean(img), env.maxChannelPercentile(img, 99.0), TargetGray)
  }

  /** The log message of step 2. */
  function ExposureStep(cfg: Config): Step
  {
    match cfg.exposure
    case Some(stops) => ManualExposure(stops)
    case None => AutoExposure(SelectMetering(cfg.meteringMode))
  }

  /** Step 2: a manual exposure of `stops` scales by 2^stops, otherwise the
      selected metering policy runs. */
  function Expose(cfg: Config, env: Env, img: Image): Image
  {
    match cfg.exposure
    case Some(stops) => Scale(img, env.exp2(stops))
    case None => Meter(SelectMetering(cfg.meteringMode), env, img)
  }

  /** A manual exposure wins over metering whatever the metering mode is. */
  lemma ManualExposureOverridesMetering(cfg: Config, env: Env, img: Image, mode: string)
    requires cfg.exposure.Some?
    ensures Expose(cfg.(meteringMode := mode), env, img) == Scale(img, env.exp2(cfg.exposure.value))
    ensures forall k :: 0 <= k < |Run(cfg, env).log| ==> !Run(cfg, env).log[k].AutoExposure?
  {
    if env.decode(cfg.rawPath).Ok? {
      RunLogStart(cfg, env);
      RunFollowsStageOrder(cfg, env);
      OnlyStepOfItsRank(Run(cfg, env).log, 1);
    }
  }

  /** Zero stops is a pass-through multiply by 1. */
  lemma ZeroStopsIsPassThrough(cfg: Config, env: Env, img: Image)
    requires cfg.exposure == Some(0.0)
    requires env.exp2(0.0) == 1.0
    ensures Expose(cfg, env, img) == img
  {
    ScaleByOne(img);
  }

  /** The gamut step: the matrix, then the 1e-6 floor; no sample that reaches
      the curve encoding is below 1e-6. */
  function GamutMap(img: Image, m: Matrix3): (r: Image)
    ensures |r| == |img|
    ensures SamplesAtLeast(r, GamutFloor)
  {
    FloorBounds(Transform(img, m), GamutFloor);
    Floor(Transform(img, m), GamutFloor)
  }

  function EncodeWith(f: real -> real): Pixel -> Pixel
  {
    (p: Pixel) => Pixel(f(p.r), f(p.g), f(p.b))
  }

  /** Curve encoding, sample by sample. */
  function EncodeCurve(f: real -> real, img: Image): Image
  {
    MapImage(img, EncodeWith(f))
  }

  /** Steps 4.1 and 4.2: the gamut matrix into the working space, the 1e-6
      floor, then the log curve. Building the matrix or looking up the curve
      may raise; the matrix comes first, so its error wins. */
  function EncodeToLog(env: Env, space: string, curve: string, img: Image): (r: Result<Image>)
    ensures r.Ok? <==> env.gamutMatrix(space).Ok? && env.curve(curve).Ok?
    ensures env.gamutMatrix(space).Err? ==> r == Err(env.gamutMatrix(space).error)
    ensures env.gamutMatrix(space).Ok? && env.curve(curve).Err? ==> r == Err(env.curve(curve).error)
    ensures r.Ok? ==> |r.value| == |img|
  {
    match env.gamutMatrix(space)
    case Err(e) => Err(e)
    case Ok(m) =>
      match env.curve(curve)
      case Err(e) => Err(e)
      case Ok(f) => Ok(EncodeCurve(f, GamutMap(img, m)))
  }

  /** `if lut_path:`: a LUT path that is present and non-empty. */
  predicate LutRequested(cfg: Config)
  {
    cfg.lutPath.Some? && cfg.lutPath.value != ""
  }

  /** A 3-D LUT goes through the in-place kernel, any other LUT through its
      own `apply`; either may raise. */
  function ApplyLut(env: Env, lut: Lut, img: Image): Result<Image>
  {
    if lut.Lut3D? then env.lutKernel(img, lut.table, lut.domainLow, lut.domainHigh)
    else env.lutApply(lut, img)
  }

  /** Step 5: the image after the LUT step and the messages it logged.
      Without a LUT path nothing happens; a failure to read or to apply the
      LUT is logged and leaves the image as it was; a LUT that is not a 3-D
      table is announced before the generic path applies it; a LUT that is
      applied is followed by a clamp to [0, 1]. */
  function LutStage(cfg: Config, env: Env, img: Image): (r: (Image, seq<Step>))
    ensures !LutRequested(cfg) ==> r == (img, [])
    ensures LutRequested(cfg) ==> |r.1| > 0 && r.1[0] == ApplyingLut(cfg.lutPath.value)
    ensures LutRequested(cfg) && env.readLut(cfg.lutPath.value).Err? ==>
              r.0 == img && r.1[|r.1| - 1] == LutError(env.readLut(cfg.lutPath.value).error)
    ensures LutRequested(cfg) && env.readLut(cfg.lutPath.value).Ok? ==>
              var applied := ApplyLut(env, env.readLut(cfg.lutPath.value).value, img);
              (applied.Err? ==> r.0 == img && r.1[|r.1| - 1] == LutError(applied.error)) &&
              (applied.Ok? ==> r.0 == Clip(applied.value, 0.0, 1.0) && !r.1[|r.1| - 1].LutError?)
    ensures GenericLut in r.1 <==>
              LutRequested(cfg) && env.readLut(cfg.lutPath.value).Ok? && !env.readLut(cfg.lutPath.value).value.Lut3D?
    ensures LutRequested(cfg) && r.1[|r.1| - 1].LutError? ==> r.0 == img
    ensures LutRequested(cfg) && !r.1[|r.1| - 1].LutError? ==> SamplesWithin(r.0, 0.0, 1.0)
  {
    if !LutRequested(cfg) then (img, [])
    else
      var path := cfg.lutPath.value;
      match env.readLut(path)
      case Err(e) => (img, [ApplyingLut(path), LutError(e)])
      case Ok(lut) =>
        var events := if lut.Lut3D? then [ApplyingLut(path)] else [ApplyingLut(path), GenericLut];
        match ApplyLut(env, lut, img)
        case Err(e) => (img, events + [LutError(e)])
        case Ok(out) =>
          ClipBounds(out, 0.0, 1.0);
          (Clip(out, 0.0, 1.0), events)
  }

  /** Step 6: save, then done. The run ends in `Saved` exactly when the
      writer succeeds, and otherwise raises the writer's error; either way the
      save is logged after everything before it. */
  function FromSave(cfg: Config, env: Env, img: Image, log: seq<Step>): (r: RunResult)
    ensures r.outcome.Saved? <==> env.save(cfg.outputPath, img).None?
    ensures r.outcome.Saved? ==> r.outcome.image == img
    ensures r.outcome.Raised? ==> r.outcome.error == External(env.save(cfg.outputPath, img).value)
    ensures |log| < |r.log| && r.log[..|log|] == log && r.log[|log|] == Saving(cfg.outputPath)
  {
    match env.save(cfg.outputPath, img)
    case Some(e) => RunResult(log + [Saving(cfg.outputPath)], Raised(External(e)))
    case None => RunResult(log + [Saving(cfg.outputPath), Done], Saved(img))
  }

  /** Step 5 and what follows: whatever the LUT step does, the run goes on to
      save, and nothing after step 4 raises anything but an external error. */
  function FromLut(cfg: Config, env: Env, img: Image, log: seq<Step>): (r: RunResult)
    ensures |log| < |r.log| && r.log[..|log|] == log
    ensures Saving(cfg.outputPath) in r.log
    ensures r.outcome.Raised? ==> r.outcome.error.External?
  {
    var lut := LutStage(cfg, env, img);
    var r := FromSave(cfg, env, lut.0, log + lut.1);
    assert r.log[..|log|] == r.log[..|log + lut.1|][..|log|];
    assert r.log[|log + lut.1|] == Saving(cfg.outputPath);
    r
  }

  /** Step 4 and what follows: an unknown log space raises here, after
      exposure, lens correction and the boost have already run; once the
      transform is logged, a failure of the matrix or of the curve ends the
      run. */
  function FromColor(cfg: Config, env: Env, img: Image, log: seq<Step>): RunResult
  {
    var space := LogSpaces.WorkingSpace(cfg.logSpace);
    var curve := LogSpaces.CurveName(cfg.logSpace);
    if space.None? || space.value == "" then RunResult(log, Raised(UnknownLogSpace(cfg.logSpace)))
    else
      var logged := log + [ColorTransform(space.value, curve)];
      match EncodeToLog(env, space.value, curve, img)
      case Err(e) => RunResult(logged, Raised(External(e)))
      case Ok(encoded) => FromLut(cfg, env, encoded, logged)
  }

  /** Step 3.5 and what follows. */
  function FromBoost(cfg: Config, env: Env, img: Image, log: seq<Step>): RunResult
  {
    FromColor(cfg, env, Boost.ApplySaturationAndContrast(img, Boost.DefaultSaturation, Boost.DefaultContrast),
              log + [CameraMatchBoost])
  }

  /** Step 3 and what follows: lens correction only when enabled; an exception
      from it ends the run. */
  function FromLens(cfg: Config, env: Env, img: Image, log: seq<Step>): RunResult
  {
    if !cfg.lensCorrect then FromBoost(cfg, env, img, log)
    else
      match env.lensStep(img, cfg.customDbPath)
      case Err(e) => RunResult(log + [LensCorrection], Raised(External(e)))
      case Ok(corrected) => FromBoost(cfg, env, corrected, log + [LensCorrection])
  }

  /** One invocation of `process_image`. */
  function Run(cfg: Config, env: Env): RunResult
  {
    match env.decode(cfg.rawPath)
    case Err(e) => RunResult([Decoding], Raised(External(e)))
    case Ok(img) => FromLens(cfg, env, Expose(cfg, env, img), [Decoding, ExposureStep(cfg)])
  }

  /** Position of a step in the fixed stage order. */
  function Rank(s: Step): nat
  {
    match s
    case Decoding => 0
    case ManualExposure(_) => 1
    case AutoExposure(_) => 1
    case LensCorrection => 2
    case CameraMatchBoost => 3
    case ColorTransform(_, _) => 4
    case ApplyingLut(_) => 5
    case GenericLut => 6
    case LutError(_) => 7
    case Saving(_) => 8
    case Done => 9
  }

  /** The log visits the stages in strictly increasing stage order. */
  predicate InStageOrder(log: seq<Step>)
  {
    forall i, j :: 0 <= i < j < |log| ==> Rank(log[i]) < Rank(log[j])
  }

  /** Every step of `log` comes before stage `n`. */
  predicate Before(log: seq<Step>, n: nat)
  {
    forall k :: 0 <= k < |log| ==> Rank(log[k]) < n
  }

  lemma AppendInOrder(log: seq<Step>, tail: seq<Step>, n: nat)
    requires InStageOrder(log) && Before(log, n) && InStageOrder(tail)
    requires forall k :: 0 <= k < |tail| ==> Rank(tail[k]) >= n
    ensures InStageOrder(log + tail)
  {
    var all := log + tail;
    forall i, j | 0 <= i < j < |all|
      ensures Rank(all[i]) < Rank(all[j])
    {
      if j < |log| {
        assert all[i] == log[i] && all[j] == log[j];
      } else if i >= |log| {
        assert all[i] == tail[i - |log|] && all[j] == tail[j - |log|];
      } else {
        assert all[i] == log[i] && all[j] == tail[j - |log|];
      }
    }
  }

  /** The LUT step logs only LUT messages, in stage order. */
  lemma LutEventsInOrder(cfg: Config, env: Env, img: Image)
    ensures InStageOrder(LutStage(cfg, env, img).1)
    ensures forall k :: 0 <= k < |LutStage(cfg, env, img).1| ==> 5 <= Rank(LutStage(cfg, env, img).1[k]) <= 7
  {
  }

  lemma FromSaveInOrder(cfg: Config, env: Env, img: Image, log: seq<Step>)
    requires InStageOrder(log) && Before(log, 8)
    ensures InStageOrder(FromSave(cfg, env, img, log).log)
  {
    var tail := if env.save(cfg.outputPath, img).Some? then [Saving(cfg.outputPath)]
                else [Saving(cfg.outputPath), Done];
    assert FromSave(cfg, env, img, log).log == log + tail;
    AppendInOrder(log, tail, 8);
  }

  lemma FromLutInOrder(cfg: Config, env: Env, img: Image, log: seq<Step>)
    requires InStageOrder(log) && Before(log, 5)
    ensures InStageOrder(FromLut(cfg, env, img, log).log)
  {
    var lut := LutStage(cfg, env, img);
    LutEventsInOrder(cfg, env, img);
    AppendInOrder(log, lut.1, 5);
    var withLut := log + lut.1;
    assert Before(withLut, 8);
    FromSaveInOrder(cfg, env, lut.0, withLut);
  }

  lemma FromColorInOrder(cfg: Config, env: Env, img: Image, log: seq<Step>)
    requires InStageOrder(log) && Before(log, 4)
    ensures InStageOrder(FromColor(cfg, env, img, log).log)
  {
    var space := LogSpaces.WorkingSpace(cfg.logSpace);
    var curve := LogSpaces.CurveName(cfg.logSpace);
    if space.Some? && space.value != "" {
      var logged := log + [ColorTransform(space.value, curve)];
      AppendInOrder(log, [ColorTransform(space.value, curve)], 4);
      assert Before(logged, 5);
      match EncodeToLog(env, space.value, curve, img)
      case Err(_) =>
      case Ok(encoded) =>
        FromLutInOrder(cfg, env, encoded, logged);
    }
  }

  /** Every run logs its steps in the fixed stage order: decode, exposure,
      lens, boost, color transform, LUT, save, done. */
  lemma RunFollowsStageOrder(cfg: Config, env: Env)
    ensures InStageOrder(Run(cfg, env).log)
  {
    match env.decode(cfg.rawPath)
    case Err(_) =>
    case Ok(decoded) =>
      var img := Expose(cfg, env, decoded);
      var log := [Decoding, ExposureStep(cfg)];
      if cfg.lensCorrect {
        match env.lensStep(img, cfg.customDbPath)
        case Err(_) =>
        case Ok(corrected) =>
          var boosted := Boost.ApplySaturationAndContrast(corrected, Boost.DefaultSaturation, Boost.DefaultContrast);
          FromColorInOrder(cfg, env, boosted, log + [LensCorrection] + [CameraMatchBoost]);
      } else {
        var boosted := Boost.ApplySaturationAndContrast(img, Boost.DefaultSaturation, Boost.DefaultContrast);
        FromColorInOrder(cfg, env, boosted, log + [CameraMatchBoost]);
      }
  }

  /** In a log in stage order, a step of lower rank comes earlier. */
  lemma RankOrderIsLogOrder(log: seq<Step>, i: int, j: int)
    requires InStageOrder(log) && 0 <= i < |log| && 0 <= j < |log|
    requires Rank(log[i]) < Rank(log[j])
    ensures i < j
  {
  }

  /** In a log in stage order no other step shares the rank of step `i`. */
  lemma OnlyStepOfItsRank(log: seq<Step>, i: int)
    requires InStageOrder(log) && 0 <= i < |log|
    ensures forall k :: 0 <= k < |log| && k != i ==> Rank(log[k]) != Rank(log[i])
  {
  }

  /** In a log in stage order, a rank skipped at position `i` never occurs. */
  lemma SkippedRankIsAbsent(log: seq<Step>, i: int, n: nat)
    requires InStageOrder(log) && 0 <= i < |log| && Rank(log[i]) > n
    requires forall k :: 0 <= k < i ==> Rank(log[k]) < n
    ensures forall k :: 0 <= k < |log| ==> Rank(log[k]) != n
  {
  }

  /** Step 4 and what follows only append to the log. */
  lemma FromColorExtends(cfg: Config, env: Env, img: Image, log: seq<Step>)
    ensures |log| <= |FromColor(cfg, env, img, log).log|
    ensures forall k :: 0 <= k < |log| ==> FromColor(cfg, env, img, log).log[k] == log[k]
  {
    var space := LogSpaces.WorkingSpace(cfg.logSpace);
    if space.Some? {
      var curve := LogSpaces.CurveName(cfg.logSpace);
      var logged := log + [ColorTransform(space.value, curve)];
      assert forall k :: 0 <= k < |log| ==> logged[k] == log[k];
      match EncodeToLog(env, space.value, curve, img)
      case Err(_) =>
      case Ok(encoded) =>
        var r := FromLut(cfg, env, encoded, logged);
        assert forall k :: 0 <= k < |log| ==> r.log[k] == r.log[..|logged|][k];
    }
  }

  /** A decoded run logs decoding, then its exposure, then lens correction
      when it is enabled and the boost when it is not. */
  lemma RunLogStart(cfg: Config, env: Env)
    requires env.decode(cfg.rawPath).Ok?
    ensures var log := Run(cfg, env).log;
            |log| >= 3 && log[0] == Decoding && log[1] == ExposureStep(cfg) &&
            log[2] == (if cfg.lensCorrect then LensCorrection else CameraMatchBoost)
  {
    var img := Expose(cfg, env, env.decode(cfg.rawPath).value);
    var start := [Decoding, ExposureStep(cfg)];
    if cfg.lensCorrect {
      match env.lensStep(img, cfg.customDbPath)
      case Err(_) =>
      case Ok(corrected) =>
        var boosted := Boost.ApplySaturationAndContrast(corrected, Boost.DefaultSaturation, Boost.DefaultContrast);
        FromColorExtends(cfg, env, boosted, start + [LensCorrection] + [CameraMatchBoost]);
    } else {
      var boosted := Boost.ApplySaturationAndContrast(img, Boost.DefaultSaturation, Boost.DefaultContrast);
      FromColorExtends(cfg, env, boosted, start + [CameraMatchBoost]);
    }
  }

  /** A decoded image goes through lens correction exactly when it is enabled. */
  lemma LensRunsIffEnabled(cfg: Config, env: Env)
    requires env.decode(cfg.rawPath).Ok?
    ensures LensCorrection in Run(cfg, env).log <==> cfg.lensCorrect
  {
    RunLogStart(cfg, env);
    if !cfg.lensCorrect {
      RunFollowsStageOrder(cfg, env);
      SkippedRankIsAbsent(Run(cfg, env).log, 2, Rank(LensCorrection));
    }
  }

  /** Decoding succeeded and, when it is enabled, so did lens correction: the
      run reaches step 4. */
  predicate ReachesColor(cfg: Config, env: Env)
  {
    env.decode(cfg.rawPath).Ok? &&
    (cfg.lensCorrect ==> env.lensStep(Expose(cfg, env, env.decode(cfg.rawPath).value), cfg.customDbPath).Ok?)
  }

  /** The image that reaches step 4: exposed, lens-corrected when enabled, boosted. */
  function BoostedImage(cfg: Config, env: Env): Image
    requires ReachesColor(cfg, env)
  {
    var img := Expose(cfg, env, env.decode(cfg.rawPath).value);
    var lensed := if cfg.lensCorrect then env.lensStep(img, cfg.customDbPath).value else img;
    Boost.ApplySaturationAndContrast(lensed, Boost.DefaultSaturation, Boost.DefaultContrast)
  }

  /** The log of a run that reaches step 4, up to the boost. */
  function BoostLog(cfg: Config): seq<Step>
  {
    [Decoding, ExposureStep(cfg)] + (if cfg.lensCorrect then [LensCorrection] else []) + [CameraMatchBoost]
  }

  /** A run that reaches step 4 is step 4 and what follows on the boosted image. */
  lemma RunReachesColor(cfg: Config, env: Env)
    requires ReachesColor(cfg, env)
    ensures Run(cfg, env) == FromColor(cfg, env, BoostedImage(cfg, env), BoostLog(cfg))
  {
    if cfg.lensCorrect {
      assert [Decoding, ExposureStep(cfg)] + [LensCorrection] + [CameraMatchBoost] == BoostLog(cfg);
    } else {
      assert [Decoding, ExposureStep(cfg)] + [CameraMatchBoost] == BoostLog(cfg);
    }
  }

  /** Unless decoding or lens correction raised, the boost always runs, and it
      runs before the gamut transform. */
  lemma BoostRunsBeforeColorTransform(cfg: Config, env: Env)
    requires ReachesColor(cfg, env)
    ensures CameraMatchBoost in Run(cfg, env).log
    ensures forall i, j ::
              (0 <= i < |Run(cfg, env).log| && 0 <= j < |Run(cfg, env).log| &&
               Run(cfg, env).log[i] == CameraMatchBoost && Run(cfg, env).log[j].ColorTransform?) ==> i < j
  {
    RunReachesColor(cfg, env);
    FromColorExtends(cfg, env, BoostedImage(cfg, env), BoostLog(cfg));
    assert Run(cfg, env).log[|BoostLog(cfg)| - 1] == CameraMatchBoost;
    RunFollowsStageOrder(cfg, env);
    var log := Run(cfg, env).log;
    forall i, j | 0 <= i < |log| && 0 <= j < |log| && log[i] == CameraMatchBoost && log[j].ColorTransform?
      ensures i < j
    {
      RankOrderIsLogOrder(log, i, j);
    }
  }

  /** A log space outside the table raises, and only at step 4: exposure, lens
      correction and the boost have run, nothing after them has. */
  lemma UnknownLogSpaceRaisesAfterBoost(cfg: Config, env: Env)
    requires ReachesColor(cfg, env)
    requires cfg.logSpace !in LogSpaces.LogToWorkingSpace
    ensures Run(cfg, env).outcome == Raised(UnknownLogSpace(cfg.logSpace))
    ensures Run(cfg, env).log ==
              [Decoding, ExposureStep(cfg)] + (if cfg.lensCorrect then [LensCorrection] else []) + [CameraMatchBoost]
  {
    RunReachesColor(cfg, env);
  }

  /** Step 4 on a known log space logs the gamut and the curve first, and
      whatever raises later is an external error. */
  lemma FromColorTransforms(cfg: Config, env: Env, img: Image, log: seq<Step>)
    requires cfg.logSpace in LogSpaces.LogToWorkingSpace
    ensures var r := FromColor(cfg, env, img, log);
            |r.log| > |log| &&
            r.log[|log|] == ColorTransform(LogSpaces.LogToWorkingSpace[cfg.logSpace], LogSpaces.CurveName(cfg.logSpace)) &&
            (r.outcome.Raised? ==> r.outcome.error.External?)
  {
    var space := LogSpaces.LogToWorkingSpace[cfg.logSpace];
    var curve := LogSpaces.CurveName(cfg.logSpace);
    var logged := log + [ColorTransform(space, curve)];
    match EncodeToLog(env, space, curve, img)
    case Err(_) =>
    case Ok(encoded) =>
      var r := FromLut(cfg, env, encoded, logged);
      assert r.log[|log|] == r.log[..|logged|][|log|];
  }

  /** A known log space is transformed into its gamut and encoded with its
      (possibly aliased) curve; an aliased name is always known. */
  lemma KnownLogSpaceIsTransformed(cfg: Config, env: Env)
    requires ReachesColor(cfg, env)
    requires cfg.logSpace in LogSpaces.LogToWorkingSpace || cfg.logSpace in LogSpaces.LogEncodingMap
    ensures !Run(cfg, env).outcome.Raised? || Run(cfg, env).outcome.error.External?
    ensures ColorTransform(LogSpaces.LogToWorkingSpace[cfg.logSpace], LogSpaces.CurveName(cfg.logSpace))
              in Run(cfg, env).log
  {
    LogSpaces.AliasesAreKnown();
    RunReachesColor(cfg, env);
    FromColorTransforms(cfg, env, BoostedImage(cfg, env), BoostLog(cfg));
  }

  /** Step 4 on a known log space whose matrix and curve exist, with a LUT
      that cannot be read, logs the error and still saves. */
  lemma FromColorSurvivesLutReadFailure(cfg: Config, env: Env, img: Image, log: seq<Step>)
    requires cfg.logSpace in LogSpaces.LogToWorkingSpace
    requires env.gamutMatrix(LogSpaces.LogToWorkingSpace[cfg.logSpace]).Ok?
    requires env.curve(LogSpaces.CurveName(cfg.logSpace)).Ok?
    requires LutRequested(cfg) && env.readLut(cfg.lutPath.value).Err?
    ensures LutError(env.readLut(cfg.lutPath.value).error) in FromColor(cfg, env, img, log).log
    ensures Saving(cfg.outputPath) in FromColor(cfg, env, img, log).log
  {
    var space := LogSpaces.LogToWorkingSpace[cfg.logSpace];
    var curve := LogSpaces.CurveName(cfg.logSpace);
    var encoded := EncodeToLog(env, space, curve, img).value;
    var lut := LutStage(cfg, env, encoded);
    var withLut := log + [ColorTransform(space, curve)] + lut.1;
    var r := FromSave(cfg, env, lut.0, withLut);
    assert FromColor(cfg, env, img, log) == r;
    assert r.log[|withLut| - 1] == r.log[..|withLut|][|withLut| - 1];
  }

  /** The run reaches the LUT step: it reaches step 4, its log space is
      known, and the gamut matrix and the curve of that space exist. */
  predicate ReachesLut(cfg: Config, env: Env)
  {
    ReachesColor(cfg, env) && cfg.logSpace in LogSpaces.LogToWorkingSpace &&
    env.gamutMatrix(LogSpaces.LogToWorkingSpace[cfg.logSpace]).Ok? &&
    env.curve(LogSpaces.CurveName(cfg.logSpace)).Ok?
  }

  /** A LUT that cannot be read is logged and the pipeline still goes on to
      save the encoded image unchanged by the LUT step. */
  lemma LutReadFailureContinues(cfg: Config, env: Env)
    requires ReachesLut(cfg, env)
    requires LutRequested(cfg) && env.readLut(cfg.lutPath.value).Err?
    ensures LutError(env.readLut(cfg.lutPath.value).error) in Run(cfg, env).log
    ensures Saving(cfg.outputPath) in Run(cfg, env).log
  {
    RunReachesColor(cfg, env);
    FromColorSurvivesLutReadFailure(cfg, env, BoostedImage(cfg, env), BoostLog(cfg));
  }

  /** From step 4 on, a LUT failure of any kind is followed by saving. */
  lemma FromColorLutFailureNotFatal(cfg: Config, env: Env, img: Image, log: seq<Step>)
    requires forall k :: 0 <= k < |log| ==> !log[k].LutError?
    ensures var r := FromColor(cfg, env, img, log);
            (exists k :: 0 <= k < |r.log| && r.log[k].LutError?) ==> Saving(cfg.outputPath) in r.log
  {
    var space := LogSpaces.WorkingSpace(cfg.logSpace);
    if space.Some? {
      var curve := LogSpaces.CurveName(cfg.logSpace);
      var logged := log + [ColorTransform(space.value, curve)];
      assert forall k :: 0 <= k < |logged| ==> !logged[k].LutError?;
    }
  }

  /** Reading or applying a LUT never ends a run: whenever a LUT error is
      logged, the run goes on to save. */
  lemma LutFailureIsNotFatal(cfg: Config, env: Env)
    ensures (exists k :: 0 <= k < |Run(cfg, env).log| && Run(cfg, env).log[k].LutError?) ==>
              Saving(cfg.outputPath) in Run(cfg, env).log
  {
    if ReachesColor(cfg, env) {
      RunReachesColor(cfg, env);
      FromColorLutFailureNotFatal(cfg, env, BoostedImage(cfg, env), BoostLog(cfg));
    } else if env.decode(cfg.rawPath).Ok? {
      assert Run(cfg, env).log == [Decoding, ExposureStep(cfg), LensCorrection];
    }
  }

  /** Step 4 with a LUT: an image it saves without a LUT error is clamped to [0, 1]. */
  lemma FromColorClampsLut(cfg: Config, env: Env, img: Image, log: seq<Step>)
    requires LutRequested(cfg)
    requires FromColor(cfg, env, img, log).outcome.Saved?
    requires forall k :: 0 <= k < |FromColor(cfg, env, img, log).log| ==> !FromColor(cfg, env, img, log).log[k].LutError?
    ensures SamplesWithin(FromColor(cfg, env, img, log).outcome.image, 0.0, 1.0)
  {
    var space := LogSpaces.WorkingSpace(cfg.logSpace).value;
    var curve := LogSpaces.CurveName(cfg.logSpace);
    var encoded := EncodeToLog(env, space, curve, img).value;
    var lut := LutStage(cfg, env, encoded);
    var withLut := log + [ColorTransform(space, curve)] + lut.1;
    var r := FromSave(cfg, env, lut.0, withLut);
    assert FromColor(cfg, env, img, log) == r;
    assert r.log[|withLut| - 1] == r.log[..|withLut|][|withLut| - 1];
  }

  /** A saved image that went through a LUT without error has every sample in [0, 1]. */
  lemma SavedAfterLutIsClamped(cfg: Config, env: Env)
    requires Run(cfg, env).outcome.Saved?
    requires LutRequested(cfg)
    requires forall k :: 0 <= k < |Run(cfg, env).log| ==> !Run(cfg, env).log[k].LutError?
    ensures SamplesWithin(Run(cfg, env).outcome.image, 0.0, 1.0)
  {
    assert ReachesColor(cfg, env);
    RunReachesColor(cfg, env);
    FromColorClampsLut(cfg, env, BoostedImage(cfg, env), BoostLog(cfg));
  }

  /** A mid-grey image metered in average mode, whose geometric mean is at
      least 0.18 (exactly exp(log(0.18 + 1e-6)) in the source), gets gain 1
      and comes out of exposure and boost unchanged. */
  lemma MidGreyPassesExposureAndBoost(cfg: Config, env: Env, img: Image)
    requires forall i :: 0 <= i < |img| ==> img[i] == Pixel(0.18, 0.18, 0.18)
    requires cfg.exposure.None? && cfg.meteringMode == "average"
    requires env.geometricMean(img) >= 0.18
    ensures Boost.ApplySaturationAndContrast(Expose(cfg, env, img), Boost.DefaultSaturation, Boost.DefaultContrast) == img
  {
    var mean: real := env.geometricMean(img);
    assert TargetGray / mean <= 1.0;
    assert Metering.AverageGain(mean, TargetGray) == 1.0;
    ScaleByOne(img);
    var boosted := Boost.ApplySaturationAndContrast(img, Boost.DefaultSaturation, Boost.DefaultContrast);
    forall i | 0 <= i < |img|
      ensures boosted[i] == img[i]
    {
      Boost.PivotGreyFixed(Boost.DefaultSaturation, Boost.DefaultContrast);
    }
  }

  /** Step 5 on the encoded image: read the LUT, apply it with the 3-D kernel
      or the generic path, clamp the result in place; a failure is logged and
      the image is kept. */
  method ApplyLutStep(cfg: Config, env: Env, img: Image) returns (out: Image, events: seq<Step>)
    ensures (out, events) == LutStage(cfg, env, img)
  {
    out, events := img, [];
    if !LutRequested(cfg) {
      return;
    }
    var path := cfg.lutPath.value;
    events := [ApplyingLut(path)];
    var read := env.readLut(path);
    if read.Err? {
      events := [ApplyingLut(path), LutError(read.error)];
      return;
    }
    var lut := read.value;
    var applied: Result<Image>;
    if lut.Lut3D? {
      applied := env.lutKernel(img, lut.table, lut.domainLow, lut.domainHigh);
    } else {
      events := [ApplyingLut(path), GenericLut];
      applied := env.lutApply(lut, img);
    }
    if applied.Err? {
      events := events + [LutError(applied.error)];
      return;
    }
    var buf := NewBuffer(applied.value);
    MapInPlace(buf, ClipTo(0.0, 1.0));
    out := buf[..];
  }

  /** Steps 5 and 6: the LUT step on the encoded image, then the writer; an
      exception from the writer ends the run. */
  method LutAndSaveStep(cfg: Config, env: Env, img: Image, log: seq<Step>) returns (r: RunResult)
    ensures r == FromLut(cfg, env, img, log)
  {
    var out, events := ApplyLutStep(cfg, env, img);
    var saveError := env.save(cfg.outputPath, out);
    if saveError.Some? {
      return RunResult(log + events + [Saving(cfg.outputPath)], Raised(External(saveError.value)));
    }
    r := RunResult(log + events + [Saving(cfg.outputPath), Done], Saved(out));
  }

  /** Step 4 and what follows: look the log space up, build the gamut matrix,
      transform and floor the image in place, look the curve up and encode,
      then the LUT and save steps. */
  method ColorStep(cfg: Config, env: Env, img: Image, log: seq<Step>) returns (r: RunResult)
    ensures r == FromColor(cfg, env, img, log)
  {
    var space := LogSpaces.WorkingSpace(cfg.logSpace);
    var curve := LogSpaces.CurveName(cfg.logSpace);
    if space.None? || space.value == "" {
      return RunResult(log, Raised(UnknownLogSpace(cfg.logSpace)));
    }
    var logged := log + [ColorTransform(space.value, curve)];
    var matrix := env.gamutMatrix(space.value);
    if matrix.Err? {
      return RunResult(logged, Raised(External(matrix.error)));
    }
    var buf := NewBuffer(img);
    MapInPlace(buf, Times(matrix.value));
    MapInPlace(buf, FloorAt(GamutFloor));
    assert buf[..] == GamutMap(img, matrix.value);
    var encoding := env.curve(curve);
    if encoding.Err? {
      return RunResult(logged, Raised(External(encoding.error)));
    }
    var encoded := EncodeCurve(encoding.value, buf[..]);
    r := LutAndSaveStep(cfg, env, encoded, logged);
  }

  /** Step 2: a manual gain applied in place on the decoded buffer, or the
      selected metering policy. */
  method ExposeStep(cfg: Config, env: Env, decoded: Image) returns (img: Image)
    ensures img == Expose(cfg, env, decoded)
  {
    match cfg.exposure {
      case Some(stops) =>
        var buf := NewBuffer(decoded);
        MapInPlace(buf, ScaleBy(env.exp2(stops)));
        img := buf[..];
      case None =>
        img := Meter(SelectMetering(cfg.meteringMode), env, decoded);
    }
  }

  /** Step 3 and what follows: lens correction when enabled, the boost, and
      the remaining steps. */
  method LensStep(cfg: Config, env: Env, img: Image, log: seq<Step>) returns (r: RunResult)
    ensures r == FromLens(cfg, env, img, log)
  {
    var current, logged := img, log;
    if cfg.lensCorrect {
      logged := logged + [LensCorrection];
      var corrected := env.lensStep(img, cfg.customDbPath);
      if corrected.Err? {
        return RunResult(logged, Raised(External(corrected.error)));
      }
      current := corrected.value;
    }
    var boosted := Boost.ApplySaturationAndContrast(current, Boost.DefaultSaturation, Boost.DefaultContrast);
    r := ColorStep(cfg, env, boosted, logged + [CameraMatchBoost]);
  }

  /** `process_image`: decode, then the stages in their fixed order. */
  method ProcessImage(cfg: Config, env: Env) returns (r: RunResult)
    ensures r == Run(cfg, env)
  {
    var decoded := env.decode(cfg.rawPath);
    if decoded.Err? {
      return RunResult([Decoding], Raised(External(decoded.error)));
    }
    var img := ExposeStep(cfg, env, decoded.value);
    r := LensStep(cfg, env, img, [Decoding, ExposureStep(cfg)]);
  }
}
