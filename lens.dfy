/** The gating of lens correction: which camera and lens facts reach the
    correction engine, and when the image is passed through unchanged. The
    engine itself (geometry, vignetting and chromatic-aberration maths) and the
    EXIF reader are collaborators: the engine is a function parameter, the
    EXIF facts a record parameter. */
module LensCorrection {
  import opened Wrappers
  import opened Images

  /** The facts the EXIF reader found in the RAW file; every one may be absent. */
  datatype ExifFacts = ExifFacts(
    cameraMaker: Option<string>,
    cameraModel: Option<string>,
    lensMaker: Option<string>,
    lensModel: Option<string>,
    focalLength: Option<real>,
    aperture: Option<real>)

  /** The optional arguments of `apply_lens_correction`. */
  datatype LensArgs = LensArgs(
    cameraMaker: Option<string>,
    cameraModel: Option<string>,
    lensMaker: Option<string>,
    lensModel: Option<string>,
    focalLength: Option<real>,
    aperture: Option<real>,
    cropFactor: Option<real>,
    correctDistortion: bool,
    correctTca: bool,
    correctVignetting: bool,
    customDbPath: Option<string>)

  /** What the correction engine is asked to do, once the gating has passed. */
  datatype EngineRequest = EngineRequest(
    cameraMaker: Option<string>,
    cameraModel: string,
    lensMaker: Option<string>,
    lensModel: string,
    focalLength: real,
    aperture: real,
    cropFactor: Option<real>,
    correctDistortion: bool,
    correctTca: bool,
    correctVignetting: bool,
    customDbPath: Option<string>)

  /** Which way the gating went. */
  datatype LensStatus =
    | MissingCameraOrLens
    | MissingFocalLengthOrAperture
    | EngineFailed(message: string)
    | Corrected

  datatype LensResult = LensResult(image: Image, status: LensStatus)

  /** Python truthiness of an optional string: present and non-empty. */
  predicate TruthyText(s: Option<string>) { s.Some? && s.value != "" }

  /** Python truthiness of an optional float: present and non-zero. */
  predicate TruthyNumber(x: Option<real>) { x.Some? && x.value != 0.0 }

  /** `explicit or fallback` on optional strings. */
  function OrText(explicit: Option<string>, fallback: Option<string>): Option<string>
  {
    if TruthyText(explicit) then explicit else fallback
  }

  /** `explicit or fallback` on optional floats. */
  function OrNumber(explicit: Option<real>, fallback: Option<real>): Option<real>
  {
    if TruthyNumber(explicit) then explicit else fallback
  }

  /** The arguments after the EXIF facts have filled the gaps: an explicit
      argument is kept only when it is truthy, otherwise the EXIF value is used
      (so an explicit empty string or 0.0 gives way to EXIF). */
  function Resolve(args: LensArgs, exif: ExifFacts): (r: LensArgs)
    ensures TruthyText(args.cameraModel) ==> r.cameraModel == args.cameraModel
    ensures !TruthyText(args.cameraModel) ==> r.cameraModel == exif.cameraModel
    ensures TruthyText(args.lensModel) ==> r.lensModel == args.lensModel
    ensures !TruthyText(args.lensModel) ==> r.lensModel == exif.lensModel
    ensures TruthyNumber(args.focalLength) ==> r.focalLength == args.focalLength
    ensures !TruthyNumber(args.focalLength) ==> r.focalLength == exif.focalLength
    ensures TruthyNumber(args.aperture) ==> r.aperture == args.aperture
    ensures !TruthyNumber(args.aperture) ==> r.aperture == exif.aperture
    ensures r.cropFactor == args.cropFactor && r.customDbPath == args.customDbPath
    ensures r.correctDistortion == args.correctDistortion && r.correctTca == args.correctTca
    ensures r.correctVignetting == args.correctVignetting
    ensures TruthyText(args.cameraMaker) ==> r.cameraMaker == args.cameraMaker
    ensures !TruthyText(args.cameraMaker) ==> r.cameraMaker == exif.cameraMaker
    ensures TruthyText(args.lensMaker) ==> r.lensMaker == args.lensMaker
    ensures !TruthyText(args.lensMaker) ==> r.lensMaker == exif.lensMaker
  {
    args.(cameraMaker := OrText(args.cameraMaker, exif.cameraMaker),
          cameraModel := OrText(args.cameraModel, exif.cameraModel),
          lensMaker := OrText(args.lensMaker, exif.lensMaker),
          lensModel := OrText(args.lensModel, exif.lensModel),
          focalLength := OrNumber(args.focalLength, exif.focalLength),
          aperture := OrNumber(args.aperture, exif.aperture))
  }

  /** `apply_lens_correction`: the image comes back unchanged when the camera
      or lens model is missing or empty, when the focal length or aperture is
      missing, or when the engine raises; otherwise it is the engine's output
      for the resolved facts. */
  function ApplyLensCorrection(
    image: Image,
    args: LensArgs,
    exif: ExifFacts,
    engine: (Image, EngineRequest) -> Result<Image>): (r: LensResult)
    ensures r.status != Corrected ==> r.image == image
    ensures r.status == MissingCameraOrLens <==>
              !TruthyText(Resolve(args, exif).cameraModel) || !TruthyText(Resolve(args, exif).lensModel)
    ensures r.status == MissingFocalLengthOrAperture <==>
              TruthyText(Resolve(args, exif).cameraModel) && TruthyText(Resolve(args, exif).lensModel) &&
              (Resolve(args, exif).focalLength.None? || Resolve(args, exif).aperture.None?)
    ensures r.status.EngineFailed? || r.status == Corrected ==>
              var a := Resolve(args, exif);
              a.cameraModel.Some? && a.lensModel.Some? && a.focalLength.Some? && a.aperture.Some? &&
              var request := EngineRequest(a.cameraMaker, a.cameraModel.value, a.lensMaker, a.lensModel.value,
                                           a.focalLength.value, a.aperture.value, a.cropFactor,
                                           a.correctDistortion, a.correctTca, a.correctVignetting,
                                           a.customDbPath);
              (r.status == Corrected <==> engine(image, request).Ok?) &&
              (r.status == Corrected ==> r.image == engine(image, request).value)
  {
    var a := Resolve(args, exif);
    if !TruthyText(a.cameraModel) || !TruthyText(a.lensModel) then
      LensResult(image, MissingCameraOrLens)
    else if a.focalLength.None? || a.aperture.None? then
      LensResult(image, MissingFocalLengthOrAperture)
    else
      var request := EngineRequest(a.cameraMaker, a.cameraModel.value, a.lensMaker, a.lensModel.value,
                                   a.focalLength.value, a.aperture.value, a.cropFactor,
                                   a.correctDistortion, a.correctTca, a.correctVignetting,
                                   a.customDbPath);
      match engine(image, request)
      case Err(e) => LensResult(image, EngineFailed(e))
      case Ok(corrected) => LensResult(corrected, Corrected)
  }

  /** A focal length of 0.0 read from EXIF is not None, so it does not skip the
      correction, whereas an explicit 0.0 falls back to EXIF. */
  lemma ZeroFocalLengthFromExifPasses(image: Image, args: LensArgs, exif: ExifFacts,
                                      engine: (Image, EngineRequest) -> Result<Image>)
    requires TruthyText(args.cameraModel) && TruthyText(args.lensModel)
    requires args.focalLength == Some(0.0) && args.aperture.Some? && args.aperture.value != 0.0
    requires exif.focalLength == Some(0.0)
    ensures ApplyLensCorrection(image, args, exif, engine).status !in {MissingCameraOrLens, MissingFocalLengthOrAperture}
  {
  }

  /** Without a camera model from either source the image passes through,
      whatever the engine would have done. */
  lemma NoCameraModelPassesThrough(image: Image, args: LensArgs, exif: ExifFacts,
                                   engine: (Image, EngineRequest) -> Result<Image>)
    requires !TruthyText(args.cameraModel) && !TruthyText(exif.cameraModel)
    ensures ApplyLensCorrection(image, args, exif, engine) == LensResult(image, MissingCameraOrLens)
  {
  }
}
