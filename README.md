# Raw Alchemy: the exposure, color and batch core in Dafny

Raw Alchemy turns camera RAW files into log-encoded images. This model covers three files:

- `utils.py`:
  - the four automatic-exposure policies (average, center-weighted, highlight-safe and hybrid);
  - the camera-match saturation and contrast boost;
  - the gating of lens correction.
- `core.py`:
  - the static tables (log space to working gamut, curve aliases, metering modes);
  - `process_image`, which runs these steps in a fixed order: decode, exposure (manual or metered), optional lens correction, the boost, the gamut transform with its 1e-6 floor, curve encoding, the optional LUT with its [0, 1] clamp, and save.
- `orchestrator.py`:
  - `process_path`: the single-file branch, and the batch branch with its checks, case-insensitive discovery, output naming and failure-tolerant loop over the files.

The model is organised as follows:

- **Images.** An image is a sequence of `Pixel(r, g, b)` samples over `real`. Element-wise operations are `MapImage` with a pixel function.
- **In-place steps.** Steps the source performs in place are methods over an `array<Pixel>` buffer: the manual gain, the gamut matrix, the floor and the LUT clamp.
- **Collaborators as parameters.** Every foreign call is a field of `Pipeline.Env`, and an exception is a `Result.Err`. This covers RAW decoding, the image statistics behind metering, `2 ** stops`, the core's lens call, the gamut matrix, the encoding curve, LUT reading and application, and the raster writer.
- **Spec and method pairs.** `Pipeline.Run` specifies one `process_image` call, and `Pipeline.ProcessImage` performs it step by step. Likewise `Orchestrator.ProcessPathSpec` specifies `process_path`, and `Orchestrator.ProcessPath` performs it.
- **File system.** The input directory's listing is a sequence of names, and `os.path.isdir` is a predicate parameter.
- **Strings and paths.** `Paths` gives `lower`, `endswith`, `rfind`, `basename`, `splitext` and `join` with Python's POSIX rules.

Some behaviours of the code are easy to misread. The model follows the code as written:

- **Unknown log space.** `process_image` looks the log-space name up only at step 4 (`core.py:140-144`). By then exposure, lens correction and the boost have already run, so an unknown name is not refused before any pixel work. `Pipeline.UnknownLogSpaceRaisesAfterBoost` states this.
- **Neutral boost.** `apply_saturation_and_contrast` always ends with a floor at 0 (`utils.py:296`). With both factors 1 it is therefore the identity only on non-negative images. See `Boost.NeutralFactorsOnlyFloor` and `Boost.NeutralFactorsIdentity`.
- **Hybrid base gain.** The hybrid policy computes its base gain as the target over the mean plus 1e-6 (`utils.py:208`). It has neither the black-image guard nor the [1, 50] clamp of the average policy. See `Metering.HybridBaseGain`.
- **Boost defaults.** The docstring of `apply_saturation_and_contrast` names defaults 1.15 and 1.05, but the code's defaults are 1.25 and 1.10 (`utils.py:276-296`). The model uses the code's values.
- **Batch reporting order.** The pool reports failures as the futures complete (`orchestrator.py:69-79`). The model runs the units as a sequential loop, so it reports failures in discovery order (see Left out).

## Model

| member | source | states |
|---|---|---|
| Images.MapImage | src/raw_alchemy/utils.py:273 | an element-wise operation keeps the pixel count and maps pixel i to f(pixel i) |
| Images.ScaleByOne | src/raw_alchemy/core.py:98-106 | multiplying by a gain of 1.0 leaves every image unchanged |
| Images.FloorBounds | src/raw_alchemy/core.py:157 | after `np.maximum(img, lo)` every sample is at least lo; an image already above lo is unchanged |
| Images.ClipBounds | src/raw_alchemy/core.py:187 | after `np.clip(img, lo, hi)` every sample lies in [lo, hi]; an image already inside is unchanged |
| Images.NewBuffer | src/raw_alchemy/core.py:153-154 | a fresh contiguous buffer holds exactly the image |
| Images.MapInPlace | src/raw_alchemy/core.py:155-157 | an in-place element-wise update leaves the buffer equal to the element-wise map of its old contents |
| Metering.ClipGain | src/raw_alchemy/utils.py:269 | `np.clip` of a gain lies in [lo, hi], keeps a gain already inside, and saturates a gain below lo to lo and above hi to hi |
| Metering.AverageGain | src/raw_alchemy/utils.py:261-269 | the average gain lies in [1, 50]; a mean below 1e-4 gives gain 1; inside the clamp the gain brings the geometric mean exactly to the target; above the black limit a ratio below 1 gives 1 and a ratio above 50 gives 50 |
| Metering.AverageGainAntitone | src/raw_alchemy/utils.py:261-269 | above the black limit, a brighter image never gets a larger average gain |
| Metering.AutoExposeLinear | src/raw_alchemy/utils.py:236-273 | the result is the image times one gain in [1, 50]; a black image is returned unchanged |
| Metering.CenterWeightedGain | src/raw_alchemy/utils.py:167-173 | the center-weighted gain lies in [0.1, 100]; a weighted mean below 1e-6 gives gain 1; inside the clamp the weighted mean reaches the target exactly; above the black limit a ratio below 0.1 gives 0.1 and a ratio above 100 gives 100 |
| Metering.AutoExposeCenterWeighted | src/raw_alchemy/utils.py:143-176 | the result is the image times one gain in [0.1, 100]; a black image is returned unchanged |
| Metering.HighlightSafeGain | src/raw_alchemy/utils.py:189-194 | the highlight-safe gain is positive and at most 900000; a percentile below 1e-6 gives gain 1; otherwise the gain puts the 99.5th percentile exactly at 0.9 |
| Metering.AutoExposeHighlightSafe | src/raw_alchemy/utils.py:178-197 | the result is the image times one positive gain; a black image is returned unchanged |
| Metering.HybridBaseGain | src/raw_alchemy/utils.py:204-208 | the base gain times (geometric mean + 1e-6) is the target grey |
| Metering.HybridLimitedGain | src/raw_alchemy/utils.py:216-228 | the base gain is overridden exactly when the predicted peak exceeds 6; the override puts the 99th percentile exactly at 6 and never divides by zero; the predicted peak never exceeds 6 |
| Metering.HybridGain | src/raw_alchemy/utils.py:208-231 | the final hybrid gain is the limited gain when that lies in [0.1, 100], and 0.1 or 100 when it falls below or above |
| Metering.HybridOverrideHasPositivePercentile | src/raw_alchemy/utils.py:222-224 | with a positive target the override is taken only for a positive 99th percentile |
| Metering.HybridProtectsHighlights | src/raw_alchemy/utils.py:216-231 | after the final clamp the 99th percentile still ends at most at 6 (for a percentile up to 60) |
| Metering.AutoExposeHybrid | src/raw_alchemy/utils.py:199-234 | the result is the image times one gain in [0.1, 100] |
| Boost.ApplySaturationAndContrast | src/raw_alchemy/utils.py:276-296 | the boost keeps the pixel count and no sample of its result is negative |
| Boost.NeutralFactorsOnlyFloor | src/raw_alchemy/utils.py:283-296 | with saturation 1 and contrast 1 the boost is exactly the floor at 0 |
| Boost.NeutralFactorsIdentity | src/raw_alchemy/utils.py:283-296 | with saturation 1 and contrast 1 the boost is the identity on a non-negative image |
| Boost.PivotGreyFixed | src/raw_alchemy/utils.py:283-293 | the 0.18 grey pixel is a fixed point for every saturation and contrast (the BT.709 weights sum to 1) |
| Boost.GreyStaysGrey | src/raw_alchemy/utils.py:283-288 | a grey pixel stays grey: saturation never tints it |
| Boost.ZeroSaturationIsMonochrome | src/raw_alchemy/utils.py:283-288 | saturation 0 makes all three channels equal |
| LensCorrection.Resolve | src/raw_alchemy/utils.py:47-52 | each lens fact (camera maker and model, lens maker and model, focal length, aperture) is the explicit argument when it is truthy, otherwise the EXIF value; the other arguments pass through |
| LensCorrection.ApplyLensCorrection | src/raw_alchemy/utils.py:47-85 | the image is unchanged unless corrected; it is skipped for a missing camera or lens model (iff); it is skipped for a missing focal length or aperture (iff); otherwise the engine gets the resolved facts, and an engine exception returns the input |
| LensCorrection.ZeroFocalLengthFromExifPasses | src/raw_alchemy/utils.py:51-59 | a focal length of 0.0 read from EXIF is not None, so the gating lets it through |
| LensCorrection.NoCameraModelPassesThrough | src/raw_alchemy/utils.py:48-57 | with no camera model from either source the image passes through unchanged |
| LogSpaces.WorkingSpace | src/raw_alchemy/core.py:11-24 | the lookup succeeds exactly for the twelve listed log spaces, and every gamut it returns is non-empty |
| LogSpaces.CurveName | src/raw_alchemy/core.py:28-32 | S-Log3.Cine encodes with S-Log3, F-Log2C with F-Log2, and every other name with itself |
| LogSpaces.AliasesAreKnown | src/raw_alchemy/core.py:11-32 | every aliased name and every alias target is a known log space |
| Pipeline.SelectMetering | src/raw_alchemy/core.py:113-121 | each of "center-weighted", "highlight-safe" and "average" selects its own policy; every other string selects hybrid (each an iff) |
| Pipeline.MeteringModesSelectThemselves | src/raw_alchemy/core.py:41-46 | each offered metering mode selects the policy of the same name |
| Pipeline.ManualExposureOverridesMetering | src/raw_alchemy/core.py:100-121 | a manual exposure scales by 2^stops whatever the metering mode, and no run with one logs an automatic exposure |
| Pipeline.ZeroStopsIsPassThrough | src/raw_alchemy/core.py:100-106 | zero stops leaves the decoded image unchanged |
| Pipeline.EncodeToLog | src/raw_alchemy/core.py:148-160 | the encoding succeeds iff the gamut matrix and the curve both exist; a missing matrix raises its own error before the curve is looked up; a successful encoding keeps the pixel count |
| Pipeline.GamutMap | src/raw_alchemy/core.py:148-157 | the gamut step keeps the pixel count and no sample reaching the curve encoding is below 1e-6 |
| Pipeline.LutStage | src/raw_alchemy/core.py:162-192 | without a LUT path nothing happens; otherwise the step logs the LUT first; a read failure, or a failure of the kernel or `LUT.apply`, keeps the image and ends the step's log with that error; an applied LUT is the clamp of its result to [0, 1] and logs no error; the generic-path notice is logged iff the LUT was read and is not a 3-D table |
| Pipeline.LutEventsInOrder | src/raw_alchemy/core.py:162-192 | the LUT step logs only LUT messages, in order |
| Pipeline.FromSave | src/raw_alchemy/core.py:194-206 | the run is saved iff the writer succeeds, with exactly the image given; a writer exception is raised as an external error; either way the earlier log is kept and the save message follows it |
| Pipeline.FromLut | src/raw_alchemy/core.py:162-206 | the LUT and save steps keep the earlier log, always log the save, and raise only external errors |
| Pipeline.FromSaveInOrder | src/raw_alchemy/core.py:194-206 | saving appends its messages after every earlier step |
| Pipeline.FromLutInOrder | src/raw_alchemy/core.py:162-206 | the LUT and save steps append their messages in stage order after the earlier steps |
| Pipeline.FromColorInOrder | src/raw_alchemy/core.py:139-206 | step 4 onwards appends its messages in stage order after the earlier steps |
| Pipeline.RunFollowsStageOrder | src/raw_alchemy/core.py:48-206 | every run logs its steps in the fixed order decode, exposure, lens, boost, color transform, LUT, save, done |
| Pipeline.FromColorExtends | src/raw_alchemy/core.py:139-206 | step 4 onwards only appends to the log |
| Pipeline.RunLogStart | src/raw_alchemy/core.py:72-137 | a decoded run logs decoding, then its exposure, then lens correction when enabled or the boost otherwise |
| Pipeline.LensRunsIffEnabled | src/raw_alchemy/core.py:124-131 | on a decoded image, lens correction runs exactly when it is enabled |
| Pipeline.RunReachesColor | src/raw_alchemy/core.py:72-146 | a run that decodes, and whose lens step (when enabled) does not raise, continues at step 4 with the boosted image |
| Pipeline.BoostRunsBeforeColorTransform | src/raw_alchemy/core.py:134-155 | unless decoding or the lens step raised, the boost runs, and it runs before the gamut transform |
| Pipeline.UnknownLogSpaceRaisesAfterBoost | src/raw_alchemy/core.py:139-144 | an unknown log space raises at step 4: exposure, lens correction and the boost have run, nothing after them |
| Pipeline.FromColorTransforms | src/raw_alchemy/core.py:139-160 | for a known log space step 4 logs its gamut and curve first, and anything raised later is external |
| Pipeline.KnownLogSpaceIsTransformed | src/raw_alchemy/core.py:139-160 | a known or aliased log space is transformed into its gamut with its aliased curve and never raises the unknown-log-space error |
| Pipeline.FromColorSurvivesLutReadFailure | src/raw_alchemy/core.py:148-195 | from step 4 with an existing matrix and curve, a LUT that cannot be read is logged and saving still follows |
| Pipeline.LutReadFailureContinues | src/raw_alchemy/core.py:163-195 | in a run that reaches the LUT step, a LUT read failure is logged and the run still goes on to save |
| Pipeline.FromColorLutFailureNotFatal | src/raw_alchemy/core.py:162-195 | from step 4, whenever a LUT error is logged, saving follows |
| Pipeline.LutFailureIsNotFatal | src/raw_alchemy/core.py:162-195 | in every run, a logged LUT error of any kind (read, kernel or apply) is followed by saving: LUT failures never end a run |
| Pipeline.FromColorClampsLut | src/raw_alchemy/core.py:163-201 | from step 4, an image saved after a LUT without error has every sample in [0, 1] |
| Pipeline.SavedAfterLutIsClamped | src/raw_alchemy/core.py:163-201 | a saved image that went through a LUT without error has every sample in [0, 1] |
| Pipeline.MidGreyPassesExposureAndBoost | src/raw_alchemy/core.py:117-137 | a mid-grey image metered in average mode, whose geometric mean is at least 0.18, comes out of exposure and the boost unchanged |
| Pipeline.ApplyLutStep | src/raw_alchemy/core.py:162-192 | the in-place LUT step computes exactly the LUT stage |
| Pipeline.LutAndSaveStep | src/raw_alchemy/core.py:162-206 | the in-place LUT step followed by the writer computes exactly the LUT and save stages |
| Pipeline.ColorStep | src/raw_alchemy/core.py:139-206 | the matrix lookup, the in-place gamut and floor steps and the curve encoding, each of which can raise, followed by LUT and save, compute exactly step 4 onwards |
| Pipeline.ExposeStep | src/raw_alchemy/core.py:96-121 | the in-place manual gain or the selected metering policy computes exactly the exposure stage |
| Pipeline.LensStep | src/raw_alchemy/core.py:123-137 | the lens step and what follows compute exactly step 3 onwards |
| Pipeline.ProcessImage | src/raw_alchemy/core.py:48-206 | `process_image` computes exactly one pipeline run: the log and how it ended |
| Paths.LowerChar | src/raw_alchemy/orchestrator.py:45 | an ASCII capital is lowered by 32 code points; every other character is kept |
| Paths.Lower | src/raw_alchemy/orchestrator.py:45 | lowering keeps the length and lowers each character |
| Paths.RFind | src/raw_alchemy/orchestrator.py:58 | the result is -1 or an index holding the character, with no occurrence after it |
| Paths.Basename | src/raw_alchemy/orchestrator.py:87 | the base name has no '/', ends the path, and is the whole path or starts right after a '/' |
| Paths.SplitExt | src/raw_alchemy/orchestrator.py:58 | stem and extension concatenate to the path; the extension is empty or one dot followed by neither '.' nor '/'; it is non-empty iff the last path component has a dot after some non-dot character |
| Paths.SuffixDotRule | src/raw_alchemy/orchestrator.py:58 | the `splitext` cut condition (last dot after the last '/', with a non-dot between them) holds iff the last component has a dot after a non-dot character |
| Paths.Stem | src/raw_alchemy/orchestrator.py:58 | the stem is a prefix of the path; it is shorter than the path iff the last component has an extension, and then the rest is one dot followed by neither '.' nor '/' |
| Paths.Join | src/raw_alchemy/orchestrator.py:57-58 | an absolute second part replaces the first; the joined path always ends with the second part; a relative second part follows the first part, with one '/' inserted exactly when the first part is non-empty and does not end in '/' |
| Paths.BasenameOfJoin | src/raw_alchemy/orchestrator.py:57-58 | a name without '/' joined to a directory is the base name of the result |
| Paths.StemOfExtended | src/raw_alchemy/orchestrator.py:58 | for every name with a stem and every extension of one dot followed by neither '.' nor '/', the stem of the name plus the extension is the name |
| Paths.SplitExtAtLastDot | src/raw_alchemy/orchestrator.py:58 | the extension is cut at the last dot, letter case kept |
| Paths.SplitExtWithoutExtension | src/raw_alchemy/orchestrator.py:88 | a leading dot, or a dot in a directory name, does not start an extension |
| Orchestrator.Select | src/raw_alchemy/orchestrator.py:45 | the filter keeps exactly the listed names with the extension, ignoring case |
| Orchestrator.DiscoverRawFiles | src/raw_alchemy/orchestrator.py:43-45 | the discovery loop yields the files of each extension in turn, in listing order |
| Orchestrator.DiscoverMembership | src/raw_alchemy/orchestrator.py:43-45 | a name is discovered iff it is listed and ends with a supported extension in any case |
| Orchestrator.SelectKeepsListingOrder | src/raw_alchemy/orchestrator.py:45 | the filter distributes over concatenation, so it keeps listing order |
| Orchestrator.DiscoverGroupsByExtension | src/raw_alchemy/orchestrator.py:43-45 | the files found for the first m extensions form a prefix of the result: files are grouped in extension-list order |
| Orchestrator.FoundByOneExtensionOnly | src/raw_alchemy/orchestrator.py:6-8 | a name with the last extension was not found by any earlier one |
| Orchestrator.DiscoverDistinct | src/raw_alchemy/orchestrator.py:43-45 | over a repetition-free listing, discovery with exclusive extensions finds no name twice |
| Orchestrator.SupportedExtensionsAreExclusive | src/raw_alchemy/orchestrator.py:6-8 | the ten extensions are pairwise different and all four characters long |
| Orchestrator.DiscoveryFindsEachFileOnce | src/raw_alchemy/orchestrator.py:43-45 | every listed RAW file is discovered, once, and nothing else is |
| Orchestrator.MatchIgnoresCase | src/raw_alchemy/orchestrator.py:45 | upper- and mixed-case extensions are discovered |
| Orchestrator.OtherFilesIgnored | src/raw_alchemy/orchestrator.py:6-8 | a name without a listed extension is not discovered |
| Orchestrator.SingleOutputPath | src/raw_alchemy/orchestrator.py:85-89 | when the output path is not a directory it is used as given |
| Orchestrator.UnitConfigs | src/raw_alchemy/orchestrator.py:54-67 | one pipeline invocation per discovered file: invocation k is the unit configuration of file k |
| Orchestrator.RunAll | src/raw_alchemy/orchestrator.py:53-79 | one run per invocation |
| Orchestrator.RunAllRunsEach | src/raw_alchemy/orchestrator.py:53-79 | run k of the batch is the pipeline applied to invocation k |
| Orchestrator.PipelineOfRealizes | src/raw_alchemy/orchestrator.py:56 | the orchestrator's processor is the pipeline itself |
| Orchestrator.ProcessUnit | src/raw_alchemy/orchestrator.py:55-66 | one unit's run is the pipeline's result for its invocation |
| Orchestrator.RunBatch | src/raw_alchemy/orchestrator.py:53-79 | the batch loop runs every invocation in order and logs one failure per raising run, in run order |
| Orchestrator.ProcessPath | src/raw_alchemy/orchestrator.py:10-103 | `process_path` computes exactly the events, runs and exception of its specification under the model's pipeline |
| Orchestrator.FailureLogMembership | src/raw_alchemy/orchestrator.py:69-79 | a failure is logged under a name with an error iff a run of that name raised that error |
| Orchestrator.BatchChecks | src/raw_alchemy/orchestrator.py:36-53 | a batch is refused for a non-directory output (iff), for a listing without a supported file (iff), and for a worker count that is not positive after the count is logged (iff); a refused batch runs nothing |
| Orchestrator.BatchNeverRaises | src/raw_alchemy/orchestrator.py:51-81 | after the checks a batch never raises, runs each discovered file once with its own invocation, logs the count first and completion last |
| Orchestrator.BatchLogsEachFailure | src/raw_alchemy/orchestrator.py:69-79 | a batch logs a failure under a file's name exactly when that file's run raised that error |
| Orchestrator.BatchLogMembership | src/raw_alchemy/orchestrator.py:51-81 | the batch log names a failure exactly when that file's run raised it |
| Orchestrator.SingleFailurePropagates | src/raw_alchemy/orchestrator.py:91-103 | a single file runs once; `process_path` raises iff the run raised, with the same error, and completes otherwise |
| Orchestrator.UnitPaths | src/raw_alchemy/orchestrator.py:57-58 | a unit's input path starts with the input directory and has the file as its base name; its output path starts with the output directory and has the file's stem plus the output format as its base name |
| Orchestrator.SingleOutputInDirectory | src/raw_alchemy/orchestrator.py:85-89 | into an output directory, the single output path starts with that directory and has the input's stem plus the output format as its base name |
| Orchestrator.SameStemSameOutput | src/raw_alchemy/orchestrator.py:58 | for every request, stem and pair of extensions, the two files get the same output path |

## Left out

- Floating point: samples and gains are `real`, so rounding, NaN and infinities are not modelled. `float32` conversion and the `uint16` quantisation on save (`core.py:90`, `core.py:199`) are not modelled either.
- The image statistics are parameters: the geometric mean of luminance (`np.log`, `np.exp`), the Gaussian-weighted mean and the percentiles of the channel maximum. The RGB to XYZ luminance is part of them.
- `2.0 ** exposure` is the collaborator `Env.exp2`; real exponentiation is not available. `Env.exp2` is total, so the `OverflowError` that a very large exposure raises is not modelled.
- Pipeline.ZeroStopsIsPassThrough: assumes `exp2(0) == 1` instead of deriving it.
- Metering.HybridProtectsHighlights: proved only for a 99th percentile up to 60. Above that, the 0.1 lower clamp itself lifts the peak past 6.
- Pipeline.ManualExposureOverridesMetering: states that the exposed image and the log ignore the metering mode. It does not state that whole runs under two metering modes are equal.
- The core's lens step is the collaborator `Env.lensStep`. `core.py:126-131` calls `apply_lens_correction` with an `exif_data=` keyword that it does not accept, and without its `raw_path` argument. The model therefore leaves open what that call returns or raises. The gating itself is modelled on the function as defined (`LensCorrection.ApplyLensCorrection`).
- `extract_lens_exif`: reading EXIF tags is I/O. Its result enters as `LensCorrection.ExifFacts`.
- The lens engine (`lensfun_wrapper`) is a function parameter.
- The `clip_threshold` argument of the highlight-safe policy is never read by the code, so it has no counterpart.
- `apply_gain_inplace`, `apply_matrix_inplace` and `apply_lut_inplace` are not part of this model, because their source is not available.
  - The gain and matrix kernels are element-wise maps over the buffer (`Images.MapInPlace`).
  - The 3-D LUT kernel, with its trilinear interpolation, is the collaborator `Env.lutKernel`. A kernel that raises partway through would leave partial writes; the model keeps the image unchanged in that case.
- `colour.read_LUT`, `LUT.apply`, `colour.cctf_encoding`, `colour.matrix_RGB_to_RGB` and the `tifffile` writer are collaborators in `Pipeline.Env`.
- Properties of the curves and matrices (monotonic encoding, gamut round trip) and of the identity LUT are outside the model.
- The contiguity checks, `del`, `gc.collect()` and the text of the log messages are not modelled. Each step message is one `Step` value and each batch message one `Event` value. These messages are not modelled at all:
  - the "Processing:" line (`core.py:70`);
  - the EXIF extraction error (`core.py:77`, logged inside `utils.py:139`);
  - the gain lines of the metering policies and the highlight-protection notice (`utils.py:175`, `utils.py:196`, `utils.py:225`, `utils.py:233`, `utils.py:271`);
  - the lens correction messages (`utils.py:56-84`), which `LensCorrection.LensStatus` summarises;
  - the traceback printed after a LUT error (`core.py:191-192`).
- The logger's two forms (a queue or a print-like function) are not modelled.
- Orchestrator.BatchNeverRaises: assumes a valid worker count. A count that is not positive raises `InvalidWorkerCount` after the count is logged (`Orchestrator.BatchChecks`). The platform limit on the worker count (at most 61 on Windows) is not modelled.
- `ProcessPoolExecutor` concurrency: units run one after another in discovery order, and failures are logged in that order rather than in completion order.
- `os.listdir` is called once per extension in the source. The model uses one listing for all of them, so the directory is assumed not to change during discovery.
- Orchestrator.DiscoveryFindsEachFileOnce: assumes the listing never repeats a name, as a directory listing does not.
- `str.lower()` is reduced to ASCII case folding.
- Paths follow `posixpath`. On Windows, `os.path` is `ntpath`, with `\` separators and drive letters; that variant is not modelled.
- `LUT_SPACE_MAP` (`core.py:35-38`) is not used by `process_image`.
- `cli.py` (argument parsing) is not part of this model.
