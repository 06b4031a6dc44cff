/** The static configuration tables of the pipeline: which linear gamut each
    log curve is graded in, which curves share an encoding function with
    another name, and the metering modes offered to the user. */
module LogSpaces {
  import opened Wrappers

  /** Log space name -> the linear gamut it is graded in. */
  const LogToWorkingSpace: map<string, string> := map[
    "F-Log" := "F-Gamut",
    "F-Log2" := "F-Gamut",
    "F-Log2C" := "F-Gamut C",
    "V-Log" := "V-Gamut",
    "N-Log" := "N-Gamut",
    "Canon Log 2" := "Cinema Gamut",
    "Canon Log 3" := "Cinema Gamut",
    "S-Log3" := "S-Gamut3",
    "S-Log3.Cine" := "S-Gamut3.Cine",
    "Arri LogC3" := "ARRI Wide Gamut 3",
    "Arri LogC4" := "ARRI Wide Gamut 4",
    "Log3G10" := "REDWideGamutRGB"
  ]

  /** Composite name -> the name of the encoding function it uses. */
  const LogEncodingMap: map<string, string> := map[
    "S-Log3.Cine" := "S-Log3",
    "F-Log2C" := "F-Log2"
  ]

  /** The metering modes offered to the user. */
  const MeteringModes: seq<string> := ["average", "center-weighted", "highlight-safe", "hybrid"]

  /** `LOG_TO_WORKING_SPACE.get(log_space)`. */
  function WorkingSpace(logSpace: string): (r: Option<string>)
    ensures r.Some? <==> logSpace in LogToWorkingSpace
    ensures r.Some? ==> r.value != ""
  {
    if logSpace in LogToWorkingSpace then Some(LogToWorkingSpace[logSpace]) else None
  }

  /** `LOG_ENCODING_MAP.get(log_space, log_space)`: the aliased curve, or the
      name itself. */
  function CurveName(logSpace: string): (r: string)
    ensures logSpace == "S-Log3.Cine" ==> r == "S-Log3"
    ensures logSpace == "F-Log2C" ==> r == "F-Log2"
    ensures logSpace !in LogEncodingMap ==> r == logSpace
  {
    if logSpace in LogEncodingMap then LogEncodingMap[logSpace] else logSpace
  }

  /** Every aliased name is also a known log space, so an aliased name never
      fails the unknown-log-space check; and every alias target is itself a
      known log space. */
  lemma AliasesAreKnown()
    ensures forall name :: name in LogEncodingMap ==> name in LogToWorkingSpace
    ensures forall name :: name in LogEncodingMap ==> LogEncodingMap[name] in LogToWorkingSpace
  {
    assert LogEncodingMap.Keys == {"S-Log3.Cine", "F-Log2C"};
  }
}
