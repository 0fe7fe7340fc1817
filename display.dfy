/** The pure classifiers the SleeperScan dashboard renders from the current
    telemetry: the tension-index label and colour, the trend icon, the
    analysis narrative, and the censorship badge and lock icon. */
module Display {
  import opened Telemetry

  // Labels of the tension index, by descending band.
  const ExtremeLabel: string := "EXTREME SUPPRESSION"
  const HighLabel: string := "HIGH TENSION"
  const ModerateLabel: string := "MODERATE TENSION"
  const LowLabel: string := "LOW TENSION"

  // Colour classes of the tension index, by descending band.
  const CriticalColor: string := "status-critical"
  const WarningColor: string := "status-warning"
  const CautionColor: string := "text-yellow-400"
  const SafeColor: string := "status-safe"

  // Lower bounds (inclusive) of the index bands.
  const ExtremeThreshold: real := 80.0
  const HighThreshold: real := 60.0
  const ModerateThreshold: real := 40.0

  /** The label of the tension index: four bands at 80, 60 and 40, each
      bound belonging to the band above it. */
  function IndexLabel(value: real): (caption: string)
    ensures caption == ExtremeLabel <==> value >= ExtremeThreshold
    ensures caption == HighLabel <==> HighThreshold <= value < ExtremeThreshold
    ensures caption == ModerateLabel <==> ModerateThreshold <= value < HighThreshold
    ensures caption == LowLabel <==> value < ModerateThreshold
  {
    if value >= ExtremeThreshold then ExtremeLabel
    else if value >= HighThreshold then HighLabel
    else if value >= ModerateThreshold then ModerateLabel
    else LowLabel
  }

  /** The colour class of the tension index, on the same four bands. */
  function IndexColor(value: real): (color: string)
    ensures color == CriticalColor <==> value >= ExtremeThreshold
    ensures color == WarningColor <==> HighThreshold <= value < ExtremeThreshold
    ensures color == CautionColor <==> ModerateThreshold <= value < HighThreshold
    ensures color == SafeColor <==> value < ModerateThreshold
  {
    if value >= ExtremeThreshold then CriticalColor
    else if value >= HighThreshold then WarningColor
    else if value >= ModerateThreshold then CautionColor
    else SafeColor
  }

  /** For every value the label and the colour name the same band. */
  lemma LabelMatchesColor(value: real)
    ensures IndexLabel(value) == ExtremeLabel <==> IndexColor(value) == CriticalColor
    ensures IndexLabel(value) == HighLabel <==> IndexColor(value) == WarningColor
    ensures IndexLabel(value) == ModerateLabel <==> IndexColor(value) == CautionColor
    ensures IndexLabel(value) == LowLabel <==> IndexColor(value) == SafeColor
  {
  }

  /** The boundary values resolve upwards. */
  lemma IndexBoundaries()
    ensures IndexLabel(80.0) == ExtremeLabel && IndexColor(80.0) == CriticalColor
    ensures IndexLabel(79.9) == HighLabel && IndexColor(79.9) == WarningColor
    ensures IndexLabel(60.0) == HighLabel
    ensures IndexLabel(40.0) == ModerateLabel && IndexColor(40.0) == CautionColor
    ensures IndexLabel(39.9) == LowLabel && IndexColor(39.9) == SafeColor
  {
  }

  /** The icon drawn beside the index label. */
  datatype TrendIcon = TrendingUp | TrendingDown | NeutralPulse

  function TrendIconFor(t: Trend): (icon: TrendIcon)
    ensures icon == TrendingUp <==> t == Rising
    ensures icon == TrendingDown <==> t == Falling
    ensures icon == NeutralPulse <==> t == Stable
  {
    match t
    case Rising => TrendingUp
    case Falling => TrendingDown
    case _ => NeutralPulse
  }

  // The three analysis texts, by descending band.
  const HighTensionText: string :=
    "\U{26A0}\U{FE0F} High narrative tension detected. Multiple information streams showing coordinated suppression patterns. Recommend immediate deep-scan protocols."
  const ModeratePressureText: string :=
    "\U{1F4CA} Moderate information pressure detected. Some narratives experiencing delayed mainstream propagation. Monitoring enhanced surveillance vectors."
  const StableEnvironmentText: string :=
    "\U{2705} Relatively stable information environment. Normal narrative flow patterns observed. Maintaining baseline monitoring protocols."

  // Lower bounds (inclusive) of the narrative bands.
  const HighNarrativeThreshold: real := 70.0
  const ModerateNarrativeThreshold: real := 40.0

  /** The texts the analysis panel shows: each of the three texts is guarded
      by its own condition and appears when that condition holds. Exactly one
      guard holds for every index value. */
  function AnalysisNarrative(overallIndex: real): (shown: seq<string>)
    ensures |shown| == 1
    ensures shown[0] == HighTensionText <==> overallIndex >= HighNarrativeThreshold
    ensures shown[0] == ModeratePressureText <==>
              ModerateNarrativeThreshold <= overallIndex < HighNarrativeThreshold
    ensures shown[0] == StableEnvironmentText <==> overallIndex < ModerateNarrativeThreshold
  {
    (if overallIndex >= HighNarrativeThreshold then [HighTensionText] else [])
    + (if overallIndex >= ModerateNarrativeThreshold && overallIndex < HighNarrativeThreshold
       then [ModeratePressureText] else [])
    + (if overallIndex < ModerateNarrativeThreshold then [StableEnvironmentText] else [])
  }

  /** The narrative and the label agree on the low band; a high-tension
      narrative goes with a HIGH or EXTREME label, and an EXTREME label with
      the high-tension narrative. */
  lemma NarrativeMatchesLabel(overallIndex: real)
    ensures AnalysisNarrative(overallIndex)[0] == StableEnvironmentText
            <==> IndexLabel(overallIndex) == LowLabel
    ensures AnalysisNarrative(overallIndex)[0] == HighTensionText
            ==> IndexLabel(overallIndex) in {HighLabel, ExtremeLabel}
    ensures IndexLabel(overallIndex) == ExtremeLabel
            ==> AnalysisNarrative(overallIndex)[0] == HighTensionText
  {
  }

  // Censorship badge texts and colour classes, by descending band.
  const HighThreatBadge: string := "HIGH THREAT"
  const ModerateBadge: string := "MODERATE"
  const LowRiskBadge: string := "LOW RISK"
  const CriticalTone: string := "status-critical border-current"
  const WarningTone: string := "status-warning border-current"
  const SafeTone: string := "status-safe border-current"

  // Exclusive lower bounds of the censorship bands and of the lock icon.
  const HighThreatThreshold: real := 70.0
  const ModerateThreatThreshold: real := 40.0
  const LockThreshold: real := 50.0

  /** The censorship badge text: strictly above 70, strictly above 40, or not. */
  function CensorshipBadge(activity: real): (text: string)
    ensures text == HighThreatBadge <==> activity > HighThreatThreshold
    ensures text == ModerateBadge <==>
              ModerateThreatThreshold < activity <= HighThreatThreshold
    ensures text == LowRiskBadge <==> activity <= ModerateThreatThreshold
  {
    if activity > HighThreatThreshold then HighThreatBadge
    else if activity > ModerateThreatThreshold then ModerateBadge
    else LowRiskBadge
  }

  /** The censorship badge colour class, on the same three bands. */
  function CensorshipTone(activity: real): (tone: string)
    ensures tone == CriticalTone <==> activity > HighThreatThreshold
    ensures tone == WarningTone <==>
              ModerateThreatThreshold < activity <= HighThreatThreshold
    ensures tone == SafeTone <==> activity <= ModerateThreatThreshold
  {
    if activity > HighThreatThreshold then CriticalTone
    else if activity > ModerateThreatThreshold then WarningTone
    else SafeTone
  }

  /** The padlock beside the censorship badge. */
  datatype LockIcon = Locked | Unlocked

  function LockIconFor(activity: real): (icon: LockIcon)
    ensures icon == Locked <==> activity > LockThreshold
  {
    if activity > LockThreshold then Locked else Unlocked
  }

  /** The badge text and colour name the same band, and the padlock is
      closed on HIGH THREAT and open on LOW RISK. */
  lemma CensorshipIndicatorsAgree(activity: real)
    ensures CensorshipBadge(activity) == HighThreatBadge <==> CensorshipTone(activity) == CriticalTone
    ensures CensorshipBadge(activity) == ModerateBadge <==> CensorshipTone(activity) == WarningTone
    ensures CensorshipBadge(activity) == LowRiskBadge <==> CensorshipTone(activity) == SafeTone
    ensures CensorshipBadge(activity) == HighThreatBadge ==> LockIconFor(activity) == Locked
    ensures CensorshipBadge(activity) == LowRiskBadge ==> LockIconFor(activity) == Unlocked
  {
  }

  /** Boundary values of the strict comparisons stay in the lower band. */
  lemma CensorshipBoundaries()
    ensures CensorshipBadge(70.0) == ModerateBadge && CensorshipBadge(70.1) == HighThreatBadge
    ensures CensorshipBadge(40.0) == LowRiskBadge && CensorshipBadge(40.1) == ModerateBadge
    ensures LockIconFor(50.0) == Unlocked && LockIconFor(50.1) == Locked
  {
  }
}
