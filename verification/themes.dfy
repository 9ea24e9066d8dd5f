/** The theme resolver: for a layer `type` and `theme`, a function from a
    record to a stroke/fill colour pair, to "no marker" (the theme filters
    the record out), or to a lookup failure (a `TypeError` in the source,
    caught by the marker factory). */
module Themes {
  import opened Wrappers
  import opened Records

  datatype Colors = Colors(color: string, fillColor: string)

  datatype Styling =
    | Filtered          // the theme function returned `false`
    | Styled(colors: Colors)
    | Throws            // evaluating the theme raised a `TypeError`

  /** `_grayColors`, used when a record's unit or parameter is not the one
      a theme expects. */
  const Gray := Colors("#777777", "#a6a6a6")
  const NoFlow := Colors("#970", "#fff")
  const Flooding := Colors("#f49", "#fff")

  //--------------------------------------------------------------------
  // Status lookup tables
  //--------------------------------------------------------------------

  datatype StatusEntry = StatusEntry(colors: Colors, description: string)

  /** `_statusInfo`: day-of-year statistic codes, with the entry under the
      key `null` for records without a code. */
  const StatusInfo: map<string, StatusEntry> := map[
    "P0" := StatusEntry(Colors("#900", "#f00"), "All-time low for this day-of-year"),
    "P0_10" := StatusEntry(Colors("#611", "#b22"), "Much below normal for this day-of-year"),
    "P10_25" := StatusEntry(Colors("#960", "#fa0"), "Below normal for this day-of-year"),
    "P25_75" := StatusEntry(Colors("#090", "#0f0"), "Normal for this day-of-year"),
    "P75_90" := StatusEntry(Colors("#1aa", "#4dd"), "Above normal for this day-of-year"),
    "P90_100" := StatusEntry(Colors("#009", "#00f"), "Much above normal for this day-of-year"),
    "P100" := StatusEntry(Colors("#000", "#005"), "All-time high for this day-of-year"),
    "NR_0FLOW" := StatusEntry(Colors("#777", "#fff"), "Not ranked - stream not flowing"),
    "NR_REVFLOW" := StatusEntry(Colors("#777", "#fff"), "Not ranked - stream can have reversible flow"),
    "null" := StatusEntry(Colors("#777", "#fff"), "Not ranked - insufficient record")]

  /** `_floodInfo`: flood-stage codes, with the entry under the key `null`. */
  const FloodInfo: map<string, StatusEntry> := map[
    "NOFLOOD" := StatusEntry(Colors("#72b026", "#a0da58"), "Not flooding"),
    ">ACT" := StatusEntry(Colors("#f9de00", "#ffea4d"), "In action stage"),
    ">MNR" := StatusEntry(Colors("#f69730", "#fac185"), "In minor flood stage"),
    ">MOD" := StatusEntry(Colors("#d63e2a", "#e78b7e"), "In moderate flood stage"),
    ">MAJ" := StatusEntry(Colors("#d252b9", "#e59ad6"), "In major flood stage"),
    "NOMEAS" := StatusEntry(Colors("#777777", "#a6a6a6"), "No measurement"),
    "NA" := StatusEntry(Colors("#777777", "#ffffff"), "Flood stages not established"),
    "null" := StatusEntry(Colors("#777777", "#ffffff"), "Flood stages not established")]

  /** `code + ''`: the table key of a nullable code. */
  function CodeKey(code: Option<string>): string {
    match code
    case None => "null"
    case Some(c) => c
  }

  /** `table[code + ''].colors`: reading `.colors` of a missing entry throws. */
  function InfoColors(table: map<string, StatusEntry>, code: Option<string>): (r: Styling)
    ensures r.Throws? <==> CodeKey(code) !in table
    ensures !r.Filtered?
  {
    var key := CodeKey(code);
    if key in table then Styled(table[key].colors) else Throws
  }

  function StatusColors(code: Option<string>): Styling {
    InfoColors(StatusInfo, code)
  }

  function FloodColors(code: Option<string>): Styling {
    InfoColors(FloodInfo, code)
  }

  /** A record without a code takes the table's `null` entry. */
  lemma NullCodesHaveDefaults()
    ensures StatusColors(None) == Styled(Colors("#777", "#fff"))
    ensures FloodColors(None) == Styled(Colors("#777777", "#ffffff"))
  {
  }

  /** Every statistic code the service documents resolves, except
      `NR_NOMEAS`, which has no entry and therefore throws. */
  lemma DocumentedStatisticCodes(code: string)
    requires code in ["P0", "P0_10", "P10_25", "P25_75", "P75_90", "P90_100", "P100", "NR_0FLOW", "NR_REVFLOW", "NR_NOMEAS"]
    ensures StatusColors(Some(code)).Throws? <==> code == "NR_NOMEAS"
  {
  }

  /** Every flood-stage code the service documents resolves. */
  lemma DocumentedFloodCodes(code: Option<string>)
    requires code.None? || code.value in ["NA", "NOMEAS", ">MAJ", ">MOD", ">MNR", ">ACT", "NOFLOOD"]
    ensures FloodColors(code).Styled?
  {
  }

  //--------------------------------------------------------------------
  // Threshold bins
  //--------------------------------------------------------------------

  function Abs(x: real): real {
    if x < 0.0 then -x else x
  }

  /** Testing `x > bounds[0]`, `x > bounds[1]`, ... and stopping at the first
      that holds: the index of the bin `x` falls in (`|bounds|` when none
      holds). */
  function Bin(x: real, bounds: seq<real>): (i: nat)
    ensures i <= |bounds|
  {
    if |bounds| == 0 then 0
    else if x > bounds[0] then 0
    else 1 + Bin(x, bounds[1..])
  }

  ghost predicate StrictlyDescending(bounds: seq<real>) {
    forall i, j :: 0 <= i < j < |bounds| ==> bounds[i] > bounds[j]
  }

  /** Bin `i` is the half-open interval (bounds[i], bounds[i-1]], open-ended
      at both extremes: a value equal to a bound belongs to the bin below it. */
  ghost predicate InBin(x: real, bounds: seq<real>, i: nat) {
    && i <= |bounds|
    && (i < |bounds| ==> x > bounds[i])
    && (i > 0 ==> x <= bounds[i - 1])
  }

  /** With strictly descending bounds, every value lies in exactly one bin,
      and it is the one the `>` chain selects. */
  lemma {:induction false} BinIsTheOnlyBin(x: real, bounds: seq<real>, i: nat)
    requires StrictlyDescending(bounds)
    ensures InBin(x, bounds, i) <==> i == Bin(x, bounds)
    decreases |bounds|
  {
    if |bounds| > 0 {
      var tail := bounds[1..];
      assert StrictlyDescending(tail) by {
        forall a, b | 0 <= a < b < |tail|
          ensures tail[a] > tail[b]
        {
          assert tail[a] == bounds[a + 1] && tail[b] == bounds[b + 1];
        }
      }
      if i > 0 {
        BinIsTheOnlyBin(x, tail, i - 1);
        if 2 <= i <= |bounds| {
          assert tail[i - 2] == bounds[i - 1];
          assert bounds[i - 1] < bounds[0];
        }
        if i < |bounds| {
          assert tail[i - 1] == bounds[i];
        }
      }
    }
  }

  /** Bins of flow in cubic feet per second. */
  const CfsBounds: seq<real> := [100000.0, 10000.0, 1000.0, 100.0, 10.0, 0.0]
  const CfsPalette: seq<Colors> := [
    Colors("#015", "#239"), Colors("#239", "#25a"), Colors("#25a", "#19c"), Colors("#19c", "#4bc"),
    Colors("#4bc", "#7cb"), Colors("#7cb", "#ceb"), NoFlow]

  /** Bins of river-stage change in feet per hour. */
  const StageRateBounds: seq<real> := [1.0, 0.5, 0.05, -0.05, -0.5, -1.0]
  /** Bins of lake-level change in feet per hour. */
  const LakeRateBounds: seq<real> := [0.5, 0.05, 0.02, -0.02, -0.05, -0.5]
  /** Bins of water-level change in inches per hour. */
  const WellRateBounds: seq<real> := [6.0, 1.0, 0.5, -0.5, -1.0, -6.0]
  /** Rising-to-falling palette shared by the three rate themes. */
  const RatePalette: seq<Colors> := [
    Colors("#036", "#26a"), Colors("#26a", "#49c"), Colors("#49c", "#9cd"), Colors("#888", "#fff"),
    Colors("#d64", "#fa8"), Colors("#b12", "#d64"), Colors("#601", "#b12")]

  /** Bins of depth to water in feet below land surface. */
  const DepthBounds: seq<real> := [250.0, 200.0, 150.0, 100.0, 50.0]
  const DepthPalette: seq<Colors> := [
    Colors("#802", "#b02"), Colors("#b02", "#e11"), Colors("#e11", "#f42"),
    Colors("#f42", "#f83"), Colors("#f83", "#fb4"), Colors("#fb4", "#fd7")]

  /** Bins of rainfall in inches per hour. */
  const RainBounds: seq<real> := [4.0, 2.0, 0.4, 0.1, 0.0]
  const RainPalette: seq<Colors> := [
    Colors("#b24", "#f00"), Colors("#204", "#528"), Colors("#528", "#87a"),
    Colors("#87a", "#bad"), Colors("#bad", "#dde"), Colors("#888", "#fff")]

  /** Each threshold table is strictly descending and has one colour pair
      per bin, so every value gets a colour. */
  lemma ThresholdTablesWellFormed()
    ensures StrictlyDescending(CfsBounds) && |CfsPalette| == |CfsBounds| + 1
    ensures StrictlyDescending(StageRateBounds) && |RatePalette| == |StageRateBounds| + 1
    ensures StrictlyDescending(LakeRateBounds) && |RatePalette| == |LakeRateBounds| + 1
    ensures StrictlyDescending(WellRateBounds) && |RatePalette| == |WellRateBounds| + 1
    ensures StrictlyDescending(DepthBounds) && |DepthPalette| == |DepthBounds| + 1
    ensures StrictlyDescending(RainBounds) && |RainPalette| == |RainBounds| + 1
  {
  }

  //--------------------------------------------------------------------
  // Theme functions (`_themeColors[type][theme]`)
  //--------------------------------------------------------------------

  /** The record is at or above minor flood stage. */
  predicate InFloodStage(p: Record) {
    p.floodStageStatusCode.Some? && p.floodStageStatusCode.value in {">MNR", ">MOD", ">MAJ"}
  }

  /** The flow `status` theme checks zero flow first, then a flood code at
      or above minor stage, and only then looks the statistic code up. */
  function FlowStatus(p: Record): (r: Styling)
    ensures p.value == Some(0.0) ==> r == Styled(NoFlow)
    ensures p.value != Some(0.0) && InFloodStage(p) ==> r == Styled(Flooding)
    ensures r.Throws? <==>
      p.value != Some(0.0) && !InFloodStage(p) && CodeKey(p.statisticStatusCode) !in StatusInfo
    ensures !r.Filtered?
  {
    if p.value == Some(0.0) then Styled(NoFlow)
    else if InFloodStage(p) then Styled(Flooding)
    else StatusColors(p.statisticStatusCode)
  }

  function FlowCfs(p: Record): (r: Styling)
    ensures !r.Throws?
  {
    match p.value
    case None => Filtered
    case Some(v) =>
      if p.parameterUnit != "ft3/s" then Styled(Gray)
      else
        var x := Abs(v);
        if x > 100000.0 then Styled(Colors("#015", "#239"))
        else if x > 10000.0 then Styled(Colors("#239", "#25a"))
        else if x > 1000.0 then Styled(Colors("#25a", "#19c"))
        else if x > 100.0 then Styled(Colors("#19c", "#4bc"))
        else if x > 10.0 then Styled(Colors("#4bc", "#7cb"))
        else if x > 0.0 then Styled(Colors("#7cb", "#ceb"))
        else Styled(NoFlow)
  }

  function FlowCfs0(p: Record): (r: Styling)
    ensures !r.Throws?
  {
    if p.value == Some(0.0) then Styled(NoFlow) else Filtered
  }

  /** The stage `status` theme checks the flood code before the statistic
      code. */
  function StageStatus(p: Record): (r: Styling)
    ensures InFloodStage(p) ==> r == Styled(Flooding)
    ensures r.Throws? <==> !InFloodStage(p) && CodeKey(p.statisticStatusCode) !in StatusInfo
    ensures !r.Filtered?
  {
    if InFloodStage(p) then Styled(Flooding) else StatusColors(p.statisticStatusCode)
  }

  /** The shared shape of the three rate themes: no marker without a rate,
      gray for the wrong unit, otherwise the rising-to-falling palette. */
  function RateTheme(x: real, bounds: seq<real>): (r: Styling)
    requires |bounds| == 6
    ensures r.Styled?
  {
    if x > bounds[0] then Styled(Colors("#036", "#26a"))
    else if x > bounds[1] then Styled(Colors("#26a", "#49c"))
    else if x > bounds[2] then Styled(Colors("#49c", "#9cd"))
    else if x > bounds[3] then Styled(Colors("#888", "#fff"))
    else if x > bounds[4] then Styled(Colors("#d64", "#fa8"))
    else if x > bounds[5] then Styled(Colors("#b12", "#d64"))
    else Styled(Colors("#601", "#b12"))
  }

  function StageRate(p: Record): (r: Styling)
    ensures !r.Throws?
  {
    match p.rateOfChange
    case None => Filtered
    case Some(x) => if p.parameterUnit != "ft" then Styled(Gray) else RateTheme(x, StageRateBounds)
  }

  /** The `flood` theme hides sites that are not flooding, not measured or
      without established flood stages. */
  function StageFlood(p: Record): (r: Styling)
    ensures r.Filtered? <==>
      p.floodStageStatusCode.None? || p.floodStageStatusCode.value in {"NOFLOOD", "NOMEAS", "NA"}
    ensures r.Throws? <==> !r.Filtered? && CodeKey(p.floodStageStatusCode) !in FloodInfo
  {
    if p.floodStageStatusCode.None? || p.floodStageStatusCode.value in {"NOFLOOD", "NOMEAS", "NA"} then Filtered
    else FloodColors(p.floodStageStatusCode)
  }

  /** The `nws` theme shows every site, failing only on an unknown code. */
  function StageNws(p: Record): (r: Styling)
    ensures r.Throws? <==> CodeKey(p.floodStageStatusCode) !in FloodInfo
    ensures !r.Filtered?
  {
    FloodColors(p.floodStageStatusCode)
  }

  function LakeRate(p: Record): (r: Styling)
    ensures !r.Throws?
  {
    match p.rateOfChange
    case None => Filtered
    case Some(x) => if p.parameterUnit != "ft" then Styled(Gray) else RateTheme(x, LakeRateBounds)
  }

  /** Depth to water (parameter 72019) grows as the level falls, so its rate
      is negated; feet per hour become inches per hour. */
  function WellRate(p: Record): (r: Styling)
    ensures !r.Throws?
  {
    match p.rateOfChange
    case None => Filtered
    case Some(r) =>
      if p.parameterUnit != "ft" then Styled(Gray)
      else
        var x := if p.parameterCode == "72019" then -r else r;
        RateTheme(12.0 * x, WellRateBounds)
  }

  function WellDepth(p: Record): (r: Styling)
    ensures !r.Throws?
  {
    match p.value
    case None => Filtered
    case Some(v) =>
      if p.parameterCode != "72019" then Styled(Gray)
      else
        var x := Abs(v);
        if x > 250.0 then Styled(Colors("#802", "#b02"))
        else if x > 200.0 then Styled(Colors("#b02", "#e11"))
        else if x > 150.0 then Styled(Colors("#e11", "#f42"))
        else if x > 100.0 then Styled(Colors("#f42", "#f83"))
        else if x > 50.0 then Styled(Colors("#f83", "#fb4"))
        else Styled(Colors("#fb4", "#fd7"))
  }

  function RainColors(x: real): (r: Styling)
    ensures r.Styled?
  {
    if x > 4.0 then Styled(Colors("#b24", "#f00"))
    else if x > 2.0 then Styled(Colors("#204", "#528"))
    else if x > 0.4 then Styled(Colors("#528", "#87a"))
    else if x > 0.1 then Styled(Colors("#87a", "#bad"))
    else if x > 0.0 then Styled(Colors("#bad", "#dde"))
    else Styled(Colors("#888", "#fff"))
  }

  function RainRate(p: Record): (r: Styling)
    ensures !r.Throws?
  {
    match p.rateOfChange
    case None => Filtered
    case Some(x) => if p.parameterCode != "00045" then Styled(Gray) else RainColors(x)
  }

  function RainNon0(p: Record): (r: Styling)
    ensures !r.Throws?
  {
    match p.rateOfChange
    case None => Filtered
    case Some(x) =>
      if x <= 0.0 then Filtered
      else if p.parameterCode != "00045" then Styled(Gray)
      else RainColors(x)
  }

  /** The lake and well `status` theme: the statistic code alone. */
  function StatusTheme(p: Record): (r: Styling)
    ensures r.Throws? <==> CodeKey(p.statisticStatusCode) !in StatusInfo
    ensures !r.Filtered?
  {
    StatusColors(p.statisticStatusCode)
  }

  const FlowThemes: map<string, Record -> Styling> := map["status" := FlowStatus, "cfs" := FlowCfs, "cfs0" := FlowCfs0]
  const StageThemes: map<string, Record -> Styling> := map["status" := StageStatus, "rate" := StageRate, "flood" := StageFlood, "nws" := StageNws]
  const LakeThemes: map<string, Record -> Styling> := map["status" := StatusTheme, "rate" := LakeRate]
  const WellThemes: map<string, Record -> Styling> := map["status" := StatusTheme, "rate" := WellRate, "depth" := WellDepth]
  const RainThemes: map<string, Record -> Styling> := map["rate" := RainRate, "non0" := RainNon0]

  /** `_themeColors`: the theme functions, by type and theme name. */
  const ThemeColors: map<string, map<string, Record -> Styling>> := map[
    "flow" := FlowThemes, "stage" := StageThemes, "lake" := LakeThemes,
    "well" := WellThemes, "rain" := RainThemes]

  predicate IsTheme(typ: string, theme: string) {
    typ in ThemeColors && theme in ThemeColors[typ]
  }

  /** `_themeColors[type][theme](p)`; an unknown type or theme makes the
      lookup or the call throw. */
  function Resolve(typ: string, theme: string, p: Record): (r: Styling)
    ensures !IsTheme(typ, theme) ==> r.Throws?
  {
    if IsTheme(typ, theme) then ThemeColors[typ][theme](p) else Throws
  }

  /** A defined theme throws only for a status or flood code missing from
      its lookup table. */
  lemma ResolveThrowsOnlyOnMissingCodes(typ: string, theme: string, p: Record)
    requires IsTheme(typ, theme) && Resolve(typ, theme, p).Throws?
    ensures CodeKey(p.statisticStatusCode) !in StatusInfo || CodeKey(p.floodStageStatusCode) !in FloodInfo
  {
    var themes := ThemeColors[typ];
    assert themes[theme](p).Throws?;
    if typ == "flow" {
      assert themes == FlowThemes;
      TableThrowsOnlyOnMissingCodes(FlowThemes, theme, p);
    } else if typ == "stage" {
      assert themes == StageThemes;
      TableThrowsOnlyOnMissingCodes(StageThemes, theme, p);
    } else if typ == "lake" {
      assert themes == LakeThemes;
      TableThrowsOnlyOnMissingCodes(LakeThemes, theme, p);
    } else if typ == "well" {
      assert themes == WellThemes;
      TableThrowsOnlyOnMissingCodes(WellThemes, theme, p);
    } else {
      assert themes == RainThemes;
      TableThrowsOnlyOnMissingCodes(RainThemes, theme, p);
    }
  }

  lemma TableThrowsOnlyOnMissingCodes(themes: map<string, Record -> Styling>, theme: string, p: Record)
    requires themes in {FlowThemes, StageThemes, LakeThemes, WellThemes, RainThemes}
    requires theme in themes && themes[theme](p).Throws?
    ensures CodeKey(p.statisticStatusCode) !in StatusInfo || CodeKey(p.floodStageStatusCode) !in FloodInfo
  {
  }

  /** The threshold themes never throw. */
  lemma ThresholdThemesNeverThrow(p: Record)
    ensures !Resolve("flow", "cfs", p).Throws? && !Resolve("flow", "cfs0", p).Throws?
    ensures !Resolve("stage", "rate", p).Throws? && !Resolve("lake", "rate", p).Throws?
    ensures !Resolve("well", "rate", p).Throws? && !Resolve("well", "depth", p).Throws?
    ensures !Resolve("rain", "rate", p).Throws? && !Resolve("rain", "non0", p).Throws?
  {
    FlowThresholdThemes(p);
    RateThresholdThemes(p);
    DepthAndRainThemes(p);
  }

  lemma FlowThresholdThemes(p: Record)
    ensures Resolve("flow", "cfs", p) == FlowCfs(p) && Resolve("flow", "cfs0", p) == FlowCfs0(p)
  {
    assert ThemeColors["flow"] == FlowThemes;
  }

  lemma DepthAndRainThemes(p: Record)
    ensures Resolve("well", "depth", p) == WellDepth(p)
    ensures Resolve("rain", "rate", p) == RainRate(p) && Resolve("rain", "non0", p) == RainNon0(p)
  {
    assert ThemeColors["well"] == WellThemes && ThemeColors["rain"] == RainThemes;
  }

  lemma RateThresholdThemes(p: Record)
    ensures Resolve("stage", "rate", p) == StageRate(p) && Resolve("lake", "rate", p) == LakeRate(p)
    ensures Resolve("well", "rate", p) == WellRate(p)
  {
    assert ThemeColors["stage"] == StageThemes && ThemeColors["lake"] == LakeThemes;
    assert ThemeColors["well"] == WellThemes;
  }

  /** `_themeShapes`: the default marker shape of each type. */
  const ThemeShapes: map<string, string> := map[
    "flow" := "circle", "stage" := "circle", "lake" := "square",
    "well" := "triangle-u", "rain" := "diamond"]

  lemma EveryThemedTypeHasAShape(typ: string, theme: string)
    requires IsTheme(typ, theme)
    ensures typ in ThemeShapes
  {
  }

  //--------------------------------------------------------------------
  // Properties of the threshold themes
  //--------------------------------------------------------------------

  /** The `cfs` theme: no marker without a value, gray unless the unit is
      ft3/s, otherwise the bin of |Value|. */
  lemma FlowCfsBins(p: Record)
    ensures p.value.None? ==> FlowCfs(p) == Filtered
    ensures p.value.Some? && p.parameterUnit != "ft3/s" ==> FlowCfs(p) == Styled(Gray)
    ensures p.value.Some? && p.parameterUnit == "ft3/s" ==>
      FlowCfs(p) == Styled(CfsPalette[Bin(Abs(p.value.value), CfsBounds)])
  {
    if p.value.Some? {
      var x := Abs(p.value.value);
      var k :=
        if x > 100000.0 then 0 else if x > 10000.0 then 1 else if x > 1000.0 then 2
        else if x > 100.0 then 3 else if x > 10.0 then 4 else if x > 0.0 then 5 else 6;
      assert InBin(x, CfsBounds, k);
      ThresholdTablesWellFormed();
      BinIsTheOnlyBin(x, CfsBounds, k);
    }
  }

  /** The `cfs0` theme shows a site exactly when its value is 0. */
  lemma FlowCfs0ShowsOnlyZeroFlow(p: Record)
    ensures FlowCfs0(p) == Styled(NoFlow) <==> p.value == Some(0.0)
    ensures p.value != Some(0.0) ==> FlowCfs0(p) == Filtered
  {
  }

  lemma RateThemeBins(x: real, bounds: seq<real>)
    requires |bounds| == 6 && StrictlyDescending(bounds)
    ensures RateTheme(x, bounds) == Styled(RatePalette[Bin(x, bounds)])
  {
    var k :=
      if x > bounds[0] then 0 else if x > bounds[1] then 1 else if x > bounds[2] then 2
      else if x > bounds[3] then 3 else if x > bounds[4] then 4 else if x > bounds[5] then 5 else 6;
    assert InBin(x, bounds, k);
    BinIsTheOnlyBin(x, bounds, k);
  }

  /** The three rate themes: no marker without a rate, gray for the wrong
      unit, otherwise the bin of the (converted) rate. */
  lemma RateThemesBins(p: Record)
    ensures p.rateOfChange.None? ==> StageRate(p) == Filtered && LakeRate(p) == Filtered && WellRate(p) == Filtered
    ensures p.rateOfChange.Some? && p.parameterUnit != "ft" ==>
      StageRate(p) == Styled(Gray) && LakeRate(p) == Styled(Gray) && WellRate(p) == Styled(Gray)
    ensures p.rateOfChange.Some? && p.parameterUnit == "ft" ==>
      var r := p.rateOfChange.value;
      && StageRate(p) == Styled(RatePalette[Bin(r, StageRateBounds)])
      && LakeRate(p) == Styled(RatePalette[Bin(r, LakeRateBounds)])
      && WellRate(p) == Styled(RatePalette[Bin(12.0 * (if p.parameterCode == "72019" then -r else r), WellRateBounds)])
  {
    if p.rateOfChange.Some? {
      var r := p.rateOfChange.value;
      ThresholdTablesWellFormed();
      RateThemeBins(r, StageRateBounds);
      RateThemeBins(r, LakeRateBounds);
      RateThemeBins(12.0 * (if p.parameterCode == "72019" then -r else r), WellRateBounds);
    }
  }

  /** The `depth` theme: the bin of |Value| for depth-to-water records. */
  lemma WellDepthBins(p: Record)
    ensures p.value.None? ==> WellDepth(p) == Filtered
    ensures p.value.Some? && p.parameterCode != "72019" ==> WellDepth(p) == Styled(Gray)
    ensures p.value.Some? && p.parameterCode == "72019" ==>
      WellDepth(p) == Styled(DepthPalette[Bin(Abs(p.value.value), DepthBounds)])
  {
    if p.value.Some? {
      var x := Abs(p.value.value);
      var k :=
        if x > 250.0 then 0 else if x > 200.0 then 1 else if x > 150.0 then 2
        else if x > 100.0 then 3 else if x > 50.0 then 4 else 5;
      assert InBin(x, DepthBounds, k);
      ThresholdTablesWellFormed();
      BinIsTheOnlyBin(x, DepthBounds, k);
    }
  }

  lemma RainColorsBins(x: real)
    ensures RainColors(x) == Styled(RainPalette[Bin(x, RainBounds)])
  {
    var k :=
      if x > 4.0 then 0 else if x > 2.0 then 1 else if x > 0.4 then 2
      else if x > 0.1 then 3 else if x > 0.0 then 4 else 5;
    assert InBin(x, RainBounds, k);
    ThresholdTablesWellFormed();
    BinIsTheOnlyBin(x, RainBounds, k);
  }

  /** The rain themes: `rate` bins every rate; `non0` shows only positive
      rates, in the same bins. */
  lemma RainThemesBins(p: Record)
    ensures p.rateOfChange.None? ==> RainRate(p) == Filtered && RainNon0(p) == Filtered
    ensures p.rateOfChange.Some? && p.rateOfChange.value <= 0.0 ==> RainNon0(p) == Filtered
    ensures p.rateOfChange.Some? && p.parameterCode != "00045" ==> RainRate(p) == Styled(Gray)
    ensures p.rateOfChange.Some? && p.parameterCode == "00045" ==>
      RainRate(p) == Styled(RainPalette[Bin(p.rateOfChange.value, RainBounds)])
    ensures p.rateOfChange.Some? && p.rateOfChange.value > 0.0 ==>
      RainNon0(p) == (if p.parameterCode != "00045" then Styled(Gray) else RainRate(p))
  {
    if p.rateOfChange.Some? {
      RainColorsBins(p.rateOfChange.value);
    }
  }
}
