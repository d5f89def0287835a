/** Task configuration parameters: small enumerations (effort level, presentation theme)
    mapped to a name, the chosen value and an explanation of what the value means. */
module TaskConfigurations {
  import opened Wrappers

  datatype TaskConfigParameter = TaskConfigParameter(name: string, value: string, meaning: string)

  datatype Effort = Low | Mid | High

  datatype PresentTheme = Light | Dark

  /** The flag spelling of an effort level, which is also its key in the effort table. */
  function EffortKey(e: Effort): string {
    match e
    case Low => "low"
    case Mid => "mid"
    case High => "high"
  }

  function ThemeKey(t: PresentTheme): string {
    match t
    case Light => "light"
    case Dark => "dark"
  }

  const HighEffortMeaning := "You must do extra investigation and grasp every detail. Be thorough, explore deeply, and leave no stone unturned."
  const LowEffortMeaning := "Provide a quick overview focusing on the most important aspects. Keep the analysis concise and high-level."
  const MidEffortMeaning := "Provide a balanced analysis with good coverage of important aspects without being exhaustive."
  const DarkThemeMeaning := "Use dark theme with light text on dark backgrounds for the presentation."
  const LightThemeMeaning := "Use light theme with dark text on light backgrounds for the presentation."

  /** The effort table (`EFFORT_CONFIGS`): one entry per level, named `effort`, whose value is
      the level's own key. */
  function EffortConfig(e: Effort): (p: TaskConfigParameter)
    ensures p.name == "effort" && p.value == EffortKey(e)
  {
    match e
    case High =>
      TaskConfigParameter("effort", "high", HighEffortMeaning)
    case Low =>
      TaskConfigParameter("effort", "low", LowEffortMeaning)
    case Mid =>
      TaskConfigParameter("effort", "mid", MidEffortMeaning)
  }

  /** The theme table (`THEME_CONFIGS`): one entry per theme, named `theme`, whose value is the
      theme's own key. */
  function ThemeConfig(t: PresentTheme): (p: TaskConfigParameter)
    ensures p.name == "theme" && p.value == ThemeKey(t)
  {
    match t
    case Dark =>
      TaskConfigParameter("theme", "dark", DarkThemeMeaning)
    case Light =>
      TaskConfigParameter("theme", "light", LightThemeMeaning)
  }

  /** Distinct levels have distinct entries, so the table loses no choice. */
  lemma EffortConfigInjective(a: Effort, b: Effort)
    ensures EffortConfig(a) == EffortConfig(b) ==> a == b
  {
  }

  /** `buildStudyConfig`: no parameter without an effort, the effort's entry with one. */
  function BuildStudyConfig(effort: Option<Effort>): (r: seq<TaskConfigParameter>)
    ensures |r| <= 1
    ensures r == [] <==> effort.None?
    ensures effort.Some? ==> r == [EffortConfig(effort.value)]
  {
    var config := [];
    if effort.Some? then config + [EffortConfig(effort.value)] else config
  }

  /** `buildTimelineConfig`, written out again in the source exactly like the study one. */
  function BuildTimelineConfig(effort: Option<Effort>): (r: seq<TaskConfigParameter>)
    ensures |r| <= 1
    ensures r == [] <==> effort.None?
    ensures effort.Some? ==> r == [EffortConfig(effort.value)] && r[0].name == "effort"
  {
    var config := [];
    if effort.Some? then config + [EffortConfig(effort.value)] else config
  }

  /** `buildPresentConfig`: no parameter without a theme, the theme's entry with one. */
  function BuildPresentConfig(theme: Option<PresentTheme>): (r: seq<TaskConfigParameter>)
    ensures |r| <= 1
    ensures r == [] <==> theme.None?
    ensures theme.Some? ==> r == [ThemeConfig(theme.value)] && r[0].name == "theme"
  {
    var config := [];
    if theme.Some? then config + [ThemeConfig(theme.value)] else config
  }

  /** The timeline builder and the study builder agree on every input. */
  lemma TimelineConfigIsStudyConfig(effort: Option<Effort>)
    ensures BuildTimelineConfig(effort) == BuildStudyConfig(effort)
  {
  }
}
