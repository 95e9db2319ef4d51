/** The configuration banner: which services have real (non-placeholder)
    credentials, and what the banner shows when some do not. */
module ConfigurationStatus {
  import opened Common
  import opened Strings

  datatype ConfigStatus = ConfigStatus(supabase: bool, gemini: bool, resend: bool, github: bool)

  /** `!!(value && !value.includes(placeholder))`. */
  function Configured(value: Option<string>, placeholder: string): (b: bool)
    ensures b <==> Truthy(value) && !IsSubstring(placeholder, value.value)
  {
    Truthy(value) && !Contains(value.value, placeholder)
  }

  /** A variable that is set, non-empty and free of the placeholder text. */
  ghost predicate RealValue(env: Environment, name: string, placeholder: string)
  {
    name in env && env[name] != "" && !IsSubstring(placeholder, env[name])
  }

  /** `checkConfig()`. */
  function CheckConfig(env: Environment): (c: ConfigStatus)
    ensures c.supabase <==>
      RealValue(env, "NEXT_PUBLIC_SUPABASE_URL", "your-project") &&
      RealValue(env, "NEXT_PUBLIC_SUPABASE_ANON_KEY", "your_actual")
    ensures c.gemini <==> RealValue(env, "GEMINI_API_KEY", "your_actual")
    ensures c.resend <==> RealValue(env, "RESEND_API_KEY", "your_actual")
    ensures c.github <==> RealValue(env, "GITHUB_TOKEN", "your_actual")
  {
    ConfigStatus(
      Configured(Lookup(env, "NEXT_PUBLIC_SUPABASE_URL"), "your-project") &&
        Configured(Lookup(env, "NEXT_PUBLIC_SUPABASE_ANON_KEY"), "your_actual"),
      Configured(Lookup(env, "GEMINI_API_KEY"), "your_actual"),
      Configured(Lookup(env, "RESEND_API_KEY"), "your_actual"),
      Configured(Lookup(env, "GITHUB_TOKEN"), "your_actual"))
  }

  /** `Object.values(config)`, in declaration order. */
  function Values(c: ConfigStatus): seq<bool>
  {
    [c.supabase, c.gemini, c.resend, c.github]
  }

  /** `values.every(Boolean)`. */
  function Every(values: seq<bool>): (b: bool)
    ensures b <==> forall i :: 0 <= i < |values| ==> values[i]
  {
    if values == [] then true else values[0] && Every(values[1..])
  }

  function AllConfigured(c: ConfigStatus): (b: bool)
    ensures b <==> c.supabase && c.gemini && c.resend && c.github
  {
    var vs := Values(c);
    assert vs[0] == c.supabase && vs[1] == c.gemini && vs[2] == c.resend && vs[3] == c.github;
    Every(vs)
  }

  datatype Color = Green | Red | Amber

  datatype Indicator = Indicator(service: string, color: Color)

  const Services: seq<string> := ["Supabase Database", "Gemini AI", "Email Service", "GitHub API"]

  /** Green when configured; otherwise red for a service the app cannot run
      without (database, model) and amber for an optional one. */
  function IndicatorColor(configured: bool, essential: bool): Color
  {
    if configured then Green else if essential then Red else Amber
  }

  /** What the component renders: nothing when every service is configured,
      otherwise the four indicators. */
  function Panel(c: ConfigStatus): (p: Option<seq<Indicator>>)
    ensures p.None? <==> AllConfigured(c)
    ensures p.Some? ==> |p.value| == 4
    ensures p.Some? ==> forall i :: 0 <= i < 4 ==> p.value[i].service == Services[i]
    ensures p.Some? ==> forall i :: 0 <= i < 4 ==>
      && (p.value[i].color == Green <==> Values(c)[i])
      && (p.value[i].color == Red <==> !Values(c)[i] && i < 2)
      && (p.value[i].color == Amber <==> !Values(c)[i] && i >= 2)
  {
    if AllConfigured(c) then None
    else Some([
      Indicator("Supabase Database", IndicatorColor(c.supabase, true)),
      Indicator("Gemini AI", IndicatorColor(c.gemini, true)),
      Indicator("Email Service", IndicatorColor(c.resend, false)),
      Indicator("GitHub API", IndicatorColor(c.github, false))])
  }

  /** A key still holding the sample placeholder keeps the banner up and marks Gemini red. */
  lemma PlaceholderGeminiKeyShowsRed(env: Environment)
    requires "GEMINI_API_KEY" in env && IsSubstring("your_actual", env["GEMINI_API_KEY"])
    ensures Panel(CheckConfig(env)).Some?
    ensures Panel(CheckConfig(env)).value[1].color == Red
  {
  }
}
