/** The business-rule engine: seven stateless rules over the world state,
    and an engine that evaluates them in a fixed order and reports the first
    denial. */
module Rules {
  import opened Text
  import opened State
  import opened Items

  /** Outcome of evaluating a rule. */
  datatype RuleResult = RuleResult(allowed: bool, reason: Option<string>)

  const Allowed: RuleResult := RuleResult(true, None)

  function Denied(reason: string): RuleResult {
    RuleResult(false, Some(reason))
  }

  /** Either allowed with no reason, or denied with a non-empty reason. */
  predicate WellFormed(r: RuleResult) {
    (r.allowed <==> r.reason.None?) && (r.reason.Some? ==> r.reason.value != [])
  }

  // ---------------------------------------------------------------------
  // Denial reasons

  const GamingReasonPrefix := "Cannot play games. Missing required items: "
  const MissingBootsReason := "Cannot go camping. Missing required item: " + HikingBoots.Value()
  const MissingGogglesReason := "Cannot go swimming. Missing required item: " + Goggles.Value()
  const RainingReason := "Cannot go camping because it's raining"
  const SnowingReason := "Cannot go swimming because it's snowing"
  const UnknownWeatherReason := "Weather is unknown. You can only play games until weather is checked"
  const WeatherKnownReason := "Weather has already been checked and is known. Cannot check weather again"

  /** The Play Games rule's reason: the missing names, comma-joined. */
  function MissingGamingReason(missing: seq<Item>): string {
    GamingReasonPrefix + Join(Values(missing), ", ")
  }

  // ---------------------------------------------------------------------
  // The seven rules

  datatype Rule =
    | PlayGamesRule
    | CampingEquipmentRule
    | SwimmingEquipmentRule
    | CampingWeatherRule
    | SwimmingWeatherRule
    | UnknownWeatherRule
    | WeatherCheckRule
  {
    function Description(): string {
      match this
      case PlayGamesRule =>
        "The user must have a " + TV.Value() + " and an " + Xbox.Value() + " before they can play games"
      case CampingEquipmentRule =>
        "The user must have " + HikingBoots.Value() + " before they can go camping"
      case SwimmingEquipmentRule =>
        "The user must have " + Goggles.Value() + " before they can go swimming"
      case CampingWeatherRule => "If the weather is raining, the user cannot go camping"
      case SwimmingWeatherRule => "If the weather is snowing, the user cannot go swimming"
      case UnknownWeatherRule => "If the weather is unknown, the user can only play games"
      case WeatherCheckRule =>
        "If the weather is already known, the weather tool cannot be called again. Do not call weather tool twice."
    }

    /** The classes `check_activity_rules` selects with `isinstance`. */
    predicate IsActivityRule() {
      !WeatherCheckRule?
    }
  }

  /** Players need a TV and an Xbox; the reason lists what is missing. */
  function CheckPlayGames(s: StateView, activity: Option<string>): (r: RuleResult)
    ensures WellFormed(r)
    ensures r.allowed <==> activity != Some("Play games") || ("TV" in s.inventory && "Xbox" in s.inventory)
    ensures !r.allowed ==> r == Denied(MissingGamingReason(GetMissingItems("Play games", s.inventory)))
  {
    if activity != Some(PlayGames.Value()) then Allowed
    else
      var missing := GetMissingItems(activity.value, s.inventory);
      MissingGamingGear(s.inventory);
      if missing == [] then Allowed
      else Denied(GamingReasonPrefix + Join(Values(missing), ", "))
  }

  /** Campers need Hiking Boots. */
  function CheckCampingEquipment(s: StateView, activity: Option<string>): (r: RuleResult)
    ensures WellFormed(r)
    ensures r.allowed <==> activity != Some("Go Camping") || "Hiking Boots" in s.inventory
    ensures !r.allowed ==> r == Denied(MissingBootsReason)
  {
    if activity != Some(GoCamping.Value()) then Allowed
    else
      var missing := GetMissingItems(activity.value, s.inventory);
      assert GetRequirementsForActivity(activity.value) == [HikingBoots];
      if missing == [] then Allowed
      else Denied("Cannot go camping. Missing required item: " + HikingBoots.Value())
  }

  /** Swimmers need Goggles. */
  function CheckSwimmingEquipment(s: StateView, activity: Option<string>): (r: RuleResult)
    ensures WellFormed(r)
    ensures r.allowed <==> activity != Some("Swimming") || "Goggles" in s.inventory
    ensures !r.allowed ==> r == Denied(MissingGogglesReason)
  {
    if activity != Some(Swimming.Value()) then Allowed
    else
      var missing := GetMissingItems(activity.value, s.inventory);
      assert GetRequirementsForActivity(activity.value) == [Goggles];
      if missing == [] then Allowed
      else Denied("Cannot go swimming. Missing required item: " + Goggles.Value())
  }

  /** No camping in the rain. */
  function CheckCampingWeather(s: StateView, activity: Option<string>): (r: RuleResult)
    ensures WellFormed(r)
    ensures r.allowed <==> activity != Some("Go Camping") || s.weather != Raining
    ensures !r.allowed ==> r == Denied(RainingReason)
  {
    if activity != Some(GoCamping.Value()) then Allowed
    else if s.weather == Raining then Denied("Cannot go camping because it's raining")
    else Allowed
  }

  /** No swimming in the snow. */
  function CheckSwimmingWeather(s: StateView, activity: Option<string>): (r: RuleResult)
    ensures WellFormed(r)
    ensures r.allowed <==> activity != Some("Swimming") || s.weather != Snowing
    ensures !r.allowed ==> r == Denied(SnowingReason)
  {
    if activity != Some(Swimming.Value()) then Allowed
    else if s.weather == Snowing then Denied("Cannot go swimming because it's snowing")
    else Allowed
  }

  /** While the weather is unknown only "Play games" passes, whatever else the
      activity string is (an absent activity included). */
  function CheckUnknownWeather(s: StateView, activity: Option<string>): (r: RuleResult)
    ensures WellFormed(r)
    ensures r.allowed <==> s.weather != Unknown || activity == Some("Play games")
    ensures !r.allowed ==> r == Denied(UnknownWeatherReason)
  {
    if s.weather != Unknown then Allowed
    else if activity == Some(PlayGames.Value()) then Allowed
    else Denied("Weather is unknown. You can only play games until weather is checked")
  }

  /** The weather tool may not run once the weather is known. */
  function CheckWeatherCheck(s: StateView, toolName: Option<string>): (r: RuleResult)
    ensures WellFormed(r)
    ensures r.allowed <==> !(toolName == Some("check_weather") && s.weatherChecked && s.weather != Unknown)
    ensures !r.allowed ==> r == Denied(WeatherKnownReason)
  {
    if toolName != Some("check_weather") then Allowed
    else if s.weatherChecked && s.weather != Unknown then
      Denied("Weather has already been checked and is known. Cannot check weather again")
    else Allowed
  }

  /** `rule.check(state, activity=..., tool_name=...)`: each rule looks only at
      the keyword it cares about. */
  function Check(rule: Rule, s: StateView, activity: Option<string>, toolName: Option<string>): (r: RuleResult)
    ensures WellFormed(r)
  {
    match rule
    case PlayGamesRule => CheckPlayGames(s, activity)
    case CampingEquipmentRule => CheckCampingEquipment(s, activity)
    case SwimmingEquipmentRule => CheckSwimmingEquipment(s, activity)
    case CampingWeatherRule => CheckCampingWeather(s, activity)
    case SwimmingWeatherRule => CheckSwimmingWeather(s, activity)
    case UnknownWeatherRule => CheckUnknownWeather(s, activity)
    case WeatherCheckRule => CheckWeatherCheck(s, toolName)
  }

  /** An equipment or weather rule allows every activity but its own target. */
  lemma {:induction false} RulesIgnoreOtherActivities(s: StateView, a: string)
    ensures a != "Play games" ==> CheckPlayGames(s, Some(a)).allowed
    ensures a != "Go Camping" ==> CheckCampingEquipment(s, Some(a)).allowed && CheckCampingWeather(s, Some(a)).allowed
    ensures a != "Swimming" ==> CheckSwimmingEquipment(s, Some(a)).allowed && CheckSwimmingWeather(s, Some(a)).allowed
  {
  }

  // ---------------------------------------------------------------------
  // The engine

  /** The rule list in the order the engine holds it. */
  const DefaultRules: seq<Rule> := [
    PlayGamesRule, CampingEquipmentRule, SwimmingEquipmentRule,
    CampingWeatherRule, SwimmingWeatherRule, UnknownWeatherRule, WeatherCheckRule]

  /** What the loop of `check_activity_rules` computes: the first denial among
      the activity rules of `rules`, in list order, or allow. */
  function FirstActivityDenial(rules: seq<Rule>, s: StateView, activity: string): (r: RuleResult)
    ensures WellFormed(r)
  {
    if rules == [] then Allowed
    else if rules[0].IsActivityRule() && !Check(rules[0], s, Some(activity), None).allowed then
      Check(rules[0], s, Some(activity), None)
    else FirstActivityDenial(rules[1..], s, activity)
  }

  /** What the loop of `check_tool_rules` computes: the first denial among the
      Weather Check rules of `rules`, or allow. */
  function FirstToolDenial(rules: seq<Rule>, s: StateView, toolName: string): (r: RuleResult)
    ensures WellFormed(r)
  {
    if rules == [] then Allowed
    else if rules[0].WeatherCheckRule? && !Check(rules[0], s, None, Some(toolName)).allowed then
      Check(rules[0], s, None, Some(toolName))
    else FirstToolDenial(rules[1..], s, toolName)
  }

  /** The engine's verdict on choosing an activity. */
  function ActivityVerdict(s: StateView, activity: string): RuleResult {
    FirstActivityDenial(DefaultRules, s, activity)
  }

  /** The engine's verdict on running a tool. */
  function ToolVerdict(s: StateView, toolName: string): RuleResult {
    FirstToolDenial(DefaultRules, s, toolName)
  }

  /** Unrolls the verdict over the default list: the six activity rules in
      order, then nothing. */
  lemma {:induction false} ActivityVerdictUnrolled(s: StateView, a: string)
    ensures ActivityVerdict(s, a) ==
      var act := Some(a);
      if !CheckPlayGames(s, act).allowed then CheckPlayGames(s, act)
      else if !CheckCampingEquipment(s, act).allowed then CheckCampingEquipment(s, act)
      else if !CheckSwimmingEquipment(s, act).allowed then CheckSwimmingEquipment(s, act)
      else if !CheckCampingWeather(s, act).allowed then CheckCampingWeather(s, act)
      else if !CheckSwimmingWeather(s, act).allowed then CheckSwimmingWeather(s, act)
      else if !CheckUnknownWeather(s, act).allowed then CheckUnknownWeather(s, act)
      else Allowed
  {
    UnrolledWeatherRules(s, a);
    var act := Some(a);
    var rs := DefaultRules;
    DenialAt(s, a, 2);
    assert FirstActivityDenial(rs[2..], s, a) ==
      if !CheckSwimmingEquipment(s, act).allowed then CheckSwimmingEquipment(s, act)
      else FirstActivityDenial(rs[3..], s, a);
    DenialAt(s, a, 1);
    assert FirstActivityDenial(rs[1..], s, a) ==
      if !CheckCampingEquipment(s, act).allowed then CheckCampingEquipment(s, act)
      else FirstActivityDenial(rs[2..], s, a);
    DenialAt(s, a, 0);
    assert rs[0..] == rs;
  }

  /** The scan over the last four rules: the three weather rules, then the
      Weather Check rule, which the activity scan skips. */
  lemma UnrolledWeatherRules(s: StateView, a: string)
    ensures FirstActivityDenial(DefaultRules[3..], s, a) ==
      var act := Some(a);
      if !CheckCampingWeather(s, act).allowed then CheckCampingWeather(s, act)
      else if !CheckSwimmingWeather(s, act).allowed then CheckSwimmingWeather(s, act)
      else if !CheckUnknownWeather(s, act).allowed then CheckUnknownWeather(s, act)
      else Allowed
  {
    var act := Some(a);
    var rs := DefaultRules;
    DenialAt(s, a, 6);
    assert rs[7..] == [];
    assert FirstActivityDenial(rs[6..], s, a) == Allowed;
    DenialAt(s, a, 5);
    assert FirstActivityDenial(rs[5..], s, a) ==
      if !CheckUnknownWeather(s, act).allowed then CheckUnknownWeather(s, act) else Allowed;
    DenialAt(s, a, 4);
    assert FirstActivityDenial(rs[4..], s, a) ==
      if !CheckSwimmingWeather(s, act).allowed then CheckSwimmingWeather(s, act)
      else FirstActivityDenial(rs[5..], s, a);
    DenialAt(s, a, 3);
  }

  /** One step of the first-denial scan over the default list. */
  lemma DenialAt(s: StateView, a: string, i: nat)
    requires i < |DefaultRules|
    ensures FirstActivityDenial(DefaultRules[i..], s, a) ==
      if DefaultRules[i].IsActivityRule() && !Check(DefaultRules[i], s, Some(a), None).allowed
      then Check(DefaultRules[i], s, Some(a), None)
      else FirstActivityDenial(DefaultRules[i + 1..], s, a)
  {
    assert DefaultRules[i..][1..] == DefaultRules[i + 1..];
  }

  /** "Play games" depends on the gear alone: allowed under every weather
      exactly when a TV and an Xbox are held. */
  lemma {:induction false} PlayGamesVerdict(s: StateView)
    ensures ActivityVerdict(s, "Play games") ==
      if "TV" in s.inventory && "Xbox" in s.inventory then Allowed
      else Denied(MissingGamingReason(GetMissingItems("Play games", s.inventory)))
  {
    ActivityVerdictUnrolled(s, "Play games");
  }

  /** Camping: missing boots are reported first, then rain, then unknown
      weather. */
  lemma {:induction false} GoCampingVerdict(s: StateView)
    ensures ActivityVerdict(s, "Go Camping") ==
      if "Hiking Boots" !in s.inventory then Denied(MissingBootsReason)
      else if s.weather == Raining then Denied(RainingReason)
      else if s.weather == Unknown then Denied(UnknownWeatherReason)
      else Allowed
  {
    ActivityVerdictUnrolled(s, "Go Camping");
  }

  /** Swimming: missing goggles first, then snow, then unknown weather. */
  lemma {:induction false} SwimmingVerdict(s: StateView)
    ensures ActivityVerdict(s, "Swimming") ==
      if "Goggles" !in s.inventory then Denied(MissingGogglesReason)
      else if s.weather == Snowing then Denied(SnowingReason)
      else if s.weather == Unknown then Denied(UnknownWeatherReason)
      else Allowed
  {
    ActivityVerdictUnrolled(s, "Swimming");
  }

  /** Any other string is denied while the weather is unknown and passes once
      it is known. */
  lemma {:induction false} UnrecognisedActivityVerdict(s: StateView, a: string)
    requires ActivityOf(a).None?
    ensures ActivityVerdict(s, a) == if s.weather == Unknown then Denied(UnknownWeatherReason) else Allowed
  {
    ActivityVerdictUnrolled(s, a);
  }

  /** Camping in the rain is always denied; the rain is the reason given
      exactly when the boots are held. */
  lemma {:induction false} RainBlocksCamping(s: StateView)
    requires s.weather == Raining
    ensures !ActivityVerdict(s, "Go Camping").allowed
    ensures ActivityVerdict(s, "Go Camping").reason == Some(RainingReason) <==> "Hiking Boots" in s.inventory
  {
    GoCampingVerdict(s);
  }

  /** Missing gaming gear is reported even while the weather is unknown. */
  lemma {:induction false} GearReportedBeforeUnknownWeather(s: StateView)
    requires s.weather == Unknown && "TV" !in s.inventory && "Xbox" !in s.inventory
    ensures ActivityVerdict(s, "Play games") == Denied("Cannot play games. Missing required items: TV, Xbox")
  {
    PlayGamesVerdict(s);
    MissingGamingGear(s.inventory);
    assert GetMissingItems("Play games", s.inventory) == [TV] + [Xbox] == [TV, Xbox];
    BothGamingItemsReason();
  }

  /** The reason text when both gaming items are missing. */
  lemma BothGamingItemsReason()
    ensures MissingGamingReason([TV, Xbox]) == "Cannot play games. Missing required items: TV, Xbox"
  {
    var names := Values([TV, Xbox]);
    assert names == ["TV", "Xbox"];
    assert names[1..] == ["Xbox"];
    assert Join(names, ", ") == "TV, Xbox";
  }

  /** Only "check_weather" is ever denied by the tool rules, and only once the
      weather is checked and known. */
  lemma {:induction false} ToolVerdictCases(s: StateView, toolName: string)
    ensures ToolVerdict(s, toolName) ==
      if toolName == "check_weather" && s.weatherChecked && s.weather != Unknown
      then Denied(WeatherKnownReason) else Allowed
  {
    var rs := DefaultRules;
    var i := 0;
    while i < 6
      invariant 0 <= i <= 6
      invariant FirstToolDenial(rs, s, toolName) == FirstToolDenial(rs[i..], s, toolName)
    {
      assert !rs[i].WeatherCheckRule?;
      assert rs[i..][1..] == rs[i + 1..];
      i := i + 1;
    }
    assert rs[6..][0] == WeatherCheckRule && rs[6..][1..] == [];
  }

  /** An engine holds the fixed rule list and evaluates it on demand; it
      keeps no other state. */
  class RuleEngine {
    const rules: seq<Rule> := DefaultRules

    constructor ()
    {
    }

    /** `check_activity_rules`: the first denial among the activity rules,
        in list order, otherwise allow. */
    method CheckActivityRules(state: AgentState, activity: string) returns (r: RuleResult)
      ensures r == ActivityVerdict(state.View(), activity)
      ensures WellFormed(r)
    {
      var s := state.View();
      var i := 0;
      while i < |rules|
        invariant 0 <= i <= |rules|
        invariant FirstActivityDenial(rules[i..], s, activity) == ActivityVerdict(s, activity)
      {
        var rule := rules[i];
        assert rules[i..][1..] == rules[i + 1..];
        if rule.IsActivityRule() {
          var result := Check(rule, s, Some(activity), None);
          if !result.allowed {
            return result;
          }
        }
        i := i + 1;
      }
      return Allowed;
    }

    /** `check_tool_rules`: only the Weather Check rule is consulted. */
    method CheckToolRules(state: AgentState, toolName: string) returns (r: RuleResult)
      ensures r == ToolVerdict(state.View(), toolName)
      ensures WellFormed(r)
    {
      var s := state.View();
      var i := 0;
      while i < |rules|
        invariant 0 <= i <= |rules|
        invariant FirstToolDenial(rules[i..], s, toolName) == ToolVerdict(s, toolName)
      {
        var rule := rules[i];
        assert rules[i..][1..] == rules[i + 1..];
        if rule.WeatherCheckRule? {
          var result := Check(rule, s, None, Some(toolName));
          if !result.allowed {
            return result;
          }
        }
        i := i + 1;
      }
      return Allowed;
    }

    /** `get_rule_descriptions`: every rule's description, in list order. */
    function GetRuleDescriptions(): (r: seq<string>)
      ensures |r| == |rules|
      ensures forall k :: 0 <= k < |rules| ==> r[k] == rules[k].Description()
    {
      seq(|rules|, k requires 0 <= k < |rules| => rules[k].Description())
    }

    /** The summary's line for rule `k` carries that rule's description. */
    lemma DescriptionsInSummary(k: nat)
      requires k < |rules|
      ensures var line := NumberedLines(rules, 1)[k];
        line[|NatToString(k + 1)| + 2..|line| - 1] == GetRuleDescriptions()[k]
    {
    }

    /** `get_rules_summary`: a header line, then one numbered line per rule. */
    method GetRulesSummary() returns (summary: string)
      ensures summary == SummaryHeader + Concat(NumberedLines(rules, 1))
    {
      summary := SummaryHeader;
      var i := 0;
      while i < |rules|
        invariant 0 <= i <= |rules|
        invariant summary == SummaryHeader + Concat(NumberedLines(rules, 1)[..i])
      {
        ConcatStep(SummaryHeader, NumberedLines(rules, 1), i);
        summary := summary + RuleLine(i + 1, rules[i]);
        i := i + 1;
      }
      assert NumberedLines(rules, 1)[..i] == NumberedLines(rules, 1);
    }
  }

  const SummaryHeader := "Business Rules:\n"

  /** One turn of the summary loop: appending the next piece extends the
      concatenation of a prefix by one. */
  lemma ConcatStep(header: string, lines: seq<string>, i: nat)
    requires i < |lines|
    ensures header + Concat(lines[..i]) + lines[i] == header + Concat(lines[..i + 1])
  {
    ConcatAppend(lines[..i], lines[i]);
    assert lines[..i + 1] == lines[..i] + [lines[i]];
    assert header + Concat(lines[..i]) + lines[i] == header + (Concat(lines[..i]) + lines[i]);
  }

  /** The summary line for the rule numbered `n`. */
  function RuleLine(n: nat, rule: Rule): (line: string)
    ensures StartsWith(line, NatToString(n) + ". ")
    ensures |line| == |NatToString(n)| + 2 + |rule.Description()| + 1
    ensures line[|NatToString(n)| + 2..|line| - 1] == rule.Description()
    ensures line[|line| - 1] == '\n'
  {
    LineParts(NatToString(n) + ". ", rule.Description());
    NatToString(n) + ". " + rule.Description() + "\n"
  }

  lemma LineParts(num: string, body: string)
    ensures |num + body + "\n"| == |num| + |body| + 1
    ensures StartsWith(num + body + "\n", num)
    ensures (num + body + "\n")[|num|..|num + body + "\n"| - 1] == body
  {
    var line := num + body + "\n";
    assert line[..|num|] == num;
    assert line[|num|..|line| - 1] == body;
  }

  /** The numbered lines for `rules`, the first numbered `first`. */
  function NumberedLines(rules: seq<Rule>, first: nat): (lines: seq<string>)
    ensures |lines| == |rules|
    ensures forall k :: 0 <= k < |rules| ==> lines[k] == RuleLine(first + k, rules[k])
  {
    seq(|rules|, k requires 0 <= k < |rules| => RuleLine(first + k, rules[k]))
  }

  /** `"".join(lines)`. */
  function Concat(lines: seq<string>): string {
    if lines == [] then "" else lines[0] + Concat(lines[1..])
  }

  lemma {:induction false} ConcatAppend(lines: seq<string>, line: string)
    ensures Concat(lines + [line]) == Concat(lines) + line
  {
    if lines == [] {
      assert [] + [line] == [line];
    } else {
      ConcatAppend(lines[1..], line);
      assert (lines + [line])[1..] == lines[1..] + [line];
    }
  }

  /** Splits a concatenation around its `k`-th piece. */
  lemma {:induction false} ConcatAt(lines: seq<string>, k: nat)
    requires k < |lines|
    ensures Concat(lines) == Concat(lines[..k]) + lines[k] + Concat(lines[k + 1..])
  {
    if k == 0 {
      assert lines[..0] == [];
    } else {
      ConcatAt(lines[1..], k - 1);
      assert lines[1..][..k - 1] == lines[..k][1..];
      assert lines[1..][k..] == lines[k + 1..];
    }
  }

  /** Worked example of `ConcatAt` on the summary body: every rule's
      description appears on the line carrying its 1-based position, after
      the lines of the rules before it. */
  lemma {:induction false} SummaryListsRule(rules: seq<Rule>, k: nat)
    requires k < |rules|
    ensures Concat(NumberedLines(rules, 1)) ==
      Concat(NumberedLines(rules, 1)[..k]) + RuleLine(k + 1, rules[k]) + Concat(NumberedLines(rules, 1)[k + 1..])
  {
    ConcatAt(NumberedLines(rules, 1), k);
  }
}
