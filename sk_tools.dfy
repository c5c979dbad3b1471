/** The Semantic-Kernel plugin functions: each runs its validations and rule
    checks in a fixed order, returns an error string at the first one that
    fails, and otherwise makes one change to the world state and reports it.
    The plugin objects hold no fields, so their functions are methods of this
    module that receive the world state and the rule engine explicitly. */
module SkTools {
  import opened Text
  import opened State
  import opened Items
  import opened Rules

  // ---------------------------------------------------------------------
  // Messages

  const ViolationPrefix := "\U{274C} Rule violation: "
  const NoItemMessage := "\U{274C} No item specified for purchase."
  const NoActivityMessage := "\U{274C} No activity specified."

  /** `[a.value for a in Activity]`. */
  const ActivityValues := [PlayGames.Value(), GoCamping.Value(), Swimming.Value()]

  const InvalidActivityMessage := "\U{274C} Invalid activity. Choose from: " + Join(ActivityValues, ", ")
  const StatusIcon := "\U{1F4CA} "
  const WeatherIcon := "\U{1F324}\U{FE0F} "

  function Violation(reason: string): (msg: string)
    ensures StartsWith(msg, ViolationPrefix)
    ensures msg[|ViolationPrefix|..] == reason
  {
    var msg := ViolationPrefix + reason;
    assert msg[..|ViolationPrefix|] == ViolationPrefix;
    msg
  }

  function InvalidItemMessage(item: string): string {
    "\U{274C} Invalid item '" + item + "'. Available items: " + Join(GetAllItems(), ", ")
  }

  function WeatherCompleteMessage(w: WeatherCondition): string {
    WeatherIcon + "Weather check complete! Current weather: " + w.Value() + "\n"
    + StatusIcon + "Weather status: Known and checked"
  }

  function PurchasedMessage(item: string, inventoryText: string): string {
    "\U{1F6D2} Successfully purchased: " + item + ". Added to inventory!\n"
    + StatusIcon + "Current inventory: " + inventoryText
  }

  function ChosenMessage(activity: string, inventoryText: string): string {
    "\U{1F3AF} Activity chosen: " + activity + "! Have fun!\n"
    + StatusIcon + "Current activity: " + activity + "\n"
    + StatusIcon + "Current inventory: " + inventoryText
  }

  /** The inventory as the plugins print it: the sorted names comma-joined,
      or "Empty" for an empty inventory. The text is empty only for an
      inventory holding just the empty name, which the unvalidated shopping
      tool can store. */
  ghost function InventoryListing(inventory: set<string>): (t: string)
    ensures inventory == {} ==> t == "Empty"
    ensures t == [] <==> inventory == {""}
  {
    if inventory == {} then "Empty"
    else
      var xs := SortedOf(inventory);
      assert xs != [] by {
        var x :| x in inventory;
        assert x in xs;
      }
      if |xs| == 1 then
        assert inventory == {xs[0]} by {
          forall y | y in inventory ensures y == xs[0] {
            assert y in xs;
          }
        }
        Join(xs, ", ")
      else
        assert xs[0] in inventory && xs[1] in inventory && xs[0] != xs[1];
        Join(xs, ", ")
  }

  /** The listing of a non-empty inventory is its strictly ascending
      enumeration, joined with ", ": `sorted` fixes the order completely. */
  lemma InventoryListingIsSortedJoin(inventory: set<string>, xs: seq<string>)
    requires inventory != {}
    requires StrictlySorted(xs) && forall y :: y in xs <==> y in inventory
    ensures InventoryListing(inventory) == Join(xs, ", ")
  {
    SortedListingUnique(xs, SortedOf(inventory));
  }

  /** `', '.join(a.value for a in Activity)`, the list the invalid-activity
      message quotes. */
  lemma ActivityChoicesText()
    ensures Join(ActivityValues, ", ") == "Play games, Go Camping, Swimming"
  {
    var xs := ActivityValues;
    assert xs[1..] == ["Go Camping", "Swimming"];
    assert xs[1..][1..] == ["Swimming"];
  }

  /** Membership in the activity values is exactly being an activity. */
  lemma ActivityValuesMembership(s: string)
    ensures s in ActivityValues <==> ActivityOf(s).Some?
  {
  }

  /** `if rule_violation:` on an optional reason. */
  predicate Truthy(violation: Option<string>) {
    violation.Some? && violation.value != []
  }

  // ---------------------------------------------------------------------
  // The rule helpers of the plugin base class

  /** `check_tool_rules`: the reason of the tool-rule denial, if any. Only
      "check_weather" on a state whose weather is checked and known is ever
      denied. */
  method CheckToolRules(state: AgentState, engine: RuleEngine, toolName: string)
    returns (violation: Option<string>)
    ensures violation.Some? <==> toolName == "check_weather" && state.weatherChecked && state.weather != Unknown
    ensures violation.Some? ==> violation.value == WeatherKnownReason
  {
    var result := engine.CheckToolRules(state, toolName);
    ToolVerdictCases(state.View(), toolName);
    if !result.allowed {
      return result.reason;
    }
    return None;
  }

  /** `check_activity_rules`: the reason of the first activity-rule denial. */
  method CheckActivityRules(state: AgentState, engine: RuleEngine, activity: string)
    returns (violation: Option<string>)
    ensures violation.None? <==> ActivityVerdict(state.View(), activity).allowed
    ensures violation.Some? ==> violation == ActivityVerdict(state.View(), activity).reason && violation.value != []
  {
    var result := engine.CheckActivityRules(state, activity);
    if !result.allowed {
      return result.reason;
    }
    return None;
  }

  /** `', '.join(sorted(state.inventory)) if state.inventory else 'Empty'`. */
  method InventoryText(state: AgentState) returns (t: string)
    ensures t == InventoryListing(state.inventory)
  {
    if state.inventory == {} {
      return "Empty";
    }
    var names := SortedListing(state.inventory);
    t := Join(names, ", ");
  }

  // ---------------------------------------------------------------------
  // The plugin functions

  /** `WeatherPlugin.check_weather`: refused once the weather is known;
      otherwise a random pick among sunny, raining and snowing becomes the
      checked weather. */
  method CheckWeather(state: AgentState, engine: RuleEngine) returns (msg: string)
    modifies state
    ensures old(state.weatherChecked && state.weather != Unknown) ==>
      msg == Violation(WeatherKnownReason) && state.View() == old(state.View())
    ensures !old(state.weatherChecked && state.weather != Unknown) ==>
      && state.weather in {Sunny, Raining, Snowing}
      && state.View() == old(state.View()).(weather := state.weather, weatherChecked := true)
      && msg == WeatherCompleteMessage(state.weather)
    ensures WeatherConsistent(state.View())
  {
    var violation := CheckToolRules(state, engine, "check_weather");
    if Truthy(violation) {
      match violation
      case Some(reason) => return Violation(reason);
    }
    var current := state.weather;
    if state.weatherChecked && current != Unknown {
      assert false;
      return WeatherIcon + "Weather already checked! Current weather: " + current.Value() + "\n"
        + StatusIcon + "Weather status: Known and checked";
    }
    var w :| w in {Sunny, Raining, Snowing};
    state.SetWeather(w);
    msg := WeatherCompleteMessage(w);
  }

  /** `ShoppingPlugin.shopping`: an empty name and a name outside the
      catalogue are refused with nothing bought; a catalogue item is added to
      the inventory and logged. */
  method Shopping(state: AgentState, engine: RuleEngine, item: string) returns (msg: string)
    modifies state
    ensures item == [] ==> msg == NoItemMessage && state.View() == old(state.View())
    ensures item != [] && !IsValidItem(item) ==>
      msg == InvalidItemMessage(item) && state.View() == old(state.View())
    ensures item != [] && IsValidItem(item) ==>
      && state.View() == old(state.View()).(inventory := old(state.inventory) + {item},
                                           shoppingHistory := old(state.shoppingHistory) + [item])
      && msg == PurchasedMessage(item, InventoryListing(state.inventory))
    ensures WeatherConsistent(old(state.View())) ==> WeatherConsistent(state.View())
  {
    if item == [] {
      return NoItemMessage;
    }
    var violation := CheckToolRules(state, engine, "shopping");
    if Truthy(violation) {
      match violation
      case Some(reason) => return Violation(reason);
    }
    if !IsValidItem(item) {
      return InvalidItemMessage(item);
    }
    state.AddToInventory(item);
    var inv := InventoryText(state);
    msg := PurchasedMessage(item, inv);
  }

  /** `ActivityPlugin.choose_activity`: the activity string is validated
      before any rule runs; then the activity rules and the tool rules are
      consulted, and only if all allow is the choice recorded. */
  method ChooseActivity(state: AgentState, engine: RuleEngine, activity: string) returns (msg: string)
    modifies state
    ensures activity == [] ==> msg == NoActivityMessage && state.View() == old(state.View())
    ensures activity != [] && ActivityOf(activity).None? ==>
      msg == InvalidActivityMessage && state.View() == old(state.View())
    ensures ActivityOf(activity).Some? && !ActivityVerdict(old(state.View()), activity).allowed ==>
      && msg == Violation(ActivityVerdict(old(state.View()), activity).reason.value)
      && state.View() == old(state.View())
    ensures ActivityOf(activity).Some? && ActivityVerdict(old(state.View()), activity).allowed ==>
      && state.View() == old(state.View()).(chosenActivity := ActivityOf(activity))
      && msg == ChosenMessage(activity, InventoryListing(state.inventory))
    ensures WeatherConsistent(old(state.View())) ==> WeatherConsistent(state.View())
  {
    if activity == [] {
      return NoActivityMessage;
    }
    ActivityValuesMembership(activity);
    if activity !in ActivityValues {
      return InvalidActivityMessage;
    }
    var violation := CheckActivityRules(state, engine, activity);
    if Truthy(violation) {
      match violation
      case Some(reason) => return Violation(reason);
    }
    var toolViolation := CheckToolRules(state, engine, "choose_activity");
    if Truthy(toolViolation) {
      match toolViolation
      case Some(reason) => return Violation(reason);
    }
    var a := ActivityOf(activity);
    state.SetActivity(a.value);
    var inv := InventoryText(state);
    msg := ChosenMessage(activity, inv);
  }

  /** The four lines of the `check_state` report. */
  ghost function StateReportLines(v: StateView): (lines: seq<string>)
    ensures |lines| == 4
    ensures lines[0] == StatusIcon + "**Current Agent State:**"
    ensures lines[1] == "\U{1F392} Inventory: " + InventoryListing(v.inventory)
    ensures lines[2] == WeatherIcon + "Weather: " + v.weather.Value()
      + (if v.weatherChecked then " (Known)" else " (Unknown)")
    ensures v.chosenActivity.None? <==> lines[3] == "\U{1F3AF} Current Activity: None chosen"
  {
    var last := "\U{1F3AF} Current Activity: "
      + (if v.chosenActivity.Some? then v.chosenActivity.value.Value() else "None chosen");
    NoActivityIsCalledNoneChosen(v.chosenActivity);
    [StatusIcon + "**Current Agent State:**",
     "\U{1F392} Inventory: " + InventoryListing(v.inventory),
     WeatherIcon + "Weather: " + v.weather.Value() + (if v.weatherChecked then " (Known)" else " (Unknown)"),
     last]
  }

  /** No activity's value reads "None chosen", so the report tells a chosen
      activity apart from none. */
  lemma NoActivityIsCalledNoneChosen(a: Option<Activity>)
    ensures a.Some? ==>
      ("\U{1F3AF} Current Activity: " + a.value.Value() != "\U{1F3AF} Current Activity: None chosen")
  {
    if a.Some? {
      var p := "\U{1F3AF} Current Activity: ";
      var x := p + a.value.Value();
      var y := p + "None chosen";
      assert x[|p|] != y[|p|];
    }
  }

  /** `StatePlugin.check_state`: reads the state and changes nothing. */
  method CheckState(state: AgentState) returns (msg: string)
    ensures msg == Join(StateReportLines(state.View()), "\n")
  {
    var inv := InventoryText(state);
    var known := if state.weatherChecked then " (Known)" else " (Unknown)";
    var current := if state.chosenActivity.Some? then state.chosenActivity.value.Value() else "None chosen";
    var lines := [StatusIcon + "**Current Agent State:**",
                  "\U{1F392} Inventory: " + inv,
                  WeatherIcon + "Weather: " + state.weather.Value() + known,
                  "\U{1F3AF} Current Activity: " + current];
    assert lines == StateReportLines(state.View());
    msg := Join(lines, "\n");
  }
}
