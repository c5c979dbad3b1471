/** The agent's world state: what the user owns, what the weather is and
    whether it has been looked up, which activity was chosen, and the
    purchase log. The source keeps one such record per process and updates
    its fields in place; here it is an `AgentState` object handed to every
    operation explicitly. */
module State {
  import opened Text

  datatype WeatherCondition = Sunny | Raining | Snowing | Unknown {
    /** The enum member's string value. */
    function Value(): (s: string)
      ensures s != [] && '\n' !in s
    {
      match this
      case Sunny => "sunny"
      case Raining => "raining"
      case Snowing => "snowing"
      case Unknown => "unknown"
    }
  }

  datatype Activity = PlayGames | GoCamping | Swimming {
    /** The enum member's string value. */
    function Value(): (s: string)
      ensures s != [] && '\n' !in s
    {
      match this
      case PlayGames => "Play games"
      case GoCamping => "Go Camping"
      case Swimming => "Swimming"
    }
  }

  /** `Activity(s)`: the member whose value is exactly `s`, if any. */
  function ActivityOf(s: string): (r: Option<Activity>)
    ensures r.Some? ==> r.value.Value() == s
    ensures r.None? ==> forall a: Activity :: a.Value() != s
  {
    if s == "Play games" then Some(PlayGames)
    else if s == "Go Camping" then Some(GoCamping)
    else if s == "Swimming" then Some(Swimming)
    else None
  }

  lemma ActivityOfValue(a: Activity)
    ensures ActivityOf(a.Value()) == Some(a)
  {
  }

  /** The value of every field of an `AgentState`, used to state what an
      operation changes and what it leaves alone. */
  datatype StateView = StateView(
    inventory: set<string>,
    weather: WeatherCondition,
    weatherChecked: bool,
    chosenActivity: Option<Activity>,
    shoppingHistory: seq<string>)

  /** The field defaults of a freshly constructed state. */
  const InitialView: StateView := StateView({}, Unknown, false, None, [])

  /** A known weather has always been looked up. */
  predicate WeatherConsistent(v: StateView) {
    v.weather != Unknown ==> v.weatherChecked
  }

  /** Whether a listing enumerates a set once per element, as iterating a
      Python set does (in an order the language leaves unspecified). */
  ghost predicate IsListingOf(order: seq<string>, s: set<string>) {
    && (forall x :: x in order <==> x in s)
    && (forall i, j :: 0 <= i < j < |order| ==> order[i] != order[j])
  }

  class AgentState {
    var inventory: set<string>
    var weather: WeatherCondition
    var weatherChecked: bool
    var chosenActivity: Option<Activity>
    var shoppingHistory: seq<string>

    function View(): StateView
      reads this
    {
      StateView(inventory, weather, weatherChecked, chosenActivity, shoppingHistory)
    }

    constructor ()
      ensures View() == InitialView
      ensures WeatherConsistent(View())
    {
      inventory := {};
      weather := Unknown;
      weatherChecked := false;
      chosenActivity := None;
      shoppingHistory := [];
    }

    /** Adds the item as given (no validation, no case folding) and logs the
        purchase; a duplicate leaves the set alone but is still logged. */
    method AddToInventory(item: string)
      modifies this
      ensures View() == old(View()).(inventory := old(inventory) + {item},
                                     shoppingHistory := old(shoppingHistory) + [item])
      ensures HasItem(item)
      ensures item in old(inventory) ==> inventory == old(inventory)
      ensures |shoppingHistory| == |old(shoppingHistory)| + 1
      ensures WeatherConsistent(old(View())) ==> WeatherConsistent(View())
    {
      inventory := inventory + {item};
      shoppingHistory := shoppingHistory + [item];
    }

    predicate HasItem(item: string)
      reads this
    {
      item in inventory
    }

    /** `all(self.has_item(item) for item in items)`: stops at the first item
        that is not owned. */
    method HasItems(items: seq<string>) returns (b: bool)
      ensures b <==> forall i :: 0 <= i < |items| ==> items[i] in inventory
      ensures items == [] ==> b
    {
      var i := 0;
      while i < |items|
        invariant 0 <= i <= |items|
        invariant forall j :: 0 <= j < i ==> items[j] in inventory
      {
        if !HasItem(items[i]) {
          return false;
        }
        i := i + 1;
      }
      return true;
    }

    /** Records the weather and marks it as checked; nothing else changes. */
    method SetWeather(w: WeatherCondition)
      modifies this
      ensures View() == old(View()).(weather := w, weatherChecked := true)
      ensures WeatherConsistent(View())
    {
      weather := w;
      weatherChecked := true;
    }

    /** Records the chosen activity, replacing any earlier choice; nothing
        else changes. */
    method SetActivity(a: Activity)
      modifies this
      ensures View() == old(View()).(chosenActivity := Some(a))
      ensures WeatherConsistent(old(View())) ==> WeatherConsistent(View())
    {
      chosenActivity := Some(a);
    }

    /** The lines of `get_summary`, given the order in which iterating the
        inventory set yields its elements. */
    function SummaryLines(order: seq<string>): (r: seq<string>)
      reads this
      requires IsListingOf(order, inventory)
      ensures |r| == if chosenActivity.Some? then 4 else 3
      ensures inventory == {} ==> r[0] == "Inventory: Empty"
      ensures inventory != {} ==> r[0] == "Inventory: " + Join(order, ", ")
      ensures r[1] == "Weather: " + weather.Value()
      ensures r[2] == "Weather checked: " + (if weatherChecked then "True" else "False")
      ensures chosenActivity.Some? ==> r[3] == "Chosen activity: " + chosenActivity.value.Value()
    {
      var inv := if inventory != {} then Join(order, ", ") else "Empty";
      var base := ["Inventory: " + inv,
                   "Weather: " + weather.Value(),
                   "Weather checked: " + (if weatherChecked then "True" else "False")];
      if chosenActivity.Some? then base + ["Chosen activity: " + chosenActivity.value.Value()]
      else base
    }

    /** The summary has a "Chosen activity:" line iff an activity is set. */
    lemma ActivityLineIffChosen(order: seq<string>)
      requires IsListingOf(order, inventory)
      ensures var r := SummaryLines(order);
        (exists k :: 0 <= k < |r| && StartsWith(r[k], "Chosen activity:")) <==> chosenActivity.Some?
    {
      var r := SummaryLines(order);
      assert r[0][0] == 'I' && r[1][0] == 'W' && r[2][0] == 'W';
      assert "Chosen activity:"[0] == 'C';
      assert forall k :: 0 <= k < 3 ==> !StartsWith(r[k], "Chosen activity:");
      if chosenActivity.Some? {
        assert r[3][..16] == "Chosen activity:";
        assert StartsWith(r[3], "Chosen activity:");
      }
    }

    /** `get_summary`: the summary lines joined by newlines. */
    function GetSummary(order: seq<string>): (s: string)
      reads this
      requires IsListingOf(order, inventory)
      ensures StartsWith(s, SummaryLines(order)[0])
    {
      Join(SummaryLines(order), "\n")
    }
  }

  /** With no line break in any inventory name, the summary splits back
      into exactly its lines, so a reader of the text sees the activity line
      iff an activity is set. */
  lemma SummarySplitsIntoLines(s: AgentState, order: seq<string>)
    requires IsListingOf(order, s.inventory)
    requires forall x :: x in s.inventory ==> '\n' !in x
    ensures Split(s.GetSummary(order), '\n') == s.SummaryLines(order)
    ensures (exists k :: 0 <= k < |Split(s.GetSummary(order), '\n')|
               && StartsWith(Split(s.GetSummary(order), '\n')[k], "Chosen activity:"))
            <==> s.chosenActivity.Some?
  {
    SummaryLinesUnbroken(s, order);
    SplitOfJoin(s.SummaryLines(order), '\n');
    s.ActivityLineIffChosen(order);
  }

  /** No summary line holds a line break when no inventory name does. */
  lemma SummaryLinesUnbroken(s: AgentState, order: seq<string>)
    requires IsListingOf(order, s.inventory)
    requires forall x :: x in s.inventory ==> '\n' !in x
    ensures forall k :: 0 <= k < |s.SummaryLines(order)| ==> '\n' !in s.SummaryLines(order)[k]
  {
    var lines := s.SummaryLines(order);
    InventoryLineUnbroken(s, order);
    var flag := if s.weatherChecked then "True" else "False";
    assert '\n' !in flag;
    assert lines[2] == "Weather checked: " + flag;
    assert '\n' !in lines[1] && '\n' !in lines[2];
    if s.chosenActivity.Some? {
      assert '\n' !in lines[3];
    }
  }

  lemma InventoryLineUnbroken(s: AgentState, order: seq<string>)
    requires IsListingOf(order, s.inventory)
    requires forall x :: x in s.inventory ==> '\n' !in x
    ensures '\n' !in s.SummaryLines(order)[0]
  {
    assert forall i :: 0 <= i < |order| ==> '\n' !in order[i] by {
      forall i | 0 <= i < |order| ensures '\n' !in order[i] {
        assert order[i] in s.inventory;
      }
    }
    JoinAvoids(order, ", ", '\n');
  }

  /** An inventory name holding a line break forges a line of its own: when
      the text after the break reads like an activity line, the printed
      summary shows a "Chosen activity:" line although none is set. */
  lemma NewlineInItemForgesLine(s: AgentState, a: string, b: string)
    requires s.inventory == {a + "\n" + b} && '\n' !in a && '\n' !in b
    requires StartsWith(b, "Chosen activity:") && s.chosenActivity.None?
    ensures |Split(s.GetSummary([a + "\n" + b]), '\n')| > 1
    ensures Split(s.GetSummary([a + "\n" + b]), '\n')[1] == b
  {
    var order := [a + "\n" + b];
    var lines := s.SummaryLines(order);
    var head := "Inventory: " + a;
    assert lines[0] == head + ['\n'] + b;
    var rest := Join(lines[1..], "\n");
    assert s.GetSummary(order) == head + ['\n'] + (b + ['\n'] + rest);
    SplitCons(head, b + ['\n'] + rest, '\n');
    SplitCons(b, rest, '\n');
  }

  /** An inventory holding a single item literally named "Empty" has the same
      first summary line as an empty inventory. */
  lemma EmptyInventoryLineAmbiguous(s: AgentState)
    requires s.inventory == {"Empty"}
    ensures s.SummaryLines(["Empty"])[0] == "Inventory: Empty"
  {
  }

  /** `reset_state`: a brand-new state with every field at its default. */
  method ResetState() returns (s: AgentState)
    ensures fresh(s)
    ensures s.View() == InitialView
  {
    s := new AgentState();
  }
}
