/** The item catalogue and the fixed gear each activity requires. */
module Items {
  import opened Text
  import opened State

  /** The five catalogue items, in declaration order. */
  datatype Item = TV | Xbox | HikingBoots | Goggles | Sunscreen {
    /** The enum member's string value (also what `str(item)` gives). */
    function Value(): (s: string)
      ensures s != []
    {
      match this
      case TV => "TV"
      case Xbox => "Xbox"
      case HikingBoots => "Hiking Boots"
      case Goggles => "Goggles"
      case Sunscreen => "Sunscreen"
    }
  }

  /** `list(Item)`: every member once, in declaration order. */
  const AllItems: seq<Item> := [TV, Xbox, HikingBoots, Goggles, Sunscreen]

  const PlayGamesRequirements: seq<Item> := [TV, Xbox]
  const GoCampingRequirements: seq<Item> := [HikingBoots]
  const SwimmingRequirements: seq<Item> := [Goggles]

  /** `get_requirements_for_activity`: the gear list of the activity whose
      value is exactly `activity`; any other string requires nothing. */
  function GetRequirementsForActivity(activity: string): (r: seq<Item>)
    ensures r != [] <==> ActivityOf(activity).Some?
    ensures forall i, j :: 0 <= i < j < |r| ==> r[i] != r[j]
    ensures Sunscreen !in r
  {
    if activity == PlayGames.Value() then PlayGamesRequirements
    else if activity == GoCamping.Value() then GoCampingRequirements
    else if activity == Swimming.Value() then SwimmingRequirements
    else []
  }

  /** The requirement table: the three activity strings and everything else. */
  lemma RequirementsTable(other: string)
    requires other != "Play games" && other != "Go Camping" && other != "Swimming"
    ensures GetRequirementsForActivity("Play games") == [TV, Xbox]
    ensures GetRequirementsForActivity("Go Camping") == [HikingBoots]
    ensures GetRequirementsForActivity("Swimming") == [Goggles]
    ensures GetRequirementsForActivity(other) == []
  {
  }

  /** `a` is `b` with some elements left out, the rest kept in order. */
  ghost predicate IsSubsequence(a: seq<Item>, b: seq<Item>)
    decreases |b|
  {
    if a == [] then true
    else if b == [] then false
    else if a[0] == b[0] then IsSubsequence(a[1..], b[1..])
    else IsSubsequence(a, b[1..])
  }

  /** `[item for item in required if item.value not in owned]`. */
  function MissingFrom(required: seq<Item>, owned: set<string>): (r: seq<Item>)
    ensures |r| <= |required|
    ensures forall x :: x in r <==> x in required && x.Value() !in owned
    ensures r == [] <==> forall k :: 0 <= k < |required| ==> required[k].Value() in owned
    ensures owned == {} ==> r == required
    ensures IsSubsequence(r, required)
  {
    if required == [] then []
    else
      var rest := MissingFrom(required[1..], owned);
      assert required == [required[0]] + required[1..];
      if required[0].Value() !in owned then [required[0]] + rest
      else
        SubsequenceOfTail(rest, required);
        rest
  }

  /** A subsequence of the tail is a subsequence of the whole. */
  lemma {:induction false} SubsequenceOfTail(a: seq<Item>, b: seq<Item>)
    requires b != [] && IsSubsequence(a, b[1..])
    ensures IsSubsequence(a, b)
    decreases |b|, 0
  {
    if a != [] && a[0] == b[0] {
      SubsequenceDropHead(a, b[1..]);
    }
  }

  /** Dropping the first element keeps a subsequence a subsequence. */
  lemma {:induction false} SubsequenceDropHead(a: seq<Item>, c: seq<Item>)
    requires a != [] && IsSubsequence(a, c)
    ensures IsSubsequence(a[1..], c)
    decreases |c|, 1
  {
    if a[0] == c[0] {
      SubsequenceOfTail(a[1..], c);
    } else {
      SubsequenceDropHead(a, c[1..]);
      SubsequenceOfTail(a[1..], c);
    }
  }

  /** `get_missing_items`: the required items whose value the user does not
      hold, in requirement order. */
  function GetMissingItems(activity: string, owned: set<string>): (r: seq<Item>)
    ensures IsSubsequence(r, GetRequirementsForActivity(activity))
    ensures forall x :: x in r <==> x in GetRequirementsForActivity(activity) && x.Value() !in owned
    ensures r == [] <==> forall x :: x in GetRequirementsForActivity(activity) ==> x.Value() in owned
    ensures |r| <= |GetRequirementsForActivity(activity)|
    ensures owned == {} ==> r == GetRequirementsForActivity(activity)
    ensures ActivityOf(activity).None? ==> r == []
  {
    MissingFrom(GetRequirementsForActivity(activity), owned)
  }

  /** The missing gaming gear, spelled out for each combination of TV and
      Xbox ownership. */
  lemma MissingGamingGear(owned: set<string>)
    ensures GetMissingItems("Play games", owned) ==
      (if "TV" in owned then [] else [TV]) + (if "Xbox" in owned then [] else [Xbox])
  {
    assert GetRequirementsForActivity("Play games") == [TV, Xbox];
    assert [TV, Xbox][1..] == [Xbox] && [Xbox][1..] == [];
    assert MissingFrom([Xbox], owned) == (if "Xbox" in owned then [] else [Xbox]) + MissingFrom([], owned);
  }

  /** `Item(name)`: the member whose value is exactly `name`, if any. */
  function ItemOf(name: string): (r: Option<Item>)
    ensures r.Some? ==> r.value.Value() == name
    ensures r.None? ==> forall i: Item :: i.Value() != name
  {
    if name == "TV" then Some(TV)
    else if name == "Xbox" then Some(Xbox)
    else if name == "Hiking Boots" then Some(HikingBoots)
    else if name == "Goggles" then Some(Goggles)
    else if name == "Sunscreen" then Some(Sunscreen)
    else None
  }

  /** `is_valid_item`: an exact, case-sensitive match against the five
      catalogue values. */
  predicate IsValidItem(name: string): (b: bool)
    ensures b <==> name in GetAllItems()
  {
    ItemOf(name).Some?
  }

  lemma ValidItemsAreTheCatalogue(name: string)
    ensures IsValidItem(name) <==> exists i: Item :: i.Value() == name
    ensures IsValidItem(name) <==> name in GetAllItems()
  {
    if IsValidItem(name) {
      var i := ItemOf(name).value;
      assert i.Value() == name;
    }
  }

  /** Lower-case spellings are not catalogue items: the match is exact. */
  lemma ValidationIsCaseSensitive()
    ensures IsValidItem("TV") && !IsValidItem("tv")
    ensures IsValidItem("Xbox") && !IsValidItem("XBOX")
    ensures IsValidItem("Hiking Boots") && !IsValidItem("hiking boots")
  {
  }

  function Values(items: seq<Item>): (r: seq<string>)
    ensures |r| == |items|
    ensures forall k :: 0 <= k < |items| ==> r[k] == items[k].Value()
  {
    if items == [] then [] else [items[0].Value()] + Values(items[1..])
  }

  lemma {:induction false} CatalogueValues(s: string)
    ensures s in Values(AllItems) <==> ItemOf(s).Some?
  {
    var r := Values(AllItems);
    if s in r {
      var k :| 0 <= k < |r| && r[k] == s;
    }
    if ItemOf(s).Some? {
      var i := ItemOf(s).value;
      if i == TV { assert r[0] == s; }
      else if i == Xbox { assert r[1] == s; }
      else if i == HikingBoots { assert r[2] == s; }
      else if i == Goggles { assert r[3] == s; }
      else { assert r[4] == s; }
    }
  }

  /** `get_all_items`: the catalogue values in declaration order. */
  function GetAllItems(): (r: seq<string>)
    ensures |r| == 5
    ensures forall s :: s in r <==> ItemOf(s).Some?
    ensures forall i, j :: 0 <= i < j < |r| ==> r[i] != r[j]
  {
    forall s ensures s in Values(AllItems) <==> ItemOf(s).Some? {
      CatalogueValues(s);
    }
    Values(AllItems)
  }

  lemma AllItemsInOrder()
    ensures GetAllItems() == ["TV", "Xbox", "Hiking Boots", "Goggles", "Sunscreen"]
  {
    var r := GetAllItems();
    assert r[0] == "TV" && r[1] == "Xbox" && r[2] == "Hiking Boots";
    assert r[3] == "Goggles" && r[4] == "Sunscreen";
  }
}
