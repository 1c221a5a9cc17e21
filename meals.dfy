/** The meal options and the two lookup tables built from them by `reduce`. */
module Meals {

  datatype MealOption = MealOption(value: string, labelText: string, imageUrl: string)

  const MealOptions: seq<MealOption> := [
    MealOption("fish", "Fish", "https://em-content.zobj.net/source/apple/419/fish_1f41f.png"),
    MealOption("lamb", "Lamb", "https://em-content.zobj.net/source/apple/419/ewe_1f411.png"),
    MealOption("hamburger", "Hamburger", "https://em-content.zobj.net/source/apple/419/hamburger_1f354.png"),
    MealOption("other", "Other", "https://em-content.zobj.net/source/apple/419/face-with-spiral-eyes_1f635-200d-1f4ab.png")
  ]

  /** The `value`s of the options, the only meals the composer's buttons can select. */
  function MealValues(): set<string> {
    set o | o in MealOptions :: o.value
  }

  function ImageOf(o: MealOption): string { o.imageUrl }

  function LabelOf(o: MealOption): string { o.labelText }

  /**
   * `options.reduce((acc, option) => { acc[option.value] = field(option); return acc; }, {})`:
   * a left fold, so a later option overwrites an earlier one with the same value.
   */
  function ReduceToMap(options: seq<MealOption>, field: MealOption -> string): map<string, string>
    decreases |options|
  {
    if options == [] then map[]
    else ReduceToMap(options[..|options| - 1], field)[options[|options| - 1].value := field(options[|options| - 1])]
  }

  /** The table built by `reduce` has exactly the options' values as keys. */
  lemma {:induction false} ReduceToMapKeys(options: seq<MealOption>, field: MealOption -> string)
    ensures ReduceToMap(options, field).Keys == set o | o in options :: o.value
    decreases |options|
  {
    if options != [] {
      var init, last := options[..|options| - 1], options[|options| - 1];
      ReduceToMapKeys(init, field);
      assert options == init + [last];
      assert (set o | o in options :: o.value) == (set o | o in init :: o.value) + {last.value};
    }
  }

  predicate DistinctValues(options: seq<MealOption>) {
    forall i, j :: 0 <= i < j < |options| ==> options[i].value != options[j].value
  }

  /** With distinct values, every option's value maps to that option's own field. */
  lemma {:induction false} ReduceToMapAt(options: seq<MealOption>, field: MealOption -> string, i: nat)
    requires DistinctValues(options)
    requires i < |options|
    ensures options[i].value in ReduceToMap(options, field)
    ensures ReduceToMap(options, field)[options[i].value] == field(options[i])
  {
    var n := |options|;
    var init, last := options[..n - 1], options[n - 1];
    assert ReduceToMap(options, field) == ReduceToMap(init, field)[last.value := field(last)];
    if i < n - 1 {
      assert init[i] == options[i];
      assert DistinctValues(init) by {
        forall a, b | 0 <= a < b < |init| ensures init[a].value != init[b].value {
          assert init[a] == options[a] && init[b] == options[b];
        }
      }
      ReduceToMapAt(init, field, i);
      assert last.value != options[i].value;
    }
  }

  /** The `reduce` loop itself: the accumulator object is updated in place, one option at a time. */
  method BuildLookup(options: seq<MealOption>, field: MealOption -> string) returns (acc: map<string, string>)
    ensures acc == ReduceToMap(options, field)
  {
    acc := map[];
    var i := 0;
    while i < |options|
      invariant 0 <= i <= |options|
      invariant acc == ReduceToMap(options[..i], field)
    {
      assert options[..i + 1][..i] == options[..i];
      acc := acc[options[i].value := field(options[i])];
      i := i + 1;
    }
    assert options[..i] == options;
  }

  /** `mealImageMap` */
  function MealImageMap(): map<string, string> {
    ReduceToMap(MealOptions, ImageOf)
  }

  /** `mealLabelMap` */
  function MealLabelMap(): map<string, string> {
    ReduceToMap(MealOptions, LabelOf)
  }

  lemma MealValuesAre()
    ensures MealValues() == {"fish", "lamb", "hamburger", "other"}
  {
    var want: set<string> := {"fish", "lamb", "hamburger", "other"};
    forall v | v in MealValues() ensures v in want {
      var o :| o in MealOptions && o.value == v;
    }
    assert MealOptions[0].value in MealValues();
    assert MealOptions[1].value in MealValues();
    assert MealOptions[2].value in MealValues();
    assert MealOptions[3].value in MealValues();
  }

  /** The composer's default meal is one of the options. */
  lemma FishIsAMeal()
    ensures "fish" in MealValues()
  {
    assert MealOptions[0] in MealOptions;
  }

  lemma MealOptionsDistinct()
    ensures DistinctValues(MealOptions)
  {
    assert "fish" != "lamb" && "fish" != "hamburger" && "fish" != "other";
    assert "lamb" != "hamburger" && "lamb" != "other" && "hamburger" != "other";
  }

  /** Both tables have exactly the keys fish, lamb, hamburger and other, each mapped to that option's image or label. */
  lemma MealTablesContents()
    ensures MealImageMap().Keys == MealValues() && MealLabelMap().Keys == MealValues()
    ensures forall o :: o in MealOptions ==> MealImageMap()[o.value] == o.imageUrl && MealLabelMap()[o.value] == o.labelText
  {
    MealOptionsDistinct();
    ReduceToMapKeys(MealOptions, ImageOf);
    ReduceToMapKeys(MealOptions, LabelOf);
    forall o | o in MealOptions
      ensures MealImageMap()[o.value] == o.imageUrl && MealLabelMap()[o.value] == o.labelText
    {
      var i :| 0 <= i < |MealOptions| && MealOptions[i] == o;
      ReduceToMapAt(MealOptions, ImageOf, i);
      ReduceToMapAt(MealOptions, LabelOf, i);
    }
  }

  /** Module initialisation of the two tables, run as the `reduce` loops. */
  method MealTables() returns (mealImageMap: map<string, string>, mealLabelMap: map<string, string>)
    ensures mealImageMap.Keys == {"fish", "lamb", "hamburger", "other"} && mealLabelMap.Keys == mealImageMap.Keys
    ensures mealImageMap["fish"] == "https://em-content.zobj.net/source/apple/419/fish_1f41f.png" && mealLabelMap["fish"] == "Fish"
    ensures mealImageMap["lamb"] == "https://em-content.zobj.net/source/apple/419/ewe_1f411.png" && mealLabelMap["lamb"] == "Lamb"
    ensures mealImageMap["hamburger"] == "https://em-content.zobj.net/source/apple/419/hamburger_1f354.png" && mealLabelMap["hamburger"] == "Hamburger"
    ensures mealImageMap["other"] == "https://em-content.zobj.net/source/apple/419/face-with-spiral-eyes_1f635-200d-1f4ab.png" && mealLabelMap["other"] == "Other"
  {
    mealImageMap := BuildLookup(MealOptions, ImageOf);
    mealLabelMap := BuildLookup(MealOptions, LabelOf);
    MealValuesAre();
    MealTablesContents();
    assert MealOptions[0] in MealOptions && MealOptions[1] in MealOptions;
    assert MealOptions[2] in MealOptions && MealOptions[3] in MealOptions;
  }
}
