/** The settings object of one table chart: the defaults, the shallow
    extension by the constructor's options, and the overwriting of the
    settings named in `dataAttributes` by the table element's data
    attributes. */
module ChartSettings {
  import opened JsValues

  type Settings = map<string, Value>

  /** The available options and their defaults. */
  function Defaults(): Settings {
    map[
      "chartId" := Int(0),
      "type" := Str("line"),
      "rotated" := Bool(false),
      "data" := Obj(map[]),
      "toggleText" := Str("Show {view}"),
      "chartViewName" := Str("chart"),
      "tableViewName" := Str("table"),
      "defaultView" := Str("chart"),
      "dataAttributes" := List([Str("type"), Str("rotated")]),
      "component" := Str("table-chart")
    ]
  }

  /** The default of each available option. */
  lemma DefaultValues()
    ensures Defaults().Keys == {"chartId", "type", "rotated", "data", "toggleText", "chartViewName",
                                "tableViewName", "defaultView", "dataAttributes", "component"}
    ensures Defaults()["chartId"] == Int(0)
    ensures Defaults()["type"] == Str("line")
    ensures Defaults()["rotated"] == Bool(false)
    ensures Defaults()["data"] == Obj(map[])
    ensures Defaults()["toggleText"] == Str("Show {view}")
    ensures Defaults()["chartViewName"] == Str("chart")
    ensures Defaults()["tableViewName"] == Str("table")
    ensures Defaults()["defaultView"] == Str("chart")
    ensures Defaults()["dataAttributes"] == List([Str("type"), Str("rotated")])
    ensures Defaults()["component"] == Str("table-chart")
  {
  }

  /** $.extend(target, source): a shallow copy of every property of
      `source` into `target`, skipping properties whose value is
      `undefined`. */
  function Extend(target: Settings, source: Settings): Settings {
    target + map k | k in source && source[k] != Undefined :: source[k]
  }

  /** After extending, a key given a value by `source` holds that value,
      every other key of `target` keeps its value, and there are no other
      keys. */
  lemma ExtendSpec(target: Settings, source: Settings, k: string)
    ensures k in Extend(target, source) <==> k in target || Get(source, k) != Undefined
    ensures Get(source, k) != Undefined ==> Extend(target, source)[k] == source[k]
    ensures k in target && Get(source, k) == Undefined ==> Extend(target, source)[k] == target[k]
  {
  }

  /** The settings a chart starts from: the defaults extended by the
      options given to the constructor. */
  function InitialSettings(options: Settings): Settings {
    Extend(Defaults(), options)
  }

  /** After construction every option given a value holds that value, and
      every other available option holds its default. */
  lemma InitialSettingsFromOptions(options: Settings, key: string)
    requires key in Defaults()
    ensures key in InitialSettings(options)
    ensures Get(options, key) != Undefined ==> InitialSettings(options)[key] == options[key]
    ensures Get(options, key) == Undefined ==> InitialSettings(options)[key] == Defaults()[key]
  {
  }

  /** Extending twice by the same options changes nothing more. */
  lemma ExtendIdempotent(target: Settings, source: Settings)
    ensures Extend(Extend(target, source), source) == Extend(target, source)
  {
    var once := Extend(target, source);
    var twice := Extend(once, source);
    assert forall k :: k in twice <==> k in once;
    assert forall k :: k in twice ==> twice[k] == once[k];
  }

  /** Extending by nothing leaves the settings as they are. */
  lemma ExtendByNothing(target: Settings)
    ensures Extend(target, map[]) == target
  {
    var r := Extend(target, map[]);
    assert forall k :: k in r ==> r[k] == target[k];
  }

  /** The attribute names in the `dataAttributes` setting: the elements of
      an array, each as the property name it becomes; anything that is not
      an array names no attributes. */
  function DataAttributeNames(v: Value): seq<string> {
    match v
    case List(items) => seq(|items|, i requires 0 <= i < |items| => JsString(items[i]))
    case _ => []
  }

  /** One step of parseSettings: the element's data attribute `name`
      overwrites the setting of that name unless it is `null`. An absent
      attribute reads as `undefined`, which is not `null`, so it does
      overwrite the setting. */
  function ApplyDataAttribute(settings: Settings, name: string, attributes: map<string, Value>): Settings {
    var val := Get(attributes, name);
    if val != Null then settings[name := val] else settings
  }

  /** parseSettings over the names `names`, in order. */
  function ApplyDataAttributes(settings: Settings, names: seq<string>, attributes: map<string, Value>): Settings
    decreases |names|
  {
    if names == [] then settings
    else ApplyDataAttribute(ApplyDataAttributes(settings, names[..|names| - 1], attributes), names[|names| - 1], attributes)
  }

  /** parseSettings changes only the settings it names: a setting not named
      is unchanged; a named setting holds its attribute's value exactly when
      that value is not `null`, and is unchanged when it is `null`. */
  lemma {:induction false} ApplyDataAttributesSpec(settings: Settings, names: seq<string>, attributes: map<string, Value>, k: string)
    ensures var r := ApplyDataAttributes(settings, names, attributes);
      && (k in r <==> k in settings || (k in names && Get(attributes, k) != Null))
      && (k in names && Get(attributes, k) != Null ==> r[k] == Get(attributes, k))
      && (k in settings && (k !in names || Get(attributes, k) == Null) ==> r[k] == settings[k])
    decreases |names|
  {
    if names != [] {
      var prefix := names[..|names| - 1];
      ApplyDataAttributesSpec(settings, prefix, attributes, k);
      assert k in names <==> k in prefix || k == names[|names| - 1];
    }
  }

  /** parseSettings on `settings`: the names are those of its own
      `dataAttributes`. */
  function ParsedSettings(settings: Settings, attributes: map<string, Value>): Settings {
    ApplyDataAttributes(settings, DataAttributeNames(Get(settings, "dataAttributes")), attributes)
  }

  /** The settings after parseSettings has run on the initial settings. */
  function ResolvedSettings(attributes: map<string, Value>, options: Settings): Settings {
    ParsedSettings(InitialSettings(options), attributes)
  }

  /** With the default `dataAttributes`, only `type` and `rotated` can be
      changed by the element, so the other settings keep what the options
      and the defaults gave them. */
  lemma ResolvedWithDefaultNames(attributes: map<string, Value>, options: Settings, key: string)
    requires Get(options, "dataAttributes") == Undefined
    requires key in Defaults()
    ensures key in ResolvedSettings(attributes, options)
    ensures key != "type" && key != "rotated" ==>
      ResolvedSettings(attributes, options)[key] == InitialSettings(options)[key]
    ensures key == "type" || key == "rotated" ==>
      ResolvedSettings(attributes, options)[key] ==
        if Get(attributes, key) != Null then Get(attributes, key) else InitialSettings(options)[key]
  {
    var initial := InitialSettings(options);
    var names := DataAttributeNames(Get(initial, "dataAttributes"));
    assert initial["dataAttributes"] == List([Str("type"), Str("rotated")]);
    assert names == ["type", "rotated"];
    ApplyDataAttributesSpec(initial, names, attributes, key);
    ExtendSpec(Defaults(), options, key);
  }
}
