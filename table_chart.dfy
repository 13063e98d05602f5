/** The tableChart class and the jQuery plugin that creates one per table:
    settings are resolved, the table is parsed into columns, the chart id and
    toggle button text are derived, and the c3 configuration is assembled. */
module TableCharts {
  import opened JsValues
  import opened JsParseInt
  import opened ChartSettings
  import opened TableParse
  import opened ViewToggle

  /** The object handed to c3.generate. */
  datatype ChartConfig = ChartConfig(bindto: string, data: Value, rotated: Value)

  /** One table element of the collection: its rows, and its data
      attributes as .data() reads them. */
  datatype Element = Element(table: Table, attributes: map<string, Value>)

  /** The literal prefix of every chart DOM id (not the `component`
      setting, which only names CSS classes). */
  const ChartIdPrefix: string := "table-chart-"

  /** The id of the chart placeholder element. */
  function ChartDomId(chartId: Value): string {
    ChartIdPrefix + JsString(chartId)
  }

  /** Different integer chart ids give different DOM ids. */
  lemma ChartDomIdsDistinct(i: int, j: int)
    requires i != j
    ensures ChartDomId(Int(i)) != ChartDomId(Int(j))
  {
    if ChartDomId(Int(i)) == ChartDomId(Int(j)) {
      assert ChartDomId(Int(i))[|ChartIdPrefix|..] == DecimalString(i);
      assert ChartDomId(Int(j))[|ChartIdPrefix|..] == DecimalString(j);
      assert DecimalString(i) + [] == DecimalString(j) + [];
      ParseDecimalPrefix(i, []);
      ParseDecimalPrefix(j, []);
    }
  }

  /** buildChart's `settings.data.type = settings.type`. */
  function WithDataType(settings: Settings): Settings
    requires Get(settings, "data").Obj?
  {
    settings["data" := Obj(settings["data"].fields["type" := Get(settings, "type")])]
  }

  /** The c3 configuration buildChart assembles. */
  function ConfigOf(settings: Settings, chartDomId: string): ChartConfig {
    ChartConfig("#" + chartDomId, Get(settings, "data"), Get(settings, "rotated"))
  }

  /** The configuration binds to the chart's placeholder, its data is the
      `data` setting with `type` copied from the `type` setting, and the
      axis rotation is the `rotated` setting. */
  lemma ConfigCarriesSettings(settings: Settings, chartDomId: string)
    requires Get(settings, "data").Obj?
    ensures var config := ConfigOf(WithDataType(settings), chartDomId);
      && config.bindto == "#" + chartDomId
      && config.data.Obj?
      && config.data.fields.Keys == settings["data"].fields.Keys + {"type"}
      && config.data.fields["type"] == Get(settings, "type")
      && (forall k :: k in settings["data"].fields && k != "type" ==>
            config.data.fields[k] == settings["data"].fields[k])
      && config.rotated == Get(settings, "rotated")
  {
  }

  /** The settings after init: parseSettings, then parseData, then the
      `type` copy of buildChart. */
  function FinalSettings(table: Table, attributes: map<string, Value>, options: Settings): Settings {
    InitSettings(InitialSettings(options), table, attributes)
  }

  /** What init makes of the settings: parseSettings, parseData, then the
      `type` copy of buildChart. */
  function InitSettings(settings: Settings, table: Table, attributes: map<string, Value>): Settings {
    WithDataType(ParsedSettings(settings, attributes)["data" := DataObject(TableColumns(table))])
  }

  /** The options the plugin gives the chart of the i-th element. */
  function PluginOptions(i: nat): Settings {
    map["chartId" := Int(i)]
  }

  /** Under the plugin's options the settings are the defaults with the
      element's index as chart id, then the `type` and `rotated` data
      attributes applied. */
  function PluginResolvedSettings(attributes: map<string, Value>, i: nat): Settings {
    ApplyDataAttribute(ApplyDataAttribute(Defaults()["chartId" := Int(i)], "type", attributes), "rotated", attributes)
  }

  lemma PluginResolved(attributes: map<string, Value>, i: nat)
    ensures ResolvedSettings(attributes, PluginOptions(i)) == PluginResolvedSettings(attributes, i)
  {
    PluginInitial(i);
    ApplyTypeAndRotated(Defaults()["chartId" := Int(i)], attributes);
  }

  lemma PluginInitial(i: nat)
    ensures InitialSettings(PluginOptions(i)) == Defaults()["chartId" := Int(i)]
    ensures DataAttributeNames(Get(Defaults()["chartId" := Int(i)], "dataAttributes")) == ["type", "rotated"]
  {
  }

  lemma ApplyTypeAndRotated(s: Settings, attributes: map<string, Value>)
    ensures ApplyDataAttributes(s, ["type", "rotated"], attributes) ==
      ApplyDataAttribute(ApplyDataAttribute(s, "type", attributes), "rotated", attributes)
  {
    var names := ["type", "rotated"];
    assert names[..1] == ["type"];
    assert names[..1][..0] == [];
    assert ApplyDataAttributes(s, ["type"], attributes) == ApplyDataAttribute(s, "type", attributes);
  }

  /** Under the plugin's options the element can change only `type` and
      `rotated`; the chart id is the element's index and the toggle text is
      the default template, so building the markup cannot throw. */
  lemma PluginSettings(attributes: map<string, Value>, i: nat)
    ensures var resolved := ResolvedSettings(attributes, PluginOptions(i));
      && Get(resolved, "chartId") == Int(i)
      && Get(resolved, "toggleText") == Str("Show {view}")
      && Get(resolved, "defaultView") == Str("chart")
      && Get(resolved, "chartViewName") == Str("chart")
      && Get(resolved, "tableViewName") == Str("table")
      && Get(resolved, "type") == (if Get(attributes, "type") != Null then Get(attributes, "type") else Str("line"))
      && Get(resolved, "rotated") == (if Get(attributes, "rotated") != Null then Get(attributes, "rotated") else Bool(false))
  {
    PluginResolved(attributes, i);
    PluginResolvedKeys(attributes, i);
  }

  lemma PluginResolvedKeys(attributes: map<string, Value>, i: nat)
    ensures var resolved := PluginResolvedSettings(attributes, i);
      && Get(resolved, "chartId") == Int(i)
      && Get(resolved, "toggleText") == Str("Show {view}")
      && Get(resolved, "defaultView") == Str("chart")
      && Get(resolved, "chartViewName") == Str("chart")
      && Get(resolved, "tableViewName") == Str("table")
      && Get(resolved, "type") == (if Get(attributes, "type") != Null then Get(attributes, "type") else Str("line"))
      && Get(resolved, "rotated") == (if Get(attributes, "rotated") != Null then Get(attributes, "rotated") else Bool(false))
  {
    DefaultValues();
  }

  /** What c3 receives for the i-th table of the collection: the columns
      parsed from its rows, the chart type and rotation from its data
      attributes (an attribute that is absent reads as undefined and
      replaces the default; only null keeps it). */
  lemma PluginChartConfig(element: Element, i: nat)
    ensures var config := ConfigOf(FinalSettings(element.table, element.attributes, PluginOptions(i)), ChartDomId(Int(i)));
      var attributes := element.attributes;
      && config.bindto == "#" + ChartDomId(Int(i))
      && config.data == Obj(map[
           "columns" := DataObject(TableColumns(element.table)).fields["columns"],
           "type" := if Get(attributes, "type") != Null then Get(attributes, "type") else Str("line")])
      && config.rotated == (if Get(attributes, "rotated") != Null then Get(attributes, "rotated") else Bool(false))
  {
    var resolved := ResolvedSettings(element.attributes, PluginOptions(i));
    PluginSettings(element.attributes, i);
    PluginSettingsFinal(resolved, DataObject(TableColumns(element.table)), ChartDomId(Int(i)));
  }

  /** The last two steps of init, on any resolved settings. */
  lemma PluginSettingsFinal(resolved: Settings, data: Value, chartDomId: string)
    requires data.Obj?
    ensures var config := ConfigOf(WithDataType(resolved["data" := data]), chartDomId);
      && config.bindto == "#" + chartDomId
      && config.data == Obj(data.fields["type" := Get(resolved, "type")])
      && config.rotated == Get(resolved, "rotated")
  {
  }

  class TableChart {
    /** The table element's rows. */
    const table: Table
    /** The table element's data attributes. */
    const attributes: map<string, Value>
    var settings: Settings
    var currentView: Value
    var chartDomId: string
    /** The text of the toggle button. */
    var buttonLabel: string
    /** The configuration last handed to c3. */
    var chart: ChartConfig

    /** A chart whose markup was built has a string toggle template. */
    ghost predicate Valid()
      reads this
    {
      Get(settings, "toggleText").Str?
    }

    /** The state init leaves when it starts from the settings `initial`:
      the settings parsed from the element and the table, the chart DOM id
      from the parsed chart id, the button text for 'table', and the c3
      configuration. */
    ghost predicate InitializedFrom(initial: Settings)
      reads this
    {
      && settings == InitSettings(initial, table, attributes)
      && chartDomId == ChartDomId(Get(ParsedSettings(initial, attributes), "chartId"))
      && Some(buttonLabel) == ToggleButtonText(Get(ParsedSettings(initial, attributes), "toggleText"), Str("table"))
      && chart == ConfigOf(settings, chartDomId)
      && Valid()
    }

    /** The constructor: defaults extended by the options, the current view
      taken from `defaultView` before the data attributes are read, then
      init. buildMarkup throws when the toggle template is not a string, so
      that is required here. */
    constructor (table: Table, attributes: map<string, Value>, options: Settings)
      requires Get(ResolvedSettings(attributes, options), "toggleText").Str?
      ensures this.table == table && this.attributes == attributes
      ensures currentView == Get(InitialSettings(options), "defaultView")
      ensures InitializedFrom(InitialSettings(options))
    {
      this.table := table;
      this.attributes := attributes;
      settings := InitialSettings(options);
      currentView := Get(InitialSettings(options), "defaultView");
      chartDomId := "";
      buttonLabel := "";
      chart := ChartConfig("", Undefined, Undefined);
      new;
      Init();
    }

    /** init: parseSettings, parseData, buildMarkup. */
    method Init()
      requires Get(ParsedSettings(settings, attributes), "toggleText").Str?
      modifies this`settings, this`chartDomId, this`buttonLabel, this`chart
      ensures InitializedFrom(old(settings))
      ensures currentView == old(currentView)
    {
      ghost var parsed := ParsedSettings(settings, attributes);
      ParseSettings();
      assert settings == parsed;
      ParseData();
      assert Get(settings, "toggleText") == Get(parsed, "toggleText");
      assert Get(settings, "chartId") == Get(parsed, "chartId");
      BuildMarkup();
    }

    /** parseSettings: each name in `dataAttributes` (as the array was when
      the loop started) whose attribute is not null overwrites that setting. */
    method ParseSettings()
      modifies this`settings
      ensures settings == ApplyDataAttributes(old(settings), DataAttributeNames(Get(old(settings), "dataAttributes")), attributes)
    {
      var names := DataAttributeNames(Get(settings, "dataAttributes"));
      ghost var before := settings;
      var i := 0;
      while i < |names|
        invariant 0 <= i <= |names|
        invariant settings == ApplyDataAttributes(before, names[..i], attributes)
      {
        var val := Get(attributes, names[i]);
        if val != Null {
          settings := settings[names[i] := val];
        }
        assert names[..i + 1][..i] == names[..i];
        i := i + 1;
      }
      assert names[..i] == names;
    }

    /** parseData: `settings.data` becomes `{columns: columns}`. */
    method ParseData()
      modifies this`settings
      ensures settings == old(settings)["data" := DataObject(TableColumns(table))]
    {
      var columns := ParseColumns(table);
      settings := settings["data" := DataObject(columns)];
    }

    /** toggleView, its state part: the button text names the view before
      the flip, then the current view flips. */
    method ToggleView()
      requires Valid()
      modifies this`currentView, this`buttonLabel
      ensures ToggleState(currentView, buttonLabel) ==
        Toggle(ToggleState(old(currentView), old(buttonLabel)), settings["toggleText"].s,
               Get(settings, "chartViewName"), Get(settings, "tableViewName"))
    {
      buttonLabel := ToggleButtonText(settings["toggleText"], currentView).value;
      currentView := if currentView == Get(settings, "chartViewName")
                     then Get(settings, "tableViewName") else Get(settings, "chartViewName");
    }

    /** buildMarkup, its state part: the chart DOM id, the initial button
      text (always made from the literal 'table'), then buildChart. */
    method BuildMarkup()
      requires Get(settings, "toggleText").Str?
      requires Get(settings, "data").Obj?
      modifies this`chartDomId, this`buttonLabel, this`settings, this`chart
      ensures chartDomId == ChartDomId(Get(old(settings), "chartId"))
      ensures Some(buttonLabel) == ToggleButtonText(Get(old(settings), "toggleText"), Str("table"))
      ensures settings == WithDataType(old(settings))
      ensures chart == ConfigOf(settings, chartDomId)
    {
      chartDomId := ChartDomId(Get(settings, "chartId"));
      buttonLabel := ToggleButtonText(Get(settings, "toggleText"), Str("table")).value;
      BuildChart();
    }

    /** buildChart: copy the chart type into the data, then hand c3 the
      placeholder id, the data and the axis rotation. */
    method BuildChart()
      requires Get(settings, "data").Obj?
      modifies this`settings, this`chart
      ensures settings == WithDataType(old(settings))
      ensures chart == ConfigOf(settings, chartDomId)
    {
      settings := settings["data" := Obj(settings["data"].fields["type" := Get(settings, "type")])];
      chart := ChartConfig("#" + chartDomId, Get(settings, "data"), Get(settings, "rotated"));
    }
  }

  /** The chart of the element at `index` after the plugin created it: it
    reads that element, its chart id is the index, its placeholder id is
    derived from it, it shows the chart view first, and init has run from
    the defaults extended by `{chartId: index}`. */
  ghost predicate CreatedFor(chart: TableChart, element: Element, index: nat)
    reads chart
  {
    && chart.table == element.table
    && chart.attributes == element.attributes
    && Get(chart.settings, "chartId") == Int(index)
    && chart.chartDomId == ChartDomId(Int(index))
    && chart.currentView == Str("chart")
    && chart.InitializedFrom(Defaults()["chartId" := Int(index)])
  }

  /** What a chart created by the plugin holds: its settings are the final
    settings under `{chartId: index}`, the button offers the table, and c3
    was handed the element's columns with the resolved type and rotation. */
  lemma CreatedChartState(chart: TableChart, element: Element, index: nat)
    requires CreatedFor(chart, element, index)
    ensures chart.settings == FinalSettings(element.table, element.attributes, PluginOptions(index))
    ensures chart.buttonLabel == "Show table"
    ensures var attributes := element.attributes;
      && chart.chart.bindto == "#" + ChartDomId(Int(index))
      && chart.chart.data == Obj(map[
           "columns" := DataObject(TableColumns(element.table)).fields["columns"],
           "type" := if Get(attributes, "type") != Null then Get(attributes, "type") else Str("line")])
      && chart.chart.rotated == (if Get(attributes, "rotated") != Null then Get(attributes, "rotated") else Bool(false))
  {
    PluginInitial(index);
    PluginSettings(element.attributes, index);
    PluginChartConfig(element, index);
    DefaultTextExamples();
  }

  /** $.fn.tableCharts: one chart per element, each given its index in the
      collection as chart id, so the DOM ids within one call are distinct. */
  method Plugin(elements: seq<Element>) returns (charts: seq<TableChart>)
    ensures |charts| == |elements|
    ensures forall i :: 0 <= i < |charts| ==> fresh(charts[i]) && CreatedFor(charts[i], elements[i], i)
    ensures forall i, j :: 0 <= i < j < |charts| ==> charts[i].chartDomId != charts[j].chartDomId
  {
    charts := [];
    var i := 0;
    while i < |elements|
      invariant 0 <= i <= |elements| && |charts| == i
      invariant forall k :: 0 <= k < i ==> fresh(charts[k]) && CreatedFor(charts[k], elements[k], k)
    {
      var chart := CreateChart(elements[i], i);
      charts := charts + [chart];
      i := i + 1;
    }
    CreatedChartsDistinct(charts, elements);
  }

  /** Charts created for the elements of one collection have pairwise
      distinct DOM ids. */
  lemma CreatedChartsDistinct(charts: seq<TableChart>, elements: seq<Element>)
    requires |charts| == |elements|
    requires forall i :: 0 <= i < |charts| ==> CreatedFor(charts[i], elements[i], i)
    ensures forall i, j :: 0 <= i < j < |charts| ==> charts[i].chartDomId != charts[j].chartDomId
  {
    forall i, j | 0 <= i < j < |charts| ensures charts[i].chartDomId != charts[j].chartDomId {
      ChartDomIdsDistinct(i, j);
    }
  }

  /** `new tableChart(dom, {chartId: i})` for one element. */
  method CreateChart(element: Element, index: nat) returns (chart: TableChart)
    ensures fresh(chart) && CreatedFor(chart, element, index)
  {
    PluginSettings(element.attributes, index);
    PluginInitial(index);
    DefaultValues();
    chart := new TableChart(element.table, element.attributes, PluginOptions(index));
  }
}
