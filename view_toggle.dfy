/** The toggle between the chart view and the table view: the button text
    made from the `toggleText` template, and the two-state view flip. */
module ViewToggle {
  import opened JsValues
  import opened JsReplace

  const ViewPlaceholder: string := "{view}"

  /** toggleButtonText: the first `{view}` of the template replaced by the
      view's string form. A template that is not a string has no `replace`
      method, so the call throws a TypeError (None). */
  function ToggleButtonText(toggleText: Value, view: Value): (text: Option<string>)
    ensures text.Some? <==> toggleText.Str?
  {
    match toggleText
    case Str(template) => Some(ReplaceFirst(template, ViewPlaceholder, JsString(view)))
    case _ => None
  }

  /** A template without the placeholder is the label for every view. */
  lemma TextWithoutPlaceholder(template: string, view: Value)
    requires forall j :: !OccursAt(template, ViewPlaceholder, j)
    ensures ToggleButtonText(Str(template), view) == Some(template)
  {
    ReplaceWithoutPattern(template, ViewPlaceholder, JsString(view));
  }

  /** Only the first placeholder is filled in; later ones stay. */
  lemma TextFillsFirstPlaceholder(template: string, view: Value, i: nat)
    requires OccursAt(template, ViewPlaceholder, i)
    requires forall j :: 0 <= j < i ==> !OccursAt(template, ViewPlaceholder, j)
    ensures ToggleButtonText(Str(template), view) ==
      Some(template[..i] + JsString(view) + template[i + |ViewPlaceholder|..])
  {
    ReplaceFirstOccurrence(template, ViewPlaceholder, JsString(view), i);
  }

  /** The default template has its first placeholder at index 5. */
  lemma DefaultTemplatePlaceholder()
    ensures OccursAt("Show {view}", ViewPlaceholder, 5)
    ensures forall j :: 0 <= j < 5 ==> !OccursAt("Show {view}", ViewPlaceholder, j)
  {
    var template := "Show {view}";
    forall j | 0 <= j < 5 ensures !OccursAt(template, ViewPlaceholder, j) {
      assert template[j] != '{';
    }
  }

  /** With the default template the button reads "Show table" or
      "Show chart". */
  lemma DefaultTextExamples()
    ensures ToggleButtonText(Str("Show {view}"), Str("table")) == Some("Show table")
    ensures ToggleButtonText(Str("Show {view}"), Str("chart")) == Some("Show chart")
  {
    DefaultTemplatePlaceholder();
    TextFillsFirstPlaceholder("Show {view}", Str("table"), 5);
    TextFillsFirstPlaceholder("Show {view}", Str("chart"), 5);
    assert "Show {view}"[..5] + "table" + "Show {view}"[11..] == "Show table";
    assert "Show {view}"[..5] + "chart" + "Show {view}"[11..] == "Show chart";
  }

  /** The view after a toggle: the table view when the chart view was
      current, the chart view otherwise. */
  function FlipView(current: Value, chartViewName: Value, tableViewName: Value): (next: Value)
    ensures next == chartViewName || next == tableViewName
    ensures current == chartViewName ==> next == tableViewName
  {
    if current == chartViewName then tableViewName else chartViewName
  }

  /** When the two view names differ, a view that is one of them comes
      back after two toggles, and a toggle always changes it. */
  lemma FlipTwice(current: Value, chartViewName: Value, tableViewName: Value)
    requires chartViewName != tableViewName
    requires current == chartViewName || current == tableViewName
    ensures FlipView(FlipView(current, chartViewName, tableViewName), chartViewName, tableViewName) == current
    ensures FlipView(current, chartViewName, tableViewName) != current
  {
  }

  /** What the toggle keeps: the view currently shown, and the text of the
      toggle button. */
  datatype ToggleState = ToggleState(currentView: Value, buttonLabel: string)

  /** toggleView: the button text is made from the view before the flip,
      then the view flips. */
  function Toggle(state: ToggleState, template: string, chartViewName: Value, tableViewName: Value): ToggleState {
    ToggleState(
      FlipView(state.currentView, chartViewName, tableViewName),
      ToggleButtonText(Str(template), state.currentView).value)
  }

  /** The button offers the view that is not shown. */
  predicate ButtonOffersHiddenView(state: ToggleState, template: string, chartViewName: Value, tableViewName: Value) {
    Some(state.buttonLabel) ==
      ToggleButtonText(Str(template), FlipView(state.currentView, chartViewName, tableViewName))
  }

  /** When the two view names differ and the current view is one of them,
      a toggle keeps the button offering the hidden view. */
  lemma ToggleKeepsButtonOfferingHiddenView(state: ToggleState, template: string,
                                            chartViewName: Value, tableViewName: Value)
    requires chartViewName != tableViewName
    requires state.currentView == chartViewName || state.currentView == tableViewName
    requires ButtonOffersHiddenView(state, template, chartViewName, tableViewName)
    ensures ButtonOffersHiddenView(Toggle(state, template, chartViewName, tableViewName),
                                   template, chartViewName, tableViewName)
    ensures Toggle(state, template, chartViewName, tableViewName).currentView != state.currentView
  {
    FlipTwice(state.currentView, chartViewName, tableViewName);
  }

  /** The markup starts with the button text for 'table' while the view is
      the default one; with the default names and template that is a button
      offering the hidden view. */
  lemma InitialButtonOffersHiddenView()
    ensures ButtonOffersHiddenView(
      ToggleState(Str("chart"), ToggleButtonText(Str("Show {view}"), Str("table")).value),
      "Show {view}", Str("chart"), Str("table"))
  {
    DefaultTextExamples();
  }
}
