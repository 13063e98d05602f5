# tableCharts: a Dafny model of the table-to-chart jQuery helper

The `tableChart` class turns one HTML table into the configuration that
the c3 charting library draws, and puts a button beside it that switches
between the chart and the table. `$.fn.tableCharts` creates one such chart
per table of a jQuery collection. This project models that class with the
DOM replaced by plain data, and proves what each step promises.

- **Settings** (`ChartSettings`). The ten defaults are extended by the
  constructor's options, shallowly, skipping `undefined` values as
  `$.extend` does. `parseSettings` then walks the names in
  `dataAttributes`. A name whose data attribute is not `null` overwrites
  the setting of that name. An attribute that is absent reads as
  `undefined`, which is not `null`, so it overwrites the setting too.
  The model reproduces this: by default, a table without `data-type` ends
  up with type `undefined`, not `'line'`.
- **Table parse** (`TableParse`, `TableParse.ParseColumns`, `TableChart.ParseData`). The rows are
  walked in order, and within a row the cells in order. Cell `c` is pushed
  onto column `c`, and the column is created the first time it is needed.
  The result is column-major. A header cell contributes its markup. A data
  cell contributes `parseInt` of its markup (`JsParseInt`), or NaN when it
  has no leading integer; an empty cell is NaN.
- **Toggle** (`ViewToggle`, `JsReplace`). The button text is the
  `toggleText` template with its first `{view}` replaced. `toggleView`
  sets the text from the view before the flip, then flips the current view
  between the two view names.
- **Ids and the c3 configuration** (`TableCharts`). The chart DOM id is
  the literal `"table-chart-"` followed by the chart id as a string.
  `buildChart` copies `type` into `data` and forwards `data` and
  `rotated`. The plugin gives every element its index as the chart id.
- **Values** (`JsValues`). JavaScript values are a datatype with
  `undefined`, `null`, booleans, integers, NaN, strings, arrays and plain
  objects. `JsString` is the string conversion that `+` and
  `String.prototype.replace` apply.

`TableChart` is a class whose methods update its fields the way the
source's methods update `self`. Each method is specified by a function on
values (`ApplyDataAttributes`, `TableColumns`, `Toggle`, `WithDataType`,
`ConfigOf`), and the lemmas are proved about those functions.

## Model

| member | source | states |
|---|---|---|
| ChartSettings.DefaultValues | js/jquery.table_charts.js:29-40 | the available options are exactly the ten listed, each with its default value |
| ChartSettings.ExtendSpec | js/jquery.table_charts.js:43 | after `$.extend`, a key that the source gives a non-undefined value holds that value; any other key of the target keeps its value; no other keys appear |
| ChartSettings.InitialSettingsFromOptions | js/jquery.table_charts.js:29-43 | after construction, every available option that the options give a value holds that value, and every other available option holds its default |
| ChartSettings.ExtendIdempotent | js/jquery.table_charts.js:43 | extending a second time by the same options changes nothing |
| ChartSettings.ExtendByNothing | js/jquery.table_charts.js:43 | a constructor called without options keeps the defaults |
| ChartSettings.ApplyDataAttributesSpec | js/jquery.table_charts.js:57-62 | parseSettings changes only the named keys; a named key is overwritten exactly when its attribute is not null, and is unchanged when it is null |
| ChartSettings.ResolvedWithDefaultNames | js/jquery.table_charts.js:38-63 | with the default `dataAttributes`, only `type` and `rotated` can change; each takes its attribute's value unless that value is null |
| TableCharts.TableChart.ParseSettings | js/jquery.table_charts.js:52-63 | the loop over the names leaves the settings the specification function gives for the names as they were when the loop started |
| JsParseInt.TrimStartSpec | js/jquery.table_charts.js:85 | parseInt's trimming removes exactly a prefix of white space, and what is left does not start with white space |
| JsParseInt.LeadingDigitsSpec | js/jquery.table_charts.js:85 | the digits parseInt reads are a prefix of the text, all decimal digits, and the longest such prefix |
| JsParseInt.ParseDecimalPrefix | js/jquery.table_charts.js:85 | an integer's decimal form followed by text that does not continue the digits parses back to that integer |
| JsParseInt.ParseSkipsWhitespace | js/jquery.table_charts.js:85 | leading white space never changes what parseInt returns |
| JsParseInt.ParseRejectsNonNumeric | js/jquery.table_charts.js:85 | text that starts with anything other than white space, a sign or a digit is NaN |
| JsParseInt.ParseLoneSign | js/jquery.table_charts.js:85 | a sign with no digit after it is NaN |
| JsParseInt.ParseExamplePixels | js/jquery.table_charts.js:85 | "42px" parses to 42 |
| JsParseInt.ParseExampleWord | js/jquery.table_charts.js:85 | "foo" parses to NaN |
| JsParseInt.ParseExampleSpaceAndSign | js/jquery.table_charts.js:85 | " -7 apples" parses to -7 |
| TableParse.DataCellValue | js/jquery.table_charts.js:85 | a data cell holding optional white space, an integer and non-digit text contributes that integer |
| JsParseInt.ParseDigitRun | js/jquery.table_charts.js:85 | white space, an optional sign and any run of digits not continued by a digit parse to the run's value, negated after a minus sign; leading zeros and a plus sign are read past |
| JsParseInt.ParseSplit | js/jquery.table_charts.js:85 | every text splits into maximal white space, an optional sign, a maximal digit run and the rest; the result is NaN exactly when the run is empty, and otherwise the run's signed value |
| JsParseInt.ParseBlank | js/jquery.table_charts.js:85 | an empty text or one of white space only is NaN |
| TableParse.DataCellDigits | js/jquery.table_charts.js:85 | a data cell holding white space, a sign and any run of digits contributes the run's signed value |
| TableParse.DataCellNaN | js/jquery.table_charts.js:85 | a data cell contributes NaN exactly when parseInt finds no integer, in particular when it is empty or white space |
| TableParse.DataCellSpellingExamples | js/jquery.table_charts.js:85 | a `007px` data cell gives 7 and an empty data cell gives NaN |
| TableParse.DataCellExamples | js/jquery.table_charts.js:85 | a `42px` data cell gives 42, a `foo` data cell gives NaN, and a header cell gives its markup unchanged |
| TableParse.MaxWidthSpec | js/jquery.table_charts.js:75-80 | the number of columns is the cell count of the widest row: no row is wider, and some row has exactly that many cells |
| TableParse.ColumnEntry | js/jquery.table_charts.js:75-91 | nothing is lost: cell `c` of row `r` is in column `c`, right after the entries from the rows before `r` |
| TableParse.EmptyTableData | js/jquery.table_charts.js:72-96 | a table with no rows gives `data == {columns: []}` |
| TableParse.ParseColumns | js/jquery.table_charts.js:71-91 | the nested loops build as many columns as the widest row has cells, and column `c` holds cell `c` of every row that has one, in row order |
| TableCharts.TableChart.ParseData | js/jquery.table_charts.js:71-97 | `settings.data` becomes `{columns: ...}` with the columns of the table, and no other setting changes |
| JsReplace.IndexFrom | js/jquery.table_charts.js:103 | the search returns the first position at or after `from` where the pattern occurs, or none when it occurs nowhere there |
| JsReplace.ReplaceWithoutPattern | js/jquery.table_charts.js:103 | replacing in a string without the pattern returns the string unchanged |
| JsReplace.ReplaceFirstOccurrence | js/jquery.table_charts.js:103 | only the first occurrence is replaced; the text before it and everything after it, later occurrences included, is kept |
| ViewToggle.ToggleButtonText | js/jquery.table_charts.js:102-104 | a button text exists exactly when the template is a string; any other template throws |
| ViewToggle.TextWithoutPlaceholder | js/jquery.table_charts.js:103 | a template without `{view}` is the text for every view |
| ViewToggle.TextFillsFirstPlaceholder | js/jquery.table_charts.js:103 | the view's string form replaces the first `{view}`; later ones stay |
| ViewToggle.DefaultTextExamples | js/jquery.table_charts.js:102-104 | the default template gives "Show table" and "Show chart" |
| ViewToggle.FlipView | js/jquery.table_charts.js:116 | the next view is one of the two names, and it is the table view when the chart view was current |
| ViewToggle.FlipTwice | js/jquery.table_charts.js:116 | when the names differ and the view is one of them, a toggle changes it and two toggles restore it |
| ViewToggle.ToggleKeepsButtonOfferingHiddenView | js/jquery.table_charts.js:114-116 | when the button names the view that is hidden, it still does after a toggle, and the view has changed |
| ViewToggle.InitialButtonOffersHiddenView | js/jquery.table_charts.js:132 | with the defaults, the first button ("Show table" while the chart shows) names the hidden view |
| TableCharts.TableChart.ToggleView | js/jquery.table_charts.js:109-117 | the new view and button text are those of the toggle function applied to the old ones |
| TableCharts.ChartDomIdsDistinct | js/jquery.table_charts.js:124 | different integer chart ids give different DOM ids |
| TableCharts.ConfigCarriesSettings | js/jquery.table_charts.js:158-166 | the c3 configuration binds to `#` plus the DOM id; its data is the `data` setting with `type` set to the `type` setting and every other entry kept; its rotation is the `rotated` setting |
| TableCharts.TableChart.BuildChart | js/jquery.table_charts.js:153-168 | `settings.data` gains the type, and the chart is configured from the new settings |
| TableCharts.TableChart.BuildMarkup | js/jquery.table_charts.js:122-148 | the DOM id comes from the chart id, the button text from the template for 'table', and then buildChart runs |
| TableCharts.TableChart.Init | js/jquery.table_charts.js:173-177 | init leaves the settings, DOM id, button text and configuration that parseSettings, parseData and buildMarkup give from the settings it started with, and does not touch the current view |
| TableCharts.TableChart.constructor | js/jquery.table_charts.js:21-46 | the chart reads its table and attributes; its view is the `defaultView` of the extended settings; init has run from those settings |
| TableCharts.PluginSettings | js/jquery.table_charts.js:29-62 | under the plugin's options, the chart id is the element's index; the template and view names are the defaults; `type` and `rotated` come from the element unless its attribute is null |
| TableCharts.PluginChartConfig | js/jquery.table_charts.js:153-167 | for the i-th element, c3 gets `#table-chart-i`, the element's columns with the resolved type, and the resolved rotation |
| TableCharts.CreateChart | js/jquery.table_charts.js:194 | a new chart for the element, whose chart id is the index, whose DOM id is built from it, which starts on the chart view, and whose settings, DOM id, button text and c3 configuration are those init gives from the defaults extended by `{chartId: index}` |
| TableCharts.Plugin | js/jquery.table_charts.js:187-197 | one new chart per element, in order, each created as `CreateChart` states with its index as chart id; the DOM ids within one call are pairwise distinct |
| TableCharts.CreatedChartState | js/jquery.table_charts.js:187-197 | a chart the plugin created holds the final settings under `{chartId: index}`, shows "Show table" on its button, and handed c3 `#table-chart-index`, the element's columns with the resolved type, and the resolved rotation |

## Left out

- js/govcms_ckan.js: it only looks up DOM elements and calls into Drupal (`Drupal.checkPlain`, `Drupal.t`, `drupalSetSummary`), so there is no logic of its own to model.
- DOM construction and visibility: creating the `<div>` and `<button>`, the CSS class names made from `component`, `insertAfter`, `hide`, `toggle` and the click binding. Only the resulting ids, text and state are modelled.
- `c3.generate`: it is an external renderer. The model keeps the configuration object it is given (`ChartConfig`) as the `chart` field.
- jQuery internals are abstracted. `.data()` is a map from attribute name to an already converted value, with an absent name reading as `undefined`. `.html()` is the cell's markup string. `tagName` is the `Header`/`Data` tag of a cell.
- `dataAttributes` that is not an array: `$()` of a string would be a selector or markup. The model gives such a value no names.
- parseInt: only decimal leading-integer scanning is modelled. A `0x` prefix, which parseInt reads as hexadecimal when no radix is given, is read as 0 by the model. Numbers are unbounded integers, so the loss of precision for very long digit strings is not modelled.
- `String.prototype.replace`: with a string pattern, the replacement patterns `$$`, `$&`, `` $` `` and `$'` are interpreted by JavaScript and not by the model (`$1` and the like stay as written in both, since there are no captures). The view names in use contain no `$`.
- Loose equality `==` in toggleView is modelled as structural equality of values. The two differ when the view names are values of different types (`1 == "1"` holds in JavaScript), when both are NaN (`NaN == NaN` is false in JavaScript, so the view then flips to the chart view, while the model flips it to the table view), and when they are arrays or objects, which JavaScript compares by identity.
- JavaScript exceptions: a `toggleText` that is not a string throws a TypeError during buildMarkup. The model has no exceptions, so `ToggleButtonText` returns None for it.
- constructor: requires the resolved `toggleText` to be a string, because the source throws at that point during construction. `PluginSettings` proves this always holds for the charts the plugin creates.
- Numbers: only integers and NaN are values of the model. `.data()` turns attributes such as `data-rotated="1.5"` or `"Infinity"` into non-integer numbers, which are not modelled, and integers of magnitude 10^21 or more are printed in decimal rather than in JavaScript's exponent form.
- Visibility and the button: buildMarkup always hides the table (js/jquery.table_charts.js:143) whatever `defaultView` is (line 46), while `currentView` starts at `defaultView`. `ToggleKeepsButtonOfferingHiddenView` and `InitialButtonOffersHiddenView` take "hidden" to mean the view other than `currentView`, which is what the page shows only when `defaultView` is the chart view name, as it is by default and for every chart the plugin creates. With `defaultView: 'table'` the first toggle shows the table and leaves "Show table" on the button; the model does not track visibility, so it does not capture this.
- The `window.tableCharts` registry and the `document.ready` bootstrap are page plumbing. `Plugin` returns the charts it would push. Ids restart from 0 on every call, as the source's own comment warns. The registry that would collect charts from several calls is not modelled.
- Aliasing: `$.extend(self.defaults, settings)` updates the defaults object in place and makes it the settings object. Nothing reads the defaults afterwards, so the model treats both as one value.
