# Filtering a bound table by filter strings

This project models the filtering helpers of a WinForms sample in Dafny. The helpers are extension methods on a `BindingSource`. The sample form calls them from its text box and button handlers, which read the condition selected in the combo box.

Each filtering builder takes a field name, a value and a case-sensitivity flag (by default `false`). It first sets the table's `CaseSensitive` flag. Then it stores a filter string in the default view's `RowFilter`. `RowFilterFreeForm` takes a whole filter string instead of a field and a value. `RowFilterClear` does not touch the flag. The condition overload with `Select` changes nothing. The filter strings are:

| extension | filter stored |
|---|---|
| `RowFilter` | `field = 'v'` |
| `RowFilterStartsWith` | `field LIKE 'v%'` |
| `RowFilterContains` | `field LIKE '%v%'` |
| `RowFilterEndsWith` | `field LIKE '%v'` |
| `RowFilterTwoConditions` | `f1 = 'v1' AND f2 = 'v2'` |
| `RowFilterFreeForm` | the caller's string, verbatim |
| `RowFilterClear` | the empty string; the flag is not touched |

In these strings `v` is the value with every apostrophe doubled (`EscapeApostrophe`).

Modules:

- `Outcomes` holds the outcome of an operation. An operation either completes or throws a `NullReferenceException`. The source throws that when the binding source has no data source.
- `FilterText` holds the filter condition kinds, `EscapeApostrophe` and one function per filter string. It has lemmas about escaping and about the condition overload.
- `FilterExpression` is a typed reading of the filter strings. A filter is a comparison of a field against a quoted operand, or two comparisons joined by `AND`. `Render` writes an expression as text and `Parse` reads it back. `Parse(Render(e)) == Some(e)` is proved for every well-formed `e`: a single comparison or one `AND` of two comparisons, where no field name contains a blank. So for a field name without blanks, every builder's output reads back as a comparison of that field against exactly the value asked for, whatever the value contains. What is proved safe is the value's quoting only. The field name is interpolated unchecked (ExtensionLibrary/BindingSourceExtensions.cs:52). `Parse` takes any blank-free prefix as the field name, so a field such as `x='1'` is read back as one field, where the real filter engine would not read it that way. The LIKE operand includes its wildcards, for example `v%`. A field name with a blank is not covered: `Parse` takes the field to end at the first blank.
- `BindingSourceExtensions` holds three classes: `DataTable` (the case flag and the default view), `DataView` (the row filter and the table it is over) and `BindingSource` (a data source that may be null). The extensions are methods of `BindingSource`. Each method's contract gives the new abstract state `Snapshot()` and the outcome as a function of the old state (`AfterSetFilter`, `AfterClear`, `AfterCondition`). With no data source, the method throws and nothing changes. The one exception is `RowFilterWithCondition` with `Select`: that call matches no case, so it touches nothing and completes without throwing.
- `SampleForm` holds the form controller. The text box text and the selected condition are plain fields. Each handler's decision is an `Action` (ignore, clear, or apply a condition to the text). `Perform` gives the action's effect on the bound view.

Facts about the code that the model brings out:

- The condition kind meaning "nothing chosen yet" is `Select` (SampleWinForm/Form1.cs:56, :70).
- The combo box has no handler of its own (SampleWinForm/Form1.cs:14-16 wire only `Shown`, `KeyDown` and `TextChanged`). Picking a new condition does not re-apply the filter. The new condition takes effect on the next text change, Enter key or button click, which read `SelectedItem` (SampleWinForm/Form1.cs:55, :69).
- Two handlers treat text differently. Typing clears the filter only for empty text and applies whitespace-only text as a filter (SampleWinForm/Form1.cs:58). The button and the Enter key clear the filter for text that is empty or only white space (SampleWinForm/Form1.cs:72).
- The condition overload of `RowFilter` escapes the value (ExtensionLibrary/BindingSourceExtensions.cs:39, :42, :45). It then passes it to a builder that escapes it again (:94, :82, :99). So through that overload the stored operand is `EscapeApostrophe(v)`, not `v`. Under this model's doubling definition of `EscapeApostrophe`, the two differ exactly when `v` holds an apostrophe (`FilterText.ConditionMatchesDirect`, `FilterExpression.ConditionOperand`). The sample form calls this overload.

The source's body of `EscapeApostrophe` is not available. This model defines it as doubling every apostrophe. Two things support that definition. The filter language writes an apostrophe inside a quoted literal as two apostrophes. And the test at FilteringTest/FilterTest.cs:293-296 expects `RowFilterEndsWith("CompanyName", "Bon app'", true)` to match one row. The extension contracts are stated through `EscapeApostrophe(v)` and do not depend on its body. Only the lemmas about escaping and parsing do.

## Model

| member | source | states |
|---|---|---|
| `FilterText.EscapeApostrophe` | ExtensionLibrary/BindingSourceExtensions.cs:39-99 | the escaping the extensions apply to values; the source's body is not available, and the model defines it as doubling every apostrophe and keeping every other character; its contract says escaping never shortens a value |
| `FilterText.EscapeLength` | FilteringTest/FilterTest.cs:293-296 | escaping lengthens a value by exactly one character per apostrophe |
| `FilterText.EscapeDoublesApostrophes` | FilteringTest/FilterTest.cs:293-296 | the escaped value holds exactly twice as many apostrophes as the value |
| `FilterText.EscapeUnchangedIff` | FilteringTest/FilterTest.cs:293-296 | escaping leaves a value unchanged if and only if it holds no apostrophe |
| `FilterText.EscapeConcat` | ExtensionLibrary/BindingSourceExtensions.cs:82-99 | escaping distributes over concatenation, so the `%` wildcards placed around an escaped value are unaffected |
| `FilterText.TwoEqualsJoins` | ExtensionLibrary/BindingSourceExtensions.cs:67-71 | the two-condition filter is the two equality filters joined by ` AND `, in argument order |
| `FilterText.ConditionMatchesDirect` | ExtensionLibrary/BindingSourceExtensions.cs:34-48 | for each LIKE condition, the overload stores the same filter as the matching method called with the raw value if and only if the value holds no apostrophe (double escaping) |
| `FilterText.WildcardsNotEscaped` | ExtensionLibrary/BindingSourceExtensions.cs:82-99 | `%` in the value is not escaped: starts-with `%v` and ends-with `v%` store the same filter as contains `v` |
| `FilterExpression.ReadLiteralEscaped` | ExtensionLibrary/BindingSourceExtensions.cs:52 | an escaped value closed by an apostrophe reads back as the value, and what follows is left over |
| `FilterExpression.ParseComparisonRender` | ExtensionLibrary/BindingSourceExtensions.cs:52 | a rendered comparison on a blank-free field reads back as itself, and the text after it is left over |
| `FilterExpression.ParseRender` | ExtensionLibrary/BindingSourceExtensions.cs:67-71 | on field names without blanks, `Parse` inverts `Render` for a comparison or an AND of two comparisons |
| `FilterExpression.RenderInjective` | ExtensionLibrary/BindingSourceExtensions.cs:49-100 | two well-formed filters that render to the same text are equal |
| `FilterExpression.BuildersRender` | ExtensionLibrary/BindingSourceExtensions.cs:79-100 | the builders are renderings: `=` against the value, and LIKE against `v%`, `%v%` or `%v` |
| `FilterExpression.TwoEqualsRenders` | ExtensionLibrary/BindingSourceExtensions.cs:67-71 | the two-condition filter renders as the AND of the two equalities |
| `FilterExpression.BuildersQuoteSafe` | ExtensionLibrary/BindingSourceExtensions.cs:49-100 | on field names without blanks, for any value, each single-field filter reads back as one comparison of the field against exactly that value (with its wildcards) |
| `FilterExpression.TwoEqualsQuoteSafe` | ExtensionLibrary/BindingSourceExtensions.cs:67-71 | on field names without blanks, for any values, the two-condition filter reads back as exactly the two equalities, in order |
| `FilterExpression.ConditionOperand` | ExtensionLibrary/BindingSourceExtensions.cs:34-48 | on field names without blanks, through the condition overload, the stored LIKE operand carries the value escaped once already, which equals the value if and only if it holds no apostrophe |
| `BindingSourceExtensions.HasDataIffCompletes` | ExtensionLibrary/BindingSourceExtensions.cs:49-121 | setting a filter and clearing complete if and only if a data source is set, and change nothing when there is none |
| `BindingSourceExtensions.ClearIdempotent` | ExtensionLibrary/BindingSourceExtensions.cs:118-121 | clearing twice has the same state and outcome as clearing once |
| `BindingSourceExtensions.SelectHitsNoCase` | ExtensionLibrary/BindingSourceExtensions.cs:36-47 | a condition matching no case leaves the flag and the filter as they were, and does not throw |
| `BindingSourceExtensions.BindingSource.HasData` | ExtensionLibrary/BindingSourceExtensions.cs:127-130 | true if and only if the data source is set; on a valid source, exactly when `DataView` succeeds and the abstract state is present |
| `BindingSourceExtensions.BindingSource.DataTable` | ExtensionLibrary/BindingSourceExtensions.cs:13-16 | the data source as a table; on a valid source it is null exactly when `HasData` is false, and otherwise a valid table whose default view is the one `DataView` returns |
| `BindingSourceExtensions.BindingSource.DataView` | ExtensionLibrary/BindingSourceExtensions.cs:22-25 | the table's default view, which is over that table; throws if and only if there is no data source |
| `BindingSourceExtensions.BindingSource.SetCaseAndFilter` | ExtensionLibrary/BindingSourceExtensions.cs:51-52 | sets the flag, then the default view's filter; with no data source it throws and changes nothing; the table keeps its default view |
| `BindingSourceExtensions.BindingSource.RowFilterWithCondition` | ExtensionLibrary/BindingSourceExtensions.cs:34-48 | StartsWith, Contains and EndsWith store that builder's filter over the escaped value and set the flag; Select changes nothing |
| `BindingSourceExtensions.BindingSource.RowFilter` | ExtensionLibrary/BindingSourceExtensions.cs:49-53 | sets the flag and stores `field = 'v'` |
| `BindingSourceExtensions.BindingSource.RowFilterNewView` | ExtensionLibrary/BindingSourceExtensions.cs:54-66 | sets the shared view as `RowFilter` does and returns a fresh view over the same table with the same filter; later extensions do not change the returned view's filter; they do set the case flag of the table it shares |
| `BindingSourceExtensions.BindingSource.RowFilterTwoConditions` | ExtensionLibrary/BindingSourceExtensions.cs:67-71 | sets the flag and stores `f1 = 'v1' AND f2 = 'v2'` |
| `BindingSourceExtensions.BindingSource.RowFilterContains` | ExtensionLibrary/BindingSourceExtensions.cs:79-83 | sets the flag and stores `field LIKE '%v%'` |
| `BindingSourceExtensions.BindingSource.RowFilterStartsWith` | ExtensionLibrary/BindingSourceExtensions.cs:91-95 | sets the flag and stores `field LIKE 'v%'` |
| `BindingSourceExtensions.BindingSource.RowFilterEndsWith` | ExtensionLibrary/BindingSourceExtensions.cs:96-100 | sets the flag and stores `field LIKE '%v'` |
| `BindingSourceExtensions.BindingSource.RowFilterFreeForm` | ExtensionLibrary/BindingSourceExtensions.cs:109-113 | sets the flag and stores the caller's filter verbatim |
| `BindingSourceExtensions.BindingSource.RowFilterClear` | ExtensionLibrary/BindingSourceExtensions.cs:118-121 | empties the filter and keeps the flag; throws without a data source |
| `BindingSourceExtensions.DefaultIsCaseInsensitive` | ExtensionLibrary/BindingSourceExtensions.cs:91 | a `RowFilterStartsWith` call that omits the case-sensitivity argument leaves the table case-insensitive; every other extension declares the same `caseSensitive: bool := false` default |
| `SampleForm.IsNullOrWhiteSpace` | SampleWinForm/Form1.cs:72 | `string.IsNullOrWhiteSpace` on non-null text: every character is .NET white space (U+0009 to U+000D, U+0020, U+0085, U+00A0, U+1680, U+2000 to U+200A, U+2028, U+2029, U+202F, U+205F, U+3000); the empty text counts |
| `SampleForm.SelectChangesNothing` | SampleWinForm/Form1.cs:53-80 | with Select chosen, typing, Enter and the filter operation neither change the view nor throw |
| `SampleForm.HandlersDifferOnlyOnWhiteSpace` | SampleWinForm/Form1.cs:58-79 | typing and the filter operation decide differently if and only if a condition is chosen and the text is non-empty white space, which typing applies and the filter operation clears |
| `SampleForm.ApplyFiltersProductName` | SampleWinForm/Form1.cs:60 | applying text under a condition stores that condition's filter on `ProductName`, case-insensitively |
| `SampleForm.Form.constructor` | SampleWinForm/Form1.cs:11-19 | a new form has empty text and a binding source without data; starting with `Select` chosen stands for the state after `Form1_Shown` binds the condition values to the combo box (before that `SelectedItem` is null, which is not modelled) |
| `SampleForm.Form.FilterDataButtonClick` | SampleWinForm/Form1.cs:37-40 | the button has exactly the effect of the filter operation |
| `SampleForm.Form.ProductNameTextBoxKeyDown` | SampleWinForm/Form1.cs:41-47 | Enter runs the filter operation; any other key changes nothing |
| `SampleForm.Form.ProductNameTextBoxTextChanged` | SampleWinForm/Form1.cs:53-66 | Select: nothing; non-empty text: the condition overload on `ProductName`, case-insensitive; empty text: clear |
| `SampleForm.Form.FilterOperation` | SampleWinForm/Form1.cs:67-80 | Select: nothing; empty or white-space text: clear; otherwise the condition overload on `ProductName`, case-insensitive |

## Left out

- Evaluating a filter against rows is left out. That covers LIKE, `=`, `AND`, `OR` and `IN`, culture-dependent comparison, and the row count. The data-table engine does it, and that engine is not in the repository. So the row counts the tests expect are not modelled.
- The engine rejects a malformed filter when `RowFilter` is set. That error is not modelled: every string is accepted. In the source, the case flag would already have been set at that point.
- The source's body of `EscapeApostrophe` is not available. The model defines it as doubling apostrophes (see above).
- The declaration of the `FilterCondition` enum is not part of this model. The model has the four values the code names: `Select`, `StartsWith`, `Contains` and `EndsWith`.
- The other part of the partial class `BindingSourceExtensions` is not part of this model.
- A data source of a type other than `DataTable` would make the source's cast throw. The model's data source is a table or null.
- Null string arguments are not modelled: strings are never null here. A text box's `Text` is never null.
- The combo box is assumed always to hold a `FilterCondition`. A null `SelectedItem` is not modelled.
- `Form1_Shown` (data loading, grid binding, cue text) and the event wiring in the form's constructor are UI and I/O. They are left out. The handlers are methods that the UI is assumed to call.
- `Operations/DataOperations.cs` is left out. It is database I/O plus a guard on the environment's user name.
- The designer layout is left out.
- `TextBoxExtensions.IsNullOrWhiteSpace` is left out. It is an unused one-line wrapper. The form's own `string.IsNullOrWhiteSpace` is modelled as `SampleForm.IsNullOrWhiteSpace`, using the .NET white-space characters.
