# Cascading employer filter

A model of the browser-side employer filter: a row of dependent dropdowns
(Industry → Subindustry → Scale → Type, State → City → Scale → Type, and
DatePosted → Scale → Type) over the dropdown and rendering helpers they share.
Choosing a value in one dropdown empties and disables every later dropdown,
clears the results and, only when every dropdown up to it holds a value, loads
the next dropdown's options (the distinct values of one record field, sorted)
or, after the last dropdown, the employer cards.

Layout:

- `wrappers.dfy` — `Option`, standing for JavaScript's `undefined` default arguments and missing data.
- `ordering.dfy` — the default string order of `Array.prototype.sort`, and the idiom `[...new Set(xs)].sort()`. The idiom is proved strictly ascending and to hold exactly the input's values, and any list with those two properties is proved equal to it.
- `frontend.dfy` — `JS/main.js`. A `<select>` is the class `Dropdown` (options, disabled flag, selected value) and the results element is the class `Container`. The helpers are methods that update them in place, each specified by a pure snapshot (`Populated`, `Emptied`).
- `records.dfy` — records fetched by the data query, option derivation from one field, and the employer-card selection of `loadResults`.
- `cascade.dfy` — the cascade, written once for all three pages. A `Flow` lists each level's option source, query key, placeholder and error message. `Change` is the pure effect of one change event. `Consistent` is the page invariant that every event preserves. `Controller` is the class that performs a change on the elements, and it is proved to match `Change` exactly.
- `industries.dfy`, `regions.dfy`, `date_posted.dfy` — the three pages. Each gives its `Flow` (field names, lower-case or capitalised query keys, placeholders, messages) and states each of its listeners' outcomes in that page's own terms.

Where the intended design of the system and its code differ, the model follows the code:

- The code never checks whether a response is stale. The model treats every load as finishing right after its change event.
- At the results step, missing data (`!data`) shows "No Employers Shown At This Time" rather than an error. At an option step, missing data throws inside the `try` block, so it shows that step's error message.
- The pages never call `renderNoResults`. They write the "No Employers Shown At This Time" text themselves, and so does the model.

## Model

| member | source | states |
|---|---|---|
| `Frontend.PopulateDropdown` | JS/main.js:10-27 | afterwards the dropdown is exactly `Populated(items, placeholder)`: earlier options discarded, enabled, placeholder option first, selected value "" |
| `Frontend.PopulatedSpec` | JS/main.js:10-26 | a populated dropdown is enabled, selects "", its option values are `[""] + items` in the given order, its first text is the placeholder or "Select an option", and each item is shown as its own text |
| `Frontend.ClearDropdown` | JS/main.js:30-32 | all options are removed and nothing is selected; the disabled flag is unchanged |
| `Frontend.DisableDropdown` | JS/main.js:35-37 | the dropdown is disabled; its options and value are unchanged |
| `Frontend.EnableDropdown` | JS/main.js:40-42 | the dropdown is enabled; its options and value are unchanged |
| `Frontend.ResetDependentDropdowns` | JS/main.js:45-50 | every listed dropdown ends with no options, no value and disabled; its frame lets it change no other dropdown |
| `Frontend.RenderNoResults` | JS/main.js:64-66 | the container shows "No results found." |
| `Frontend.RenderError` | JS/main.js:68-70 | the container shows the given message, or "An error occurred." when none is given |
| `Ordering.LessTotal` | JS/industries.js:34 | the sort order ranks any two different strings one way or the other |
| `Ordering.LessTransitive` | JS/industries.js:34 | the sort order is transitive |
| `Ordering.SortPermutes` | JS/industries.js:34 | sorting keeps every value with its multiplicity |
| `Ordering.SortOrders` | JS/industries.js:34 | the sorted list is in ascending order |
| `Ordering.SortDistinct` | JS/industries.js:34 | sorting pairwise different values gives a strictly ascending list |
| `Ordering.DedupSpec` | JS/industries.js:34 | the `Set` step keeps each value once, and keeps exactly the values of the input |
| `Ordering.DistinctSortedSpec` | JS/industries.js:34 | derived options are strictly ascending (so free of duplicates) and hold exactly the input's values |
| `Ordering.DistinctSortedIsTheSortedValueSet` | JS/industries.js:34 | any strictly ascending list of exactly the input's values equals the derived options |
| `Records.FieldOptionsSpec` | JS/industries.js:48 | a fetched dropdown's options are strictly ascending, contain the field's value for every record, and contain nothing else |
| `Records.EmployersSpec` | JS/industries.js:105 | the kept records all have a truthy EmployerName, each named record is kept as often as it occurs, no other record is kept, and data order is preserved |
| `Records.CardsOf` | JS/industries.js:112-129 | one card per kept record, in order, named by its EmployerName and linked exactly when EmployerLink is truthy, to that link |
| `Records.SelectResults` | JS/industries.js:100-110 | the result is the placeholder exactly when the data is missing or no record has a truthy EmployerName (empty data included); otherwise it is cards |
| `Records.NamedFromSpec` | JS/industries.js:105 | the listed positions ascend and are exactly the positions of the records with a truthy EmployerName |
| `Records.NamedFromEmployers` | JS/industries.js:105 | the filter keeps exactly the records at those positions, in the same order |
| `Records.SelectResultsCards` | JS/industries.js:105-129 | when cards are shown, card j is the card of the record at the j-th position that has a truthy EmployerName: one card per named record, in data order, and none for any other record |
| `Records.OneNamedEmployer` | JS/regions.js:92-123 | of two matching records, the one without an EmployerName is dropped and the other gives one card, "Acme", linked |
| `Cascade.FilterOfSpec` | JS/industries.js:93-98 | the query filter of a level pairs each earlier level's key with that dropdown's value, in cascade order |
| `Cascade.LoadOptionsConsistent` | JS/industries.js:45-54 | loading a level whose predecessors all hold values, while every later dropdown is empty and disabled, keeps the page invariant |
| `Cascade.ClearedConsistent` | JS/industries.js:141-143 | choosing one of a dropdown's options, resetting the later dropdowns and clearing the results keeps the invariant, and leaves every later dropdown empty and disabled |
| `Cascade.ChangeConsistent` | JS/industries.js:139-183 | every change event keeps the invariant: a dropdown after the first holds options, or is enabled, only while all earlier ones hold values; each value is one of its dropdown's options; and employer results are shown only when every dropdown holds a value |
| `Cascade.ChangeKeepsUpstream` | JS/industries.js:160-170 | a change leaves every earlier dropdown untouched; the changed one holds the new value |
| `Cascade.ChangeClearsDownstream` | JS/industries.js:141-143 | after a change, no later dropdown keeps a value, every dropdown after the next is empty and disabled, and the results container is blank unless a load was allowed |
| `Cascade.ChangeGate` | JS/industries.js:145-147 | if the new value or an earlier one is empty, nothing is loaded: the next dropdown stays empty and disabled and the results stay blank |
| `Cascade.ChangeLoadsNext` | JS/industries.js:45-54 | when all values up to the changed one are set, the next dropdown is queried with the earlier values plus the new one; it then offers its field's distinct sorted values under its placeholder, or the level's error is shown and it stays empty and disabled |
| `Cascade.ChangeLast` | JS/industries.js:172-182 | a change of the last dropdown resets no dropdown; results are queried with every value only when all are set, and show the failure message or the selected results |
| `Cascade.Controller.constructor` | JS/industries.js:15-20 | binds distinct elements, one per level, as the markup leaves them; the page invariant holds |
| `Cascade.Controller.ClearResults` | JS/industries.js:185-187 | the results container is emptied, no dropdown changes, and the page invariant is kept |
| `Cascade.Controller.Choose` | JS/main.js:53-58 | the picked value becomes the changed dropdown's value, the listener's argument; nothing else changes |
| `Cascade.Controller.ResetAfter` | JS/industries.js:142 | every dropdown from the given level on is emptied and disabled; the earlier ones are unchanged |
| `Cascade.Controller.LoadLevel` | JS/industries.js:59-68 | the page afterwards equals `LoadOptions`: populated from the query on the earlier values, or the level's error shown |
| `Cascade.Controller.LoadResults` | JS/industries.js:91-134 | the page afterwards equals `ShowResults`: "Failed to load results." on failure, else the selected results |
| `Cascade.Controller.Start` | JS/industries.js:22-26 | on page load the first dropdown is loaded, and the invariant holds |
| `Cascade.Controller.Prepare` | JS/industries.js:150-152 | after the browser's choice, the reset of the later dropdowns and `clearResults`, the page equals `Cleared` of the page before |
| `Cascade.Controller.OnChange` | JS/industries.js:139-183 | the page after a change event equals `Change` of the page before it, and the invariant is kept |
| `Industries.LoadIndustries` | JS/industries.js:31-40 | an unfiltered query fills Industry with the distinct sorted industries under "Select an Industry", or shows "Failed to load industries." and populates nothing |
| `Industries.IndustryChange` | JS/industries.js:141-148 | any Industry change empties Scale and Type; the placeholder loads nothing; a value queries `{Industry}` and fills Subindustry, or shows "Failed to load subindustries." |
| `Industries.SubindustryChange` | JS/industries.js:150-158 | Industry is untouched and Type is emptied; scales are loaded by `{Industry, Subindustry}` only when both are non-empty, or "Failed to load scales." is shown |
| `Industries.ScaleChange` | JS/industries.js:160-170 | Industry and Subindustry are untouched and Scale holds the new value; Type is loaded by all three values only when all are non-empty, or "Failed to load types." is shown |
| `Industries.TypeChange` | JS/industries.js:172-182 | no dropdown is reset; results are loaded by all four values only when all four are non-empty |
| `Regions.LoadStates` | JS/regions.js:31-40 | State offers the distinct sorted states of all regions, or "Failed to load states." is shown and nothing is populated |
| `Regions.StateChange` | JS/regions.js:137-144 | any State change empties Scale and Type; cities come from `City_Town_Other` under the lower-case key `state`, and only for a non-empty state |
| `Regions.CityChange` | JS/regions.js:147-155 | a City change resets Scale and Type only; scales are loaded by `{state, city}` only when both are non-empty |
| `Regions.ScaleChange` | JS/regions.js:158-168 | State and City are untouched and Scale holds the new value; types are loaded by `{state, city, scale}` only when all three are non-empty, or "Failed to load types." is shown |
| `Regions.TypeChange` | JS/regions.js:171-181 | no dropdown is reset; results are loaded by state, city, scale and type only when all four are non-empty |
| `DatePosted.LoadDateOptions` | JS/date-posted.js:30-38 | with any query, the first dropdown offers exactly "Last 3 Days", "Last 7 Days", "Last 14 Days" in that order, and the results are left alone |
| `DatePosted.DateChange` | JS/date-posted.js:124-131 | any date-range change empties Type; scales are loaded by `{DatePosted}` only for a non-empty range, or "Failed to load scales." is shown |
| `DatePosted.ScaleChange` | JS/date-posted.js:133-142 | a Scale change resets only Type; types are loaded by date range and scale only when both are non-empty |
| `DatePosted.TypeChange` | JS/date-posted.js:144-153 | no dropdown is reset; results are loaded by the three values only when all three are non-empty, or "Failed to load results." is shown |

## Left out

- DOM lookup and event wiring (`document.getElementById`, `DOMContentLoaded`, `attachDropdownListener`) are left out. The page's elements are the constructor's arguments. The page-load handler is `Controller.Start` and a change event is `Controller.OnChange`.
- JS/api.js (`getIndustries`, `getRegions`, `getJobsByDate`) is not part of this model. The data query is a parameter `Filter -> Response` that answers with records, missing data or a failure. Its matching semantics are not assumed. Each filter is passed with the keys the page writes, so regions.js uses lower-case keys and the other two pages use capitalised ones.
- Asynchrony is not modelled. Each load finishes right after the change that started it, so a slow response overwriting newer state cannot be expressed.
- Card markup and the CSS classes `industry-card`, `region-card` and `dateposted-card` are left out. A card is the abstract `Card(name, link)`.
- The initial page markup is not part of this model. The constructor assumes dropdowns start without options or a value, every dropdown after the first starts disabled, and the results container starts empty. The scripts never disable a later dropdown before the first change, so the invariant that only reachable dropdowns are enabled rests on the markup.
- `Cascade.Controller.OnChange` requires the new value to be one of the dropdown's option values, since the browser only delivers those. It does not require the dropdown to be enabled.
- `Cascade.Controller.Start` requires a page that has only just loaded, as DOMContentLoaded fires once.
- `Records.FieldValues` skips records that lack the field. In JavaScript such a record contributes `undefined`, which sorts last and gives an option whose value is the string "undefined". Field values are always strings here, so numbers and other JSON values are not modelled.
- `Ordering.Less` compares Dafny characters, which are Unicode scalar values. JavaScript compares UTF-16 code units. The two orders differ only between characters above U+FFFF and characters in U+E000–U+FFFF.
- Truthiness is modelled for strings only: a missing field or "" is falsy. Data that is neither missing nor a list of records is not modelled.
- The page files import `clearDropdown`, `enableDropdown`, `disableDropdown` and `renderNoResults` but never call them. These helpers are modelled in `Frontend` only.
