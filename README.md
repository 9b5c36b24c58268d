# TAO data binding and data table, modelled in Dafny

This project models two pieces of the TAO platform:

- **The generis instance data binder.** `tao_models_classes_dataBinding_GenerisInstanceDataBinder` takes a desired state for one target resource and reconciles the resource with it. The desired state maps property URIs to values, and the `rdf:type` key maps to the resource's types.
  - It binds the types as soon as it meets the type key.
  - It drops properties that do not exist.
  - It reads the old values of the kept properties in one call.
  - It removes, one value at a time, every old value that is not wanted.
  - It adds every wanted value that is missing, in one `setPropertiesValues` call.

  Four points about the code shape the model:
  - `bind` binds types in its first loop, when it meets the `rdf:type` key, before any value is read or removed (`PlanOrder`).
  - `array_diff` keeps duplicates and order (`DiffKeepsMultiplicity`, `DiffOfConcat`); it is not a set difference.
  - Only arrays and strings give property values. An int, float, bool or null value gives none, so every stored value of that property is removed (`ScalarClearsProperty`). For types, any non-array is wrapped as one type.
  - The old values of all kept properties are read in one `getPropertiesValues` call.
- **The `ui/datatable` component.** This models its options object, which holds paging and sorting state: the defaults, `_next`, `_previous`, `_sortOptions`, `_sort`, and the query parameters `_query` sends. It also models two `_render` rules: which navigation buttons are disabled, and which row action buttons the `readonly` data disables.

Modules, in dependency order:

- `PhpArrays` (`php_arrays.dfy`): `array_diff` on lists of strings. It filters and keeps order and duplicates; it is not a set difference.
- `GraphStore` (`graph_store.dfy`): the store as the binder sees it. The stored values and types of the target resource are held in a `Resource` object, with the schema of existing properties. Every store call is an `Op` recorded in the resource's `trace`. The stored `values` hold only the properties other than `rdf:type`; the values of `rdf:type` are the separate `types` list, which only the type calls read and change.
  - A store call can raise `common_Exception`. The model injects that fault by trace position (`faultAt`).
  - The predicate `Ran` states what a run leaves behind: the calls issued, and the store state. If a call raises, every earlier call stays in effect, because nothing is rolled back.
- `BindingPlan` (`binding_plan.dfy`): pure functions giving the exact sequence of store calls `bind` issues from a given state (`Plan`, `GatePlan`, `TypeOps`, `ValuePlan`, `PropertyPlan`, `ToAdd`). It also holds the values `getOldData` returns (`OldData`).
- `GenerisInstanceDataBinder` (`generis_instance_data_binder.dfy`): the class `Binder`, with methods whose loops follow the PHP. Each method is proved to issue exactly its plan, or the prefix of it that ends with the call that raised.
- `BindingProperties` (`binding_properties.dfy`): what the plan achieves and what it never does.
  - Kept properties end up with exactly their desired values.
  - Other properties are untouched.
  - Types end up as the desired types.
  - Removals hit exactly the stale values.
  - The single write of additions comes last.
  - A second `bind` with the same data only reads.
- `DataTable` (`datatable.dfy`): the options object and the table as classes whose methods update the options in place. Each query is recorded as the parameters it would send.

Calls the binder makes into the knowledge base (`core_kernel_classes_Resource`, `core_kernel_classes_Property`) are modelled by `GraphStore.Resource`. That code is not part of this model. Its behaviour is given by `Apply`:

- `removePropertyValue` removes every stored literal or resource whose string form is the value.
- `setPropertiesValues` appends the given values as literals.
- `removeType` and `setType` remove or append a type URI.

## Model

| member | source | states |
|---|---|---|
| PhpArrays.Diff | models/classes/dataBinding/class.GenerisInstanceDataBinder.php:125-129 | `array_diff` keeps exactly the elements of the first list that are absent from the second, and is never longer than the first list |
| PhpArrays.DiffKeepsMultiplicity | models/classes/dataBinding/class.GenerisInstanceDataBinder.php:125-129 | a kept value occurs in the result as often as in the input, so duplicates are not merged |
| PhpArrays.DiffOfConcat | models/classes/dataBinding/class.GenerisInstanceDataBinder.php:172-177 | the filter keeps order: filtering a concatenation filters each part in place |
| PhpArrays.DiffEmptyIff | models/classes/dataBinding/class.GenerisInstanceDataBinder.php:129-130 | the addition list is empty exactly when every new value is already stored |
| GraphStore.RanThen | models/classes/dataBinding/class.GenerisInstanceDataBinder.php:102-140 | a complete run followed by another run is one run of the joined calls; a fault in the second part keeps the effects of the first part |
| GraphStore.RanFailedWithin | models/classes/dataBinding/class.GenerisInstanceDataBinder.php:102-140 | a run that raised inside a prefix of the plan raised inside the whole plan, with the same trace and state |
| GraphStore.Resource.Issue | models/classes/dataBinding/class.GenerisInstanceDataBinder.php:126 | a store call is recorded; if it is the faulting call it raises and has no effect, otherwise it takes effect |
| GraphStore.Resource.PropertyExists | models/classes/dataBinding/class.GenerisInstanceDataBinder.php:110-111 | `exists()` is one recorded read; when it returns, it answers whether the property is in the schema |
| GraphStore.Resource.GetTypes | models/classes/dataBinding/class.GenerisInstanceDataBinder.php:168 | `getTypes()` is one recorded read; when it returns, it gives the current type URIs |
| GraphStore.Resource.GetPropertiesValues | models/classes/dataBinding/class.GenerisInstanceDataBinder.php:147 | `getPropertiesValues()` is one recorded read; when it returns, it gives the stored values of each requested property that has any |
| GraphStore.Resource.RemovePropertyValue | models/classes/dataBinding/class.GenerisInstanceDataBinder.php:126 | one recorded call whose effect, when it does not raise, is `Apply` of the removal |
| GraphStore.Resource.SetPropertiesValues | models/classes/dataBinding/class.GenerisInstanceDataBinder.php:134 | one recorded call whose effect, when it does not raise, is `Apply` of the additions |
| GraphStore.Resource.RemoveType | models/classes/dataBinding/class.GenerisInstanceDataBinder.php:174 | one recorded call whose effect, when it does not raise, is `Apply` of the type removal |
| GraphStore.Resource.SetType | models/classes/dataBinding/class.GenerisInstanceDataBinder.php:179 | one recorded call whose effect, when it does not raise, is `Apply` of the type addition |
| BindingPlan.Canonical | models/classes/dataBinding/class.GenerisInstanceDataBinder.php:154-158 | the string form of one stored element: a literal's text, a resource's URI, nothing for anything else |
| BindingPlan.Canonicals | models/classes/dataBinding/class.GenerisInstanceDataBinder.php:153-159 | `x` is among the string forms of the stored elements exactly when a literal `x` or a resource `x` is stored; other elements are dropped |
| BindingPlan.OldData | models/classes/dataBinding/class.GenerisInstanceDataBinder.php:149-162 | `getOldData` answers every requested URI and no other, even one with no stored values |
| BindingPlan.Surviving | models/classes/dataBinding/class.GenerisInstanceDataBinder.php:106-115 | the first loop keeps exactly the entries that are not the type key and name an existing property, in their order |
| BindingPlan.NewValues | models/classes/dataBinding/class.GenerisInstanceDataBinder.php:122-123 | the normalisation: an array is used as it is, in its order and with its duplicates; a string becomes the one-element list of itself; an int, float, bool or null gives no values |
| BindingPlan.TypeUris | models/classes/dataBinding/class.GenerisInstanceDataBinder.php:166 | the desired types, as `array($types)`: an array as it is; a string or another scalar becomes the one-element list of itself (its string cast) |
| BindingPlan.TypeOps | models/classes/dataBinding/class.GenerisInstanceDataBinder.php:165-181 | the calls of `bindTypes`: one `getTypes`, one `removeType` per old type not wanted, one `setType` per wanted type not stored |
| BindingPlan.GatePlan | models/classes/dataBinding/class.GenerisInstanceDataBinder.php:106-115 | the calls of the first loop of `bind`: per entry in order, `bindTypes`' calls for the type key and one `exists()` otherwise |
| BindingPlan.PropertyPlan | models/classes/dataBinding/class.GenerisInstanceDataBinder.php:120-128 | the removal calls of the second loop of `bind`, property by property in order |
| BindingPlan.ToAdd | models/classes/dataBinding/class.GenerisInstanceDataBinder.php:129-132 | `$toAdd`: one entry per kept property whose new-minus-old list is not empty, in order |
| BindingPlan.ValuePlan | models/classes/dataBinding/class.GenerisInstanceDataBinder.php:117-134 | the calls after the first loop: one `getPropertiesValues`, the removals, one `setPropertiesValues($toAdd)` |
| BindingPlan.Plan | models/classes/dataBinding/class.GenerisInstanceDataBinder.php:106-134 | every call of a `bind` that raises nothing: the first loop's calls, then the value part |
| BindingPlan.TypeOpsKeepValues | models/classes/dataBinding/class.GenerisInstanceDataBinder.php:165-181 | binding types changes no property value |
| GenerisInstanceDataBinder.CatchAsWritten | models/classes/dataBinding/class.GenerisInstanceDataBinder.php:138 | the catch block as written: what leaves it is the `Error` of calling `getUri()` on the unassigned `$instance` |
| GenerisInstanceDataBinder.CatchAsWrittenLosesException | models/classes/dataBinding/class.GenerisInstanceDataBinder.php:136-140 | as written, no failing store call ever surfaces as the binding exception |
| GenerisInstanceDataBinder.CollectOldData | models/classes/dataBinding/class.GenerisInstanceDataBinder.php:149-162 | the nested loop of `getOldData` builds exactly `OldData` of the requested URIs and the values found |
| GenerisInstanceDataBinder.Binder.constructor | models/classes/dataBinding/class.GenerisInstanceDataBinder.php:57-62 | the binder holds the given target resource |
| GenerisInstanceDataBinder.Binder.GetTargetInstance | models/classes/dataBinding/class.GenerisInstanceDataBinder.php:71-80 | returns the target resource |
| GenerisInstanceDataBinder.Binder.GetOldData | models/classes/dataBinding/class.GenerisInstanceDataBinder.php:146-163 | issues exactly one `getPropertiesValues` for the URIs; on success it returns the string forms of the values stored before the call |
| GenerisInstanceDataBinder.Binder.BindTypes | models/classes/dataBinding/class.GenerisInstanceDataBinder.php:165-181 | issues `getTypes`, then one `removeType` per old type not wanted, then one `setType` per wanted type not stored, in list order (`TypeOps`); a raising call stops it with the earlier calls in effect |
| GenerisInstanceDataBinder.Binder.RemoveTypes | models/classes/dataBinding/class.GenerisInstanceDataBinder.php:172-175 | one `removeType` per old type that is not wanted, in order |
| GenerisInstanceDataBinder.Binder.AddTypes | models/classes/dataBinding/class.GenerisInstanceDataBinder.php:177-180 | one `setType` per wanted type that is missing, in order |
| GenerisInstanceDataBinder.Binder.GateEntry | models/classes/dataBinding/class.GenerisInstanceDataBinder.php:107-114 | one turn of the first loop: the type key runs `bindTypes` and changes no value; any other key issues one `exists()`, changes nothing, and is kept exactly when its property exists |
| GenerisInstanceDataBinder.Binder.FilterEntries | models/classes/dataBinding/class.GenerisInstanceDataBinder.php:106-115 | the first loop of `bind` issues `GatePlan` (types bound on the spot, one `exists()` per other key) and on success returns the surviving entries and leaves every value unchanged |
| GenerisInstanceDataBinder.Binder.RemoveValues | models/classes/dataBinding/class.GenerisInstanceDataBinder.php:125-127 | one `removePropertyValue` per stale value, in order |
| GenerisInstanceDataBinder.Binder.ReconcileProperties | models/classes/dataBinding/class.GenerisInstanceDataBinder.php:119-133 | the second loop issues the removals of every property in order (`PropertyPlan`) and on success returns `$toAdd` (`ToAdd`) |
| GenerisInstanceDataBinder.Binder.BindValues | models/classes/dataBinding/class.GenerisInstanceDataBinder.php:117-134 | the value part of `bind` issues exactly `ValuePlan`: one read, the removals, one `setPropertiesValues` |
| GenerisInstanceDataBinder.Binder.Bind | models/classes/dataBinding/class.GenerisInstanceDataBinder.php:98-144 | `bind` issues exactly `Plan` of the data from the state it started in, or the prefix of it ending with the call that raised; on success it returns the target instance; on failure it raises the binding exception for the last issued call |
| BindingProperties.RemovalOpsEffect | models/classes/dataBinding/class.GenerisInstanceDataBinder.php:125-127 | after the removals of a property, it shows exactly its old values minus the removed ones; every other property and the types are unchanged |
| BindingProperties.PropertyPlanFrame | models/classes/dataBinding/class.GenerisInstanceDataBinder.php:120-133 | the removal loop leaves the types and every property it is not given unchanged |
| BindingProperties.PropertyPlanEffect | models/classes/dataBinding/class.GenerisInstanceDataBinder.php:120-133 | with distinct keys, after the removal loop each kept property shows its old values minus its removals |
| BindingProperties.AddAllEffect | models/classes/dataBinding/class.GenerisInstanceDataBinder.php:134 | after `setPropertiesValues`, a property shows exactly its earlier values plus those added to it; properties not named are unchanged |
| BindingProperties.ToAddEntries | models/classes/dataBinding/class.GenerisInstanceDataBinder.php:129-132 | `$toAdd` holds an entry for a property exactly when its addition list is not empty, and that entry is the list |
| BindingProperties.AddedInToAdd | models/classes/dataBinding/class.GenerisInstanceDataBinder.php:129-134 | with distinct keys, `$toAdd` adds `x` to a kept property exactly when `x` is in its addition list, and names only kept properties |
| BindingProperties.OldDataShown | models/classes/dataBinding/class.GenerisInstanceDataBinder.php:146-163 | `x` is in a property's old data exactly when the store shows `x` for it |
| BindingProperties.SurvivingDistinct | models/classes/dataBinding/class.GenerisInstanceDataBinder.php:112 | the kept properties have distinct keys, as keys of a PHP array do |
| BindingProperties.ValuePlanState | models/classes/dataBinding/class.GenerisInstanceDataBinder.php:117-134 | the value part of `bind` leaves the state of the removal loop with `$toAdd` appended; the read changes nothing |
| BindingProperties.ValuePlanEffect | models/classes/dataBinding/class.GenerisInstanceDataBinder.php:117-134 | after the value part, each kept property shows exactly its desired values; unnamed properties and the types are unchanged |
| BindingProperties.RemoveTypesEffect | models/classes/dataBinding/class.GenerisInstanceDataBinder.php:172-175 | after the type removals, the types are the old types minus the removed ones, and the values are unchanged |
| BindingProperties.SetTypesEffect | models/classes/dataBinding/class.GenerisInstanceDataBinder.php:177-180 | the type additions append the added types in order and change nothing else |
| BindingProperties.TypeOpsEffect | models/classes/dataBinding/class.GenerisInstanceDataBinder.php:165-181 | after `bindTypes`, a URI is a type exactly when it is among the desired types; values are unchanged |
| BindingProperties.GatePlanEffect | models/classes/dataBinding/class.GenerisInstanceDataBinder.php:106-115 | the first loop changes no value; with no type key it changes no type, and with one the types become exactly the desired types |
| BindingProperties.BindReconciles | models/classes/dataBinding/class.GenerisInstanceDataBinder.php:98-144 | after a complete `bind`, every kept property shows exactly its desired values; the type key, unknown properties and unnamed properties keep their values; the types are the desired ones if given and unchanged otherwise |
| BindingProperties.ScalarClearsProperty | models/classes/dataBinding/class.GenerisInstanceDataBinder.php:122-126 | a kept property given an int, float, bool or null ends with no literal or resource value at all |
| BindingProperties.GatePlanWritesNoValue | models/classes/dataBinding/class.GenerisInstanceDataBinder.php:106-115 | the first loop only issues `exists()`, `getTypes()` and type changes; it never reads or writes a property value |
| BindingProperties.RemovalOpsMembers | models/classes/dataBinding/class.GenerisInstanceDataBinder.php:125-127 | the removal calls of a property are exactly one per value to remove |
| BindingProperties.PropertyPlanMembers | models/classes/dataBinding/class.GenerisInstanceDataBinder.php:120-133 | the calls of the second loop are exactly the removals of each kept property's stale values |
| BindingProperties.PlanOrder | models/classes/dataBinding/class.GenerisInstanceDataBinder.php:106-134 | the last call of `bind` is the single `setPropertiesValues` with `$toAdd`, no earlier call is one, and no type is changed after the old values have been read or a value has been changed |
| BindingProperties.PlanRemovals | models/classes/dataBinding/class.GenerisInstanceDataBinder.php:120-127 | the removal calls of `bind` are exactly the removals of the kept entries |
| BindingProperties.RemovalCalls | models/classes/dataBinding/class.GenerisInstanceDataBinder.php:106-127 | `bind` removes value `v` of a kept property exactly when `v` is shown and not wanted; it never removes from the type key, an unknown property or a property not in the data |
| BindingProperties.InertCalls | models/classes/dataBinding/class.GenerisInstanceDataBinder.php:134 | reads and an empty `setPropertiesValues` leave the store unchanged |
| BindingProperties.GatePlanOnlyReads | models/classes/dataBinding/class.GenerisInstanceDataBinder.php:106-115 | when the types already are the desired ones, the first loop only reads |
| BindingProperties.NothingToReconcile | models/classes/dataBinding/class.GenerisInstanceDataBinder.php:125-132 | when no property has values to remove or add, the second loop issues no call and `$toAdd` is empty |
| BindingProperties.PropertyPlanEmpty | models/classes/dataBinding/class.GenerisInstanceDataBinder.php:125-127 | when no property has values to remove, the second loop issues no call |
| BindingProperties.InertPlan | models/classes/dataBinding/class.GenerisInstanceDataBinder.php:98-144 | when the first loop only reads and the value part is one read and an empty addition, `bind` only reads and leaves the store unchanged |
| BindingProperties.SettledBindOnlyReads | models/classes/dataBinding/class.GenerisInstanceDataBinder.php:98-144 | on a resource that already shows the desired values and types, `bind` only reads, issues an empty `setPropertiesValues` and changes nothing |
| BindingProperties.SecondBindChangesNothing | models/classes/dataBinding/class.GenerisInstanceDataBinder.php:98-144 | `bind` is idempotent: binding the same data again only reads and leaves the store as the first bind left it |
| DataTable.Options.constructor | views/js/ui/datatable.js:15-23 | the options object after `init`: each paging and sorting option is the given one or its default (0, 25, 1, `'id'`, `'asc'`); `model` and `actions` default to `null` |
| DataTable.Table.constructor | views/js/ui/datatable.js:48-77 | on a fresh element, `init` stores the options and sends one query unless data was given |
| DataTable.QueryParameters | views/js/ui/datatable.js:101 | the parameters `_query` sends: the picked options merged with `options.params` |
| DataTable.Options.Picked | views/js/ui/datatable.js:101 | `_.pick` of `rows`, `page`, `sortby` and `sortorder` from the options |
| DataTable.QueryParametersContents | views/js/ui/datatable.js:101 | the query sends every picked option and every parameter; a defined parameter wins over the option, and an undefined one leaves the option |
| DataTable.Merge | views/js/ui/datatable.js:101 | `_.merge` of flat values keeps every key of both objects |
| DataTable.Table.Query | views/js/ui/datatable.js:98-118 | `_query` sends the current options merged with `params` and changes nothing else |
| DataTable.Table.Next | views/js/ui/datatable.js:277-288 | `_next` moves one page forward, keeps every other option, and sends one query |
| DataTable.Table.Previous | views/js/ui/datatable.js:298-311 | `_previous` moves one page back and queries only from a page above the first; otherwise it changes nothing and sends nothing |
| DataTable.NextPage | views/js/ui/datatable.js:281 | the page after `_next`: one more |
| DataTable.PreviousPage | views/js/ui/datatable.js:300-303 | the page after `_previous`: one less from a page above the first, otherwise the same |
| DataTable.PagingRoundTrip | views/js/ui/datatable.js:277-311 | paging back never leaves the pages numbered from 1, and undoes paging forward |
| DataTable.BackwardDisabled | views/js/ui/datatable.js:248-252 | the backward button is disabled exactly on page 1 of the rendered dataset |
| DataTable.ForwardDisabled | views/js/ui/datatable.js:254-258 | the forward button is disabled exactly when the dataset's page is at or past its total |
| DataTable.NavigationButtons | views/js/ui/datatable.js:248-258 | when the rendered dataset's page is the options' page, the backward button is disabled exactly when `_previous` would not move, and the forward button exactly when `_next` would pass the last page |
| DataTable.SortOrderAfter | views/js/ui/datatable.js:340-354 | the sort order left by `_sortOptions` is always `'asc'` or `'desc'` |
| DataTable.ExplicitDirection | views/js/ui/datatable.js:340-346 | a given direction alone decides the order: ascending exactly for `'asc'`, or for a truthy value other than `'desc'` |
| DataTable.ToggleRule | views/js/ui/datatable.js:347-354 | with no direction given, the order turns descending exactly when the same column was sorted ascending |
| DataTable.ToggleTwice | views/js/ui/datatable.js:347-354 | sorting the same column twice with no direction restores its order |
| DataTable.Table.SortOptions | views/js/ui/datatable.js:337-362 | `_sortOptions` sets the order by that rule and the sort column, keeps every other option, and returns the same options object |
| DataTable.Table.Sort | views/js/ui/datatable.js:323-326 | `_sort` applies `_sortOptions`, then sends one query with the new options |
| DataTable.DisableReadOnly | views/js/ui/datatable.js:170-183 | the buttons disabled by the `readonly` loop are exactly those some entry for their row disables |
| DataTable.RowFlagDisablesAll | views/js/ui/datatable.js:171-172 | an entry of `true` disables every button of its row |
| DataTable.OnlyTrueDisables | views/js/ui/datatable.js:170-183 | only the value `true` disables: without such an entry or action flag for its row, a button stays enabled |

## Left out

- Rendering, the DOM, templates, events, AJAX and `_selection` of the data table are not modelled. The table records the parameters of each query instead of sending it.
- The datatable `_render` applies the dataset's `sortby` and `sortorder` through `_sortOptions` (`views/js/ui/datatable.js:150-152`). That step is not modelled separately; it is `Table.SortOptions` with the dataset's values.
- Logger calls in `bindTypes` and the text of the exception message are not modelled.
- The store itself (`core_kernel_classes_Resource` and `core_kernel_classes_Property`) is not part of this model. `GraphStore.Apply` gives its effect as the binder relies on it.
  - Added values are stored as literals; the store's choice between literal and resource for a new value is not modelled.
  - Concurrency and transactions of the store are not modelled.
- Desired values are lists of strings, a string, or another scalar; object values are not modelled. A scalar's string cast is `ScalarValue.text`.
- PHP compares array keys with loose `==` (line 107) and `array_diff` compares string casts. The model compares strings exactly.
- GenerisInstanceDataBinder.Binder.Bind: requires distinct keys, which every PHP array has. The loops of `bind` are separate methods in the model (`FilterEntries`, `BindValues`, `ReconcileProperties`, `RemoveValues`), so each proof stays small; so are the two loops of `bindTypes` (`RemoveTypes`, `AddTypes`) and the body of the first loop of `bind` (`GateEntry`).
- GraphStore.Resource.Issue: every fault is a `common_Exception`, the class the catch at line 136 handles. A store call raising another exception class would leave `bind` unwrapped, with the earlier calls in effect; that path is not modelled.
- Store reads (`exists`, `getTypes`, `getPropertiesValues`) can raise too, like any store call. A raising call has no effect and is the last call issued.
- DataTable.NavigationButtons: the buttons read the page of the rendered dataset and `_previous`/`_next` read the page of the options; the lemma relates them only when the two pages are equal. They can differ when data is injected through `options.data` or the server answers another page.
- DataTable: JavaScript numbers are integers and options are typed. A page given as a string, which `+= 1` would concatenate, is not modelled. `_.merge` is modelled on flat values only; nested objects in `params` are not merged deeply.

## Findings

| source | as written | input that shows it | evidently intended | confidence | as-written member | corrected member |
|---|---|---|---|---|---|---|
| models/classes/dataBinding/class.GenerisInstanceDataBinder.php:138 | the catch block calls `$instance->getUri()`, but nothing in `bind` assigns `$instance`, so PHP raises an `Error` (a call on null) and the binding exception on line 139 is never thrown | any `bind` whose store call raises `common_Exception`, e.g. `removePropertyValue` failing on the first stale value | throw the binding exception for the target instance (`$this->getTargetInstance()->getUri()`) | high, not executed | GenerisInstanceDataBinder.CatchAsWritten | GenerisInstanceDataBinder.Binder.Bind |
