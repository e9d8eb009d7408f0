# Alerts dashboard — a verified model of its stores, views and guards

This project models the client-side core of a satellite-monitoring dashboard in Dafny.
Users hold subscriptions, each tied to a polygon of land. The dashboard lists the alarms
that image analyses of that polygon raised, either as a mosaic of cards grouped by day or
as a table grouped under `HOY`, `AYER` or a date. The list can be filtered by date,
category and cause, and is paged.

The model covers these parts:

- **Alerts store** (`AlertsStore`, `AlertsData`, `Debounce`):
  - the query built from the filters;
  - the flattening of the analyses' alarms into numbered alert items, and the description of those items from the alarm-type catalogue;
  - the rule that only the latest request may write its answer;
  - cancellation, and the debounce timer slot;
  - the alarm-type catalogue and the chart requests.
- **View-state store** (`ViewState`): mosaic, detail and alert views, and the way back between them.
- **Subscription store** (`SubscriptionStore`): list, fetch, create, update and delete subscriptions; select one; ask for a polygon's status; what is persisted.
- **Land store** (`LandStore`): default filters, the lands query and the status options.
- **Purchase-confirmation dialog** (`PurchaseDialog`).
- **Views:**
  - the filter panel shared by the mosaic and the table (`AlertFilters`);
  - the mosaic (`MosaicView`) and the table (`TableView`);
  - the detail list with its tabs (`AlertsDetailView`);
  - the workspace switcher (`Workspaces`).
- **Route guards** (`Auth`).
- **JavaScript built-ins the code relies on** (`Js`, `Http`):
  - `filter`, `toLowerCase`, `includes`, `startsWith`, `trim`;
  - `padStart`, `toString`, and `replace` with a string pattern, including its `$` substitution patterns;
  - the `error.response?.data?.message || fallback` idiom;
  - grouping into an object by key (`Grouping`).

A store whose actions update its state is a `class`. Its actions are methods whose
`ensures` give the whole new state.

Awaiting a request works as follows:

- An atomic action (subscription store, land store) takes the settled request as an
  input: `Outcome<T>` is `Ok(value)` or `Err(error)`.
- The analysis request of the alerts store can interleave with others, so it is split
  into two methods: `FetchAnalysisImages` runs up to the request, and
  `CompleteFetchAnalysisImages` runs when the request settles.
- The alerts store's catalogue and chart actions are split the same way: a synchronous
  `BeginFetchAlarmTypes` / `BeginFetchAlarmChart` sets the loading flag and clears the
  error, and `CompleteFetchAlarmTypes` / `CompleteFetchAlarmChart` takes the `Outcome`.
- The land store's requests are local mocks that never fail. A `fault` input models the
  `catch` branches that the code still has.

A view component is modelled in one of two ways. When it only issues store actions, its
handler returns the list of store calls it makes (`StoreCall`). The workspace switcher
calls the subscription store's methods itself.

## Model

| member | source | states |
|---|---|---|
| Http.ErrorMessage | src/store/subscriptionStore.ts:139 | the server's message when it has one, the fallback text otherwise |
| Http.IsCancellation | src/store/alertsStore.ts:266 | a rejection is a cancellation when its name is `AbortError` or its code is `ERR_CANCELED`, either one sufficing, and in no other case |
| Js.PadStart | src/sections/dashboard/Alerts/TableView.tsx:216 | the result has the target width, or the input's length when that is longer |
| Js.PadStartShape | src/sections/dashboard/Alerts/TableView.tsx:216 | the padded string ends with the input and is fill characters before it |
| Js.PaddedCounterValue | src/store/alertsStore.ts:217 | a zero-padded decimal counter still reads as the number it pads |
| Js.DecimalValueOfNatToString | src/store/alertsStore.ts:217 | the decimal text of a number reads back as that number |
| Js.ToLowerIdempotent | src/sections/dashboard/Alerts/AlertsDetailView.tsx:43 | lower-casing twice is lower-casing once |
| Js.FilterAppend | src/store/subscriptionStore.ts:230-232 | `filter` keeps the survivors' relative order: filtering a concatenation concatenates the filtered parts |
| Js.FilterIdempotent | src/layouts/components/workspaces-popover.tsx:104-106 | filtering twice by the same test is filtering once |
| Js.ReplaceFirstAfter | src/store/subscriptionStore.ts:255 | `replace` with a string pattern puts the substituted replacement (`$$`, `$&`, `` $` `` and `$'` expanded, with the text before and after the match) where the first occurrence of the pattern stands; a replacement without `$` lands as it is |
| Js.SubstituteLiteral | src/store/subscriptionStore.ts:255 | a replacement without a dollar sign is inserted literally |
| Grouping.GroupByKey | src/sections/dashboard/Alerts/MosaicView.tsx:66-78 | the loop that fills an object keyed by group computes the reference grouping, with distinct keys and every element counted once |
| Grouping.GroupsPartition | src/sections/dashboard/Alerts/MosaicView.tsx:66-78 | the groups have distinct keys; each group is non-empty and holds exactly the elements of its key, in input order; every element is in a group; the sizes add up to the input's length |
| Debounce.ArmConsistent | src/store/alertsStore.ts:286-300 | arming clears the timer in the slot first, so exactly the new timer is scheduled and the slot names it |
| Debounce.FireConsistent | src/store/alertsStore.ts:295-297 | when the armed timer fires, its fetch cancels first, which leaves nothing scheduled |
| Debounce.ClearConsistent | src/store/alertsStore.ts:119-123 | cancelling leaves no timer that could still fire |
| Debounce.SettleThenClear | src/store/alertsStore.ts:295-300 | the corrected last step of the timer callback (empty the slot only while it names the callback's own, already fired, timer) leaves the slot alone, so a later cancellation still reaches every scheduled timer |
| Debounce.SettleOwnKeepsTimerInReach | src/store/alertsStore.ts:295-300 | on the sequence that loses a timer as written, the corrected step keeps timer 2 in the slot and the cancellation clears it |
| Debounce.SettleAsWrittenLeaksTimer | src/store/alertsStore.ts:295-300 | with the code as written, one sequence leaves a scheduled timer that no cancellation can clear: arm, fire, arm again, the first fetch settles |
| Debounce.Arm | src/store/alertsStore.ts:288-300 | the slot names the new timer, which is scheduled; nothing else is newly scheduled, and the timer the slot named before is cleared |
| Debounce.Clear | src/store/alertsStore.ts:119-123 | the slot is emptied and its timer cleared; no timer is added, and a scheduled timer the slot does not name stays scheduled |
| Debounce.Fire | src/store/alertsStore.ts:295-297 | the fired timer is no longer scheduled, the slot is empty and no timer is added |
| Debounce.SettleAsWritten | src/store/alertsStore.ts:299 | the slot is emptied whatever it names, and every scheduled timer stays scheduled |
| Debounce.SettleOwn | src/store/alertsStore.ts:299 | scheduled timers are untouched; the slot is emptied only when it names the callback's own timer, otherwise the state is unchanged, and the slot never names that timer afterwards |
| AlertsData.KeyAt | src/store/alertsStore.ts:166-186 | the name appended at each position of the append order |
| AlertsData.QueryPrefixBuilt | src/store/alertsStore.ts:166-186 | after each conditional append, the query is in order, carries only expected values, and carries every expected value of the names considered so far |
| AlertsData.BuiltStep | src/store/alertsStore.ts:169-186 | one `if (value) params.append(...)` step keeps the query well built up to the next name |
| AlertsData.QueryParamsSound | src/store/alertsStore.ts:166-186 | the query starts with the polygon id, keeps the append order, holds exactly the filters that are set (empty strings and 0 are left out), with their values |
| AlertsData.BuildQueryParams | src/store/alertsStore.ts:166-186 | the query the appends build equals the reference query; it starts with the polygon, is ordered, sound and complete |
| AlertsData.PlaceAll | src/store/alertsStore.ts:212-213 | an analysis contributes its alarms, each paired with the analysis's result image, and none when `alarmGroup` or `alarms` is missing |
| AlertsData.Numbered | src/store/alertsStore.ts:213-227 | each pushed item carries the counter of its position in the whole list |
| AlertsData.NumberedAppend | src/store/alertsStore.ts:217 | numbering a concatenation continues the count of the first part into the second |
| AlertsData.FlattenAnalyses | src/store/alertsStore.ts:207-230 | the nested `forEach` loops build the reference flat list |
| AlertsData.PushAlarms | src/store/alertsStore.ts:213-228 | the inner loop appends one numbered item per alarm, after the items already pushed |
| AlertsData.PlacedAlarmsAppend | src/store/alertsStore.ts:210 | the alarms of a split response are the alarms of its parts, in order |
| AlertsData.FlattenedLength | src/store/alertsStore.ts:207-230 | there is one item per alarm of the response, and no more |
| AlertsData.FlattenedBlock | src/store/alertsStore.ts:210-213 | the alarms of each analysis form one contiguous block of the list, in response order |
| AlertsData.FlattenedItem | src/store/alertsStore.ts:214-227 | each item holds its alarm's id, level and position; its counter pads `k + 1` to two digits; the description defaults to `Sin descripción`; the image falls back from the alarm's to the analysis's to the mock; the type is `Tipo desconocido` |
| AlertsData.AllAlarmsPlaced | src/store/alertsStore.ts:235-237 | the second loop visits the same alarms in the same order as the first |
| AlertsData.FindType | src/store/alertsStore.ts:238 | `find` yields a catalogue entry with the id exactly when one exists |
| AlertsData.FirstIndexOf | src/store/alertsStore.ts:240 | `findIndex` yields the first item with the id, or -1 when none has it |
| AlertsData.EnrichWithTypes | src/store/alertsStore.ts:232-250 | the second loop, which runs only when the catalogue is loaded, equals the reference enrichment |
| AlertsData.EnrichAlarms | src/store/alertsStore.ts:237-247 | the inner loop of the second pass equals the reference enrichment over one analysis's alarms |
| AlertsData.EnrichAllAppend | src/store/alertsStore.ts:235-249 | enriching over two runs of alarms is enriching over both, in order |
| AlertsData.EnrichWithoutCatalogue | src/store/alertsStore.ts:234 | with an empty catalogue nothing changes, so skipping the loop is harmless |
| AlertsData.EnrichKeepsShape | src/store/alertsStore.ts:241-245 | enrichment keeps the length, and keeps every field except type and descriptions |
| AlertsData.EnrichOnlyFirstOfId | src/store/alertsStore.ts:240-241 | only the first item with an id can be rewritten; a later item with a repeated id keeps its values |
| AlertsData.EnrichByOwnAlarm | src/store/alertsStore.ts:238-245 | with distinct ids, each item gets the type name and description of its own alarm's catalogue entry when there is one, and is left alone otherwise |
| AlertsData.TransformAnalyses | src/store/alertsStore.ts:207-250 | the two loops in sequence compute the reference transformation |
| AlertsData.TransformedItem | src/store/alertsStore.ts:207-250 | for a response with distinct alarm ids, item `k` is alarm `k`, numbered `k + 1`, and described by its catalogue entry when there is one |
| AlertsStore.ChartUrlShape | src/store/alertsStore.ts:339 | when the text `replace` substitutes for the polygon id (its `$` patterns expanded) has no colon, both placeholders of the chart endpoint are filled in where they stand; an id with neither `:` nor `$` lands as it is |
| AlertsStore.Store.constructor | src/store/alertsStore.ts:96-106 | nothing loaded, nothing pending, no timer, no request |
| AlertsStore.Store.SetError | src/store/alertsStore.ts:108-110 | the error becomes the given one |
| AlertsStore.Store.CancelPendingRequests | src/store/alertsStore.ts:112-126 | the controller's request is aborted and the controller dropped, the timer in the slot is cleared, loading stops; afterwards no request in flight can write, and from a consistent state no timer is left scheduled |
| AlertsStore.Store.FetchAnalysisImages | src/store/alertsStore.ts:150-194 | cancels what is pending, draws a fresh request id that becomes the latest, raises loading, clears the error, and sends the query built from the filters; afterwards the new request is the only one that can write |
| AlertsStore.Store.SetPage | src/store/alertsStore.ts:303-306 | fetches with the same filters on the given page |
| AlertsStore.Store.CompleteFetchAnalysisImages | src/store/alertsStore.ts:196-283 | only the latest request writes. Its success stores the transformed list and the pagination; its failure stores the server's message or the fallback; a cancellation, an aborted request or a superseded answer changes nothing and yields `[]` |
| AlertsStore.Store.ApplyResponse | src/store/alertsStore.ts:204-261 | the alerts become the transformed response and the pagination its meta; loading stops and the controller is dropped |
| AlertsStore.Store.ReleaseRequest | src/store/alertsStore.ts:297-299 | the settled request leaves the runtime and the timer callback awaiting it resolves; the callback's last step is taken in its corrected form (`Debounce.SettleOwn`), not as written, so the slot keeps what later calls put there |
| AlertsStore.Store.DebouncedFetchAnalysisImages | src/store/alertsStore.ts:286-301 | clears the previous timer and arms a new one with the filters and the given delay, 300 ms when none is given; afterwards exactly one timer is scheduled |
| AlertsStore.Store.FireTimer | src/store/alertsStore.ts:295-298 | the fired timer's callback fetches with that timer's filters; afterwards nothing is scheduled |
| AlertsStore.Store.ClearAlerts | src/store/alertsStore.ts:308-316 | alerts, pagination and error are emptied |
| AlertsStore.Store.ResetAndClear | src/store/alertsStore.ts:319-331 | everything pending is cancelled and aborted and the latest request is forgotten, so no answer in flight can write |
| AlertsStore.Store.BeginFetchAlarmTypes | src/store/alertsStore.ts:129 | loading rises and the error is cleared |
| AlertsStore.Store.CompleteFetchAlarmTypes | src/store/alertsStore.ts:130-147 | on success the catalogue is replaced and returned; on failure it is kept, the error is the server's message or the fallback, and the result is `[]` |
| AlertsStore.Store.BeginFetchAlarmChart | src/store/alertsStore.ts:334-341 | the chart's loading flag rises, the error is cleared, and the chart URL carries the substituted polygon id and the mode; an id with neither `:` nor `$` appears as it is |
| AlertsStore.Store.CompleteFetchAlarmChart | src/store/alertsStore.ts:341-356 | on success the chart is kept and returned; on failure it is kept unchanged, the error is set and the result is `null` |
| ViewState.ViewStore.constructor | src/sections/dashboard/Alerts/store/useAlertsStore.ts:39-43 | the mosaic view, nothing selected, not loading, no error |
| ViewState.ViewStore.SetView | src/sections/dashboard/Alerts/store/useAlertsStore.ts:46 | the view becomes the given one |
| ViewState.ViewStore.SetDetailData | src/sections/dashboard/Alerts/store/useAlertsStore.ts:47 | the detail data becomes the given one |
| ViewState.ViewStore.SetSelectedAlert | src/sections/dashboard/Alerts/store/useAlertsStore.ts:48 | the selected alert becomes the given one |
| ViewState.ViewStore.SetIsLoading | src/sections/dashboard/Alerts/store/useAlertsStore.ts:49 | the loading flag becomes the given one |
| ViewState.ViewStore.SetError | src/sections/dashboard/Alerts/store/useAlertsStore.ts:50 | the error becomes the given one |
| ViewState.ViewStore.ShowDetailView | src/sections/dashboard/Alerts/store/useAlertsStore.ts:53-97 | an empty group is refused with the error text and the view is left alone; a non-empty group opens the detail view on it; loading ends either way; the view invariant is kept |
| ViewState.ViewStore.ShowAlertView | src/sections/dashboard/Alerts/store/useAlertsStore.ts:100-133 | an alert without id is refused with the error text; otherwise the alert view opens on it; the view invariant is kept |
| ViewState.ViewStore.BackToPreviousView | src/sections/dashboard/Alerts/store/useAlertsStore.ts:136-163 | from an alert back to its group when there is one, else to the mosaic; from a group to the mosaic, dropping it; from the mosaic nowhere |
| ViewState.ViewStore.ResetToMosaicView | src/sections/dashboard/Alerts/store/useAlertsStore.ts:166-174 | the mosaic view with nothing selected and no error |
| PurchaseDialog.DialogStore.constructor | src/sections/dashboard/Alerts/hooks/usePurchaseConfirmDialog.tsx:13-14 | closed, with no callback |
| PurchaseDialog.DialogStore.Open | src/sections/dashboard/Alerts/hooks/usePurchaseConfirmDialog.tsx:15 | open, with the given callback or none |
| PurchaseDialog.DialogStore.Close | src/sections/dashboard/Alerts/hooks/usePurchaseConfirmDialog.tsx:16 | closed and the callback forgotten, whatever the state was |
| PurchaseDialog.DialogStore.HandleContinue | src/sections/dashboard/Alerts/PurchaseConfirmDialogProvider.tsx:15-20 | the stored callback runs once, only if there is one, and the dialog closes |
| SubscriptionStore.ReplaceById | src/store/subscriptionStore.ts:200-203 | every subscription with the id is replaced by the response; the others stay in place |
| SubscriptionStore.RemoveByIdSpec | src/store/subscriptionStore.ts:229-232 | a subscription survives the removal exactly when its id differs; the list never grows; a list without the id is unchanged |
| SubscriptionStore.RemoveByIdOrder | src/store/subscriptionStore.ts:229-232 | the survivors keep their relative order |
| SubscriptionStore.ReplaceThenRemove | src/store/subscriptionStore.ts:193-249 | an update followed by a delete of the same id leaves what the delete alone leaves |
| SubscriptionStore.StatusUrlShape | src/store/subscriptionStore.ts:255 | the polygon id, its `$` patterns expanded, lands where the placeholder of the status endpoint stands; an id without `$` lands as it is |
| SubscriptionStore.StatusUrlDollarPattern | src/store/subscriptionStore.ts:255 | an id made of a dollar-free prefix `p` followed by `$&` gives the URL `/subscriptions/status/` + `p` + `:polygonId`, not the id itself |
| SubscriptionStore.Store.constructor | src/store/subscriptionStore.ts:110-114 | no subscriptions, nothing selected, no status, not loading, no error |
| SubscriptionStore.Store.Persisted | src/store/subscriptionStore.ts:279-283 | the persisted part is the subscription list and the selection; loading, error and polygon status are not persisted |
| SubscriptionStore.Store.SetSelectedSubscription | src/store/subscriptionStore.ts:116-118 | the selection becomes the given one |
| SubscriptionStore.Store.SetError | src/store/subscriptionStore.ts:120-122 | the error becomes the given one |
| SubscriptionStore.Store.FetchSubscriptions | src/store/subscriptionStore.ts:124-144 | success replaces the list and returns it; failure keeps the list, sets the message and returns `[]` |
| SubscriptionStore.Store.FetchSubscriptionById | src/store/subscriptionStore.ts:146-167 | success selects the response and returns it; failure keeps the selection, sets the message naming the id, and returns `null` |
| SubscriptionStore.Store.CreateSubscription | src/store/subscriptionStore.ts:169-191 | success appends the response after the unchanged list; failure keeps the list and returns `null` |
| SubscriptionStore.Store.UpdateSubscription | src/store/subscriptionStore.ts:193-220 | success replaces every subscription with the id and selects the response; failure changes neither and sets the message naming the id |
| SubscriptionStore.Store.DeleteSubscription | src/store/subscriptionStore.ts:222-249 | reports true exactly on success. Success removes exactly the subscriptions with the id, in order, and clears the selection; failure changes neither and sets the message naming the id |
| SubscriptionStore.Store.FindStatus | src/store/subscriptionStore.ts:251-274 | asks at the status URL of the polygon (the id substituted as `replace` does, and as it is when it has no `$`); loading ends; success stores the status; failure keeps it and sets the message naming the polygon; the persisted part is never touched |
| LandStore.WithDefaults | src/store/landStore.ts:128-137 | absent status, page and per-page take `All`, 1 and 10; the other fields are kept |
| LandStore.WithDefaultsIdempotent | src/store/landStore.ts:128-137 | defaulting twice is defaulting once, and a defaulted record has every defaulted field set |
| LandStore.InitialFiltersAreDefaults | src/store/landStore.ts:56-63 | the initial filters are the defaults of no filters |
| LandStore.KeyAt | src/store/landStore.ts:121-126 | the name appended at each position of the append order |
| LandStore.BuiltStep | src/store/landStore.ts:121-126 | one conditional append keeps the query well built up to the next name |
| LandStore.QueryPrefixBuilt | src/store/landStore.ts:119-126 | after each conditional append, the query is in order, sound and complete for the names considered |
| LandStore.LandQuerySound | src/store/landStore.ts:119-126 | the query keeps the append order and holds exactly the filters that are set, with their values; the status `All` is never sent |
| LandStore.BuildLandParams | src/store/landStore.ts:119-126 | the appends build the reference query, ordered, sound and complete |
| LandStore.StatusOptions | src/store/landStore.ts:92-96 | the `All` option with the total comes first, followed by the server's options unchanged |
| LandStore.Store.constructor | src/store/landStore.ts:53-66 | nothing loaded, nothing selected, the initial filters, no error, the dialog closed |
| LandStore.Store.SetOpenEditDialog | src/store/landStore.ts:67 | the dialog flag becomes the given one |
| LandStore.Store.SetFilters | src/store/landStore.ts:69-71 | the filters become the given ones |
| LandStore.Store.SetLandSelected | src/store/landStore.ts:73-75 | the selected land becomes the given one |
| LandStore.Store.SetError | src/store/landStore.ts:162-164 | the error becomes the given one |
| LandStore.Store.FetchStatusOptions | src/store/landStore.ts:77-105 | without a fault, the options become `All` with 100 followed by Active and Inactive; with one, the options are kept and the message is set |
| LandStore.Store.FetchLands | src/store/landStore.ts:107-160 | builds the reference query (the request itself is mocked, so the query is never sent); the filters become their defaulted form; without a fault the lands become the mocked list, with one they are kept and the message is set |
| LandStore.Store.EditLand | src/store/landStore.ts:166-185 | loading ends; a fault sets the message and is rethrown; without one the error stays clear |
| AlertFilters.TitleFor | src/sections/dashboard/Alerts/MosaicView.tsx:53 | `ALERTA` exactly for level `ALERT`, otherwise `ADVERTENCIA` |
| AlertFilters.ToProps | src/sections/dashboard/Alerts/MosaicView.tsx:51-63 | the card copies every field of the item, translates the level, and falls back to the view's image and the alert icon when these are empty |
| AlertFilters.AllToProps | src/sections/dashboard/Alerts/MosaicView.tsx:244 | one card per item, in order |
| AlertFilters.StoreItemsKeepImage | src/sections/dashboard/Alerts/MosaicView.tsx:61 | an item the store produced always has an image, so the card keeps it and the view's fallback is never used; its icon is the alert icon and its id is kept |
| AlertFilters.ProcessFieldSpec | src/sections/dashboard/Alerts/MosaicView.tsx:142-152 | a processed field holds no empty entry, keeps every non-empty entry in order, and processing it again changes nothing |
| AlertFilters.ProcessFormValues | src/sections/dashboard/Alerts/MosaicView.tsx:138-155 | the dates pass through; an array field keeps exactly its non-empty entries, a non-empty string becomes a one-entry list and anything else an empty one; processing the result again changes nothing |
| AlertFilters.CategoryLevel | src/sections/dashboard/Alerts/MosaicView.tsx:183-192 | the level is `ALERT` exactly when the first category is `ALERTA`, `WARNING` exactly when it is `ADVERTENCIA`, and absent otherwise |
| AlertFilters.FirstCauseMatch | src/sections/dashboard/Alerts/MosaicView.tsx:196-198 | the position of the first alarm type whose name is one of the causes |
| AlertFilters.CauseType | src/sections/dashboard/Alerts/MosaicView.tsx:195-202 | a type is found exactly when some type's name is among the causes, and the one found is the first such type in catalogue order |
| AlertFilters.ApiFilters | src/sections/dashboard/Alerts/MosaicView.tsx:168-202 | the request filters carry the polygon, page, per-page and dates; the level is only ever `ALERT`, `WARNING` or absent; the type id is the matched cause's |
| AlertFilters.ResetFiltersArePlain | src/sections/dashboard/Alerts/MosaicView.tsx:256-267 | the reset's default form values give plain filters, whose query is only the polygon, the page and the per-page |
| AlertFilters.BuildApiFilters | src/sections/dashboard/Alerts/MosaicView.tsx:168-202 | the field-by-field construction gives the reference filters |
| AlertFilters.FilterPanel.constructor | src/sections/dashboard/Alerts/MosaicView.tsx:92 | no current filters yet |
| AlertFilters.FilterPanel.ApplyFilters | src/sections/dashboard/Alerts/MosaicView.tsx:158-214 | without a polygon nothing happens; otherwise the filters become current and exactly one fetch is issued, debounced or direct |
| AlertFilters.FilterPanel.HandlePageChange | src/sections/dashboard/Alerts/MosaicView.tsx:217-221 | pages the current filters when there are some, and does nothing otherwise |
| AlertFilters.FilterPanel.HandleResetFilters | src/sections/dashboard/Alerts/MosaicView.tsx:256-267 | cancels and clears first; with a polygon it fetches the plain filters directly, without one the current filters are dropped |
| MosaicView.GroupAlertsByDate | src/sections/dashboard/Alerts/MosaicView.tsx:66-78 | every alert is in exactly the group of its day, in input order, and the group sizes add up to the number of alerts |
| MosaicView.ShowAlerts | src/sections/dashboard/Alerts/MosaicView.tsx:242-250 | the cards of the store's alerts grouped by day, none for an empty list, one card per alert |
| TableView.StatusColor | src/sections/dashboard/Alerts/TableView.tsx:82 | red exactly for `ALERTA`, amber otherwise |
| TableView.FirstKeyIn | src/sections/dashboard/Alerts/TableView.tsx:113-115 | the position of the first key the lower-cased type contains |
| TableView.TypeKey | src/sections/dashboard/Alerts/TableView.tsx:113-115 | the key found is the first of the four style keys, in declaration order, that occurs in the lower-cased type; none is found exactly when none occurs |
| TableView.StyleOf | src/sections/dashboard/Alerts/TableView.tsx:84-105 | each of the four keys has a chip whose border is its colour, and no keyed chip has the fallback colour or icon |
| TableView.TypeChip | src/sections/dashboard/Alerts/TableView.tsx:84-105 | the style of the key found, or the grey `mdi:alert` chip when no key matches |
| TableView.GroupByDay | src/sections/dashboard/Alerts/TableView.tsx:388-407 | every alert is in exactly the group of its day label, in input order, and the group sizes add up to the number of alerts |
| TableView.DayLabel | src/sections/dashboard/Alerts/TableView.tsx:399-400 | `HOY` when the formatted date is today's, else `AYER` when it is yesterday's, else the formatted date |
| TableView.DayLabelSeparatesDays | src/sections/dashboard/Alerts/TableView.tsx:399-400 | with today and yesterday distinct days and no date formatted as `HOY` or `AYER`, two alerts get the same key exactly when they fall on the same day |
| TableView.ShowGroups | src/sections/dashboard/Alerts/TableView.tsx:429-436 | the rows of the store's alerts, with the table's cover as the fallback image, grouped by day label; no group for an empty list |
| TableView.LabelCompare | src/sections/dashboard/Alerts/TableView.tsx:526-537 | `HOY` sorts before everything, `AYER` before any date, and dates sort by decreasing timestamp `timeOf` (newest first when `timeOf` orders the labels' dates) |
| TableView.LabelCompareConsistent | src/sections/dashboard/Alerts/TableView.tsx:526-537 | on distinct labels the comparator is antisymmetric and transitive, so the sort order is well defined |
| TableView.CountLabel | src/sections/dashboard/Alerts/TableView.tsx:216 | the counter has at least two digits and reads as the group's size |
| AlertsDetailView.FilterByTab | src/sections/dashboard/Alerts/AlertsDetailView.tsx:41-44 | the `all` tab lists everything; any other tab lists only alerts whose title equals it ignoring case |
| AlertsDetailView.FilterByTabSpec | src/sections/dashboard/Alerts/AlertsDetailView.tsx:41-44 | off `all`, an alert is listed exactly when its title matches the tab, and order is kept |
| AlertsDetailView.CountsMatchTabs | src/sections/dashboard/Alerts/AlertsDetailView.tsx:71-81 | each counter is the length of the list its tab shows |
| AlertsDetailView.CountAlerts | src/sections/dashboard/Alerts/AlertsDetailView.tsx:71-81 | `all` is the number of alerts, each tab counter is at most that, and a counter is zero when no title matches its tab |
| AlertsDetailView.CountsBound | src/sections/dashboard/Alerts/AlertsDetailView.tsx:71-81 | no alert counts under both tabs, so the two counters never exceed the total |
| Workspaces.MapOptions | src/layouts/components/workspaces-popover.tsx:85-91 | one option per subscription, in order, with its id and name, the default logo and the billing cycle as the plan |
| Workspaces.SearchOptions | src/layouts/components/workspaces-popover.tsx:99-109 | a blank term lists every option; otherwise only options whose name contains the term ignoring case |
| Workspaces.SearchSpec | src/layouts/components/workspaces-popover.tsx:99-109 | an option is listed exactly when its name matches a non-blank term; order is kept; searching the results again changes nothing |
| Workspaces.FindById | src/layouts/components/workspaces-popover.tsx:128 | the first subscription with the id, or none exactly when no subscription has it |
| Workspaces.Popover.constructor | src/layouts/components/workspaces-popover.tsx:62-72 | an empty search over no options, the first entry of the data prop as the workspace, the popover closed |
| Workspaces.Popover.SyncSubscriptions | src/layouts/components/workspaces-popover.tsx:84-118 | a non-empty list replaces the options and reruns the search; an empty list changes nothing; a missing workspace becomes the first option |
| Workspaces.Popover.SetSearchTerm | src/layouts/components/workspaces-popover.tsx:155-158 | the term is stored and the listing is the search over the options |
| Workspaces.Popover.Open | src/layouts/components/workspaces-popover.tsx:204 | the popover is open |
| Workspaces.Popover.ChangeWorkspace | src/layouts/components/workspaces-popover.tsx:120-153 | the option becomes the workspace. A known subscription is selected, and its polygon's status is requested when it has a polygon; an unknown one changes nothing in the store. Loading has ended when the status was requested and is untouched otherwise. The popover closes |
| Auth.PublicIffAuthPrefix | src/auth/provider/auth-provider.tsx:15 | every listed public route lies under `/auth/`, so a route is public exactly when it starts with `/auth/` |
| Auth.IsPublicRoute | src/auth/provider/auth-provider.tsx:30 | a listed route and any route under `/auth/` is public; the login page is public and the dashboard is not, so neither redirect leads to a page that redirects back |
| Auth.AuthProvider.constructor | src/auth/provider/auth-provider.tsx:20 | not yet initialised |
| Auth.AuthProvider.InitialCheck | src/auth/provider/auth-provider.tsx:25-37 | runs once; it sends to the login page exactly a visitor who is not signed in and is on a route that is not public |
| Auth.AuthProvider.AuthChange | src/auth/provider/auth-provider.tsx:40-49 | after initialisation, sends to the dashboard exactly a signed-in user on a public route |
| Auth.AuthProvider.RunEffects | src/auth/provider/auth-provider.tsx:25-49 | the first render can only redirect to the login page, and any later render only to the dashboard |
| Auth.ReturnTo | src/auth/guard/guest-guard.tsx:23 | the `returnTo` parameter when present and non-empty, else the configured path |
| Auth.ShowSplash | src/auth/guard/guest-guard.tsx:51-53 | the splash shows whenever loading; after loading, only for a signed-in user while the check runs, so a guest, or anyone once the check is over, sees the page |
| Auth.GuestGuard.constructor | src/auth/guard/guest-guard.tsx:25 | checking |
| Auth.GuestGuard.Check | src/auth/guard/guest-guard.tsx:30-53 | while loading nothing happens and the splash shows. A signed-in user is sent to `returnTo` and the splash stays; a guest ends the check and sees the page; once over, the check never runs again |

## Left out

- HTTP client: the client itself is not part of this model. Base URL, token and headers are left out, and so are `src/utils/axiosInstance` and the endpoint table. Responses and failures are inputs.
- AlertsStore.ChartEndpoint and SubscriptionStore.StatusEndpoint: the endpoint table lives in `src/utils/axiosInstance`, which is not part of this model. The two templates `/alerts/chart/:polygonId/:mode` and `/subscriptions/status/:polygonId` are taken from the system's documented endpoint list, not from the source. `AlertsStore.ChartUrlShape`, `SubscriptionStore.StatusUrlShape`, `SubscriptionStore.StatusUrlDollarPattern` and the URL clauses of `SubscriptionStore.Store.FindStatus` and `AlertsStore.Store.BeginFetchAlarmChart` are about these templates.
- Query strings: `URLSearchParams` percent-encoding and `toString()` are left out. A query is the list of name/value pairs in append order.
- Dates:
  - `Date`, `toISOString`, `toLocaleDateString` and the parsing of `dd/mm/yy` labels are left out.
  - The day of an alert (mosaic), the label format (table) and the timestamp of a label (sort) are function inputs.
  - Dates are strings, and the empty string stands for `null`.
- Clocks: `Date.now()`, `Math.random()` and timer delays are not modelled. Request ids and timer handles come from one counter, and a timer fires when the runtime chooses.
- Numbers: prices and the chart's and status's numbers are integers; floating point is left out.
- Lower-casing: `toLowerCase` covers ASCII and Latin-1 letters only.
- Persistence: the `persist` middleware and `localStorage` are left out. The subscription store's persisted part is a function (`Persisted`), and `FindStatus` is proved not to change it.
- LandStore: `partialize` persists none of the data fields, so the land store has no persisted part.
- LandStore.Store.FetchStatusOptions and LandStore.Store.FetchLands: the request bodies are local mocks that cannot fail. The `fault` input only models the `catch` branches the code keeps.
- Geometry: the subscription's polygon geometry and all map rendering are left out.
- Forms: `react-hook-form` (`watch`, `reset`, `getValues`) and the zod schema are left out. The form values reach `ProcessFormValues` already split into list, text and other fields.
- Subscription store interleaving: its actions are atomic steps. Two `findStatus` calls settling out of order are not modelled; only the single-slot overwrite of `polygonStatus` is.
- Intermediate `isLoading = true`: the state in the middle of the subscription and land actions is not observable in the model. Only the state after the action settles is.
- ViewState.ViewStore.ShowAlertView: the call with `null` fails on `alert.title` inside the `try`. It is not modelled, because the view always passes an alert.
- Type checks: the `Array.isArray(data)` test of `showDetailView` is not modelled, because the model's data is always a list. The incomplete-item warning is only a log.
- AlertsStore.Store.ReleaseRequest: the store takes the timer callback's last step in its corrected form (`Debounce.SettleOwn`), so its `Valid()` and the "no timer left" guarantees of `CancelPendingRequests`, `ResetAndClear` and `DebouncedFetchAnalysisImages` describe the corrected program. Line 299 as written (`Debounce.SettleAsWritten`) can leave a timer no cancellation clears; see "## Findings".
- AlertsStore.Store.CompleteFetchAnalysisImages: an aborted request is taken to settle as a cancellation (`AbortError`/`ERR_CANCELED`), since the HTTP client honours the abort signal. This is a precondition on the settled value, not a property of the model.
- TableView.LabelCompare: the timestamp of a date label is the function input `timeOf`. The source parses `label.split('/').reverse().join('-')` of a `dd/mm/yy` label with `new Date`, which gives a two-digit-year string whose parse is engine-defined and may be an invalid date (`NaN`). `timeOf` is an integer, so the model cannot express `NaN`, and "newest first" holds only for a `timeOf` that orders the dates.
- Array sort: `Array.prototype.sort` itself is not modelled. `TableView.LabelCompareConsistent` proves that the comparator is a consistent order, which is what the sort needs.
- Category mapping: the object lookup `categoryMapping[category[0]]` also finds inherited keys such as `toString`, which would give a function value. The model's `AlertFilters.CategoryLevel` treats every other string as absent.
- Object key order: JavaScript objects list integer-like keys first. Day and label keys are never integer-like, so groups are kept in first-seen order.
- `CONFIG.auth.redirectPath`: `src/global-config` is not part of this model, so the path is a parameter of `Auth.ReturnTo`.
- React rendering, styles, the chart widgets, the detail dialog's "go back" history fallback and console logging are left out.

## Findings

| source | as written | input that shows it | evidently intended | confidence | as-written member | corrected member |
|---|---|---|---|---|---|---|
| src/store/alertsStore.ts:295-300 | after its fetch settles, the timer callback sets `debounceTimeout = null` whatever the slot holds by then | arm timer 1; it fires and its fetch is in flight; arm timer 2 with new filters; the first fetch settles and empties the slot; `cancelPendingRequests` (as the filter reset calls it) no longer clears timer 2, which later fires and fetches anyway | the slot is emptied only while it names the callback's own timer (which the fetch's cancellation already emptied), so a later cancellation can still clear timer 2 | not executed | Debounce.SettleAsWrittenLeaksTimer | Debounce.SettleThenClear |
