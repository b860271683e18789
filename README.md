# Kedi core, modelled in Dafny

Kedi is an iOS client for the RevenueCat developer API. This project models
four parts of it:

- **The endpoint table** (`endpoint.dfy`, module `Endpoints`). The 15
  operations the app calls, and for each one its base URL (public `v1` or
  `internal/v1`), path, HTTP method, request parameters, parameter encoding
  and header list. The bearer token, which the app keeps in a static
  variable, is passed as a parameter.
- **The transaction activity decoder** (`json.dfy` and `activity.dfy`,
  modules `Json` and `TransactionActivity`). It turns a JSON payload into the
  flat event records the transaction screen shows. It reads the mandatory
  `subscriber` object, the optional `events` array, and in each event the
  mandatory `body` object, the optional outer `type` and fourteen optional
  payload fields. Swift's `decodeIfPresent` is modelled exactly: an absent
  key or `null` gives `None`, and a value of the wrong type fails the whole
  decode.
- **The overview screen's view model** (`overview.dfy`, module
  `OverviewScreen`). It is a class with the screen state, the ordered card
  configurations and the card map. Its methods are the fetch completions
  (overview totals, per-card charts), `getItems`, the two `setItem`
  variants and `addItem`. Each method's new state is tied to a function on
  values, and the card-level behaviour is proved about those functions.
- **Widget error presentation** (`widget_error.dfy`, module
  `WidgetErrors`). The icon, title and message a widget shows for an
  unauthorised user or a service error.

`wrappers.dfy` holds the `Option` and `Result` datatypes the others use.

The outer `type` of an event is read with `decodeIfPresent`
(RCTransactionDetailActivityResponse.swift:77), so a missing or null `type`
decodes as `None` (`TransactionActivity.MissingTypeIsNone`).

## Model

| member | source | states |
|---|---|---|
| Endpoints.BaseUrl | Shared/Network/Endpoint.swift:38-52 | the internal root is used exactly for projects, project detail, transaction activity and the five webhook operations; every other endpoint uses the public root |
| Endpoints.Path | Shared/Network/Endpoint.swift:54-87 | every path is relative (non-empty, no leading `/`), and every operation except login and logout addresses a resource under `me`; the operations without identifiers have the literal paths of `Endpoints.FixedPaths`; the detail, webhook and activity paths are related by `Endpoints.DetailPaths`, `Endpoints.WebhookPaths`, `Endpoints.WebhookPathsUnderCollection` and `Endpoints.ActivityExtendsDetail` |
| Endpoints.UrlString | Shared/Network/Endpoint.swift:34-36 | the URL is the base URL, one `/`, then the path, so it always begins with one of the two roots followed by `/` |
| Endpoints.Method | Shared/Network/Endpoint.swift:89-103 | POST exactly for login, logout, create-webhook and test-webhook; PUT exactly for update-webhook; DELETE exactly for delete-webhook; GET otherwise |
| Endpoints.RequestParameters | Shared/Network/Endpoint.swift:105-132 | overview, transaction detail and transaction activity send `sandbox_mode = false`; login, charts, transactions, create- and update-webhook forward their request's dictionary; there are no parameters exactly for the other seven (logout, me, projects, project detail, webhooks, delete-webhook, test-webhook) |
| Endpoints.Encoding | Shared/Network/Endpoint.swift:134-143 | JSON body encoding exactly for login, create-webhook and update-webhook; URL encoding otherwise |
| Endpoints.Headers | Shared/Network/Endpoint.swift:145-164 | `X-Requested-With: XMLHttpRequest` comes first; a bearer `Authorization` header is present exactly when a token is set; `Content-Type: application/json` is present exactly for logout, delete-webhook and test-webhook; the header count follows |
| Endpoints.JsonEncodingCarriesBody | Shared/Network/Endpoint.swift:89-143 | every JSON-encoded endpoint has parameters and is a POST or a PUT |
| Endpoints.ReadsUseQueryString | Shared/Network/Endpoint.swift:89-143 | every GET endpoint uses URL encoding |
| Endpoints.SandboxFlagIsQueryParameter | Shared/Network/Endpoint.swift:105-124 | the three endpoints that send the sandbox flag are GETs that put it in the query string |
| Endpoints.ContentTypeWithoutBody | Shared/Network/Endpoint.swift:145-161 | the endpoints that declare a JSON content type send no parameters and are not GETs |
| Endpoints.FixedPaths | Shared/Network/Endpoint.swift:56-71 | login, logout, me, projects, overview and transactions use exactly the paths `login`, `logout`, `me`, `me/projects`, `me/overview` and `me/transactions` |
| Endpoints.DetailPaths | Shared/Network/Endpoint.swift:64-75 | a project's detail path is the project list path, `/` and its id; the transaction detail path is `me/apps/<project>/subscribers/<subscriber>`, and the activity path appends `/activity` to it |
| Endpoints.WebhookPaths | Shared/Network/Endpoint.swift:76-86 | listing and creating webhooks share the collection path; update and delete share the webhook's path; test appends `/test_webhook` to it |
| Endpoints.WebhookPathsUnderCollection | Shared/Network/Endpoint.swift:76-86 | every webhook operation's path starts with its project's webhook collection path |
| Endpoints.ActivityExtendsDetail | Shared/Network/Endpoint.swift:38-75 | the activity path is the detail path plus `/activity`, but the activity endpoint lives under the internal root, so the detail URL is not a prefix of the activity URL |
| Endpoints.ChartsRequest | Shared/Network/Endpoint.swift:68-69 | a chart request is a GET on `v1/developers/me/charts_v2/<name>` with its dictionary URL-encoded |
| Endpoints.DeleteWebhookRequest | Shared/Network/Endpoint.swift:82-83 | deleting webhook `w1` of project `p1` is a DELETE on the internal webhook URL, with no parameters and a JSON content type |
| Json.NestedObject | Shared/Network/Models/Transactions/RCTransactionDetailActivityResponse.swift:75 | a nested container succeeds exactly when the key holds an object; a missing key fails with key-not-found |
| Json.DecodeIfPresent | Shared/Network/Models/Transactions/RCTransactionDetailActivityResponse.swift:77-91 | succeeds exactly when the key is absent, null or of the declared type; it yields `None` for absent or null and the value otherwise; it fails only with a type mismatch at that key |
| Json.AsInt | Shared/Network/Models/Transactions/RCTransactionDetailActivityResponse.swift:81-83 | an `Int` field accepts exactly the integral numbers in the 64-bit range |
| Json.AsStringArray | Shared/Network/Models/Transactions/RCTransactionDetailActivityResponse.swift:90-91 | a `[String]` field accepts exactly arrays of strings, element for element |
| TransactionActivity.Flatten | Shared/Network/Models/Transactions/RCTransactionDetailActivityResponse.swift:77-91 | for the outer `type` and each of the fourteen payload fields: the field is present exactly when its own snake_case key holds a value of the declared type, and then it is that value (for `Int` and `[String]` fields, the value the conversion yields) |
| TransactionActivity.DecodeEvent | Shared/Network/Models/Transactions/RCTransactionDetailActivityResponse.swift:73-92 | an event decodes exactly when it is an object with an object `body`, a fitting `type` and fourteen fitting payload fields; the result is the flattened record; a missing `body` fails with key-not-found |
| TransactionActivity.DecodeEvents | Shared/Network/Models/Transactions/RCTransactionDetailActivityResponse.swift:28 | an event array decodes exactly when every element does; the result has one event per element, in order |
| TransactionActivity.DecodeEventsIfPresent | Shared/Network/Models/Transactions/RCTransactionDetailActivityResponse.swift:28 | absent or null `events` gives `None`; a non-array fails with a type mismatch; an array decodes element by element |
| TransactionActivity.DecodeResponse | Shared/Network/Models/Transactions/RCTransactionDetailActivityResponse.swift:24-30 | the response decodes exactly when `subscriber` is an object, `events` fits and `app_user_id` fits; the result carries the decoded events and user id |
| TransactionActivity.BodyFieldsFitIffConforms | Shared/Network/Models/Transactions/RCTransactionDetailActivityResponse.swift:56-91 | the fourteen `decodeIfPresent` calls all succeed exactly when every payload field of the schema is absent, null or of its declared type |
| TransactionActivity.DecodeEventIffConforms | Shared/Network/Models/Transactions/RCTransactionDetailActivityResponse.swift:73-92 | an event decodes exactly when its body conforms to the schema and its `type` is absent, null or a string |
| TransactionActivity.MismatchedFieldFails | Shared/Network/Models/Transactions/RCTransactionDetailActivityResponse.swift:78-91 | one payload field of the wrong type fails the whole event |
| TransactionActivity.MissingTypeIsNone | Shared/Network/Models/Transactions/RCTransactionDetailActivityResponse.swift:77 | an event without `type` still decodes, with no event type |
| TransactionActivity.OuterKeysIgnored | Shared/Network/Models/Transactions/RCTransactionDetailActivityResponse.swift:51-77 | adding an outer key other than `type` and `body` (such as `uuid`) does not change the decode |
| TransactionActivity.UnknownBodyKeysIgnored | Shared/Network/Models/Transactions/RCTransactionDetailActivityResponse.swift:56-71 | adding a body key outside the schema (such as `store`) neither makes a decode fail nor changes the decoded event |
| TransactionActivity.SubscriberIsMandatory | Shared/Network/Models/Transactions/RCTransactionDetailActivityResponse.swift:26 | a response whose `subscriber` is missing or not an object fails; a missing one fails with key-not-found |
| TransactionActivity.AbsentResponseFieldsAreNone | Shared/Network/Models/Transactions/RCTransactionDetailActivityResponse.swift:24-30 | a response whose `events` and `app_user_id` are absent or null decodes to no events and no user id |
| TransactionActivity.StubDecodes | Shared/Network/Models/Transactions/RCTransactionDetailActivityResponse.swift:97-129 | the stub event decodes to the initial-purchase record, with its extra keys ignored and the absent fields `None` |
| OverviewScreen.Placeholders | Kedi/Screens/Overview/OverviewViewModel.swift:19 | there is one empty placeholder card for each saved configuration and for nothing else |
| OverviewScreen.SafeIndex | Kedi/Screens/Overview/OverviewViewModel.swift:81-82 | safe indexing yields the element exactly when the index is in range |
| OverviewScreen.RowsToPoints | Kedi/Screens/Overview/OverviewViewModel.swift:80-83 | row `i` becomes point `i`; its date is the row's first element and its value the element at the chart index, each 0 when missing |
| OverviewScreen.ChartValues | Kedi/Screens/Overview/OverviewViewModel.swift:80-83 | there is no chart exactly when the body or its `values` is missing; otherwise the chart is the rows mapped point by point, as `OverviewScreen.RowsToPoints` states |
| OverviewScreen.LastValueOrZero | Kedi/Screens/Overview/OverviewViewModel.swift:99-107 | the value of the chart's last point, or 0 when there is no chart or it is empty |
| OverviewScreen.SummaryTotal | Kedi/Screens/Overview/OverviewViewModel.swift:96-101 | when the body, its summary, the `total` group and the key are all present, the value stored there; 0 when any level is missing |
| OverviewScreen.TruncateTowardZero | Kedi/Screens/Overview/OverviewViewModel.swift:103-107 | `Int(x)` drops the fractional part toward zero |
| OverviewScreen.UpdateIfPresent | Kedi/Screens/Overview/OverviewViewModel.swift:91-107 | the optional-chained update changes only the card of that configuration, and only if it exists; no key is added or removed |
| OverviewScreen.FirstOfType | Kedi/Screens/Overview/OverviewViewModel.swift:129 | finds the earliest configuration of the type, or none exactly when no configuration has it |
| OverviewScreen.ItemsInOrder | Kedi/Screens/Overview/OverviewViewModel.swift:122 | the compact map lists no more cards than configurations, each one a card of some configuration; a single configuration gives its card, or nothing when it has none |
| OverviewScreen.ItemsInOrderAppend | Kedi/Screens/Overview/OverviewViewModel.swift:122 | the compact map distributes over concatenation, so with the single-configuration case it keeps the configurations' order and drops exactly those without a card |
| OverviewScreen.OverviewViewModel.constructor | Kedi/Screens/Overview/OverviewViewModel.swift:16-19 | the screen starts in the data state, with the saved configurations and one placeholder card each |
| OverviewScreen.OverviewViewModel.GetItems | Kedi/Screens/Overview/OverviewViewModel.swift:121-123 | in every reachable state (every configuration has a card, an invariant the constructor establishes and every method keeps), the list holds the card of each configuration, in configuration order |
| OverviewScreen.OverviewViewModel.SetItemOfType | Kedi/Screens/Overview/OverviewViewModel.swift:125-133 | only the card map changes: the value of the first card of the type is set, if there is one |
| OverviewScreen.OverviewViewModel.SetItem | Kedi/Screens/Overview/OverviewViewModel.swift:135-145 | only the card map changes: with a value, the card's value and chart are set; without one, only the chart is set |
| OverviewScreen.OverviewViewModel.AddItem | Kedi/Screens/Overview/OverviewViewModel.swift:147-152 | an all-time revenue configuration goes first, with a fresh card, and that card is the first one shown |
| OverviewScreen.OverviewViewModel.FetchOverview | Kedi/Screens/Overview/OverviewViewModel.swift:42-58 | an error moves the screen to the error state and leaves the cards alone; an answer fills the six overview cards and keeps the state |
| OverviewScreen.OverviewViewModel.FetchChart | Kedi/Screens/Overview/OverviewViewModel.swift:61-112 | nothing changes for a type without a chart name or index, or on an error; otherwise only the card of that configuration gets the chart update |
| OverviewScreen.CompleteItemsInOrder | Kedi/Screens/Overview/OverviewViewModel.swift:121-123 | when every configuration has a card, the compact map keeps all of them, in order |
| OverviewScreen.LastValueOfRows | Kedi/Screens/Overview/OverviewViewModel.swift:80-105 | the chart's last value is the last row's entry at the chart index, or 0 when there are no rows or no entry |
| OverviewScreen.ApplyChart | Kedi/Screens/Overview/OverviewViewModel.swift:85-108 | every successful chart fetch replaces the card's chart with the fetched one, whatever its type, and keeps the card's configuration; the value per type is stated by `OverviewScreen.ApplyChartValue` |
| OverviewScreen.ApplyChartValue | Kedi/Screens/Overview/OverviewViewModel.swift:85-108 | the value each card type takes from a chart: unchanged for the five overview types and last-28-days revenue; the summary total for other revenue and proceeds; the last value for ARR and churn rate; the truncated last value for new users and lost subscriptions |
| OverviewScreen.SetValueOfType | Kedi/Screens/Overview/OverviewViewModel.swift:125-133 | `setItem(type:value:)` keeps the keys, sets the value of the first configuration's card of that type and leaves every other card alone, and is a no-op when no configuration has the type |
| OverviewScreen.SetValueFor | Kedi/Screens/Overview/OverviewViewModel.swift:135-145 | `setItem(config:value:chartValues:)` keeps the keys and every other card; the card of the configuration, if any, gets the chart, and the value when one is given |
| OverviewScreen.OverviewAmount | Kedi/Screens/Overview/OverviewViewModel.swift:49-54 | each of the six overview numbers is the matching response field, or 0 when the body or the field is missing (`?? 0`) |
| OverviewScreen.ApplyOverview | Kedi/Screens/Overview/OverviewViewModel.swift:49-54 | the six overview updates keep the set of cards; what each card receives is stated by `OverviewScreen.OverviewFillsFirstCardOfType`, `OverviewScreen.OverviewFillsRecentCard` and `OverviewScreen.OverviewTouchesOnlyItsCards` |
| OverviewScreen.OverviewFillsFirstCardOfType | Kedi/Screens/Overview/OverviewViewModel.swift:49-51 | the first card of MRR, subscriptions and trials gets the response's number for its type, 0 when missing, and keeps its chart |
| OverviewScreen.OverviewFillsRecentCard | Kedi/Screens/Overview/OverviewViewModel.swift:52-54 | the last-28-days revenue, users and installs cards get the response's number, 0 when missing, and their chart is cleared |
| OverviewScreen.OverviewTouchesOnlyItsCards | Kedi/Screens/Overview/OverviewViewModel.swift:49-54 | the overview neither adds nor removes cards, and leaves alone every card that is neither a first card of MRR, subscriptions or trials nor a last-28-days revenue, users or installs card |
| OverviewScreen.SetValueOfTypeUntouched | Kedi/Screens/Overview/OverviewViewModel.swift:129-132 | setting by type leaves the cards of other types alone |
| OverviewScreen.AddedItemLeadsTheList | Kedi/Screens/Overview/OverviewViewModel.swift:147-152 | when every configuration has a card and there is no all-time revenue configuration yet, the list after adding is the new card followed by the previous list |
| OverviewScreen.AddedItemOverExistingCard | Kedi/Screens/Overview/OverviewViewModel.swift:147-152 | when an all-time revenue configuration already exists, adding lists it a second time and both places show the fresh card, so the earlier card's contents are lost |
| WidgetErrors.Icon | WidgetExtension/Shared/WidgetError.swift:18-25 | `hand.raised` for unauthorised, `exclamationmark.triangle` for a service error |
| WidgetErrors.Title | WidgetExtension/Shared/WidgetError.swift:27-34 | `Unauthorized!` for unauthorised, `Service Error!` for a service error |
| WidgetErrors.Message | WidgetExtension/Shared/WidgetError.swift:36-43 | the sign-in prompt for unauthorised; the error's localised description for a service error |
| WidgetErrors.SignInPromptLineBreak | WidgetExtension/Shared/WidgetError.swift:39 | the sign-in prompt is two lines, broken after "account" |
| WidgetErrors.ServicePresentation | WidgetExtension/Shared/WidgetError.swift:18-43 | all service errors share icon and title; two of them show the same message exactly when their descriptions agree |
| WidgetErrors.IconAndTitleIdentifyCase | WidgetExtension/Shared/WidgetError.swift:18-34 | two errors have the same icon, and likewise the same title, exactly when they are the same case |
| WidgetErrors.MessageDoesNotIdentifyCase | WidgetExtension/Shared/WidgetError.swift:36-43 | a service error can show the same message as the unauthorised case, while its icon still differs |

## Left out

- Network transport: `APIService.request` and the Alamofire request built from an endpoint are not part of this model. A fetch's outcome is passed to the completion methods as a `Result`.
- Request dictionaries (`request.dict` of login, charts, transactions and webhook requests) and the chart name's raw value are opaque inputs, because their types are not part of this model.
- `HTTPHeaders` matches header names case-insensitively. `Endpoints.HeaderValue` compares names exactly, which agrees for the fixed header names used here.
- Concurrency: `init`'s `Task`, `fetchAll`'s task group, `refresh`, `@MainActor` and `@Published` are left out. The fetch completions are modelled as sequential state updates, in any order the caller chooses. `addItem`'s follow-up chart fetch is left to the caller of `FetchChart`.
- Persistence and widgets: `OverviewItemConfig.get`/`set` (the saved configurations are a constructor parameter), `removeItem` (OverviewViewModel.swift:161-163, which only clears the saved configurations and leaves the screen's own state alone) and `WidgetsManager.reloadAll` are left out.
- `OverviewItemType.chartName`/`chartIndex` and `timePeriod.resolution`/`startDate`/`endDate` are not part of this model. The first two are parameters of `FetchChart`; the chart request's dates are not modelled.
- `OverviewItem.set(value:)`, `set(chartValues:)` and `set(value:chartValues:)` are not part of this model. They are taken to assign what they are given, so the overview fetch, which passes no chart for the three last-28-days cards, clears those charts.
- `.placeholder(configs:)` and the `OverviewItem(config:)` initialiser are not part of this model. Both are taken to give an empty card for their configuration (`NewItem`): the placeholders one per configuration, `addItem` the one it inserts.
- `GeneralState` has cases not shown here; only `data` and `error` are modelled. `print(error)` on a failed chart fetch is left out.
- Floating point: doubles are exact reals. Rounding, NaN, infinities and the trap of `Int(x)` on out-of-range values are not modelled. The JSON number grammar and the precision lost when parsing it are not modelled either.
- `JSONDecoder` errors are reduced to key-not-found and type-mismatch with the failing key; coding paths and debug descriptions are left out. An absent `events` value and an explicit `null` are treated alike, as `decodeIfPresent` does.
- TransactionActivity.UnknownBodyKeysIgnored: states only that adding an unknown body key keeps success and the decoded event; it does not state that a failing decode fails with the same error.
- Dates and timestamps are plain numbers; the `Date(timeIntervalSince1970:)` conversion is not modelled.
- `RCError` is reduced to its localised description.
