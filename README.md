# NeuroGuard web client: a Dafny model

NeuroGuard is a React client for a stroke-risk prediction service. A clinician signs in, records a profile age and hypertension history, answers a symptom checklist, and gets a prediction from one of three classifiers. Past predictions appear on a dashboard and in a history list.

This project models the decision logic of the client and proves properties of it. The model has one Dafny module per source file:

| module | file | source |
|---|---|---|
| `Js` | `js.dfy` | the JavaScript semantics the client relies on: parsed JSON values, truthiness, `indexOf`, `startsWith`, the two kinds of `replace`, `join`, object spread, number-to-text |
| `Types` | `types.dfy` | `types.ts`: the data shapes, and how a decoded body is read as one of them |
| `Api` | `api.dfy` | `services/api.ts`: the service object and its token, the header map, the request each call sends, and the response normaliser |
| `App` | `app.dfy` | `App.tsx`: the route guard, the session bootstrap, the sign-in and registration handlers, and the sidebar highlight |
| `Assessment` | `assessment.dfy` | `pages/Assessment.tsx`: profile defaults, the initial form, the toggle, and the submission rule |
| `Dashboard` | `dashboard.dfy` | `pages/Dashboard.tsx`: the counts, the trend series, recent activity, and the profile status |
| `History` | `history.dfy` | `pages/History.tsx`: the list and record pages, their render order, and the clinical-input filter |
| `Ui` | `ui.dfy` | `components/ui.tsx`: Button, Badge, Card and Input selection rules |

The world outside the client is modelled as inputs and state:

- **Browser.** The class `Api.Browser` holds three things:
  - durable storage, as a `map`;
  - the location hash, which is the route under a hash router;
  - the log of every request sent.
- **Replies.** Each call takes its reply as a parameter of type `Exchange`. It is either `Unreachable`, meaning `fetch` rejected, or a `Response`: the status, the status text, the content type and the body text, plus the parsed JSON where the body parses.
- **Service object.** `Api.ApiService` holds the one mutable token. Its invariant `Valid()` says the token in memory is the one in storage under `access_token`. Every method keeps that invariant.
- **Page components.** Each stateful component is a class whose fields are its React state: `AppRoutes`, `LoginPage`, `RegisterPage`, `AssessmentPage`, `DashboardPage`, `HistoryListPage`, `HistoryDetailPage`.
- **Handlers.** Each handler is one sequential method with an explicit reply.

What is proved, in outline:

- **Response normaliser.** The normaliser gives exactly one outcome per response, decided in a fixed order:
  - a 401 comes first: it logs out, redirects to `#/login`, and throws `Session expired`;
  - otherwise JSON or not decides next, then ok or not.
- **Error messages.** A list `detail` gives its `msg` values joined by `", "` in order. A truthy `detail` is used as it stands. Otherwise the message is built from the status. Non-JSON text is shown only when it is shorter than 100 characters.
- **Headers.** Each request carries exactly the headers the source builds. Every authenticated call's header map is the one `getHeaders` builds for the token held when it is sent. The bearer credential is present iff a non-empty token is held. The token request is a password grant, as in section 4.3.2 of RFC 6749, and carries no credential.
- **Route guard.** Guest screens render only without a user, and member screens only with one. Every redirect lands on a route that renders.
- **Sign-in and registration.** The order of steps is pinned down by what each request carries. For example, the identity request after sign-in carries the token just obtained. A failed step leaves the later steps undone.
- **Assessment.** A prediction is never requested without profile defaults. The request carries the form with the profile's age and hypertension substituted. The toggle flips one field and leaves the rest alone.
- **Dashboard and history.** The dashboard count, chart and recent list are what the source computes. Each history page decides what it shows in the source's order.

## Model

| member | source | states |
|---|---|---|
| Js.FieldLookup | services/api.ts:34-36 | a property read is defined iff some property has the key, and its value is one held under that key |
| Js.ScanFor | services/api.ts:30 | the `indexOf(...) !== -1` search answers true iff the substring occurs at some position (both directions) |
| Js.NatTextRoundTrip | services/api.ts:36 | the decimal text of a status or query number reads back as that number |
| Js.NatTextInjective | pages/Dashboard.tsx:36 | different numbers have different decimal texts |
| Js.JoinSnoc | services/api.ts:35 | `join` puts the separator between neighbours, reading left to right |
| Js.JoinLength | services/api.ts:35 | a joined text is as long as its parts plus one separator between each pair |
| Js.ReplaceAll | pages/History.tsx:134-135 | the global `replace` keeps the length and changes every `_`, and nothing else |
| Js.ReplaceFirst | pages/History.tsx:118 | the string-pattern `replace` changes exactly the first `_`, position by position |
| Js.ReplaceFirstAt | pages/History.tsx:118 | the first `_` after a prefix free of `_` becomes the new character, and the rest stays |
| Js.ReplaceFirstAbsent | pages/History.tsx:118 | a text without `_` is shown unchanged |
| Js.ReplaceFirstIsReplaceAll | pages/History.tsx:48 | with at most one `_`, both kinds of `replace` agree |
| Js.Get | pages/Assessment.tsx:65 | reading a form field is defined iff the field is present, and gives a value the field holds |
| Js.Set | pages/Assessment.tsx:62-75 | the spread update always leaves the key present, keeps every key the object had, and adds no other |
| Js.GetSetSame | pages/Assessment.tsx:63-66 | after a spread update the field reads the new value |
| Js.GetSetOther | pages/Assessment.tsx:63-66 | after a spread update every other field reads as before |
| Js.SetKeepsKeys | pages/Assessment.tsx:63-66 | updating a present field keeps the keys and their order |
| Js.SetAddsKey | pages/Assessment.tsx:71-74 | updating an absent field appends it at the end |
| Js.GetAt | pages/Assessment.tsx:42-60 | in a record with distinct keys, each field reads back the value written for it |
| Types.ModelType.Slug | types.ts:71-75 | each model's value is one of `logistic`, `random_forest`, `svm` |
| Types.AtRisk | types.ts:52 | the `=== 1` test; on the declared 0/1 scores it agrees with the score's truthiness |
| Types.NullishLookup | pages/Assessment.tsx:106 | `a ?? b ?? 0`: a present key is used even when its value is 0, else the second key, else 0 |
| Types.RiskProbability | pages/Assessment.tsx:106 | risk probability is `at_risk`, else `"1"`, else 0 |
| Types.SafeProbability | pages/Assessment.tsx:111 | safe probability is `not_at_risk`, else `"0"`, else 0 |
| Types.DefaultsOf | types.ts:7-13 | a user has a defaults record iff the body's `personal_defaults` is an object, and its age and hypertension are that object's `age` and `high_blood_pressure` numbers (absent when missing or not numbers) |
| Types.UserOf | App.tsx:384-385 | a falsy body leaves no user, as `!user` reads it; otherwise the user's id, email and full name are the body's `id`, `email` and `full_name` strings and its defaults are the body's `personal_defaults` |
| Types.AccessTokenOf | App.tsx:91 | the token stored is the body's `access_token` string |
| Types.NumberMap | types.ts:53-55 | a probability key is present iff the object's first property of that name is a number, and maps to that number |
| Types.ProbabilityOf | types.ts:53-55 | the probability record of a body holds exactly the number-valued properties of its `probability` object, each with the body's number |
| Types.ScoreOf | types.ts:52 | a record reads as at risk iff its `prediction_score` is the number 1, and a numeric score is read as it stands |
| Types.PredictionOf | pages/Assessment.tsx:95-96 | a falsy prediction body sets no result; otherwise the result's model, label, score and probabilities are the body's `model_used`, `prediction_label`, `prediction_score` and `probability`, and it is at risk iff the score is 1 |
| Types.HistoryItemOf | types.ts:58-64 | a history record's id, timestamp, model and label are the body's `id`, `timestamp`, `model_used` and `prediction_label` strings, its score is the body's `prediction_score`, and it is at risk iff that score is 1 |
| Types.ItemsOf | types.ts:58-64 | one record per array element, in order |
| Types.HistoryListOf | pages/Dashboard.tsx:21-22 | a history body gives one record per array element, in order |
| Types.HistoryDetailOf | pages/History.tsx:76-77 | a falsy detail body gives no record; otherwise the record's fields, inputs and probabilities come from the body |
| Api.MessageOf | App.tsx:95 | a thrown `Error` carries its message; engine errors always have a non-empty message |
| Api.IsJsonType | services/api.ts:29-30 | a response is JSON iff its content type is present and contains `application/json` |
| Api.MsgTexts | services/api.ts:34-35 | the `msg` texts of a `detail` list, one per element in order; a null element makes the read throw |
| Api.DetailFailure | services/api.ts:31-37 | a null JSON error body makes the `detail` read throw |
| Api.TextFailure | services/api.ts:42-46 | non-JSON error text is the message below 100 characters, else `Request failed with status <n>` |
| Api.Normalise | services/api.ts:21-51 | 401 throws `Session expired` whatever else the response holds; returns iff ok and (non-JSON or parsed); returns the parsed body or the empty object; unparseable JSON throws |
| Api.Settle | services/api.ts:95-99 | a rejected `fetch` throws a network error; a response is normalised |
| Api.NormaliseByKind | services/api.ts:22-50 | each of the five kinds of response (401, ok JSON, failed JSON, failed text, ok without JSON) has its outcome |
| Api.ValidationMessage | services/api.ts:34-35 | a `detail` list of records gives their `msg` values joined by `", "`, in order |
| Api.ValidationExample | services/api.ts:34-35 | `detail: [{msg: "a"}, {msg: "b"}]` reads `a, b` |
| Api.StringDetailMessage | services/api.ts:36 | a non-empty string `detail` is the message as it stands |
| Api.SynthesisedMessage | services/api.ts:36 | without a truthy `detail` the message is `Error <status>: <statusText>` |
| Api.TokenRequest | services/api.ts:78-89 | `POST /auth/token`; the token request is a form with exactly `username`, `password`, `grant_type=password`, form-urlencoded, and no `Authorization` |
| Api.RegisterRequest | services/api.ts:69-74 | `POST /auth/register` with the JSON body `{email, password, full_name}`, the JSON content type and no `Authorization`, whatever token is held |
| Api.EntriesJson | services/api.ts:118 | the prediction body lists the payload's fields, in order, as numbers |
| Api.LoggedOut | services/api.ts:58-61 | logging out clears the token and removes the stored key together; every other key stays, with its value |
| Api.AfterReply | services/api.ts:22-26 | a 401 clears the token and sets the hash to `#/login`; any other reply leaves the session as it was; mirroring is kept |
| Api.Headers | services/api.ts:10-19 | the map satisfies `BuiltHeaders`: Content-Type JSON iff not form data; `Authorization: Bearer <token>` iff a non-empty token; no other keys |
| Api.BuiltHeadersUnique | services/api.ts:10-19 | the header rule determines the map: two maps built for the same token and body kind are equal |
| Api.ApiService.constructor | services/api.ts:8 | the token is read back from storage, so a reload keeps the session |
| Api.ApiService.IsAuthenticated | services/api.ts:63-65 | `!!this.token`: authenticated iff a token is held and it is truthy, so not empty |
| Api.ApiService.SetToken | services/api.ts:53-56 | the token and the stored key both take the new value; authenticated iff it is non-empty |
| Api.ApiService.Logout | services/api.ts:58-61 | token and stored key both removed; not authenticated afterwards |
| Api.ApiService.GetHeaders | services/api.ts:10-19 | the header rule, with the credential present iff `isAuthenticated()` |
| Api.ApiService.HandleResponse | services/api.ts:21-51 | the outcome is the normaliser's; a 401 logs out and redirects; the invariant is kept |
| Api.ApiService.Call | services/api.ts:95-99 | one request logged, its reply settled, the session updated by the 401 rule |
| Api.ApiService.Register | services/api.ts:69-76 | the registration request is sent and its reply settled |
| Api.ApiService.Login | services/api.ts:78-90 | the token request is sent and its reply settled |
| Api.ApiService.GetMe | services/api.ts:94-100 | `GET /users/me`, whose headers are exactly those `getHeaders` builds for the token held when it was sent, so `Bearer <token>` iff a token was held; earlier requests are kept |
| Api.ApiService.UpdateDefaults | services/api.ts:102-110 | `PUT /users/me/defaults` with the defaults as JSON and the `getHeaders` headers for the held token; a 204 returns at once and leaves the session untouched; other replies are normalised |
| Api.DefaultsJson | services/api.ts:106 | `JSON.stringify(defaults)`: an object whose only keys are `age` and `high_blood_pressure`, each present iff the value is, holding that number |
| Api.ApiService.Predict | services/api.ts:114-121 | `POST /predict/<model>` with the payload as its body and the `getHeaders` headers for the held token |
| Api.ApiService.GetHistory | services/api.ts:123-129 | `GET /predict/history?skip=..&limit=..` with the `getHeaders` headers for the held token |
| Api.HistoryPath | services/api.ts:124 | the history path starts with `/predict/history?skip=` and is as long as that prefix, the offset in decimal, `&limit=` and the page size in decimal |
| Api.HistoryPathReadsBack | services/api.ts:124 | the history path determines its offset and page size: equal paths have equal `skip` and `limit` |
| Api.ApiService.GetHistoryDetail | services/api.ts:131-137 | `GET /predict/history/<id>` with the `getHeaders` headers for the held token |
| App.Guard | App.tsx:423-441 | `/login`, `/register` render iff no user, else go to `/dashboard`; member routes render iff a user, else go to `/login`; `/` redirects by user; an unknown path renders nothing |
| App.AppView | App.tsx:409-420 | the splash shows iff loading, and no route is rendered while it does |
| App.RedirectsSettle | App.tsx:424-440 | the target of every redirect renders for the same user, so no route redirects twice |
| App.SidebarActive | App.tsx:247 | `startsWith`: highlighted iff the target is no longer than the path and agrees with it character by character |
| App.SidebarActiveIffExtends | App.tsx:247 | a link is highlighted iff the path is its target followed by anything |
| App.HistoryLinkOnDetailPage | App.tsx:288-295 | on a record's page the History link is highlighted and the other main links are not |
| App.AppRoutes.constructor | App.tsx:376-377 | the first render has no user and is loading |
| App.AppRoutes.FetchUser | App.tsx:380-394 | without a token nothing is sent and the user is unchanged; a failed fetch clears token and user; a success sets the user; loading ends false |
| App.AppRoutes.LoginSuccess | App.tsx:400-407 | the identity is fetched with the held token before navigating to `/profile?setup=true` (new user) or `/dashboard` |
| App.LoginErrorText | App.tsx:95 | the sign-in error shows the message, or the fixed text when that is empty |
| App.RejectedLoginReadsAsExpired | App.tsx:89-95 | a 401 from the token endpoint shows `Session expired` on the sign-in form |
| App.EmptyErrorBody | App.tsx:170-171 | an empty non-JSON error throws an empty message: sign-in falls back to its fixed text, registration shows nothing |
| App.LoginPage.constructor | App.tsx:80-83 | the form starts empty and idle |
| App.AccessTokenRead | App.tsx:91 | `res.access_token` throws the null-read error exactly on a `null` body, and otherwise reads the body's token |
| App.AppRoutes.SignIn | App.tsx:90-92 | the token request first; a failed request or a `null` body is returned as the failure, with no token stored, no fetch and no navigation; otherwise the token is stored; a non-empty one is carried by the identity fetch before navigating, while an empty one is stored as `""` with no identity fetch and the user unchanged |
| App.LoginPage.Submit | App.tsx:85-99 | the error is cleared, the token request is sent, setToken and the identity fetch happen only on success and the fetch carries the new token; a failure, including a `null` token body, shows its message or the fixed one; an empty `access_token` is stored as `""` and navigates with no identity fetch |
| App.RegisterPage.constructor | App.tsx:158-160 | the form starts empty and idle |
| App.RegisterPage.Submit | App.tsx:162-175 | register, then sign in with the same email and password, then store the token, then fetch and go to setup; the first failing step, including a `null` token body, skips the rest, keeps the session as that reply leaves it and shows its message; an empty `access_token` is stored as `""` and navigates with no identity fetch |
| Assessment.SymptomKeys | pages/Assessment.tsx:13-28 | the checklist's keys, in display order |
| Assessment.SymptomsWellFormed | pages/Assessment.tsx:13-28 | 14 distinct keys, each a binary field of the prediction input |
| Assessment.BinaryFieldsDistinct | types.ts:29-46 | the binary fields of the prediction input have pairwise distinct names |
| Assessment.OrZero | pages/Assessment.tsx:43-44 | `x \|\| 0` for an optional number gives the number when present, else 0 |
| Assessment.DefaultAge | pages/Assessment.tsx:37 | `user?.personal_defaults?.age`: absent without a user or a defaults record, else the record's age |
| Assessment.DefaultHbp | pages/Assessment.tsx:38 | `user?.personal_defaults?.high_blood_pressure`: absent without a user or a defaults record, else the record's value |
| Assessment.HasDefaults | pages/Assessment.tsx:37-39 | with defaults there is a user with a defaults record, and the form's `\|\| 0` age and hypertension are the profile's own values, the age positive |
| Assessment.HasDefaultsIff | pages/Assessment.tsx:37-39 | `hasDefaults` iff age is present and positive and hypertension is present |
| Assessment.Zeroed | pages/Assessment.tsx:46-59 | every symptom field starts at 0, in checklist order |
| Assessment.InitialForm | pages/Assessment.tsx:42-60 | the form has age, hypertension, health score, then the 14 symptoms, in that order |
| Assessment.KeysAppend | pages/Assessment.tsx:42-60 | the keys of a record built in two parts are the two key lists in sequence |
| Assessment.FormSignatures | pages/Assessment.tsx:42-60 | the form's keys differ in length or first letters |
| Assessment.FormKeysDistinct | pages/Assessment.tsx:42-60 | the form's 17 keys are distinct |
| Assessment.InitialFormValues | pages/Assessment.tsx:42-60 | age is the profile's \|\| 0, hypertension the profile's \|\| 0, the health score 50, every symptom 0 |
| Assessment.Toggled | pages/Assessment.tsx:62-67 | after a toggle the field reads 0 or 1, whatever it held |
| Assessment.ToggleFlips | pages/Assessment.tsx:62-67 | the toggled field becomes 0 if it was 1, else 1; every other field is unchanged; the keys are kept |
| Assessment.ToggleTwice | pages/Assessment.tsx:62-67 | toggling a 0/1 field twice reads back the original form |
| Assessment.Payload | pages/Assessment.tsx:89-93 | the payload always carries `age` and `high_blood_pressure`, and every field of the form |
| Assessment.PayloadOverrides | pages/Assessment.tsx:89-93 | the payload's age and hypertension are the profile's, and every other field is the form's |
| Assessment.PayloadKeepsKeys | pages/Assessment.tsx:89-93 | the payload has the form's keys, in the form's order |
| Assessment.ModelLabel | pages/Assessment.tsx:124 | the model name as shown keeps its length and every character except the first `_`, which becomes a space; with at most one `_` it is the name with every `_` replaced |
| Assessment.ResultView | pages/Assessment.tsx:115-147 | the card shows the label, the model as shown and both probabilities; it is red and picks the high-risk recommendations iff the score is 1 |
| Assessment.ResultShowsBody | pages/Assessment.tsx:105-144 | for a prediction body the card is red iff the body's score is 1, and the risk figure is the body's `at_risk` number, else its `"1"` number, else 0 |
| Assessment.PickerLabels | pages/Assessment.tsx:242-252 | the picker offers `logistic`, `random forest`, `svm`, in that order |
| Assessment.LogisticLabel | pages/Assessment.tsx:252 | `logistic` is shown as is |
| Assessment.SvmLabel | pages/Assessment.tsx:252 | `svm` is shown as is |
| Assessment.RandomForestLabel | pages/Assessment.tsx:252 | `random_forest` is shown as `random forest` |
| Assessment.AssessmentPage.constructor | pages/Assessment.tsx:32-60 | the page starts idle, with no result, the random-forest model and the initial form |
| Assessment.AssessmentPage.Toggle | pages/Assessment.tsx:62-67 | the form becomes the toggled form |
| Assessment.AssessmentPage.Change | pages/Assessment.tsx:69-75 | the named field takes the entered number |
| Assessment.AssessmentPage.SelectModel | pages/Assessment.tsx:245 | the chosen model is selected |
| Assessment.AssessmentPage.Reset | pages/Assessment.tsx:139 | the result is cleared and the form kept |
| Assessment.AssessmentPage.Submit | pages/Assessment.tsx:77-103 | without defaults nothing is sent, an alert is shown and the hash goes to `/profile`; with them one prediction request carries the payload and the held token's headers, and its result or its error message is shown |
| Dashboard.AtRiskItems | pages/Dashboard.tsx:32 | the filtered items are exactly the history's at-risk items, no more than the history |
| Dashboard.AtRiskCount | pages/Dashboard.tsx:32 | the at-risk count is at most the history length |
| Dashboard.AtRiskItemsAppend | pages/Dashboard.tsx:32 | the filter keeps order and the count adds up over any split |
| Dashboard.AtRiskCountExtremes | pages/Dashboard.tsx:32 | the count is the whole history iff every item is at risk, and 0 iff none is |
| Dashboard.Reversed | pages/Dashboard.tsx:35 | the copy has item n-1-i at position i |
| Dashboard.ReversedTwice | pages/Dashboard.tsx:35 | reversing twice gives the history back |
| Dashboard.Points | pages/Dashboard.tsx:35-40 | point i is named `Test <start+i+1>` and carries item i's score and label |
| Dashboard.Chart | pages/Dashboard.tsx:35-40 | the series has the history's length; point i is item n-1-i, named `Test <i+1>`, with its score and label |
| Dashboard.ChartNamesDistinct | pages/Dashboard.tsx:36 | the points' names are pairwise different |
| Dashboard.TrendView | pages/Dashboard.tsx:123-165 | the chart is drawn iff there is history |
| Dashboard.Recent | pages/Dashboard.tsx:185 | at most the first five items, in the history's order |
| Dashboard.RiskBadge | pages/Dashboard.tsx:199-200 | score 1 gives variant `risk` and text `Risk`, any other score `success` and `Safe` |
| Dashboard.RiskBadgeStyle | pages/Dashboard.tsx:199-200 | the badge ends red exactly for an at-risk item, and green otherwise |
| Dashboard.RecentView | pages/Dashboard.tsx:173-185 | loading, then the empty note, then at most five items |
| Dashboard.ProfileStatus | pages/Dashboard.tsx:111 | `Optimized` iff the profile age is present and positive, else `Setup Needed` |
| Dashboard.ProfileStatusWeakerThanDefaults | pages/Dashboard.tsx:111 | a profile that can run assessments reads `Optimized`, and so does one missing its hypertension value |
| Dashboard.DashboardPage.constructor | pages/Dashboard.tsx:14-15 | no history, loading |
| Dashboard.DashboardPage.Load | pages/Dashboard.tsx:18-30 | one `GET` for skip 0 and limit 10 with the held token's headers, earlier requests kept; success sets the history, failure keeps it; loading ends false |
| History.Rows | pages/History.tsx:35-48 | one row per record, in order, with its label, its model shown with the first `_` replaced, and a link to `/history/<id>` |
| History.ListView | pages/History.tsx:24-25 | loading, then a non-empty error, then the rows, with the empty note iff there are none |
| History.HistoryListPage.constructor | pages/History.tsx:9-11 | no history, loading, no error |
| History.HistoryListPage.Load | pages/History.tsx:14-22 | one `GET` for skip 0 and limit 50 with the held token's headers, earlier requests kept; success sets the history; any failure sets `Failed to load history.`; loading ends false |
| History.Listed | pages/History.tsx:130 | a key is listed iff it is neither `age` nor `stroke_risk_percentage` |
| History.ListedInputs | pages/History.tsx:129-130 | the listed inputs are exactly the record's inputs other than `age` and `stroke_risk_percentage` |
| History.TileOf | pages/History.tsx:131-136 | a tile shows `Detected` iff the value is the number 1; its title is the key with every `_` made a space, so of the key's length and without `_` |
| History.Tiles | pages/History.tsx:129-138 | one tile per input, in order |
| History.ClinicalInputs | pages/History.tsx:129-138 | tile i is the tile of the i-th listed input, in the record's order |
| History.ListedInputsAppend | pages/History.tsx:129-130 | the filter keeps the record's property order |
| History.ListedAfterVitals | pages/History.tsx:129-130 | for a record starting with age and the health score, exactly the remaining inputs are listed |
| History.AllListed | pages/History.tsx:129-130 | a record without age or health score is listed in full |
| History.DetailView | pages/History.tsx:86-138 | loading, then a non-empty error, then `Record not found.`, then the record with its label as heading, its risk probability, model label, age input, risk colour and inputs |
| History.DetailErrorText | pages/History.tsx:80 | the error's message, or `Failed to load details` when that is empty |
| History.HistoryDetailPage.constructor | pages/History.tsx:70-72 | no record, loading, no error |
| History.HistoryDetailPage.Load | pages/History.tsx:74-84 | without an id nothing is sent and the page stays loading; with one, one `GET` for it with the held token's headers, earlier requests kept, and the record or the error is set and loading ends |
| Ui.ButtonDisabled | components/ui.tsx:38 | a button is disabled iff `disabled` or `isLoading` is true |
| Ui.Button | components/ui.tsx:10-45 | variant defaults to `primary` and size to `md`; disabled iff `disabled` or `isLoading`; the spinner shows iff `isLoading` |
| Ui.StyleOf | components/ui.tsx:101-107 | exactly the five keys `success`, `warning`, `danger`, `neutral`, `risk` have a style, each non-empty |
| Ui.VariantStyle | components/ui.tsx:100-110 | the default variant is `neutral`, and a key without a style falls back to the neutral style |
| Ui.Badge | components/ui.tsx:100-113 | `At Risk` forces the danger style and `Not At Risk`/`Safe` the success style, whatever the variant; any other text takes the variant's style |

## Left out

- HTTP transport and the service's base URL (`services/api.ts:3-5`): a request is recorded in `Browser.requests` with its path relative to the base, and the reply is a parameter.
- JSON parsing and `response.text()`: a response carries its text and, where it parses, its value. `JSON.parse` keeps the last of two properties of the same name, while `Js.FieldLookup` reads the first; bodies with repeated keys are not modelled.
- React scheduling and async interleaving: each handler is one sequential step. `onLoginSuccess` is not awaited in the source, so the form's `loading` may turn false before the identity fetch ends. The model runs the fetch to its end first; the final state is the same.
- Matching URL text to route patterns is the router's work: a location arrives as a `Route` value.
- `localStorage` and `window.location.hash` are fields of `Browser`. `window.location.reload`, `console.error`, `alert` (recorded as a list of messages) and `window.scrollTo` are not modelled further.
- Floating point: JavaScript numbers are Dafny reals. `toFixed(1)` percentages, `parseFloat` (and NaN), and date formatting are left out. Only the fallback order of the probability lookup is modelled.
- Js.NumberText: renders only the integer part of a fractional number. It is used for a truthy numeric `detail` and a number inside a `detail` list, where JavaScript would print the fraction.
- Api.MessageOf: engine errors carry the name of their kind instead of the engine's wording. The first is the `SyntaxError` of `response.json()`, the second the `TypeError` of reading a property of null, the third a rejected `fetch`.
- String lengths count characters, not UTF-16 code units: the 100-character rule differs for text outside the Basic Multilingual Plane.
- History.DetailView: the age cell holds the input's value and not its text; `{age} years` rendering and a record without `input_data`, where rendering throws, are not modelled.
- Types.AccessTokenOf: an `access_token` that is not a string is read as the empty string. The source keeps the raw value in memory and stores only its text. A numeric token is therefore authenticated there, and the memory and stored tokens no longer agree. The model's empty token is unauthenticated and keeps the two in agreement.
- Types decoders: a field whose JSON type differs from the declared one is read as absent (a score as never 1, a string as empty). Where the source would throw while rendering, the model shows `""` or 0 instead. For example, a body without `model_used` makes `.replace` throw at `pages/History.tsx:48`, `pages/History.tsx:118` and `pages/Assessment.tsx:124`, while the model shows an empty model name. A non-array history body is read as no records, where the page would fail while rendering. `Option` does not tell undefined from null. The client's `?.`, `??` and `!== undefined && !== null` tests treat the two alike; `JSON.stringify` does not (see Api.DefaultsJson).
- Api.DefaultsJson: a defaults value that is null is written by `JSON.stringify` as `null`; the model leaves it out, as it would an undefined one.
- Types.NumberMap: a non-number probability value is read as absent, while `??` would use any value other than null or undefined.
- Ui.StyleOf: variant keys inherited from `Object.prototype` (for example `constructor`) are not modelled; every other unknown key falls back to the neutral style as in the source.
- JSX layout, Tailwind class strings other than the badge styles, icons and the recharts chart: the chart's date texts and tooltip are left out.
- `Ui.CardHasHeader` and `Ui.InputShowsError` are stated as predicates with no contract of their own: they are the single conditions of `components/ui.tsx:88` and `components/ui.tsx:64-76`.
- The profile page, the recommendation lists and the mobile menu are not part of this model; they hold no rules beyond those above.
