# VetAI dashboard core, modelled in Dafny

VetAI is a livestock-monitoring web dashboard. Every judgement about an animal
(anomalies, causes, newborn risk, advice) is made by an external language model;
the program's own logic is the plumbing around those calls. This project models
that plumbing and proves what it promises:

- **The request gateway** (`actions.dfy`, module `Actions`). The two server
  actions `handleAnalyzeBehavior` and `handlePredictCause` check an untyped form
  against a schema, report the first failing field's message (or a fixed
  fallback), make exactly one call to an analysis flow when the form is valid and
  none otherwise, and map the flow's result or thrown error into a state whose
  data fields and error never appear together. A flow is an opaque function
  parameter; each handler returns its new state together with the list of flow
  calls it made.
- **Newborn risk badge** (`newborn_risk.dfy`, module `NewbornRisk`). `getRiskProps`
  is a first-match threshold classifier from an optional score to a risk tier.
- **Assistant chat** (`assistant_chat.dfy`, module `AssistantChat`). The chat is a
  class holding the message list and the input box. A blank question (by
  ECMAScript's `trim`) changes nothing. Any other question is appended as a user
  message and sent with a snapshot of the earlier messages. The advice action's
  answers append model messages or a fixed apology.
- **Alert list** (`alert_feed.dfy`, module `AlertFeed`). The dashboard's alerts
  are a class whose `AddAlert` prepends a new alert numbered `length + 1`. The
  class invariant keeps the ids exactly 1 to n, so they never repeat. The
  active-alarm card shows the count in decimal. `src/app/dashboard/page.tsx`
  and `src/app/page.tsx` contain the same alert code line for line, and this one
  module models both.
- **Alert views** (`recent_alerts.dfy`, `alerts_table.dfy`). The recent-alerts
  card shows three skeletons while loading, a "no active alarms" message for an
  empty list, or else the first three alerts. The history table shows five
  placeholder rows while loading, one row per alert, or a single four-column
  "no records" row. Both use the same severity-to-badge table.
  `alerts-table.tsx:23-27` repeats that table, which is defined once here.

`wrappers.dfy` holds the `Option` and `Result` types. Strings are `seq<char>`,
and a string's length is its number of characters (see "## Left out" for how
that differs from JavaScript's `length`). Form fields are
`Option<FormValue>`: `None` is the `null` that `formData.get` returns for a
missing field, and a `FormValue` is either a string or an uploaded file. Clock
readings (`Date.now()` message ids) are parameters, one per reading.

Where the chat reacts to the advice action's state, the code tests the response
and the error for truthiness (`if (state.response)`). An empty-string response
therefore appends nothing. The model follows the code here.

## Model

| member | source | states |
|---|---|---|
| `Actions.ValidateAnalyze` | src/lib/actions.ts:8-35 | Valid exactly when there is at least one frame, every frame is a string, the description is a string of at least 10 characters and `feedId` is a string. The validated request carries those values unchanged. With no frames the error is "At least one video frame is required.", whatever else the form holds. With frames but a description shorter than 10 it is "Behavior description is too short.". With both fine but no string `feedId` it is "Invalid input.". A value that is not a string reports the validator's own type message. |
| `Actions.Texts` | src/lib/actions.ts:21-24 | The frame strings handed on are the submitted frame entries, one for one and in order. |
| `Actions.ThrownText` | src/lib/actions.ts:48 | A thrown error's message is reported as is. An absent or empty message gives way to the fixed fallback. |
| `Actions.HandleAnalyzeBehavior` | src/lib/actions.ts:20-51 | One flow call when the form is valid and none otherwise. The call carries the submitted frames, description and feed id. An invalid form yields null data and the validation error. A returned result forwards `anomalies` and `causePrediction` with no error. A thrown error yields null data and the thrown message or "An unknown error occurred during analysis.". The error is set exactly when `anomalies` is null, an error never comes with a `causePrediction`, and it is never empty. |
| `Actions.AnalyzeIgnoresPrevState` | src/lib/actions.ts:20-51 | The answer does not depend on the previous state. |
| `Actions.ValidatePredictWith` | src/lib/actions.ts:55-78 | Valid exactly when `animalId` is a string of at least 1 character, `observedBehavior` is a string of at least 10, and the `historicalData` rule passes. A bad `animalId` is reported before a bad `observedBehavior`: "Hayvan ID'si gerekli." before "Gözlenen davranış açıklaması çok kısa.". If only `historicalData` fails, the error is "Geçersiz girdi.". |
| `Actions.FlowRequest` | src/lib/actions.ts:80-85 | The flow receives the animal id and behaviour unchanged. It receives `historicalData` unchanged when present (so an empty one stays `''`) and `''` when absent. |
| `Actions.DispatchPredict` | src/lib/actions.ts:80-95 | An invalid form yields no call, null causes and the validation error. A valid one yields exactly one call, with the request above. A returned result forwards `probableCauses` with no error. A thrown error yields null causes and the thrown message or "Tahmin sırasında bilinmeyen bir hata oluştu.". The error is set exactly when the causes are null. |
| `Actions.HandlePredictCause` | src/lib/actions.ts:66-96 | As written, the flow is called once exactly when the id and the behaviour are strings of at least 1 and 10 characters and `historicalData` is a string. The call carries the three submitted strings. Without a call there are no causes and an error is set. The error and the causes exclude each other, and the error is never empty. |
| `Actions.HandlePredictCauseIntended` | src/lib/actions.ts:58-85 | Corrected handler. A missing `historicalData` no longer blocks the call and reaches the flow as `''`. A present one reaches it unchanged. The error and the causes exclude each other. |
| `Actions.MissingHistoryRejected` | src/lib/actions.ts:67-78 | With a valid id and behaviour but no `historicalData` field, the handler as written answers "Geçersiz girdi." and makes no call. The corrected handler makes one call with `historicalData = ''`. |
| `Actions.IntendedAgreesWhenHistoryPresent` | src/lib/actions.ts:58 | Whenever the form has a `historicalData` field, the corrected handler answers exactly as the one as written. |
| `Actions.PredictIgnoresPrevState` | src/lib/actions.ts:66-96 | The answer does not depend on the previous state. |
| `NewbornRisk.GetRiskProps` | src/components/newborn-analysis/newborn-analysis-client.tsx:160-165 | Each input gets exactly one tier. No score gives "Bilinmiyor"/default. A score ≥ 70 gives "Yüksek Risk"/destructive. A score in 40 ≤ s < 70 gives "Orta Risk"/secondary. A score below 40 gives "Düşük Risk"/success. Each holds in both directions. |
| `NewbornRisk.RiskMonotone` | src/components/newborn-analysis/newborn-analysis-client.tsx:161-164 | A higher score never yields a lower tier, and a known score is never "unknown". |
| `NewbornRisk.RiskMatchesDocumentedBands` | src/ai/flows/analyze-newborn-behavior.ts:57-61 | For each integer score from 0 to 100, the badge is the documented band: 70-100 high, 40-69 medium, 0-39 low. |
| `AssistantChat.TrimStart` | src/components/assistance/ai-assistant-chat.tsx:63 | Removes exactly the leading ECMAScript whitespace. The result is a suffix, everything dropped is whitespace, and the result does not start with whitespace. |
| `AssistantChat.TrimEnd` | src/components/assistance/ai-assistant-chat.tsx:63 | Removes exactly the trailing whitespace. The result is a prefix, everything dropped is whitespace, and the result does not end with whitespace. |
| `AssistantChat.BlankIffAllWhitespace` | src/components/assistance/ai-assistant-chat.tsx:63 | `question.trim()` is empty exactly when every character of the question is whitespace. |
| `AssistantChat.HistoryOf` | src/components/assistance/ai-assistant-chat.tsx:68 | The chat history has one entry per message, in order, with the same role and content. |
| `AssistantChat.Chat.constructor` | src/components/assistance/ai-assistant-chat.tsx:36-39 | The chat starts with exactly one message, the model's greeting with id 1, and an empty input box. |
| `AssistantChat.Chat.Edit` | src/components/assistance/ai-assistant-chat.tsx:120-121 | Typing sets the input box and leaves the messages alone. |
| `AssistantChat.Chat.Submit` | src/components/assistance/ai-assistant-chat.tsx:61-73 | A blank question changes nothing and sends nothing. Any other question adds exactly one message at the end: role user, with the untrimmed question as content. Exactly one request goes to the advice action, carrying the question and the history of the messages before the append. The input box is cleared. The greeting stays first. |
| `AssistantChat.Chat.OnState` | src/components/assistance/ai-assistant-chat.tsx:43-50 | A truthy response appends one model message with that content, its id the first clock reading. Then a truthy error appends one model message with the fixed apology, its id a second, separate clock reading. Nothing is removed or reordered, and the input box is unchanged. |
| `AlertFeed.InitialIds` | src/app/page.tsx:25-54 | The four initial alerts carry the ids 1 to 4. |
| `AlertFeed.AlertBoard.constructor` | src/app/dashboard/page.tsx:11-44 | The list starts as the four initial alerts, and the id invariant holds. |
| `AlertFeed.AlertBoard.AddAlert` | src/app/dashboard/page.tsx:46-55 | The length grows by exactly one. The new alert is at index 0 with id `length + 1`, `animalId` "Konum: " + location, the anomaly as description, timestamp "Şimdi" and severity "Yüksek". The previous alerts follow unchanged and in order. The ids stay exactly 1 to n. |
| `AlertFeed.AddAlertKeepsIds` | src/app/page.tsx:60-69 | If the ids of n alerts are exactly 1 to n, then after prepending the alert numbered n + 1 the ids are exactly 1 to n + 1. |
| `AlertFeed.IdsOneToNAreDistinct` | src/app/dashboard/page.tsx:48 | When the ids of n alerts are exactly 1 to n, no two alerts share an id. |
| `AlertFeed.Range` | src/app/page.tsx:62 | The id range holds exactly the numbers 1 to n. |
| `AlertFeed.Decimal` | src/app/page.tsx:117 | The count is shown as a non-empty string of decimal digits without a leading zero. |
| `AlertFeed.DecimalRoundTrip` | src/app/page.tsx:117 | Reading the shown digits back gives the number they were made from. |
| `AlertFeed.AlertBoard.ActiveAlarms` | src/app/dashboard/page.tsx:65 | The "Aktif Alarmlar" card shows a decimal string whose value is the number of alerts. |
| `RecentAlerts.SeverityBadge` | src/components/dashboard/recent-alerts.tsx:20-24 | "Yüksek" maps to destructive, "Orta" to secondary and "Düşük" to outline. A severity naming a member every object inherits from `Object.prototype` ("toString", "constructor", "__proto__", …) yields that inherited member, which is truthy and so wins over the fallback. Every other value, and only those, maps to default. |
| `RecentAlerts.ItemsOf` | src/components/dashboard/recent-alerts.tsx:49-68 | One item per alert, in order. Each item has the alert's id, animal id, severity, its badge, description and timestamp. |
| `RecentAlerts.ShowRecentAlerts` | src/components/dashboard/recent-alerts.tsx:40-69 | While loading there are three skeletons, whatever the list. Not loading with an empty list gives the "no active alarms" message. Otherwise the card shows exactly the first min(3, n) alerts, in their original order. |
| `AlertsTable.Placeholders` | src/components/history/alerts-table.tsx:47-54 | n placeholder rows keyed 0 to n - 1. |
| `AlertsTable.RowsOf` | src/components/history/alerts-table.tsx:56-67 | One row per alert, in order and unfiltered. |
| `AlertsTable.ShowAlertsTable` | src/components/history/alerts-table.tsx:46-74 | While loading there are exactly five placeholder rows. A non-empty list gives one row per alert, in order. An empty list gives a single "no records" row spanning four columns. |
| `AlertsTable.TableBadges` | src/components/history/alerts-table.tsx:23-27 | A row's badge is destructive, secondary or outline exactly for "Yüksek", "Orta" or "Düşük". It is the inherited member exactly for an `Object.prototype` property name, and default for anything else. |

## Left out

- The other analysis handlers that `src/lib/actions.ts` imports or that the pages call (`handleDetectBirth`, `handleDiagnoseDisease`, `handleGenerateAdvice`, `handleAnalyzeNewborn`): their code is not part of this model.
- The analysis flows under `src/ai/flows/` are calls to an external language model. They are opaque function parameters here, and only their input and output record shapes are kept.
- The validator's own type-error wording: a value that is not a string reports `Actions.NotAString`, and its text is not modelled.
- A thrown `null` or `undefined` (reading its `message` would make the `catch` block itself throw) and a flow that returns `null`: not modelled. A flow either returns a record or throws an error with an optional message.
- String length: JavaScript counts UTF-16 code units, and the model counts characters. The two differ only for characters outside the Basic Multilingual Plane.
- The frame sampler `captureFrames` (video seeking, canvas drawing, floating-point timestamps and progress), toasts, dialogs, the map, the live vet chat, settings, language switching and page layout: these are browser and UI behaviour.
- A NaN risk score: the score is an exact number.
- `AssistantChat.Chat.Submit` takes the question as a string. A form without a `question` field would make `trim` throw, and that case is not modelled.
- The chat history's JSON encoding into the form: the request carries the history as a list.
- React's batching and stale closures: `addAlert` reads `alerts.length` from the render it was created in, and the chat reads `messages` before its own update lands. Only sequential calls are modelled, each seeing the previous call's state.
- `RecentAlerts.ShowRecentAlerts` and `AlertsTable.ShowAlertsTable` do not model the date formatting of alert timestamps (`formatDistanceToNow(new Date(t))` at recent-alerts.tsx:64, `format(new Date(t), …)` at alerts-table.tsx:146); items and rows carry the raw timestamp. Both library calls throw a `RangeError` for an unparseable date. Every timestamp the code-built lists hold ("5 dakika önce", "Şimdi" in `src/app/page.tsx`) is unparseable, so there the source card throws while rendering where the model shows `Items`.
- `recent-alerts.tsx:13` types `Alert.id` as a string. The lists of `src/app/(main)/dashboard/page.tsx` and `src/app/(main)/history/page.tsx` come from stored documents whose ids the program does not build. The id serves only as a React key, and the model uses an integer.
- In both dashboard pages, `VideoFeeds` is given an `onAnalyze` prop that it does not declare, so nothing in the program calls `addAlert`. `AddAlert` is modelled as written.

## Findings

| source | as written | input that shows it | evidently intended | confidence | as-written member | corrected member |
|---|---|---|---|---|---|---|
| src/lib/actions.ts:58 | `historicalData: z.string().optional()` admits `undefined`, but `formData.get` returns `null` for a missing field. A form without `historicalData` therefore fails validation, and the handler answers "Geçersiz girdi." without calling the flow. | `animalId = "Cow #842"`, `observedBehavior = "Lying down for hours"`, no `historicalData` field | As the comment at line 83 says, a missing `historicalData` becomes `''` and the prediction runs. The only form that calls this action (`src/components/dashboard/cause-predictor.tsx:74`) always submits the `historicalData` textarea, so the rejection is latent: only other callers of the server action reach it. | medium, not executed | `Actions.HandlePredictCause` (discrepancy shown by `Actions.MissingHistoryRejected`) | `Actions.HandlePredictCauseIntended` |
