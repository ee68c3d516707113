# AI governance front end: questionnaire, dashboard and service logic

This project is a Dafny model of the decision logic in the AI governance web front end. It covers four parts.

- **The AI use-case questionnaire page.**
  - Six fixed general questions.
  - A classification chain from project type to system type to template type.
  - Template questions derived from a fetched catalog.
  - The required-field gate that enables and guards submission.
  - The "Load Example" button.
  - The admin edit and add dialogs.
  - The submission payload and its success and failure paths.
- **The alternate dashboard page.**
  - The case-insensitive project search.
  - The per-status tally behind the status chart.
  - The status badge colour.
  - Fetching the project list.
  - Updating a project's status.
- **The environment configuration.** The backend and agent base URLs, and the helpers that join a base URL and an endpoint path.
- **The trust-center service's fallback logic.**
  - The keyword-based simulated answer.
  - The query that falls back to that answer when the document search fails.
  - The start-up check that syncs the document index only when it is empty.

The model is written in the same style as the code:
- Pure computations are Dafny functions. Their properties are proved as lemmas.
- The loops are methods. Each is proved equal to the function that specifies it:
  - the submit checks: `QuestionnaireModel.CheckGate`;
  - the example answers: `QuestionnaireModel.FillTemplateExampleAnswers`;
  - the chart's `reduce`: `Dashboard.CountStatuses`.
- The state of each page is a class.
  - The page's `useState` hooks are its fields.
  - Its handlers are methods that state their whole new state.
  - A React effect re-runs after a render in which its dependencies changed. Each handler runs the template-derivation effect at its end under that same condition.

Every awaited call into code outside the model becomes a parameter. This covers an HTTP request, a service module and the id generator. An awaited call is represented by how it settles: `Wrappers.Outcome` is `Resolved(value)` or `Rejected(message)`.

JavaScript semantics are written out where they matter:
- Truthiness of answers: an absent key or `''` is falsy, and every array is truthy.
- `||` defaults.
- Object spread is map union where the right side wins (`JsValues.Spread`).
- A numeric property key becomes its decimal rendering (`Strings.NatToString`).
- `toLowerCase`, `includes` and `trim`.

Modules, one per file:
- `Wrappers` (wrappers.dfy)
- `Strings` (strings.dfy)
- `JsValues` (jsvalues.dfy)
- `Env` (env.dfy)
- `TrustCenter` (trust_center.dfy)
- `Dashboard` (dashboard.dfy)
- `QuestionnaireModel` (questionnaire_model.dfy): tables, derivation, gate and example answers.
- `Questionnaire` (questionnaire.dfy): the `Form` class and a scenario through its handlers.

### Behaviours of the code worth noting

- **Admin-added questions are never required.** `handleAddSave` (src/pages/quetionare/main.jsx:268-272) builds the question from the draft. The draft has no `required` field, so the gate never checks the question. See `Questionnaire.Form.HandleAddSave` and `QuestionnaireModel.OptionalQuestionNeverBlocks`.
- **Switching the sub-selection keeps old answers.** Only `loadExample` removes answers, because it replaces the whole map. The other handlers add or overwrite one key each.
  - Fetched questions without an id are keyed by their position plus one. So the i-th id-less question of every template shares one response key.
  - An answer given under one template therefore answers the question at the same position of the next template.
  - See `QuestionnaireModel.DefaultIdsRepeat`, `QuestionnaireModel.StaleAnswerCounts` and `Questionnaire.AnswerSurvivesSwitch`.
- **Server fields override `success` and `message`.** `initializeTrustCenter` spreads the server's answer after its own `success` and `message` fields. A server field of the same name therefore replaces them; see `TrustCenter.InitializeOutcome`.

## Model

| member | source | states |
|---|---|---|
| Wrappers.MessageOr | src/pages/quetionare/main.jsx:248 | `err.message \|\| fallback`: a non-empty message is kept, an empty or missing one gives the fallback |
| Strings.Lower | src/pages/Dashboard/DahboardAlternate.jsx:118 | lower-casing keeps the length and maps every character through the ASCII lower-casing; no upper-case letter remains |
| Strings.LowerIdempotent | src/pages/Dashboard/DahboardAlternate.jsx:118 | lower-casing twice is lower-casing once |
| Strings.LowerConcat | src/services/trustCenterRAGService.js:151 | lower-casing distributes over concatenation |
| Strings.Contains | src/services/trustCenterRAGService.js:153 | `s.includes(t)` holds exactly when `t` is a prefix of some suffix of `s` |
| Strings.ContainsInfix | src/services/trustCenterRAGService.js:153 | a string contains every infix placed in it |
| Strings.Trim | src/pages/quetionare/main.jsx:269 | the trimmed text is no longer than the input and has no white space at either end |
| Strings.TrimIsInfix | src/pages/quetionare/main.jsx:269 | the trimmed text is one contiguous piece of the input, and everything removed before and after it is white space (`IsBlank`) |
| Strings.TrimEmptyIffBlank | src/pages/quetionare/main.jsx:269 | `label.trim()` is empty exactly when every character of the label is ECMAScript white space |
| Strings.NatToString | src/pages/quetionare/main.jsx:164 | the property key of a position id is a non-empty run of decimal digits with no leading zero |
| Strings.DecimalOfNatToString | src/pages/quetionare/main.jsx:164 | reading the key back gives the number |
| Strings.NatToStringInjective | src/pages/quetionare/main.jsx:164 | distinct positions never share a response key |
| JsValues.Spread | src/services/trustCenterRAGService.js:122-126 | `{ ...v }` copies an object's fields, an array's elements or a string's characters under their decimal index, and nothing from null, booleans or numbers |
| JsValues.IndexKeyed | src/services/trustCenterRAGService.js:122-126 | spreading an array keys each element by its index, and every key is an index below the length |
| JsValues.IndexKeyedSize | src/services/trustCenterRAGService.js:122-126 | spreading an array gives one key per element |
| Env.BaseUrl | src/config/env.js:19 | an unset or empty variable selects the local default, and any other value is used as it is |
| Env.JoinUrl | src/config/env.js:20 | the URL starts with the base and ends with the endpoint. Exactly one slash separates them when the endpoint lacks one, and nothing is dropped |
| Env.GetBackendUrl | src/config/env.js:18-21 | the backend URL always starts with the configured or default backend base |
| Env.GetAgentUrl | src/config/env.js:24-27 | the agent URL always starts with the configured or default agent base |
| Env.JoinUrlCases | src/config/env.js:20 | an endpoint with a leading slash is appended as it is, and any other endpoint is appended after a slash |
| Env.LeadingSlashOptional | src/config/env.js:18-27 | writing the leading slash or leaving it out names the same URL, for both helpers |
| Env.EmptyEndpoint | src/config/env.js:20 | the empty endpoint gives the base followed by one slash |
| Env.SlashesKept | src/config/env.js:20 | a trailing slash on the base is not merged with the endpoint's slash |
| Env.DefaultBases | src/config/env.js:4-7 | without the variables the helpers join onto `http://localhost:3001` and `http://localhost:8000`, and an empty backend variable acts as an unset one |
| TrustCenter.SimulatedResponse | src/services/trustCenterRAGService.js:149-163 | a privacy keyword ("gdpr", "privacy") gives the privacy answer. Otherwise a security keyword ("security", "certificate") gives the certification answer. Anything else gets the generic answer |
| TrustCenter.SimulatedResponseIgnoresCase | src/services/trustCenterRAGService.js:151 | the answer does not depend on letter case |
| TrustCenter.PrivacyKeywordAnywhere | src/services/trustCenterRAGService.js:153-155 | a privacy keyword in any case and at any position selects the privacy answer, whatever else the question says |
| TrustCenter.SecurityKeywordAnywhere | src/services/trustCenterRAGService.js:157-159 | a security keyword in any case and at any position selects the certification answer when no privacy keyword is present |
| TrustCenter.QueryWithFallback | src/services/trustCenterRAGService.js:117-142 | a resolved search gives the server's fields plus forced `source: 'rag'` and `success: true`. A failed one gives exactly the six fallback fields with the simulated answer and the error's message |
| TrustCenter.QuerySuccessIffResolved | src/services/trustCenterRAGService.js:122-140 | `success` is true and `source` is "rag" exactly when the search resolved |
| TrustCenter.IndexedFileCount | src/services/trustCenterRAGService.js:174 | a count is found exactly when the status is an object whose `indexed_file_count` is a positive number |
| TrustCenter.FallbackResult | src/services/trustCenterRAGService.js:193-198 | fallback mode has exactly `success: false`, the fallback message, the error's message and `fallback: true` |
| TrustCenter.AlreadyInitializedMessage | src/services/trustCenterRAGService.js:177 | the message is the fixed phrase, the decimal count and " documents". The count can be read back from it, and it differs from the other two messages |
| TrustCenter.InitializeTrustCenter | src/services/trustCenterRAGService.js:169-200 | a sync is requested exactly when the status call resolved without a positive count. Any failure gives the fallback result. A success carries the server's fields plus `success` and `message` |
| TrustCenter.NoSyncWhenIndexed | src/services/trustCenterRAGService.js:172-180 | an index that already holds documents is reported without a sync, so how a sync would settle makes no difference |
| TrustCenter.InitializeOutcome | src/services/trustCenterRAGService.js:169-200 | every failure ends in fallback mode. Otherwise `success` is true and the message names the case (the count, or a fresh initialization), unless the server's own fields replace them. Every server field is kept |
| Dashboard.StatusColor | src/pages/Dashboard/DahboardAlternate.jsx:51-66 | the badge class is one of five. Each named class is chosen exactly when the lower-cased status is its case |
| Dashboard.StatusColorIgnoresCase | src/pages/Dashboard/DahboardAlternate.jsx:52 | the badge does not depend on letter case |
| Dashboard.UnknownStatusLooksOpen | src/pages/Dashboard/DahboardAlternate.jsx:63-64 | a status that none of the cases names gets the "open" colour |
| Dashboard.FilterProjects | src/pages/Dashboard/DahboardAlternate.jsx:117-119 | a project is listed exactly when it is a project whose lower-cased name contains the lower-cased term (`Matches`). Each matching row is listed as many times as it occurs in the input, and no other row is listed |
| Dashboard.FilterIsSubsequence | src/pages/Dashboard/DahboardAlternate.jsx:117-119 | the filtered list is the project list with some projects removed, in the same order |
| Dashboard.EmptyTermKeepsAll | src/pages/Dashboard/DahboardAlternate.jsx:117-119 | an empty search shows every project |
| Dashboard.FilterIgnoresTermCase | src/pages/Dashboard/DahboardAlternate.jsx:118 | the search does not depend on the term's letter case |
| Dashboard.Tally | src/pages/Dashboard/DahboardAlternate.jsx:122-131 | one bar per listed status name, in order, each carrying that status's count |
| Dashboard.CountStep | src/pages/Dashboard/DahboardAlternate.jsx:123-129 | one more project appends its status unless that status was already seen, and only that status's count grows |
| Dashboard.FirstSeenFacts | src/pages/Dashboard/DahboardAlternate.jsx:122-131 | the chart's statuses (`FirstSeen`) are distinct. They are exactly the statuses of some project, each counted at least once |
| Dashboard.FirstSeenOrder | src/pages/Dashboard/DahboardAlternate.jsx:122-131 | the bars come in the order the statuses first appear among the projects |
| Dashboard.TallyAppend | src/pages/Dashboard/DahboardAlternate.jsx:128 | one more project raises the bars' total by the number of bars that name its status |
| Dashboard.StatusDataSum | src/pages/Dashboard/DahboardAlternate.jsx:122-131 | the bar counts of `StatusData`, the chart's tally, add up to the number of filtered projects |
| Dashboard.StatusDataBars | src/pages/Dashboard/DahboardAlternate.jsx:122-131 | no two bars of `StatusData` share a name, and every bar's count is its status's count (`CountStatus`), at least one |
| Dashboard.StatusDataCovers | src/pages/Dashboard/DahboardAlternate.jsx:122-131 | every project's status has a bar, and every bar's status is some project's |
| Dashboard.GroupingIsCaseSensitive | src/pages/Dashboard/DahboardAlternate.jsx:124-125 | "Open" and "open" make two bars although they share a badge colour |
| Dashboard.CountStatuses | src/pages/Dashboard/DahboardAlternate.jsx:122-131 | the reduce and `Object.values` loop computes exactly the status tally |
| Dashboard.PatchStatus | src/pages/Dashboard/DahboardAlternate.jsx:106-110 | the list keeps its length. Each project with the id gets the new status and every other project is unchanged |
| Dashboard.PatchStatusIdempotent | src/pages/Dashboard/DahboardAlternate.jsx:106-110 | applying the same status update twice is applying it once |
| Dashboard.PatchStatusKeepsIds | src/pages/Dashboard/DahboardAlternate.jsx:106-110 | a status update never changes which projects are listed or their order |
| Dashboard.Board.constructor | src/pages/Dashboard/DahboardAlternate.jsx:77-80 | the page starts with an empty search, no projects, loading, and no error |
| Dashboard.Board.FilteredProjects | src/pages/Dashboard/DahboardAlternate.jsx:117-119 | the table shows exactly the matching projects, each as many times as it occurs in the page's list |
| Dashboard.Board.SetSearchTerm | src/pages/Dashboard/DahboardAlternate.jsx:226 | typing replaces the search term |
| Dashboard.Board.StatusChartData | src/pages/Dashboard/DahboardAlternate.jsx:122-131 | the chart is the tally of the filtered projects |
| Dashboard.Board.BeginFetch | src/pages/Dashboard/DahboardAlternate.jsx:86-87 | a fetch starts by setting loading and clearing the error |
| Dashboard.Board.EndFetch | src/pages/Dashboard/DahboardAlternate.jsx:88-95 | a resolved fetch replaces the projects. A failed one keeps them and records the message or the default message. Loading ends either way |
| Dashboard.Board.FetchProjects | src/pages/Dashboard/DahboardAlternate.jsx:85-96 | the whole fetch: new projects without an error, or the old projects with the error message, and no longer loading |
| Dashboard.Board.HandleStatusUpdate | src/pages/Dashboard/DahboardAlternate.jsx:102-114 | the list is patched only once the server accepted the update, and a failed update changes nothing |
| QuestionnaireModel.Answered | src/pages/quetionare/main.jsx:274-276 | `!!responses[id]`: a missing key is unanswered, an array (even an empty one) is answered, and a string is answered exactly when it is non-empty |
| QuestionnaireModel.SubQuestionOptions | src/pages/quetionare/main.jsx:90-99 | only "internal" and "thirdparty" offer system types. Each offers two distinct ones, and each of them selects a template type |
| QuestionnaireModel.TemplateTypeOf | src/pages/quetionare/main.jsx:154-158 | the template type is one of the four canonical strings, or empty |
| QuestionnaireModel.ClassificationChain | src/pages/quetionare/main.jsx:90-99 | each project type offers its two system types. Each system type selects its own template type, no two share one, and any other value selects none |
| QuestionnaireModel.FindTemplate | src/pages/quetionare/main.jsx:161 | the position of the first template of the type, or none when there is no such template |
| QuestionnaireModel.ToTemplateQuestion | src/pages/quetionare/main.jsx:163-171 | every derived question has a non-empty key: its own id, or else the decimal digits of its position plus one. It is a text question labelled by the question, with no options and an empty value, and it is required unless marked `false` |
| QuestionnaireModel.DeriveQuestionsSpec | src/pages/quetionare/main.jsx:149-178 | for `DeriveQuestions`, the template-question effect: there are no questions without a sub-selection or a matching template with questions. Otherwise the first matching template's questions appear in order: required unless marked false, text questions labelled by the question and keyed by their id or their position plus one |
| QuestionnaireModel.DefaultIdsRepeat | src/pages/quetionare/main.jsx:164 | the i-th id-less question of any two templates has the same key, `i + 1` |
| QuestionnaireModel.GeneralGateKeys | src/pages/quetionare/main.jsx:274 | the general questions pass exactly when the five required ones (all but `delayFactors`) are answered |
| QuestionnaireModel.FirstGateFailure | src/pages/quetionare/main.jsx:213-231 | no check fails exactly when the button's `allAnswered` holds (`AllAnswered`, the conjunction of `AllGeneralAnswered`, the sub-selection check and `AllTemplateAnswered`, main.jsx:274-277). The general check fails first and the system-type check fails only after it passes |
| QuestionnaireModel.GateMessage | src/pages/quetionare/main.jsx:213-228 | a missing system type shows the system-type message, and an unanswered general or template question shows the required-questions message |
| QuestionnaireModel.CheckGate | src/pages/quetionare/main.jsx:213-231 | the submit loops with their early returns give exactly the first failing check, and none exactly when `allAnswered` holds |
| QuestionnaireModel.OptionalQuestionNeverBlocks | src/pages/quetionare/main.jsx:276 | appending a question that is not required never changes whether the template questions pass |
| QuestionnaireModel.StaleAnswerCounts | src/pages/quetionare/main.jsx:164 | an answer to the i-th id-less question of one template answers the i-th id-less question of any other template, since both are keyed `i + 1` |
| QuestionnaireModel.ExampleAnswer | src/pages/quetionare/main.jsx:200 | `EXAMPLE_TEMPLATE_ANSWERS[idx] \|\| 'Yes'` is never empty |
| QuestionnaireModel.ExampleAnswerKeys | src/pages/quetionare/main.jsx:198-201 | the example map fills only the questions' ids, each with non-empty text |
| QuestionnaireModel.ExampleAnswerCovers | src/pages/quetionare/main.jsx:198-201 | the example map fills every question's id |
| QuestionnaireModel.ExampleAnswerLastWins | src/pages/quetionare/main.jsx:199-201 | the last question with an id decides that id's answer |
| QuestionnaireModel.TemplateExampleAnswersSpec | src/pages/quetionare/main.jsx:198-201 | `TemplateExampleAnswers`, the example map, fills exactly the questions' ids. Each is answered, with the example answer of the last question carrying the id |
| QuestionnaireModel.FillTemplateExampleAnswers | src/pages/quetionare/main.jsx:198-201 | the `forEach` loop builds exactly that map |
| QuestionnaireModel.OverlayAnswered | src/pages/quetionare/main.jsx:202 | spreading non-empty answers over others keeps every answer and answers every key set |
| QuestionnaireModel.ExampleResponseAnswersGeneral | src/pages/quetionare/main.jsx:102-110 | `ExampleResponses`, the example response, answers every required general question and the project type |
| QuestionnaireModel.ExampleAnswersComplete | src/pages/quetionare/main.jsx:197-205 | example answers built for a list pass the whole gate for that same list under the example system type |
| QuestionnaireModel.ExampleForDerivedListIsComplete | src/pages/quetionare/main.jsx:197-205 | example answers built for the list the example system type derives pass the gate, for every catalog |
| QuestionnaireModel.ExampleFromBlankFormIsIncomplete | src/pages/quetionare/main.jsx:197-205 | from a blank form, the answers built by `loadExample` leave the derived third-party AI question unanswered, so the gate stays shut |
| Questionnaire.Form.constructor | src/pages/quetionare/main.jsx:121-133 | the initial state of every hook |
| Questionnaire.Form.SubmitEnabled | src/pages/quetionare/main.jsx:413-420 | the button is enabled exactly when no submission is running and none of the submit checks would fail |
| Questionnaire.Form.TemplatesFetched | src/pages/quetionare/main.jsx:135-147 | the catalog is the fetched array, or empty for any other value or a failure. Loading ends and the question list is re-derived |
| Questionnaire.Form.HandleGeneralChange | src/pages/quetionare/main.jsx:180-186 | the answer is recorded. A new project type clears the system type and the question list but removes no answer |
| Questionnaire.Form.HandleSubSelection | src/pages/quetionare/main.jsx:188-191 | the system type is recorded as the sub-selection and as the `subSystemType` answer. A changed selection derives its own list, and an unchanged one keeps the current list |
| Questionnaire.Form.HandleTemplateChange | src/pages/quetionare/main.jsx:193-195 | the answer is recorded under the question's id, and nothing else changes |
| Questionnaire.Form.LoadExample | src/pages/quetionare/main.jsx:197-205 | as written: the answers are computed for the list shown before the switch, then the example system type derives its own list |
| Questionnaire.Form.LoadExampleIntended | src/pages/quetionare/main.jsx:197-205 | corrected: the answers are computed for the list the example system type shows, so the loaded form always passes the gate |
| Questionnaire.Form.HandleSubmit | src/pages/quetionare/main.jsx:207-252 | a payload is posted exactly when the gate passes, and a failing gate shows its check's message. The payload holds every answer, the default project id and the sub-selection's template type; the submit handler's own if-chain (lines 233-237) agrees with the derivation's table. Success shows the confirmation and schedules the results route; a failure shows the error's message or the default one. `isSubmitting` ends false |
| Questionnaire.Form.HandleEdit | src/pages/quetionare/main.jsx:254-257 | the edit dialog opens on a copy of the question at that position |
| Questionnaire.Form.EditCaption | src/pages/quetionare/main.jsx:432 | the edited copy takes the new question text |
| Questionnaire.Form.EditOptions | src/pages/quetionare/main.jsx:433 | the edited copy takes the new options |
| Questionnaire.Form.HandleEditSave | src/pages/quetionare/main.jsx:258-263 | the copy replaces the question at the edited position. Every other position and the length are unchanged, and the dialog closes |
| Questionnaire.Form.CancelEdit | src/pages/quetionare/main.jsx:436 | cancelling closes the edit dialog without changing the list |
| Questionnaire.Form.HandleAdd | src/pages/quetionare/main.jsx:264-267 | the add dialog opens on a blank text-question draft |
| Questionnaire.Form.SetNewCaption | src/pages/quetionare/main.jsx:443 | the draft takes the new question text |
| Questionnaire.Form.SetNewKind | src/pages/quetionare/main.jsx:446 | the draft takes the new type and loses its options |
| Questionnaire.Form.SetNewOptions | src/pages/quetionare/main.jsx:450 | the draft takes the new options |
| Questionnaire.InitialValue | src/pages/quetionare/main.jsx:270 | an added checkbox question starts with an empty array, and any other kind with the empty string |
| Questionnaire.Form.HandleAddSave | src/pages/quetionare/main.jsx:268-272 | a blank draft after trimming changes nothing. Otherwise exactly one question is appended, with the fresh id, the draft's fields, an empty answer of its kind and no `required` flag, and the dialog closes |
| Questionnaire.Form.CancelAdd | src/pages/quetionare/main.jsx:453 | cancelling closes the add dialog |
| Questionnaire.AnswerSurvivesSwitch | src/pages/quetionare/main.jsx:163-195 | answering an id-less question and then switching to another system type whose template has an id-less question at the same position leaves that new question answered |
| Questionnaire.ScenarioQuestions | src/pages/quetionare/main.jsx:163-171 | a two-question AI-system template derives two required questions keyed "1" and "2" |
| Questionnaire.ScenarioGeneral | src/pages/quetionare/main.jsx:180-191 | answering the five required general questions, leaving `delayFactors` untouched, and choosing `ai-system` through the handlers gives exactly those answers and the derived list |
| Questionnaire.ScenarioForm | src/pages/quetionare/main.jsx:193-195 | with both template questions answered the gate passes, and with the second blank it does not |
| Questionnaire.SubmitScenario | src/pages/quetionare/main.jsx:207-252 | submitting that form posts once, exactly when the second question is answered. The post carries use case "AI System", the project id and exactly the entered answers: eight keys, five general ones, `subSystemType`, "1" and "2" |

## Left out

- Rendering. This covers the JSX, the loading spinner, the inline warnings, the aging chart's static data, the dashboard's table, menus, and its navigation buttons.
- Time and navigation:
  - `navigate` and the 2-second `setTimeout` are represented by the route the delay will open (`navigation`);
  - the back button is not modelled.
- Concurrency. When the settled calls interleave with user input, each state update is modelled as applied in sequence. That is how React applies them.
- Components and modules outside the core:
  - `QuestionItem`, `OptionEditor` and the authentication context (`isAdmin`) are not part of this model. The admin visibility of the add button is therefore not modelled;
  - `DEFAULT_PROJECT_ID` comes from a module that is not part of this model, so it is the `Form` constructor's parameter;
  - `nanoid()` is the fresh id handed to `HandleAddSave`. The requirement that it differs from every listed id stands for the generator's uniqueness.
- The service modules' HTTP code. This covers `templateService`, `questionnaireService`, `projectService`, and the trust-center service's `queryDocuments`, `getStatus`, `syncDocuments`, upload and reset methods. Each is represented by the outcome it settles with. The mode argument of `queryWithFallback` only reaches `queryDocuments`, so it is not modelled.
- The other settings in src/config/env.js: `APP_NAME`, `APP_VERSION` and the development and production flags. Nothing in the modelled logic reads them.
- Values:
  - numbers are integers: no floating point, `NaN` or `Infinity`;
  - the fetched projects are assumed to have the fields the code reads. A project missing `projectName` or `status` would make the JavaScript throw, and the model does not capture that. A template missing `templateType` needs no such assumption: `find` never matches it, in the code and in the model.
- Strings.Lower: lower-cases ASCII letters only. `toLowerCase` also maps other Unicode letters, so the search, the keyword match and the badge colour are exact for ASCII text only.
- Strings.Contains: compares code points, where JavaScript compares UTF-16 code units. The model has no surrogate pairs.
- QuestionnaireModel.ToTemplateQuestion: every falsy question id (`undefined`, `null`, `0`, `''`) is represented by `""`. Every answer is a string or an array of strings.
- Dashboard.CountStatuses: lists the bars in insertion order. `Object.values` would list integer-like status names (such as "1") first, in numeric order.
- Dashboard.CountStatuses: a status string naming a built-in property of plain objects (for example "constructor") is treated like any other key. In JavaScript `acc["constructor"]` is already truthy.
- TrustCenter.IndexedFileCount: compares only numeric counts, so a count sent as a numeric string or a boolean is never positive here. JavaScript would coerce it.
- TrustCenter.QueryWithFallback: an error without a `message` gives `error: ""` here, where JavaScript gives `undefined`.
- TrustCenter.FallbackResult: an error without a `message` gives `error: ""` here, where `error: error.message` in JavaScript gives `undefined`. The rejected Outcome carries a string message, so a missing message is not told apart from an empty one.
- Logging: the `console.warn` and `console.error` calls in `queryWithFallback`, `initializeTrustCenter` and `handleStatusUpdate` are not modelled. They write to the browser console and change no state or result.
- Questionnaire.Form.HandleEditSave: requires the edited position to still be in the list. The dialog is modal, so the list cannot change while it is open.
- Questionnaire.Form.TemplatesFetched: only tells an array from any other value. The elements of an array are taken as templates.

## Findings

| source | as written | input that shows it | evidently intended | confidence | as-written member | corrected member |
|---|---|---|---|---|---|---|
| src/pages/quetionare/main.jsx:197-205 | `loadExample` builds the example answers from the `templateQuestions` on screen, then sets the sub-selection to `thirdparty-ai`. The effect then replaces the list with the third-party AI template's questions, which were never filled | a blank form, and a catalog whose "Third-party AI System" template has one question without an id. After "Load Example" that question, key "1", is required and unanswered, so submit stays disabled | "Load Example" fills every question of the form it loads, so the example can be submitted at once | not executed | Questionnaire.Form.LoadExample, QuestionnaireModel.ExampleFromBlankFormIsIncomplete | Questionnaire.Form.LoadExampleIntended, QuestionnaireModel.ExampleForDerivedListIsComplete |
