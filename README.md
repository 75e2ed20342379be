# HAAPI demo client: a verified model of its protocol driver

The demo web client for the Hypermedia Authentication API (`haapi-web-example/demo-client.js`)
drives an authentication flow one hypermedia step at a time. It fetches a step document, renders
its messages, actions and links, and sends form submissions back to the server. It runs the
external browser flow through a second window and a resume nonce, and it keeps navigation history.
This project models that driver in Dafny and proves properties of the model.

- The rendered page is a sequence of abstract *intents* (`Interpreter.Intent`), one per DOM
  element a view would build. Only the decisions of the views are kept.
- The browser is part of the state (`Flow.Browser`): open windows, the identities it hands out,
  and whether it blocks pop-ups.
- Outward actions are appended to a log (`Flow.Effect`): requests sent, windows opened or
  navigated, alerts, timers, reloads.
- Server answers are parameters (`Requests.Fetched`), already parsed from JSON.

Modules:

- `Haapi` (haapi.dfy): the documents. Steps, actions, fields, links, messages, problems and
  snapshots. The open string tags (`type`, `kind`, `template`, `model.name`) are closed datatypes
  with one variant that carries any other string. An absent JSON string is `""`. Most reads of
  one in the client are `x || default`, which treat the two alike; the few raw reads are listed
  under "## Left out".
- `Interpreter` (interpreter.dfy): `generatePage`, `generateMessages`, `generateLinks` and
  `generateActions` as pure functions. The fold policy, the redirect shortcut, the selector
  recursion and the colour and label choices are here. The session effects of rendering are an
  ordered list: arming the resume slot, and scheduling a redirect submission.
- `Requests` (requests.dfy): request building (query data for GET/HEAD, a body otherwise), form
  serialisation, response classification, problem pages and the status colour.
- `Resume` (resume.dfy): the nonce injection of the resume action, as an imperative nested loop
  proved against a specification function.
- `FieldErrors` (fielderrors.dfy): a rendered form's invalid-input handler, as a class whose
  method clears and then marks the error texts of its fields.
- `Flow` (flow.dfy): the resume slot, the tracked window, the open-or-reuse policy and
  message-source matching.
- `Screen` (screen.dfy): what the views element shows, and `showGeneratedPage`, including the
  defect at line 260.
- `Driver` (driver.dfy): every session transition as a pure function on a `View` of the session
  state, with the lemmas about them.
- `Session` (session.dfy): the closure state as a class whose fields the methods update in place.
  Each method is proved to reach exactly the state the matching `Driver` function computes, and to
  keep the session invariant `Driver.ViewValid`.

The client (`demo-client.js:301-303`) treats 204, anything below 200 and [300,400) as statuses
without a body. It sets no upper bound, so a status of 600 or more is parsed and rendered.
`Requests.ClassifySnapshot` states this.

## Model

| member | source | states |
|---|---|---|
| Haapi.ParseStepType | haapi-web-example/demo-client.js:100-109 | Reading a step's `type` loses no information. A tag is "other" exactly when it is non-empty and is none of the eight tags the client tests; an empty type is the missing-type case. |
| Haapi.ParseKind | haapi-web-example/demo-client.js:150-161 | Reading `kind` loses nothing. It is "other" exactly when it is neither `redirect` nor `cancel`. |
| Haapi.ParseTemplate | haapi-web-example/demo-client.js:158-177 | Reading `template` loses nothing. It is "other" exactly when it is not `selector`, `form` or `client-operation`. |
| Haapi.ParseOperationName | haapi-web-example/demo-client.js:166-171 | Reading a client operation's name loses nothing. It is "other" exactly when it is not `external-browser-flow` or `bankid`. |
| Haapi.CanonicalTags | haapi-web-example/demo-client.js:98-171 | Decoding the text of a tag gives that tag back, for all four tag kinds. |
| Interpreter.PageLayout | haapi-web-example/demo-client.js:94-142 | A page is every message in order, then the block chosen by the step type, then the links. A ruler precedes the links exactly when there are any. Each link is an image exactly when its media type starts with `image/` or its href with `data:image`, and a button otherwise. |
| Interpreter.BlockByType | haapi-web-example/demo-client.js:100-111 | Each step type gets exactly one block. The five action-rendering types get their actions and `oauth-authorization-response` the callback's result. A `polling-step` gets its actions and then a status banner. Any other tag gets "Cannot render type X", and a missing type its own error. |
| Interpreter.FoldEnabledIff | haapi-web-example/demo-client.js:155-156 | Folding is on exactly when two different actions are not of kind `cancel`. |
| Interpreter.FoldPolicy | haapi-web-example/demo-client.js:156-188 | Without the shortcut, action i becomes intent i, so order and count are kept. Intent i is a disclosure titled `title \|\| kind` exactly when folding is on and the action may fold; inside is the action's own element. |
| Interpreter.RealizeShape | haapi-web-example/demo-client.js:157-179 | No realised action is itself a disclosure or a busy spinner. |
| Interpreter.RedirectShortcut | haapi-web-example/demo-client.js:150-153 | The action list renders as a lone spinner exactly when the session follows redirects and the only action is a redirect. The caller's auto-follow argument plays no part. The shortcut schedules exactly one submission, of that action. |
| Interpreter.ActionEffectsShape | haapi-web-example/demo-client.js:144-191 | Rendering arms the resume slot only for `external-browser-flow` actions. A window opens only for a top-level action rendered with auto-follow, because selector options are rendered without it (line 482). A submission is scheduled only for a redirect while the session follows redirects. |
| Interpreter.RealizeEffectsShape | haapi-web-example/demo-client.js:157-179 | The same three facts for a single action, including its selector options. |
| Interpreter.PollingAlert | haapi-web-example/demo-client.js:599-603 | The banner is an error exactly for status `failed`, a success exactly for `done`, and primary for anything else, including no status. |
| Interpreter.MessageColor | haapi-web-example/demo-client.js:683-693 | A message's colour comes from its first class: `warn` becomes warning, `info` becomes primary, any other class is its own colour. A message without classes gets none. |
| Interpreter.SubmitLabel | haapi-web-example/demo-client.js:582-587 | The submit button shows the model's action title, or "Submit" when there is none. |
| Interpreter.PageIntents | haapi-web-example/demo-client.js:94-116 | A page has one element per message, then the type block, then, when there are links, a ruler and one element per link. |
| Interpreter.TypeBlock | haapi-web-example/demo-client.js:100-111 | The five action-rendering types give one element per action, a polling step one more for its banner, and every other type exactly one element. |
| Interpreter.ActionIntents | haapi-web-example/demo-client.js:144-191 | The rendered action list has exactly one element per action. |
| Interpreter.RealizeAction | haapi-web-example/demo-client.js:157-179 | A form keeps the action's model, kind and template. A selector becomes an authenticator selector exactly when the enhanced views are on and its kind is `authenticator-selector`; otherwise it lists one option per nested action. An `external-browser-flow` operation becomes its launch button. An unknown template becomes an error message. |
| Interpreter.ActionEffects | haapi-web-example/demo-client.js:144-191 | No actions, no effects. The redirect shortcut schedules exactly one submission, of the lone redirect. Otherwise the effects are those of each action, in action order. |
| Interpreter.SubmitColor | haapi-web-example/demo-client.js:582-587 | The submit button is a warning exactly for cancel actions. |
| Requests.RequestFor | haapi-web-example/demo-client.js:281-294 | The method is kept and the target always starts with the link. GET and HEAD have no body. Any other method sends the data as the body to the unchanged link. Without data the link is unchanged and there is no body. |
| Requests.PrepareRequest | haapi-web-example/demo-client.js:281-294 | The link-reassigning code computes exactly `RequestFor`. |
| Requests.RequestTargets | haapi-web-example/demo-client.js:281-294 | A request never changes the resource (the path before `?`). GET and HEAD have no body. Their data extends an existing query after `&`, or becomes the query after `?`. Without data the link is unchanged. Any other method sends the data as the body to the unchanged link. |
| Requests.ExtendQuery | haapi-web-example/demo-client.js:287 | Appending to a URL that has a query keeps its path and extends its query. |
| Requests.StartQuery | haapi-web-example/demo-client.js:289 | Appending `?` and data to a URL without a query keeps its path and makes the data its query. |
| Requests.QueryExamples | haapi-web-example/demo-client.js:284-290 | Concrete targets: `/x` gets `?a=1`, `/x?y=2` gets `&a=1&b=`, and an empty form on GET still appends `?`. POST keeps the link. |
| Requests.FormPairs | haapi-web-example/demo-client.js:341-348 | Form data has at most one pair per field, and exactly one per field when no field is an unchecked checkbox. |
| Requests.SerializeForm | haapi-web-example/demo-client.js:341-348 | The serialisation loop computes exactly `FormPairs`. |
| Requests.FormPairsOrder | haapi-web-example/demo-client.js:341-348 | Form data lists exactly the fields that are not unchecked checkboxes, in field order, each with its name and value. |
| Requests.Classify | haapi-web-example/demo-client.js:296-327 | A fetch failure is a failure. A kept step is settled. A problem is a received `application/problem+json` response with a status that has a body, reported with that status. A continue-same-step outcome is a received JSON step of that type. |
| Requests.ClassifySnapshot | haapi-web-example/demo-client.js:301-322 | Only a parsed, non-problem step with a status that has a body is kept, exactly as received. 204, statuses below 200 and [300,400) give "Nothing to display". Status 600 is rendered. |
| Requests.ProblemIntents | haapi-web-example/demo-client.js:378-387 | A problem page is its title (its type when untitled), then one error per message, in order. |
| Requests.StatusColor | haapi-web-example/demo-client.js:360 | The status button is a warning exactly for statuses of 400 and above, and navy otherwise. |
| Requests.LinkLabel | haapi-web-example/demo-client.js:434-441 | A link button shows its title, or `link:` and its relation. |
| Resume.InjectNonce | haapi-web-example/demo-client.js:198-216 | The nested loops write the nonce into every context field named `_resume_nonce` of every form with a fields array, giving `NonceInjected`. `found` holds exactly when some such field exists. |
| Resume.NonceInjected | haapi-web-example/demo-client.js:202-211 | Injection keeps the number of actions and each action's template, kind and title. A form's fields array keeps its length, and every nonce field in it carries the nonce. |
| Resume.InjectionFrame | haapi-web-example/demo-client.js:202-211 | Writing the nonce changes only the value of nonce fields. Every other action, field, template, kind, title and model member stays as it was. |
| Resume.NoNonceFieldNoChange | haapi-web-example/demo-client.js:202-216 | Without a nonce field the continuation actions are left untouched. The resume still continues with them. |
| Resume.LastNonceWins | haapi-web-example/demo-client.js:202-211 | Writing a second nonce gives the same result as writing only the second one. |
| Resume.NonceReachesServer | haapi-web-example/demo-client.js:202-211 | After injection, submitting a continuation form that has a nonce field sends the pair `_resume_nonce=nonce` (lines 343-347). |
| FieldErrors.FindField | haapi-web-example/demo-client.js:574 | The handler finds the first field with the given name, or none when no field has it. |
| FieldErrors.AnnotatedMarks | haapi-web-example/demo-client.js:572-580 | After the handler runs, a field shows an error exactly when it is the first field of its name and some invalid entry names it. The text is the detail of the last such entry. |
| FieldErrors.FormView.constructor | haapi-web-example/demo-client.js:505-567 | A rendered form starts with no error on any field. |
| FieldErrors.FormView.OnInvalidInput | haapi-web-example/demo-client.js:572-580 | The handler clears every error, then marks the named fields. It throws (`ok` false), with all errors cleared, when the problem has no `invalidFields` array. |
| Flow.ExternalLaunchUrl | haapi-web-example/demo-client.js:195 | The launch URL is the arguments href, then `&for_origin=`, then the origin. |
| Flow.OpenOrReuse | haapi-web-example/demo-client.js:221-235 | While the tracked window is open, the launcher navigates it and logs that; the browser and the tracked window stay. Otherwise it opens a fresh window, tracks it, adds it to the open set and logs the opening. With pop-ups blocked it tracks null, leaves the browser as it was and logs an alert. The tracked window is always open, identities stay unique, and the resume slot is untouched. |
| Flow.ApplyEffect | haapi-web-example/demo-client.js:193-249 | Arming stores the action and its auto-follow flag in the resume slot. Without auto-follow nothing else changes. With it exactly one entry is logged: an alert, or the navigation or opening of the now-tracked window at the launch URL. A scheduled redirect submission only logs. The origin and the pop-up policy are kept. |
| Flow.LastArmWins | haapi-web-example/demo-client.js:49 | Arming always overwrites: after rendering, the slot holds the last armed action, or its old content when nothing was armed. |
| Flow.RenderEffectsSafe | haapi-web-example/demo-client.js:144-249 | Rendering keeps window identities unique and closes no window. It only appends to the log and sends no request. |
| Flow.WindowsNeedAutoFollow | haapi-web-example/demo-client.js:237-239 | Without an auto-followed arming, rendering keeps the browser and the tracked window. It only appends to the log, and every new entry is a scheduled submission of one of its redirect effects, so no window is opened or navigated and no alert is shown. |
| Flow.EffectsSnoc | haapi-web-example/demo-client.js:157-179 | Realising one more action applies its effects after those of the earlier actions. |
| Flow.Disarmed | haapi-web-example/demo-client.js:42-46 | After a resume the slot is empty and the tracked window is null. A close is scheduled for the window tracked just before. |
| Flow.SourceMatching | haapi-web-example/demo-client.js:34-41 | Before any launch no message is accepted. After a blocked pop-up only a message without a source is accepted. Otherwise only the tracked window's messages are. Non-string data is never accepted. |
| Flow.WindowClosed | haapi-web-example/demo-client.js:46 | A closed window is no longer open, and window identities stay unique. |
| Screen.ShowGeneratedPage | haapi-web-example/demo-client.js:351-370 | The page shows the given status and the listed components. Given a single element instead of a list, it shows none and throws. |
| Screen.NoActionsPage | haapi-web-example/demo-client.js:260 | The intended no-actions page: the message alone, with status -1. |
| Screen.NoActionsMessageLost | haapi-web-example/demo-client.js:260 | As written, the no-actions branch throws and leaves an empty page with status -1. The corrected page shows the message. |
| Driver.Render | haapi-web-example/demo-client.js:351-370 | Showing a generated page shows it with the given status and changes neither the current page data, the history nor the views in use. |
| Driver.Continued | haapi-web-example/demo-client.js:251-262 | A continuation that throws changes nothing. With nested actions and current page data it completes, and the new current page data has the nested actions and is pushed onto the history. Otherwise the history is unchanged. The log is only appended to, and the views in use are kept. |
| Driver.ContinuedAsWritten | haapi-web-example/demo-client.js:251-262 | As written, the continuation agrees with the corrected one whenever there are nested actions. Without them it leaves an empty page with status -1 and changes nothing else. |
| Driver.Resumed | haapi-web-example/demo-client.js:198-219 | An action without `continueActions` throws and changes nothing. Otherwise the resume continues with the nonce-injected continuation actions and its own auto-follow flag. |
| Driver.Delivered | haapi-web-example/demo-client.js:30-49 | A message that is not accepted changes nothing, nor does one whose resume throws. The views in use are kept. |
| Driver.Responded | haapi-web-example/demo-client.js:296-327 | A fetch failure shows "Invalid response content" and a no-body status shows "Nothing to display" with that status; neither changes anything else. |
| Driver.Refreshed | haapi-web-example/demo-client.js:405-410 | A refresh keeps the current page data and the history. Without page data it changes nothing; with it, the page is shown with the saved status. |
| Driver.Restored | haapi-web-example/demo-client.js:412-421 | A popped state becomes the current page data. No state leaves the page data and the display as they were. The history is unchanged. |
| Driver.LaunchClicked | haapi-web-example/demo-client.js:641-659 | A disabled launch button changes nothing. An enabled one updates the window state exactly as `OpenOrReuse` at the launch URL, so it logs exactly one entry: the navigation or opening of the tracked window at that URL, or the pop-up alert. Neither changes the display, the page data, the history or the resume slot. |
| Driver.LaunchUrlClicked | haapi-web-example/demo-client.js:611-624 | The URL is opened in place first: the old log is kept and the next entry is that opening. With nested actions and current page data, the continuation follows: the new current page data has the nested actions and is pushed onto the history. Without nested actions the no-actions page follows and nothing else is logged. |
| Driver.LinkClicked | haapi-web-example/demo-client.js:434-441 | A `launch` link only logs opening its href in a new tab. The views in use are kept. |
| Driver.RenderSafe | haapi-web-example/demo-client.js:94-249 | Rendering keeps the session invariant, changes neither the current page data nor the history, and sends no request during the render. A lone redirect under follow-redirects is scheduled for submission; that request is sent when the timer fires. |
| Driver.QuietRenderKeepsWindows | haapi-web-example/demo-client.js:405-410 | A page rendered without auto-follow, as a refresh does, keeps the browser and the tracked window, so it opens and navigates no window. It only logs scheduled redirect submissions, and only while the session follows redirects. |
| Driver.ShortcutRenderSchedules | haapi-web-example/demo-client.js:150-153 | Rendering a page whose lone action is a redirect, while the session follows redirects, schedules exactly that submission and changes nothing else in the flow state, whatever the auto-follow argument. |
| Driver.ContinuedCopiesModel | haapi-web-example/demo-client.js:251-262 | With nested actions and current page data, the continuation renders and saves a copy of the current model in which only `actions` changes. The current text and status are kept. Without nested actions it shows the no-actions page and changes nothing else. Without current page data it throws and changes nothing. |
| Driver.NoActionsFinding | haapi-web-example/demo-client.js:260 | As written, a continuation without nested actions throws with an empty page. As corrected, it completes and shows the message. |
| Driver.DeliveryIgnored | haapi-web-example/demo-client.js:34-41 | A message from another source, with non-string data, or with nothing armed changes nothing, and an armed slot stays armed. |
| Driver.DeliveryResumes | haapi-web-example/demo-client.js:30-49 | An accepted message continues over a copy of the current page data whose actions are the nonce-injected continuation actions. The slot is then emptied, even of an action the continuation armed. The window tracked once the continuation has run is forgotten, and it is the window scheduled to close. A flow action without `continueActions` throws, and nothing changes. |
| Driver.QuietResumeClosesTracked | haapi-web-example/demo-client.js:42-46 | When the resumed flow was armed without auto-follow, the window scheduled to close is the one tracked when the message arrived. |
| Driver.ResponseSaving | haapi-web-example/demo-client.js:301-322 | Only a step response saves, exactly the snapshot received, and it is rendered with auto-follow. A continue-same-step response saves at most a copy of the current page data with other actions. No-body, problem and failure responses keep the current page data, the history and the flow. |
| Driver.ProblemRouting | haapi-web-example/demo-client.js:311-315 | An invalid-input problem with a handler leaves the page as it was when it lists its invalid fields. Without that list it shows "Invalid response content" (status 0). Any other problem shows its title and messages with the response status. |
| Driver.RespondedSendsNothing | haapi-web-example/demo-client.js:296-327 | Reacting to a response sends no further request during the reaction. A rendered lone redirect under follow-redirects is scheduled for submission, not sent. |
| Driver.SubmissionSendsForm | haapi-web-example/demo-client.js:341-349 | A form submission sends exactly one request: the form's href and method, with its serialised fields. |
| Driver.RestoreMakesNoRequest | haapi-web-example/demo-client.js:412-421 | A popped state becomes the current page data and is shown without auto-follow. No request is sent during the restore, the history is unchanged and no window opens. The log only grows by scheduled redirect submissions. A page whose lone action is a redirect, under follow-redirects, has that redirect scheduled again; with follow-redirects off nothing is logged. No state only reloads. |
| Driver.ContinuedValid | haapi-web-example/demo-client.js:251-262 | The continuation keeps the session invariant: the current page data and every saved snapshot are settled. |
| Driver.DeliveredValid | haapi-web-example/demo-client.js:30-49 | The message listener keeps the session invariant. |
| Driver.RespondedValid | haapi-web-example/demo-client.js:296-327 | Every response keeps the session invariant, so a continue-same-step or no-body response is never saved. |
| Driver.RestoredValid | haapi-web-example/demo-client.js:412-421 | Restoring a settled state, which every state the client pushes is, keeps the session invariant. |
| Driver.RefreshedValid | haapi-web-example/demo-client.js:405-410 | A refresh keeps the invariant, the current page data and the history. |
| Driver.ClicksValid | haapi-web-example/demo-client.js:241-246 | Launch buttons, bankid launches, link buttons and form submissions keep the session invariant. |
| Session.Session.constructor | haapi-web-example/demo-client.js:56-65 | A new session does not follow redirects and uses the enhanced views (line 751). Nothing is armed or tracked, and there is no page data. |
| Session.Session.SetFollowRedirects | haapi-web-example/demo-client.js:82-84 | Only the follow-redirects flag changes. |
| Session.Session.EnableEnhancedMode | haapi-web-example/demo-client.js:73-76 | Switches the views, then refreshes the current page. |
| Session.Session.LaunchExternalWindow | haapi-web-example/demo-client.js:221-235 | Updates the window state exactly as `OpenOrReuse`. |
| Session.Session.LaunchExternalBrowserFlow | haapi-web-example/demo-client.js:193-249 | Arms the resume slot with the action, opens the window when auto-following, and returns a launch button that is disabled in that case. |
| Session.Session.ClickLaunchButton | haapi-web-example/demo-client.js:641-659 | A disabled button ignores the click. An enabled one opens or reuses the window. |
| Session.Session.RunResume | haapi-web-example/demo-client.js:198-219 | Injects the nonce, then continues, reaching exactly `Resumed`. |
| Session.Session.OnMessage | haapi-web-example/demo-client.js:30-49 | Reaches exactly `Delivered` and keeps the invariant. |
| Session.Session.CloseWindow | haapi-web-example/demo-client.js:46 | The closed window leaves the browser's open set. |
| Session.Session.SetPopupsBlocked | haapi-web-example/demo-client.js:228-232 | Only the browser's pop-up policy changes. |
| Session.Session.Realize | haapi-web-example/demo-client.js:157-179 | Returns `RealizeAction`'s intent, with exactly that action's effects. |
| Session.Session.GenerateActions | haapi-web-example/demo-client.js:144-191 | Returns `ActionIntents` and applies `ActionEffects` in order. |
| Session.Session.RealizeAll | haapi-web-example/demo-client.js:157-179 | The map: each action's element and fold flag, with their effects in order. |
| Session.Session.WrapAll | haapi-web-example/demo-client.js:180-188 | The `forEach`: element k is wrapped under `title \|\| kind` exactly when folding is on and action k may fold. |
| Session.Session.GeneratePage | haapi-web-example/demo-client.js:94-116 | Returns `PageIntents` and applies `PageEffects`. |
| Session.Session.ShowGeneratedPage | haapi-web-example/demo-client.js:351-370 | Only the display changes. |
| Session.Session.SavePage | haapi-web-example/demo-client.js:396-403 | The snapshot becomes the current page data and is pushed. |
| Session.Session.RefreshCurrentPage | haapi-web-example/demo-client.js:405-410 | Re-renders the current page data without auto-follow, and does nothing without it. |
| Session.Session.TryRestorePageFromHistory | haapi-web-example/demo-client.js:412-421 | Reaches exactly `Restored`. |
| Session.Session.ContinueToNestedActions | haapi-web-example/demo-client.js:251-262 | Reaches exactly the corrected `Continued`. |
| Session.Session.ClickLaunchUrl | haapi-web-example/demo-client.js:611-624 | Opens the URL in place, then continues with the nested actions. |
| Session.Session.ProblemComponents | haapi-web-example/demo-client.js:378-387 | The loop builds exactly the problem page: the title, then one error per message, in order. |
| Session.Session.ShowProblem | haapi-web-example/demo-client.js:372-389 | An invalid-input problem with a handler only runs the handler. Otherwise the problem page is shown and the handler is untouched. |
| Session.Session.ApiRequest | haapi-web-example/demo-client.js:274-332 | Sends `RequestFor` and reacts as `Responded`. A routed problem leaves the handler's errors as `OnInvalidInput` sets them; otherwise the handler is untouched. The invariant is kept. |
| Session.Session.HandleResponse | haapi-web-example/demo-client.js:296-327 | Reacts to the fetch result exactly as `Responded`. |
| Session.Session.HandleStep | haapi-web-example/demo-client.js:317-322 | Continue-same-step continues with auto-follow. It shows "Invalid response content" when that throws. Any other step is rendered with auto-follow and saved. |
| Session.Session.SubmitForm | haapi-web-example/demo-client.js:341-349 | Serialises the fields and sends the form's request with the action and handler as its source. The handler is the one rendered for this action's fields, so a routed invalid-input problem marks those fields. |
| Session.Session.GoTo | haapi-web-example/demo-client.js:86-92 | `authorizeUser` and `goTo`: a request with no method, no data and no source. |
| Session.Session.ClickLink | haapi-web-example/demo-client.js:434-441 | A `launch` link opens in a new tab. Any other link is requested. |

## Left out

- DOM construction, CSS classes and `innerHTML` are left out, along with the bodies of the view widgets. That covers images and their alt text, input types, labels, placeholders, read-only flags, select options, element ids, and the colour of authenticator-selector options. Intents stand for the elements.
- The spinner and form visibility toggles in `apiRequest`, the JSON code panel (`showJSON`, highlighting) and all console logging and warnings are left out: they decide nothing.
- `JSON.parse`, `JSON.stringify` and `response.text()` are left out. Responses arrive parsed. Text that does not parse is `Unparsable`, and `deepCopy` is a value copy.
- Requests.Encode: `URLSearchParams` percent-encoding is not modelled. Entries are joined as `name=value` with `&`.
- Flow.ExternalLaunchUrl: the origin is taken as already passed through `encodeURIComponent`.
- Asynchronous interleaving is left out. Each request completes before the next event; a stale response overwriting a newer page is not modelled.
- `setTimeout` is left out. A scheduled redirect submission and a scheduled window close are logged. When they fire is up to the caller (`SubmitForm` without a handler, `CloseWindow`).
- The token callback for `oauth-authorization-response` is an external collaborator. Its result is the opaque intent `CallbackResult(step)`.
- Malformed documents that make the client throw a TypeError are left out: a missing `model`, `arguments`, link `href`, message `classList`, polling-step `properties`, or a non-array `messages`. Absent members are treated as empty, as every guarded read in the client does. Only the throws the driver's own control flow depends on are modelled: absent `continueActions`, absent `invalidFields`, and no current page data.
- In-place mutation of shared JSON objects is left out. The resume writes the nonce into the action objects of the page on show; the model writes into a copy, which the continuation then uses. The source leaves the old page's objects changed as well, which matters only when that old page is shown again. User input editing field values is likewise not modelled: the action handed to `SubmitForm` carries whatever values were typed. The default title the redirect view writes into the action is applied only to the rendered intent, not to the saved snapshot.
- A named window (`external-browser-window`) is never reused by name. `window.open` always opens a new window unless pop-ups are blocked.
- The `actionsKey` parameter of `continueToNestedActions` is never passed by the client; only the default key is modelled.
- `showGeneratedPage` skipping falsy components only matters for a callback that returns nothing, and is left out.
- Whether `apiFetch` accepts a body on a request with no method is the collaborator's business. Every fetch failure is `NetworkError`.
- Tags are taken as the `Parse` functions produce them. A hand-built `OtherType`, `OtherKind`, `OtherTemplate` or `OtherOperation` that carries the text of a recognised tag is not a document the client can receive, and the model's results for it do not follow the client.
- Interpreter.MessageColor: a first class naming an inherited object property (such as `toString`) is treated as an ordinary class name.
- Session.Session.TryRestorePageFromHistory: the popped state must be a settled snapshot. Every state the client pushes, from this or an earlier page load, is one; a state some other script pushed onto the same history is not modelled.
- The absent-string convention does not cover the raw reads at `demo-client.js:175` (`model.name`), 178 (`template`), 183 (`kind` under an absent title), 345 (`field.name`) and 438 (`link.rel`). There an absent member shows or is sent as the text `undefined`; the model uses the empty string.

## Findings

| source | as written | input that shows it | evidently intended | confidence | as-written member | corrected member |
|---|---|---|---|---|---|---|
| haapi-web-example/demo-client.js:260 | The no-actions branch hands `showGeneratedPage` a single error-message element where it expects a list, so `components.forEach` throws after the page has been cleared. From the message listener, the slot stays armed and the window tracked. From a continue-same-step response, the page ends as "Invalid response content" with status 0. | An external-browser-flow action whose `continueActions` is `[]`, resumed by a nonce; or a continue-same-step answer to a link request | The message shown alone, with status -1, and the continuation completes | not executed | Screen.NoActionsAsWritten, Driver.ContinuedAsWritten, Driver.NoActionsFinding | Screen.NoActionsPage, Driver.Continued, Session.Session.ContinueToNestedActions |
