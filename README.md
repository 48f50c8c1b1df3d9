# Biography wizard and ICP generation: a Dafny model

This project models the logic inside a small web application. Users answer a 13-question
biography questionnaire. The app turns the answers into a text document, sends the document to
a server endpoint that asks a hosted language model for an "Ideal Customer Profile" (ICP), saves
the result in the user's profile and appends it to a history table. A middleware function keeps
signed-out users out of the dashboard and keeps signed-in users out of the login and register
pages.

The model has one Dafny module per core component, plus two small helper modules. The
questionnaire component is split in two: `Biography` holds its data and the `biographies` row
it writes, and `Wizard` holds its state machine.

- `Options` (`options.dfy`): `Option`, standing for TypeScript's `T | null`.
- `StringOps` (`string_ops.dfy`): the JavaScript built-ins the code relies on, stated and proved.
  These are `startsWith`, `filter(Boolean)` over strings and nulls, `join` and `trim`. It also
  has `split`, which the program never calls: the model uses it as the inverse of `join` to read
  the document's lines back.
  The proofs cover which entries `filter(Boolean)` keeps, the split-after-join round trip, and
  `trim` as the slice left once whitespace is cut from both ends.
- `Biography` (`biography.dfy`): the questionnaire's field table and the per-field rules. It also
  holds the answer record, the document formatter and the `biographies` row built from the
  answers.
- `Wizard` (`wizard.dfy`): the wizard component as a class. Its fields are `step`, `started`,
  `isEditing`, `completed` and `savedAnswers`, and its handlers are submit, back ("Voltar"), redo
  ("Refazer") and start ("Começar agora"). The class invariant says that every question before
  `step` has a saved answer and that every saved answer passed its field's rule.
- `Dashboard` (`dashboard.dfy`): the dashboard page.
  - The row formatter, proved equal to the wizard's formatter.
  - The client's reading of the endpoint's reply.
  - The page state `icp`, `biography` and `generatingIcp`.
  - The page-load sequence.
  - The `generateIcp` sequence over a profile store and the history table. It returns the ordered
    list of remote calls it made.
- `IcpHistory` (`icp_history.dfy`): `saveIcpToHistory` as a method that appends to an `icp_history`
  log, specified by a pure result function.
- `GenerateIcp` (`generate_icp.dfy`): the endpoint's `POST` handler as a pure function. The
  function maps the key configuration, the request body and the upstream outcome to the chat
  request it would make (if any) and to the response.
- `Middleware` (`middleware.dfy`): the redirect decision and the route matcher.

Remote services are not executed. Each of their outcomes is a parameter of the operation that
uses it:
- the session lookup;
- the biography fetch and the profile update;
- the history insert, with the id and timestamp the database assigns;
- the endpoint's reply and the upstream completion.

The system prompt is a plain parameter. The clock value written into `updated_at` is a
parameter too.

## Model

| member | source | states |
|---|---|---|
| `Biography.QuestionIndex` | components/biography-form.tsx:65-132 | every field appears exactly once in the question table, at the returned position |
| `Biography.Validate` | components/biography-form.tsx:22-58 | the minimum answer length is 2 for name/role, company and niche, 1 for experience and 10 for the other six required fields; recognition and avoid-clients accept any answer; additional info accepts at most 500 characters; a required field rejects the empty answer and an optional one accepts it |
| `Biography.FormatBiography` | components/biography-form.tsx:189-203 | the document: the truthy entries of the labelled-line array joined by newlines; `Biography.FormattedLines`, `Biography.BiographyNonEmpty` and `Biography.SplitRecoversLines` state what it contains |
| `Biography.FormattedLines` | components/biography-form.tsx:189-203 | the document's lines are the shown fields' labelled lines in question order: ten required lines plus one per non-empty optional answer |
| `Biography.EntriesFollowQuestionOrder` | components/biography-form.tsx:189-203 | the document's array literal lists the fields in the question table's order |
| `Biography.BiographyNonEmpty` | components/biography-form.tsx:189-203 | the formatted document is never empty |
| `Biography.SplitRecoversLines` | components/biography-form.tsx:203 | if no answer contains a newline, splitting the document on newlines gives back exactly its lines |
| `Biography.FromSaved` | components/biography-form.tsx:174-177 | the answer record built from a complete map of saved answers holds each field's saved value |
| `Biography.NullIfEmpty` | components/biography-form.tsx:252-257 | `s \|\| null` is null exactly for the empty string and otherwise keeps the string |
| `Biography.ToRow` | components/biography-form.tsx:243-258 | the upserted row keeps the user id and timestamp and maps empty optional answers to null; reading it back gives the same answers |
| `StringOps.KeepTruthy` | components/biography-form.tsx:203 | `filter(Boolean)` keeps only non-empty strings and never lengthens the array |
| `StringOps.KeepTruthyMembers` | components/biography-form.tsx:203 | a string is in the filtered array exactly when it is a non-null, non-empty entry of the input |
| `StringOps.StartsWith` | middleware.ts:14-23 | `startsWith` as a literal prefix test; its use is characterised by `Middleware.LiteralPrefixMatching` and `Middleware.MatchedPathsAreClassified` |
| `StringOps.Join` | components/biography-form.tsx:203 | `join('\n')`: its inverse is `StringOps.Split`, and `StringOps.SplitJoin` proves the round trip |
| `StringOps.Split` | components/biography-form.tsx:203 | the inverse of the `join('\n')` on this line, which the program never calls itself: JavaScript's one-character `split`, always at least one piece; `StringOps.SplitJoin` proves it undoes `StringOps.Join` on separator-free pieces |
| `StringOps.KeepTruthyConcat` | app/dashboard/page.tsx:123 | filtering distributes over concatenation |
| `StringOps.SplitJoin` | components/biography-form.tsx:203 | splitting a `join` of separator-free pieces on the separator returns the pieces |
| `StringOps.Trim` | app/api/generate-icp/route.ts:51 | `trim` returns the slice of its input left after cutting a whitespace prefix and a whitespace suffix; the result is empty exactly for all-whitespace input and otherwise neither starts nor ends with whitespace |
| `Wizard.BiographyForm.Valid` | components/biography-form.tsx:135-186 | the wizard's invariant: step is a question index, every earlier question has a saved answer, and every saved answer passed its field's rule; every handler keeps it |
| `Wizard.BiographyForm.constructor` | components/biography-form.tsx:135-139 | the wizard starts at step 0, not started and not editing, completed exactly when a biography already exists, with no answers |
| `Wizard.BiographyForm.CurrentField` | components/biography-form.tsx:144 | the current field is the question at position `step` |
| `Wizard.BiographyForm.CurrentView` | components/biography-form.tsx:276-346 | the collapsed "Refazer" view is shown exactly when (completed or a biography exists) and not editing; otherwise the intro is shown exactly when not started and the current question exactly when started; "Voltar" is offered exactly when step > 0 |
| `Wizard.BiographyForm.Start` | components/biography-form.tsx:296-307 | "Começar agora" sets `started` and changes nothing else, so outside the collapsed view the current question is shown next |
| `Wizard.BiographyForm.Submit` | components/biography-form.tsx:170-216 | a rejected answer changes nothing; an accepted one on a non-last question is stored under the current field only and advances the step; on the last question all 13 answers are present, every one meets its rule, and the emitted document is their formatting; the wizard then resets to step 0 with no answers, completed, not editing, not started and collapsed; the invariant is kept |
| `Wizard.BiographyForm.Finish` | components/biography-form.tsx:205-214 | the final reset: the document is the formatting of the answers, step 0, answers cleared, completed, not editing, not started; the invariant holds afterwards |
| `Wizard.BiographyForm.Back` | components/biography-form.tsx:335-343 | allowed only when step > 0; decrements the step and keeps the saved answers and the invariant |
| `Wizard.BiographyForm.Redo` | components/biography-form.tsx:282-288 | sets editing and started, returns to step 0, clears the answers and shows the first question without "Voltar" |
| `Wizard.StoreKeepsInvariant` | components/biography-form.tsx:170-182 | saving an accepted answer to the current question extends the answered prefix by one and keeps every saved answer valid |
| `Wizard.AnsweredThroughLast` | components/biography-form.tsx:174-203 | once every question before the last is answered, answering the last gives all thirteen fields |
| `Wizard.SavedAnswersValid` | components/biography-form.tsx:189-206 | the answers handed to the formatter and to the row mapping all meet their rules |
| `Dashboard.FormatRow` | app/dashboard/page.tsx:109-123 | the document rebuilt from a stored row; `Dashboard.FormatRowMatchesWizard` proves it equal to the wizard's document |
| `Dashboard.RowEntriesMatchAnswerEntries` | app/dashboard/page.tsx:64-78 | the row formatter's array literal is the wizard's array literal for the row's answers, with null and empty columns both giving null |
| `Dashboard.FormatRowMatchesWizard` | app/dashboard/page.tsx:109-123 | the stored-row document equals the wizard's document for the row's answers: the same labels in the same order, null or empty optional columns omitted |
| `Dashboard.SavedRowRoundTrip` | app/dashboard/page.tsx:109-123 | formatting the row saved from some answers gives the wizard's document for those answers |
| `Dashboard.FormatRowNonEmpty` | app/dashboard/page.tsx:64-78 | a stored row always renders to a non-empty document |
| `Dashboard.ReplyIcp` | app/dashboard/page.tsx:136-145 | the client accepts a reply exactly when its status is 2xx and its body has `success: true`, and then takes its `icp` |
| `Dashboard.DashboardPage.constructor` | app/dashboard/page.tsx:21-26 | the page starts with empty `icp` and `biography`, not generating and no user id |
| `Dashboard.DashboardPage.CanGenerate` | app/dashboard/page.tsx:229 | "Gerar" is enabled exactly when not generating and a biography is shown; the handlers below and the two lemmas after them say when the page reaches that state |
| `Dashboard.StoredRowEnablesGenerate` | app/dashboard/page.tsx:64-78 | a page showing a stored row's document, while not generating, has "Gerar" enabled |
| `Dashboard.WizardDocumentEnablesGenerate` | app/dashboard/page.tsx:203 | a page showing the wizard's emitted document, while not generating, has "Gerar" enabled |
| `Dashboard.DashboardPage.OnBiographyComplete` | app/dashboard/page.tsx:203 | the wizard's document becomes the shown biography and nothing else changes; "Gerar" is then enabled exactly when the document is non-empty and no generation runs |
| `Dashboard.DashboardPage.LoadUserData` | app/dashboard/page.tsx:31-86 | with no user nothing changes; a profile error leaves `icp` and `biography` unset; otherwise `icp` is the profile's `icp` or ""; a biography error other than PGRST116 leaves the biography unchanged; an existing row sets it to the row's document, which enables "Gerar" unless a generation runs |
| `Dashboard.DashboardPage.GenerateIcp` | app/dashboard/page.tsx:91-175 | the calls are made in the order fetch, request, profile update, history append. A fetch error or a missing row makes no further call. A rejected reply or a failed profile update changes neither the profile, the history nor `icp`. On success the profile and `icp` hold the new ICP whatever the history append does, and a failed append only raises the warning. `generatingIcp` is false on every path, so "Gerar" is enabled again exactly when a biography is shown |
| `Dashboard.StoredBiographyNeverRejected` | app/dashboard/page.tsx:126-134 | the document the page posts is never empty, so with a configured key the endpoint calls upstream and never answers 400 |
| `Dashboard.BlankIcpAcceptedAsWritten` | app/dashboard/page.tsx:141-150 | as written, with a key and a non-empty biography, every non-empty all-whitespace completion reaches the page as an accepted, empty ICP |
| `Dashboard.IntendedAcceptedIcpNonEmpty` | app/dashboard/page.tsx:141-150 | with the intended endpoint, an ICP the page accepts is never empty |
| `IcpHistory.SaveResult` | lib/icp-history.ts:3-39 | success exactly when there is no session error, a session exists and the insert succeeds; the saved entry has the session's user id and the given content; a session error wins over a missing session; each failure carries its error |
| `IcpHistory.SessionFailureSkipsInsert` | lib/icp-history.ts:7-15 | without a usable session the insert's outcome cannot affect the result, which is a failure |
| `IcpHistory.HistoryTable.SaveIcpToHistory` | lib/icp-history.ts:3-39 | the result is `SaveResult`; a success appends exactly its entry at the end of the log; every failure leaves the log unchanged; no failure escapes as an exception |
| `GenerateIcp.UserMessage` | app/api/generate-icp/route.ts:35 | the user message is the fixed prefix followed by the unmodified biography |
| `GenerateIcp.MessageOr` | app/api/generate-icp/route.ts:58 | `e?.message \|\| fallback` is the message when it is non-empty and the fallback otherwise, so it is never empty when the fallback is not |
| `GenerateIcp.ChatFor` | app/api/generate-icp/route.ts:26-40 | the request uses the fixed model and 2500 tokens, sends the system prompt first, then a user message that starts with the fixed prefix and gives back the rendered biography unchanged |
| `GenerateIcp.ErrorsCarryMessage` | app/api/generate-icp/route.ts:8-71 | every `error` the handler writes, as written or intended, is non-empty: the fixed messages and both fallbacks are non-empty |
| `GenerateIcp.Front` | app/api/generate-icp/route.ts:8-23 | a missing key gives 500 before the body is read; an unparsable body gives 500 with `success: false`; a falsy biography gives 400; the upstream is called exactly when the key is set and the biography is truthy, with the fixed model, the system prompt, the user message and 2500 tokens |
| `GenerateIcp.CompletionAsWritten` | app/api/generate-icp/route.ts:42-61 | an upstream exception gives 500 with its message or "Erro ao gerar ICP"; null or empty content gives 500 with "OpenAI não retornou conteúdo"; other content gives 200 with the trimmed content |
| `GenerateIcp.Completion` | app/api/generate-icp/route.ts:42-61 | the intended classification: success exactly for content that is not all whitespace, always with a non-empty trimmed ICP |
| `GenerateIcp.Post` | app/api/generate-icp/route.ts:5-73 | the early-return checks decide whether the upstream is called; if it is, the response is the completion's classification as written |
| `GenerateIcp.PostIntended` | app/api/generate-icp/route.ts:5-73 | the same handler with the intended completion classification |
| `GenerateIcp.MissingKeyDecidesFirst` | app/api/generate-icp/route.ts:8-14 | with no key the response is the same 500 whatever the body and upstream, and no request is made |
| `GenerateIcp.FalsyBiographyRejected` | app/api/generate-icp/route.ts:16-23 | a falsy biography gives 400 with no upstream call |
| `GenerateIcp.StatusMatchesBody` | app/api/generate-icp/route.ts:44-61 | status 200 exactly for a success body; every status is 200, 400 or 500; a success came from an upstream call whose content was truthy and carries its trimmed content |
| `GenerateIcp.RequestCarriesBiography` | app/api/generate-icp/route.ts:26-40 | the request has the system prompt, then a user message from which the biography is recovered verbatim |
| `GenerateIcp.BlankContentAcceptedAsWritten` | app/api/generate-icp/route.ts:42-52 | as written, with a key and a non-empty biography, any non-empty all-whitespace content gives 200 with an empty ICP |
| `GenerateIcp.BlankContentExample` | app/api/generate-icp/route.ts:42-52 | the concrete input: content " " gives 200 with an empty ICP |
| `GenerateIcp.IntendedIcpNonEmpty` | app/api/generate-icp/route.ts:42-52 | with the intended check, every success carries a non-empty ICP |
| `GenerateIcp.IntendedAgreesOtherwise` | app/api/generate-icp/route.ts:42-52 | the intended handler agrees with the written one except on whitespace-only content |
| `Middleware.Decide` | middleware.ts:5-31 | no session and a path starting with "/dashboard" redirects to "/auth/login"; a session and a path starting with "/auth/login" or "/auth/register" redirects to "/dashboard"; everything else passes through |
| `Middleware.NoRedirectLoop` | middleware.ts:14-30 | a redirect's target, requested with the same session state, passes through |
| `Middleware.RedirectTargets` | middleware.ts:15-27 | a redirect keeps the query string and goes to "/dashboard" with a session and to "/auth/login" without one |
| `Middleware.RedirectsExclusive` | middleware.ts:14-24 | the two redirects need opposite session states |
| `Middleware.LiteralPrefixMatching` | middleware.ts:14-23 | matching is by literal prefix, so "/dashboardX" counts as protected and "/auth/loginX" as an auth page |
| `Middleware.Route` | middleware.ts:33-39 | the middleware runs only on paths the matcher accepts; other paths pass through |
| `Middleware.MatcherSkipsLookalikes` | middleware.ts:33-39 | the matcher keeps "/dashboardX" and "/auth/loginX" away from the middleware, while "/dashboard/history" without a session is redirected |
| `Middleware.MatchedPathsAreClassified` | middleware.ts:33-39 | every matched path is protected or is exactly the login or register path, and no matched path is both protected and an auth page |
| `Middleware.ProtectedAndAuthDisjoint` | middleware.ts:14-23 | no path at all is both protected and an auth page, so the two redirect tests never both apply |

## Left out

- Rendering, JSX, CSS and toasts are left out. A handler's outcome value says which message the
  user sees.
- Log output is left out, and so is the error message thrown and caught inside `generateIcp`,
  because it only reaches the console.
- Each handler is one atomic transition. Out of scope: `async`/`await` interleavings, React state
  batching, the `useEffect` form reset and the delayed field clearing.
- `Dashboard.DashboardPage.GenerateIcp` does not show `generatingIcp` being true while the call
  runs. Only its reset on every path is stated.
- `saveBiography` keeps only its row mapping (`Biography.ToRow`). Out of scope: the user lookup,
  the upsert, its error toast and the `loading` flag, which are hosted-service calls and UI state.
- The Supabase and OpenAI calls are outcomes passed in. The model does not cover sessions, row
  security, the model's temperature (a float) or the content of the system prompt.
- `generateIcp` filters its queries by `userId`. The model does not look at that filter, because
  the fetched row is a parameter.
- The database-assigned `id` and `created_at` of a biography row are left out, because the
  modelled code never reads them.
- A non-string JSON `biography` is kept only by its truthiness and its template rendering.
- Answer lengths count Unicode scalar values. JavaScript counts UTF-16 code units, so answers
  with characters outside the Basic Multilingual Plane are measured differently.
- `StringOps.Trim`: trims only ASCII whitespace (space, tab, line feed, carriage return, vertical
  tab, form feed). JavaScript's `trim` also removes the other Unicode spaces and line terminators.
- The Next.js matcher `'/dashboard/:path*'` is taken as "/dashboard" itself or any path that
  starts with "/dashboard/". The login and register patterns are taken as exact paths. Trailing
  slash, locale and base-path handling are left out.
- The history viewer, the profile page, the user-profile component, the sidebar, the auth stub
  and `lib/prompts.ts` are not part of this model.

## Findings

| source | as written | input that shows it | evidently intended | confidence | as-written member | corrected member |
|---|---|---|---|---|---|---|
| app/api/generate-icp/route.ts:42-52 | the content is tested for emptiness before `trim`, so whitespace-only content passes and the handler answers 200 with `icp: ""`, which the dashboard then writes to the profile and the history | upstream content `" "` | content that is empty after trimming is treated like missing content (500, "OpenAI não retornou conteúdo"), so a success always carries a non-empty ICP | medium; not executed | `GenerateIcp.BlankContentAcceptedAsWritten` | `GenerateIcp.IntendedIcpNonEmpty` |
