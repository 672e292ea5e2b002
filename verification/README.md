# Sorteador record dialogs and route guard, modelled in Dafny

Sorteador is a browser application that organises competitive-gaming sweepstakes. It
manages players, maps and draws. This project models the three parts of it that make
decisions:

- **The player edit dialog** (`PlayerForm`, `PlayerModal`). Opening it with an id sets
  the loading flag and fetches the player. When the fetch resolves, the form is reset to
  the loaded player, with the raw patent id looked up in the patents asset. Opening it
  without an id resets the form to empty values. Submitting validates the form against
  the `playerSchema` rule. A valid form is projected into the row sent to `upsert`:
  the owner comes from the seed and the patent is reduced to its id. When the mutation
  succeeds, the dialog shows one success toast, invalidates the players query once and
  closes. When it fails, the dialog shows one error toast and stays as it is.
- **The ranking dialog** (`RankingModal`). Opening it clears the rankings. With a map
  it fetches the map's ranking. Without one it warns, closes and then opens again. The
  import action is gated on the viewer owning the map.
- **The route guard** (`Router`). It uses the route table's metadata. Its `beforeEach`
  hook computes the document title and the sequence of `next` calls.

The controllers are classes whose methods are the dialog's events: open, fetch
resolved, fetch rejected, edit, submit, mutation succeeded, mutation failed, cancel and
import. Toasts, fetches, upsert payloads, cache invalidations, calls on the dialog
handle and child-dialog openings go to ghost logs. That lets the contracts say "exactly
once" and "never". Both classes keep an invariant, `Valid()`:

- **Both controllers:** a loading flag means a fetch is still unsettled, and the visibility
  flag is the result of the last open or close call.
- **Player controller only:** a submitting flag means a mutation is still in flight. Every
  invalidation follows a settled mutation. Every row that reached `upsert` satisfies the
  schema.

Each in-flight mutation keeps the seed that was current when it started. Its success toast
uses that seed, because `react-query` fixes a mutation's callbacks when the mutation is
started.

The code has no request token. A fetch result is applied whenever it arrives, even
after the dialog was reopened with another seed or closed: the contract of
`PlayerModal.Controller.LoadResolved` keeps the seed and the visibility as they are, and
`StaleLoadIsApplied`, `LoadAfterCancelIsApplied` and `StaleRankingsAreApplied` show it
for a reopen and for a close. A settling mutation likewise closes the dialog whatever it
shows by then: `PlayerModal.Controller.MutationSucceeded` ensures `!visible`
unconditionally, as `ReopenBeforeSuccess` shows. The form is not cleared on close. The player
dialog's cancel button is disabled while submitting, but nothing in the controller
refuses a close. A stale-response guard, clearing the form on close and refusing cancel
while submitting would each be natural. The code does none of them, and the model follows
the code.

## Model

| member | source | states |
|---|---|---|
| `PlayerForm.FirstPatentIndex` | src/components/Modal/PlayerModal.tsx:69 | the position of the first patent carrying the id: every earlier patent has another id, and the position is past the end only when no patent has it |
| `PlayerForm.FindPatent` | src/components/Modal/PlayerModal.tsx:69 | `patents.find` yields nothing exactly when the raw value is missing or no patent carries it; otherwise it yields the FIRST patent with that id |
| `PlayerForm.Errors` | src/components/Modal/PlayerModal.tsx:35-47 | the `playerSchema` error set is empty exactly when name and username are present with length at least 3, `active` is present and the patent is a present object with a non-empty id; the patent field errs exactly when the patent is missing or its id is empty |
| `PlayerForm.Populate` | src/components/Modal/PlayerModal.tsx:67-70 | the reset form copies the response's id, owner, name, username and active flag; it holds a patent exactly when the asset knows the raw id, and that patent is an asset entry carrying that id |
| `PlayerForm.ToPayload` | src/components/Modal/PlayerModal.tsx:89-98 | the row takes id, name, username and active from the form and `user_id` from the seed; it has a patent exactly when the form does, and then the patent's id only |
| `PlayerForm.ValidationMatchesRow` | src/components/Modal/PlayerModal.tsx:35-47 | `playerSchema` accepts a draft (name and username of length at least 3, `active` present, a patent with a non-empty id) if and only if the row it projects to is well formed |
| `PlayerForm.PayloadOwnerFromSeed` | src/components/Modal/PlayerModal.tsx:89-98 | the payload depends on the form only through id, name, username, patent id and active; its `user_id` is the seed's `userId`, never the form's |
| `PlayerForm.LoadThenSaveRoundTrip` | src/components/Modal/PlayerModal.tsx:66-70 | loading a player and saving it unchanged sends back its id, name, username and active flag; the patent id survives exactly when the patents asset knows it, and is dropped otherwise |
| `PlayerForm.SuccessMessage` | src/components/Modal/PlayerModal.tsx:102 | 'Atualizado com sucesso!' when the seed has an id, 'Cadastrada com sucesso!' otherwise |
| `PlayerForm.FooterFor` | src/components/Modal/PlayerModal.tsx:160-166 | the Save button shows exactly when the seed has an id (Add otherwise); the submit button is busy and cancel is disabled exactly while submitting |
| `PlayerModal.Controller.constructor` | src/components/Modal/PlayerModal.tsx:32-33 | first render: closed, not loading, seed `{}`, empty form, empty logs |
| `PlayerModal.Controller.Open` | src/components/Modal/PlayerModal.tsx:60-83 | stores the seed. With an id: sets loading, dispatches one fetch by `(id, userId)`, leaves the form, errors and submitting flag unchanged. Without one: form reset to empty, which clears errors and the submitting flag; loading untouched, no fetch. The last dialog call is an open. No toast, upsert or invalidation |
| `PlayerModal.Controller.LoadResolved` | src/components/Modal/PlayerModal.tsx:66-78 | the form becomes the loaded player with the patent looked up; the reset clears errors and the submitting flag; loading ends; visibility and seed untouched, so a result is applied whatever was opened since |
| `PlayerModal.Controller.LoadRejected` | src/components/Modal/PlayerModal.tsx:72-78 | exactly one error toast with subject 'Jogador', the dialog closes, loading ends, the form is not reset |
| `PlayerModal.Controller.Edit` | src/components/Modal/PlayerModal.tsx:149-157 | the field bindings replace the form values and nothing else |
| `PlayerModal.Controller.Submit` | src/components/Modal/PlayerModal.tsx:112-114 | errors become the schema's error set; a draft with errors sends no upsert and starts no mutation; a valid one appends exactly its payload, built with the current seed, to the upserts, starts one mutation that captures that seed, and sets submitting |
| `PlayerModal.Controller.MutationSucceeded` | src/components/Modal/PlayerModal.tsx:101-105 | for the settling mutation: exactly one success toast, whose message depends on the seed that mutation captured at submit; exactly one invalidation of the players query; the dialog closes; the mutation leaves the in-flight list; the form values are kept |
| `PlayerModal.Controller.MutationFailed` | src/components/Modal/PlayerModal.tsx:106-108 | for the settling mutation: exactly one error toast; the mutation leaves the in-flight list; visibility and form values unchanged; submitting ends |
| `PlayerModal.Controller.Cancel` | src/components/Modal/PlayerModal.tsx:161 | closes the dialog whatever the submission state; the form is not cleared |
| `PlayerModal.Controller.CurrentFooter` | src/components/Modal/PlayerModal.tsx:160-166 | cancel is enabled exactly when not submitting; Save exactly when the stored seed has an id |
| `PlayerModal.StaleLoadIsApplied` | src/components/Modal/PlayerModal.tsx:60-78 | after two openings with ids, the first fetch's player fills the form while the second seed is shown |
| `PlayerModal.CreateFlow` | src/components/Modal/PlayerModal.tsx:79-105 | open without a seed, valid draft, submit, success: exactly one upsert, equal to the draft's payload and well formed; exactly one invalidation; exactly one toast, 'Cadastrada com sucesso!'; dialog closed, submitting off |
| `PlayerModal.ReopenBeforeSuccess` | src/components/Modal/PlayerModal.tsx:87-105 | open with an id, submit, reopen without a seed, success: the toast still reads 'Atualizado com sucesso!', the single row carries the first seed's owner, and the reopened dialog ends closed |
| `PlayerModal.LoadAfterCancelIsApplied` | src/components/Modal/PlayerModal.tsx:60-78 | open with an id, cancel, then the fetch resolves: the hidden form is filled with the loaded player and the dialog stays closed |
| `PlayerModal.InvalidDraftNeverSent` | src/components/Modal/PlayerModal.tsx:125 | a draft failing the schema leaves its errors shown and submitting off; no upsert is issued and no toast is emitted |
| `PlayerModal.ReopenDuringSubmit` | src/components/Modal/PlayerModal.tsx:79-82 | reopening for creation while a mutation is in flight resets the form: the footer shows an idle Add button and an enabled cancel, while the mutation with the edit seed is still in flight |
| `PlayerModal.RetryAfterFailure` | src/components/Modal/PlayerModal.tsx:106-114 | after a failed mutation: exactly one error toast, the dialog stays open with the submitted values, and resubmitting sends a second upsert identical to the first |
| `RankingModal.QueryFor` | src/components/Modal/SweepstakeMapRankingModal.tsx:98-101 | the fetch is keyed by `mapId = map_id` and `sweepstakeId = sweepstake_id` |
| `RankingModal.ImportRequest` | src/components/Modal/SweepstakeMapRankingModal.tsx:121-131 | nothing without a seed or user; otherwise the import seed has the map's id (absent with the map), the same user and the same map |
| `RankingModal.ImportButtonAsWritten` | src/components/Modal/SweepstakeMapRankingModal.tsx:153 | the condition as written throws exactly on a desktop render with a user and no map; it shows the button only on desktop with a user |
| `RankingModal.ShowImportButton` | src/components/Modal/SweepstakeMapRankingModal.tsx:153 | the button shows exactly when not mobile, a user and a map are present, and the user's id equals the map's `user_id` |
| `RankingModal.ImportGateAgrees` | src/components/Modal/SweepstakeMapRankingModal.tsx:153 | wherever the condition as written evaluates, it agrees with the owner gate; where it throws, the gate is closed |
| `RankingModal.ImportGateThrowsWithoutMap` | src/components/Modal/SweepstakeMapRankingModal.tsx:153 | a desktop render after opening with a user and no map throws |
| `RankingModal.Controller.constructor` | src/components/Modal/SweepstakeMapRankingModal.tsx:43-45 | first render: closed, not loading, no seed, no rankings, empty logs |
| `RankingModal.Controller.Open` | src/components/Modal/SweepstakeMapRankingModal.tsx:92-117 | stores the seed and empties the rankings. With a map: sets loading, one fetch for that map, calls `[open]`. Without: one 'Mapa não informado!' warning, no fetch, loading untouched, calls `[close, open]`. The dialog ends visible |
| `RankingModal.Controller.LoadResolved` | src/components/Modal/SweepstakeMapRankingModal.tsx:102-111 | the rankings become exactly the response and loading ends |
| `RankingModal.Controller.LoadRejected` | src/components/Modal/SweepstakeMapRankingModal.tsx:105-111 | exactly one error toast with subject 'Ranking', the dialog closes, loading ends, rankings untouched |
| `RankingModal.Controller.Close` | src/components/Modal/SweepstakeMapRankingModal.tsx:144 | the dialog's own close control appends one close call and hides the dialog; seed, rankings and loading are kept |
| `RankingModal.Controller.ImportImageLeaderboards` | src/components/Modal/SweepstakeMapRankingModal.tsx:121-131 | no child opening without a user; otherwise exactly one, with the import seed |
| `RankingModal.FailedLoadScenario` | src/components/Modal/SweepstakeMapRankingModal.tsx:94-108 | opening with a map whose fetch fails ends closed with empty rankings and exactly one 'Ranking' error toast |
| `RankingModal.MissingMapScenario` | src/components/Modal/SweepstakeMapRankingModal.tsx:112-116 | opening without a map ends visible and not loading; no fetch is issued, exactly one 'Mapa não informado!' warning is emitted, and the dialog calls are close then open |
| `RankingModal.StaleRankingsAreApplied` | src/components/Modal/SweepstakeMapRankingModal.tsx:92-104 | after two openings with maps, the first fetch's rankings are shown under the second map |
| `Router.AnyMatched` | src/router/index.ts:117 | `to.matched.some(...)` holds exactly when some matched record carries the flag |
| `Router.BaseTitle` | src/router/index.ts:111 | the application title on '/' or without a meta title, otherwise "<meta title> - <application title>" |
| `Router.DocumentTitle` | src/router/index.ts:111-115 | a non-empty `title` param is prefixed as "<param> - <title>"; the application title always ends the document title |
| `Router.LoginRedirect` | src/router/index.ts:117-120 | the login redirect fires exactly when there is no user and some matched record requires authentication; it excludes the e-mail redirect |
| `Router.EmailRedirect` | src/router/index.ts:124-127 | the e-mail redirect fires exactly for a signed-in user with an unverified e-mail when no matched record carries `emailConfirmation` |
| `Router.NextCalls` | src/router/index.ts:117-131 | the calls are `[next()]` or `[redirect, next()]`; the login redirect fires exactly for no user on a route needing authentication; the e-mail redirect exactly for an unverified user outside the confirmation page |
| `Router.RedirectsExclusive` | src/router/index.ts:120-129 | the two redirects never fire in the same pass |
| `Router.BeforeEach` | src/router/index.ts:110-132 | the step-by-step guard writes the title `DocumentTitle` gives and issues the calls `NextCalls` gives, ending with a plain `next()` |
| `Router.FlaggedPaths` | src/router/index.ts:18-102 | a path is listed exactly when some route of the table with that path carries the flag |
| `Router.RouteTableFlags` | src/router/index.ts:18-102 | exactly '/players', '/maps', '/sweepstakes/new' and '/sweepstakes' carry `requiresAuth`, and only '/emailConfirmation' carries `emailConfirmation` |
| `Router.TableRedirects` | src/router/index.ts:18-131 | on each table route, a guest is sent to login exactly on the four authenticated paths, an unverified user is sent to e-mail confirmation everywhere but that page, and a verified user just proceeds |
| `Router.GuestOnPlayersCallsNextTwice` | src/router/index.ts:120-131 | a guest navigating to '/players' triggers `next('/login')` followed by `next()` |
| `Router.NextCallIntended` | src/router/index.ts:120-131 | the single intended call is the first call of the as-written pass; it is a plain `next()` exactly when neither redirect fires |

## Left out

- Rendering: the JSX layout, Chakra components, icons, table columns and `src/components/Form/Input.tsx` are not modelled. The premier badge column is left out of `Ranking`, and its numeric columns are integers.
- Application bootstrap: `src/main.ts` is not part of this model (Vue bootstrap, the global toast error handler, the firebase subscription).
- Remote services: `getPlayer`, `getSweepstakeMapRanking`, supabase's `upsert` and `queryClient` are events and log entries. Fetches are not identified: a fetch settlement needs only some dispatched, unsettled fetch. Mutations settle in any order; the event names the position of the settling one among those in flight.
- Query key: the value of `TABLE_PLAYERS` (src/config/constants) is not part of this model, so the key is the token `TablePlayers`.
- Dialog component: the unseen `Modal` component is reduced to a visibility flag set by its open and close calls. Its own close controls are represented by `PlayerModal.Controller.Cancel` for the player dialog and by `RankingModal.Controller.Close` for the ranking dialog.
- PlayerModal.Controller.Edit: does not re-run validation on change. react-hook-form does that after a first submit; here the error set changes only on submit, load and reset.
- PlayerForm.Errors: yup's casting (numbers to strings) and its UTF-16 length counting are not modelled. Fields are typed, and length counts characters.
- PlayerModal.Controller.Submit: `isSubmitting` is one flag. With overlapping submissions, the first settlement clears it, as in the code. react-hook-form's other form-state counters are not modelled.
- Patents asset: the patents asset is a constructor parameter of the player controller.
- Router inputs: the application title (`VUE_APP_TITLE`) is a parameter. How an undefined value renders in the template string is not modelled. `to.meta` and `to.matched` are inputs, because vue-router's path matching is not modelled. How vue-router reacts to a second `next` call is not modelled either.
- Import dialog: it is reached only through the logged seed. `src/components/Modal/ImportImageLeaderboardModal` is not part of this model.

## Findings

| source | as written | input that shows it | evidently intended | confidence | as-written member | corrected member |
|---|---|---|---|---|---|---|
| src/components/Modal/SweepstakeMapRankingModal.tsx:153 | `recordModalProps?.sweepstakeMap.user_id` reads `user_id` of a missing map without `?.`. The render throws a TypeError | on a desktop, `onOpenModal({user})` with no `sweepstakeMap`: the branch that warns and reopens leaves exactly this seed stored (`RankingModal.ImportGateThrowsWithoutMap`) | hide the import button when there is no map | medium, not executed | `RankingModal.ImportButtonAsWritten` | `RankingModal.ShowImportButton` |
| src/router/index.ts:120-131 | `next('/login')` and `next('/emailConfirmation')` are not followed by `return`, so the final `next()` runs in the same pass | a guest navigating to '/players' gives `[next('/login'), next()]` (`Router.GuestOnPlayersCallsNextTwice`) | one `next` call per pass: the redirect, or else a plain `next()` | medium, not executed | `Router.NextCalls` | `Router.NextCallIntended` |
