# express-teams: team authorization, session thunks and the teams reducer

This project models three parts of the express-teams application and proves what each one promises.

- **Team controller** (`TeamController`, `team_controller.dfy`). The server handlers that create, list, fetch, update and delete teams, and add or remove a member.
  - The team collection is a `TeamStore` class. It holds the team map `teams: map<TeamId, Team>` and the user directory `users: map<string, UserId>`, keyed by e-mail.
  - Each handler is a method that returns a `Reply`: the HTTP status plus the JSON envelope `{ success, data?, errors?, msg? }`. It updates the map the way the database calls would.
  - `Team.create` takes the next id from a counter.
- **Auth action thunks** (`AuthActions`, `auth_actions.dfy`). The client's session workflow.
  - A `Session` object holds two things: the token stored in local storage under `express-token` (`token: Option<string>`), and one ordered log `effects` of the thunks' dispatches, token writes, requests and navigations. Each entry is an action dispatched, a token saved or removed, a register, login or delete request, a current-user request with the token it carried, or a navigation.
  - Each network call arrives as its outcome, a `Response`: either `Ok(data)`, or `Rejected(errors)` where `errors` is an optional list.
  - `GET /auth/current-user` is the function `whoAmI` from the stored token to such an outcome. So the contracts show which token the call sees, and where in the sequence it is made.
- **Teams reducer** (`TeamsReducer`, `teams_reducer.dfy`). The pure transition over `{ teams, isLoading, error }`. `Run` folds it over a sequence of dispatched actions so that lemmas can speak about whole runs.

Behaviours of the code a reader may not expect, all modelled as the code has them:
- The ownership checks answer 401, not 403.
- `removeTeamMember` truncates the roster instead of removing one entry. See Findings.
- The owner can be removed from the roster, and removing the owner while the owner heads the roster empties it (`OwnerRemovalEmptiesRoster`). The owner is guaranteed to stay a member when the owner heads the roster and someone else is removed (`OwnerSurvivesTruncation`).
- A successful register, login or account deletion does not itself dispatch a "loading off" action.
- A remove that names an unknown e-mail is a success.
- The comment above `fetchTeams` (controllers/teams.js:33) says it returns all teams the user is part of. The query at controllers/teams.js:38 returns only the teams the user owns, and `FetchTeams` states exactly that.
- The comment above `fetchTeam` (controllers/teams.js:48) marks it as for team members only. The handler at controllers/teams.js:50-63 checks neither membership nor ownership, and `FetchTeam` states exactly that.

## Model

| member | source | states |
|---|---|---|
| `TeamController.NewTeam` | controllers/teams.js:19-25 | A created team is owned by the caller, and its admins and members are both exactly `[caller]`. So the owner is an admin and a member, and heads the roster. |
| `TeamController.Patched` | controllers/teams.js:79-82 | An update changes only the name and description the patch carries. Owner, admins and members are untouched, and an absent field keeps its old value. |
| `TeamController.IndexOf` | controllers/teams.js:156 | `indexOf` of a present user is a position that holds that user, with no earlier occurrence. |
| `TeamController.TruncateAt` | controllers/teams.js:156-157 | `splice(index)` leaves a strict prefix of the roster that does not contain the user, and the user is at the position right after it. That is, the longest user-free prefix. |
| `TeamController.TruncateKeepsRosterShape` | controllers/teams.js:156-158 | Truncating a duplicate-free roster keeps it duplicate-free and adds nobody. The removed user is gone. |
| `TeamController.OwnerSurvivesTruncation` | controllers/teams.js:156-157 | With the owner at index 0, as creation leaves it, removing any other member leaves the owner at index 0 and still a member. |
| `TeamController.OwnerRemovalEmptiesRoster` | controllers/teams.js:156-157 | Removing the owner from a roster the owner heads leaves an empty roster. |
| `TeamController.TruncationDropsLaterMembers` | controllers/teams.js:157 | Removing 2 from `[1, 2, 3]` leaves `[1]`, while a single removal would leave `[1, 3]`. |
| `TeamController.RemoveOnce` | controllers/teams.js:156-157 | The intended removal: one element shorter, and the multiset of members loses exactly one copy of the user. |
| `TeamController.RemoveOnceKeepsOthers` | controllers/teams.js:156-158 | On a duplicate-free roster the intended removal keeps it duplicate-free. The result's members are exactly the old members other than the removed user. |
| `TeamController.OwnerSurvivesRemoveOnce` | controllers/teams.js:156-157 | With the intended removal, removing anyone but the owner keeps the owner a member, wherever the owner sits. |
| `TeamController.UpdateCanDuplicateName` | controllers/teams.js:79-82 | Updates do not re-check (name, owner) uniqueness. Renaming one of an owner's two teams to the other's name breaks it. |
| `TeamController.TeamStore.CreateTeam` | controllers/teams.js:9-31 | An existing team with the same name and the same owner gives 403 "You already have a team with this name" and leaves the store unchanged. Otherwise exactly one team, under a fresh id, is added with owner = admins = members = caller, and 200 is returned with it. Uniqueness of (name, owner) is preserved, and the owner heads the new roster. |
| `TeamController.TeamStore.FetchTeams` | controllers/teams.js:37-44 | 200 with exactly the teams the caller owns, stored values unchanged. Teams where the caller is only a member are not listed. |
| `TeamController.TeamStore.FetchTeam` | controllers/teams.js:50-63 | A missing id gives 404 "Team not found". Otherwise 200 with the stored team, with no ownership or membership check. |
| `TeamController.TeamStore.UpdateTeam` | controllers/teams.js:65-88 | A missing id gives 404. A non-owner gives 401 and no change. The owner's patch changes that one team only, and the reply carries the updated team. |
| `TeamController.TeamStore.DeleteTeam` | controllers/teams.js:90-109 | A missing id gives 404. A non-owner gives 401 and no change. The owner's delete removes exactly that id, and every other team stays as it was. |
| `TeamController.TeamStore.AddTeamMember` | controllers/teams.js:111-137 | An unknown e-mail gives 404 and no change. An existing member gives 409 and no change. Otherwise the roster becomes the old roster with the user appended, and the reply carries the re-read team with the message in `errors`. Rosters stay duplicate-free, and an owner who headed the roster still does. |
| `TeamController.TeamStore.RemoveTeamMember` | controllers/teams.js:139-165 | An unknown e-mail is a 200 success with no change. A known non-member gives 404 and no change. Otherwise the roster is truncated at the user's first position, and the reply carries the re-read team. If the owner headed the roster, it still does afterwards or the roster is empty, and removing the owner itself empties it. |
| `TeamController.TeamStore.RemoveTeamMemberOnce` | controllers/teams.js:139-165 | The same handler with the intended single removal: the roster loses exactly that user and keeps everyone else. |
| `AuthActions.ErrorMessage` | client/src/store/actions/auth.js:22-26 | With no `errors` list the message is "Something went wrong!". With a list it is the list's first entry, and `undefined` when the list is empty. |
| `AuthActions.CurrentUser` | client/src/store/actions/auth.js:93-101 | `getCurrentUser` yields a user only if the call succeeded with that user. A failed call yields `null`, never an error. |
| `AuthActions.Session.SaveToken` | client/src/store/actions/auth.js:103-105 | After saving `t`, the stored token is `t`, and the save is logged. |
| `AuthActions.Session.GetToken` | client/src/store/actions/auth.js:107-110 | Reading returns exactly the stored token, or `null` if there is none. |
| `AuthActions.Session.RemoveToken` | client/src/store/actions/auth.js:112-114 | After removal no token is stored, and the removal is logged. |
| `AuthActions.Session.FetchCurrentUser` | client/src/store/actions/auth.js:93-101 | The current-user request carries the token stored at that moment, and its answer is mapped by `CurrentUser`. |
| `AuthActions.Session.TokenRoundTrip` | client/src/store/actions/auth.js:103-114 | Save then get returns the saved token. Remove then get returns `null`. The log gains exactly the save and the removal. |
| `AuthActions.Session.SignIn` | client/src/store/actions/auth.js:31-48 | The common shape of register and login, described in the next two rows. |
| `AuthActions.Session.Register` | client/src/store/actions/auth.js:12-29 | The exact effect sequence. On success: `TOGGLE_AUTH_LOADING(true)`, the POST to `/auth/register`, save the token, the current-user request carrying that token, `REGISTER` with the returned user (possibly `null`), navigation to `/`. On failure: `TOGGLE_AUTH_LOADING(true)`, the POST, then `SET_AUTH_ERROR` with the error-message rule, and the token is unchanged. |
| `AuthActions.Session.Login` | client/src/store/actions/auth.js:31-48 | The same as register, with the POST to `/auth/login` and `LOGIN`. |
| `AuthActions.Session.LoadUser` | client/src/store/actions/auth.js:50-62 | The exact effect sequence: `TOGGLE_AUTH_LOADING(true)`, the current-user request carrying the stored token, then `AUTHENTICATE` with the user it resolves to, or `TOGGLE_AUTH_LOADING(false)` if it resolves to none. Never `SET_AUTH_ERROR`, and the token is untouched. |
| `AuthActions.Session.LogoutUser` | client/src/store/actions/auth.js:64-68 | The exact effect sequence: remove the token, dispatch `LOGOUT` (no loading toggle), navigate to `/login`. |
| `AuthActions.Session.DeleteAccountWith` | client/src/store/actions/auth.js:70-87 | The exact effect sequence. On success: `TOGGLE_AUTH_LOADING(true)`, the DELETE to `/auth/delete`, remove the token, `DELETE_ACCOUNT`, navigation to `/register`. On failure: `TOGGLE_AUTH_LOADING(true)`, the DELETE, then `SET_AUTH_ERROR` with the error-message rule, and the token is kept. |
| `AuthActions.Session.SetAuthErrorWith` | client/src/store/actions/auth.js:89-91 | Dispatches `SET_AUTH_ERROR` with the given message and nothing else. |
| `TeamsReducer.Reduce` | client/src/store/reducers/teams.js:13-38 | `FETCH_TEAMS` sets teams to the payload and clears loading and error. `SET_TEAMS_ERROR` sets the error, clears loading and keeps teams. `TOGGLE_TEAMS_LOADING` sets loading, clears the error and keeps teams. Any other action returns the state unchanged. The three team actions never leave loading and an error set together. |
| `TeamsReducer.Initial` | client/src/store/reducers/teams.js:7-11 | The initial state has no teams, is not loading and has no error. |
| `TeamsReducer.ReduceFrom` | client/src/store/reducers/teams.js:7-13 | With no state, every action is applied to `{ teams: [], isLoading: false, error: null }`. |
| `TeamsReducer.ReduceIdempotent` | client/src/store/reducers/teams.js:16-34 | Applying any action twice gives the same state as applying it once. |
| `TeamsReducer.RunShowsLastFetched` | client/src/store/reducers/teams.js:16-34 | After any sequence of actions, `teams` is the payload of the last `FETCH_TEAMS`, or the starting list if there was none. |
| `TeamsReducer.RunKeepsConsistent` | client/src/store/reducers/teams.js:16-36 | From a state without loading-and-error, every sequence of actions keeps loading and an error from being set together. |

## Findings

| source | as written | input that shows it | evidently intended | confidence | as-written member | corrected member |
|---|---|---|---|---|---|---|
| controllers/teams.js:157 | `splice` is called with a start index and no delete count. This cuts the roster at the removed member and drops everyone after it. | Roster `[1, 2, 3]`, remove user 2: the result is `[1]`, and user 3 is lost. | Remove only that entry (a delete count of 1), leaving `[1, 3]`. The success message "Member successfully removed!" and the single-member request say the same. | high; not executed | `TeamController.TruncationDropsLaterMembers` | `TeamController.RemoveOnceKeepsOthers` |

`TeamController.TeamStore.RemoveTeamMember` models the handler as written. `TeamController.TeamStore.RemoveTeamMemberOnce` is the corrected handler, built on `RemoveOnce`.

## Left out

- Database plumbing (Mongoose queries, `asyncHandler`, the error middleware) is replaced by the in-memory map. Database failures and schema validation errors (`runValidators`, required fields) are not modelled.
- TeamController.Patched: the update body is modelled as optional name and description only. A real request body could also overwrite owner, admins or members; the schema that would limit this is not part of this model.
- Identifiers are abstract numbers compared by equality. The ObjectId-to-string conversions are not modelled.
- The middleware that loads `req.team` is not part of this model. It is assumed to have loaded an existing team, which is the `teamId in teams` precondition of `AddTeamMember` and `RemoveTeamMember`. It is also assumed to have done any owner or admin check before those handlers run.
- Concurrent requests on the same team (the read-then-write race between loading `req.team` and writing the roster) are out of scope. Handlers run one at a time.
- TeamController.TeamStore.FetchTeams: the list is returned as a map from id to team, so the order the database returns teams in is not modelled.
- Token issuance and verification, and the server side of `/auth/current-user`, are not part of this model. The current-user call is the abstract function `whoAmI` of the stored token. This assumes the HTTP client sends the stored token; that client's setup is not part of this model.
- HTTP calls, `history.push` and `localStorage` are replaced by call outcomes, entries of the `effects` log and the single `token` cell. A token value of `undefined` written as the string "undefined" is not modelled.
- The auth reducer that consumes these actions is not part of this model. So nothing is claimed about the loading flag after a failure.
- A rejection without `error.response` crashes the catch block with a runtime error. This is not modelled: every failure carries a body with an optional `errors` list.
- The `loadUser` catch branch is not modelled separately. `getCurrentUser` never throws, so only a failing dispatch could reach it.
- The Login and Register pages are React rendering only and are not modelled.
- The action type strings of the teams reducer are not part of this model. Any other action is the `Other` case.
