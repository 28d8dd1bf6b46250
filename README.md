# Football tournament front end — verified model of its client logic

This project models the client-side logic of a Next.js/Redux front end for
managing football tournaments, teams, players and matches, and proves
properties of that logic in Dafny. The model covers:

- **Entity caches.** The four Redux slices that cache matches (`partidos`),
  teams (`equipos`), players (`jugadores`) and tournaments (`torneos`). Each
  slice is a class whose fields are the slice state. Each reducer case
  (`pending`, `fulfilled`, `rejected`, the clear actions) is a method. Its
  `modifies` clause names exactly the fields the case assigns. Its `ensures`
  clauses give the new value of each of those fields. The shared list
  operations are functions in `Cache`, each with its own lemmas:
  - append on create;
  - replace-first-by-id on update;
  - remove-all-by-id on delete.
- **Session.** The `auth` slice (login, `getMe`, logout, `setToken`) and the
  checks applied to the API's answers. The browser's stored token is a plain
  field of the store.
- **Routing.** The Next.js middleware's routing decision, the
  `isAuthenticated` predicate, and the render decision of `ProtectedRoute`.
- **Admin pages.** The search and status/tournament filters of the admin
  tournament and team pages, their counters and sums, and their labels:
  status, creator, initials and signed goal difference.
- **Top scorers.** The page's goal value under JavaScript `||` fallbacks,
  maximum, total and average, medal tiers and 1-based positions.
- **Team forms.** The team form (`EquipoForm`) and the create-team page:
  field schemas, default values, the image checks, the default crest, the
  create/update choice and the submit flow.

Modules follow the source files:

| module | source file |
|---|---|
| `PartidoSlice` | `partidoSlice.ts` |
| `EquipoSlice` | `equipoSlice.ts` |
| `JugadorSlice` | `jugadorSlice.ts` |
| `TorneoSlice` | `torneoSlice.ts` |
| `AuthSlice` | `authSlice.ts` |
| `RouteGuard` | `utils/auth.ts` |
| `ProtectedRoute` | `ProtectedRoute.tsx` |
| `AdminTorneos` | `admin/torneos/page.tsx` |
| `AdminEquipos` | `admin/equipos/page.tsx` |
| `Goleadores` | `goleadores/page.tsx` |
| `EquipoForm` | `EquipoForm.tsx` |
| `CrearEquipo` | `admin/equipos/crear/page.tsx` |

The other modules are shared helpers:

- `Wrappers`: `Option` and `Result`.
- `Seqs`: `Array.prototype.filter`, the `reduce` sum, order-preserving subsequences.
- `Text`: the JS truthiness of an optional string, `startsWith`, `includes`,
  ASCII case mapping, integer rendering.
- `Cache`: the id-keyed list operations of the slices.
- `Schema`: the zod string checks the forms declare.
- `MediaHost`: the image file and the image host's answer.

The system's description speaks of a standings ranking and a fixture order
that the front end would compute. These files have no such comparator. The
ordered match list arrives already sorted from the server
(`src/redux/slices/partidoSlice.ts:94`), and the model stores it as it comes.
This follows the code.

JavaScript semantics are written out where they matter:

- `x || d` treats `''`, `0` and a missing value as falsy (`Text.Truthy`,
  `Goleadores.GoalValue`, the `GetOr` defaults).
- A thunk whose `pending` or `rejected` case is not registered leaves the
  state unchanged. The update and delete thunks register only `fulfilled`.
- `typeof torneoId === 'object'` separates a populated tournament from a bare id.

## Model

| member | source | states |
|---|---|---|
| Cache.FindIndexById | src/redux/slices/partidoSlice.ts:242 | `findIndex` on id: -1 exactly when no element has the id, otherwise the first index that has it |
| Cache.ReplaceFirstById | src/redux/slices/partidoSlice.ts:242-245 | length kept; no match leaves the list unchanged; otherwise the list is the old one with only the first id match overwritten |
| Cache.ReplaceFirstByIdAt | src/redux/slices/torneoSlice.ts:146-149 | every index other than the first id match keeps its element, and that index holds the new record |
| Cache.RemoveById | src/redux/slices/partidoSlice.ts:252 | no element of the result has the id; every element with another id is kept |
| Cache.RemoveByIdKeepsOrder | src/redux/slices/partidoSlice.ts:252-253 | the filtered list is an order-preserving subsequence of the old one |
| Cache.RemoveByIdMultiplicity | src/redux/slices/partidoSlice.ts:252 | each record with another id occurs as often as before; records with the id occur zero times |
| Cache.RemoveByIdAbsent | src/redux/slices/torneoSlice.ts:156 | deleting an id that is not present leaves the list unchanged |
| Seqs.Filter | src/app/admin/torneos/page.tsx:19 | `filter` keeps exactly the elements satisfying the predicate, never more than were there |
| Seqs.FilterIsSubseq | src/app/admin/torneos/page.tsx:19 | a filter never reorders |
| Seqs.FilterKeepsAll | src/app/admin/torneos/page.tsx:19-24 | a predicate true everywhere returns the list itself |
| Seqs.FilterUnfold | src/app/admin/torneos/page.tsx:19 | a filter keeps the head exactly when it passes, followed by the filtered tail |
| Seqs.FilterLengthAppend | src/app/admin/torneos/page.tsx:109 | the length of a filtered concatenation is the sum of the lengths of the filtered parts |
| Seqs.FilterMultiplicity | src/redux/slices/equipoSlice.ts:187-188 | a filter keeps each kept value with its full multiplicity and drops the others entirely |
| Seqs.DisjointFiltersBounded | src/app/admin/torneos/page.tsx:109-135 | three filters with pairwise exclusive predicates select at most the list's length together |
| Seqs.SumByAppend | src/app/admin/equipos/page.tsx:127-129 | the `reduce` sum over a concatenation is the sum of the two sums |
| Seqs.SumByNonNegative | src/app/admin/equipos/page.tsx:127-129 | a sum of non-negative terms is non-negative |
| Seqs.SumByAtMost | src/app/goleadores/page.tsx:180 | terms bounded by m sum to at most length times m |
| Seqs.SumByAtLeastEach | src/app/goleadores/page.tsx:180 | with non-negative terms, every term is at most the sum |
| Text.ContainsAt | src/app/admin/torneos/page.tsx:20-21 | `includes` holds exactly when the needle starts at some position of the haystack |
| Text.Lower | src/app/admin/torneos/page.tsx:20 | `toLowerCase` (ASCII): same length, no upper-case letter left |
| Text.Upper | src/app/admin/equipos/page.tsx:219 | `toUpperCase` (ASCII): same length, no lower-case letter left |
| Text.IntToDecimal | src/app/admin/equipos/page.tsx:255 | an interpolated integer: non-empty, leading '-' exactly for negatives, then the digits of the magnitude |
| Text.DecimalRoundTrip | src/app/admin/equipos/page.tsx:255 | reading back the rendered digits gives the number |
| Text.IntToDecimalInjective | src/app/goleadores/page.tsx:150 | distinct integers render as distinct text |
| PartidoSlice.PartidoStore.constructor | src/redux/slices/partidoSlice.ts:68-75 | empty lists, no selection, not loading, no error |
| PartidoSlice.PartidoStore.ClearError | src/redux/slices/partidoSlice.ts:166-168 | only `error` is nulled |
| PartidoSlice.PartidoStore.ClearSelectedPartido | src/redux/slices/partidoSlice.ts:169-171 | only `selectedPartido` is nulled |
| PartidoSlice.PartidoStore.Pending | src/redux/slices/partidoSlice.ts:176-179 | the pending cases set loading and null the error and touch nothing else; the update/delete thunks have no pending case and change nothing |
| PartidoSlice.PartidoStore.Rejected | src/redux/slices/partidoSlice.ts:184-187 | the rejected cases store the error and clear loading; no list changes |
| PartidoSlice.PartidoStore.FetchPartidosFulfilled | src/redux/slices/partidoSlice.ts:180-183 | `partidos` becomes the payload, loading cleared; the other lists and the selection are untouched |
| PartidoSlice.PartidoStore.FetchPartidosOrdenadosFulfilled | src/redux/slices/partidoSlice.ts:193-196 | `partidosOrdenados` becomes the payload as sent |
| PartidoSlice.PartidoStore.FetchPartidoByIdFulfilled | src/redux/slices/partidoSlice.ts:206-209 | the selection becomes the payload; the lists are untouched |
| PartidoSlice.PartidoStore.FetchPartidosByTorneoFulfilled | src/redux/slices/partidoSlice.ts:219-222 | `partidosByTorneo` becomes `payload.data`, or the empty list when that is absent |
| PartidoSlice.PartidoStore.CreatePartidoFulfilled | src/redux/slices/partidoSlice.ts:232-235 | append: length grows by one, the last element is the payload, the old list is a prefix |
| PartidoSlice.PartidoStore.UpdatePartidoFulfilled | src/redux/slices/partidoSlice.ts:241-249 | `partidos` is replace-first-by-id of the old list; selection refreshed only on the same id; `isLoading` untouched |
| PartidoSlice.PartidoStore.DeletePartidoFulfilled | src/redux/slices/partidoSlice.ts:251-257 | both `partidos` and `partidosOrdenados` lose every element with the id; `partidosByTorneo` untouched; selection nulled exactly when its id matches |
| EquipoSlice.EquipoStore.constructor | src/redux/slices/equipoSlice.ts:26-32 | empty lists, no selection, not loading, no error |
| EquipoSlice.EquipoStore.ClearError | src/redux/slices/equipoSlice.ts:111-113 | only `error` is nulled |
| EquipoSlice.EquipoStore.ClearSelectedEquipo | src/redux/slices/equipoSlice.ts:114-116 | only the selection is nulled |
| EquipoSlice.EquipoStore.ClearTorneoEquipos | src/redux/slices/equipoSlice.ts:117-119 | `torneoEquipos` emptied, nothing else changed |
| EquipoSlice.EquipoStore.Pending | src/redux/slices/equipoSlice.ts:124-127 | loading set and error nulled for the thunks with a pending case; no change otherwise |
| EquipoSlice.EquipoStore.Rejected | src/redux/slices/equipoSlice.ts:132-135 | error stored and loading cleared; no list changes |
| EquipoSlice.EquipoStore.FetchEquiposFulfilled | src/redux/slices/equipoSlice.ts:128-131 | `equipos` becomes the payload |
| EquipoSlice.EquipoStore.FetchEquipoByIdFulfilled | src/redux/slices/equipoSlice.ts:141-144 | the selection becomes the payload |
| EquipoSlice.EquipoStore.FetchEquiposByTorneoFulfilled | src/redux/slices/equipoSlice.ts:154-157 | `torneoEquipos` becomes the payload itself (no `.data`); `equipos` untouched |
| EquipoSlice.EquipoStore.CreateEquipoFulfilled | src/redux/slices/equipoSlice.ts:167-170 | appended to `equipos` only, not to `torneoEquipos` |
| EquipoSlice.EquipoStore.UpdateEquipoFulfilled | src/redux/slices/equipoSlice.ts:176-184 | replace-first-by-id in `equipos` only; selection synced on the same id; `torneoEquipos` untouched |
| EquipoSlice.EquipoStore.DeleteEquipoFulfilled | src/redux/slices/equipoSlice.ts:186-192 | the id is removed from both lists, afterwards neither has it; selection nulled exactly when its id matches |
| JugadorSlice.JugadorStore.constructor | src/redux/slices/jugadorSlice.ts:41-47 | empty lists, no selection, not loading, no error |
| JugadorSlice.JugadorStore.ClearError | src/redux/slices/jugadorSlice.ts:126-128 | only `error` is nulled |
| JugadorSlice.JugadorStore.ClearSelectedJugador | src/redux/slices/jugadorSlice.ts:129-131 | only the selection is nulled |
| JugadorSlice.JugadorStore.Pending | src/redux/slices/jugadorSlice.ts:136-139 | loading set and error nulled for the thunks with a pending case |
| JugadorSlice.JugadorStore.Rejected | src/redux/slices/jugadorSlice.ts:144-147 | error stored and loading cleared; no list changes |
| JugadorSlice.JugadorStore.FetchJugadoresFulfilled | src/redux/slices/jugadorSlice.ts:140-143 | `jugadores` becomes the payload |
| JugadorSlice.JugadorStore.FetchGoleadoresFulfilled | src/redux/slices/jugadorSlice.ts:153-156 | `goleadores` becomes the payload; `jugadores` untouched |
| JugadorSlice.JugadorStore.FetchJugadorByIdFulfilled | src/redux/slices/jugadorSlice.ts:166-169 | the selection becomes the payload; the lists are untouched |
| JugadorSlice.JugadorStore.CreateJugadorFulfilled | src/redux/slices/jugadorSlice.ts:179-182 | appended to `jugadores` |
| JugadorSlice.JugadorStore.UpdateJugadorFulfilled | src/redux/slices/jugadorSlice.ts:188-196 | replace-first-by-id, length kept, selection synced on the same id |
| JugadorSlice.JugadorStore.DeleteJugadorFulfilled | src/redux/slices/jugadorSlice.ts:198-203 | the id is removed from `jugadores`; `goleadores` untouched |
| TorneoSlice.TorneoStore.constructor | src/redux/slices/torneoSlice.ts:24-29 | empty list, no selection, not loading, no error |
| TorneoSlice.TorneoStore.ClearError | src/redux/slices/torneoSlice.ts:96-98 | only `error` is nulled |
| TorneoSlice.TorneoStore.ClearSelectedTorneo | src/redux/slices/torneoSlice.ts:99-101 | only the selection is nulled |
| TorneoSlice.TorneoStore.Pending | src/redux/slices/torneoSlice.ts:106-109 | loading set and error nulled for the thunks with a pending case |
| TorneoSlice.TorneoStore.Rejected | src/redux/slices/torneoSlice.ts:114-117 | error stored and loading cleared; `torneos` untouched |
| TorneoSlice.TorneoStore.FetchTorneosFulfilled | src/redux/slices/torneoSlice.ts:110-113 | `torneos` becomes the payload, loading cleared |
| TorneoSlice.TorneoStore.FetchTorneoByIdFulfilled | src/redux/slices/torneoSlice.ts:123-126 | the selection becomes the payload |
| TorneoSlice.TorneoStore.CreateTorneoFulfilled | src/redux/slices/torneoSlice.ts:136-139 | the payload is appended at the end |
| TorneoSlice.TorneoStore.UpdateTorneoFulfilled | src/redux/slices/torneoSlice.ts:145-153 | first id match replaced in place, every other index unchanged, length kept; selection synced on the same id |
| TorneoSlice.TorneoStore.DeleteTorneoFulfilled | src/redux/slices/torneoSlice.ts:155-160 | every match removed; selection nulled exactly when its id matches |
| AuthSlice.CheckLoginResponse | src/redux/slices/authSlice.ts:38-50 | success exactly when `success`, `data` and a non-empty `token` are all present, carrying them; otherwise rejected with 'Respuesta de API inválida' |
| AuthSlice.CheckMeResponse | src/redux/slices/authSlice.ts:66-72 | success exactly when `success` and `data` hold; otherwise the same rejection |
| AuthSlice.MeCheckIsWeaker | src/redux/slices/authSlice.ts:38-72 | whatever login accepts passes `getMe`, and an answer lacking only the token passes `getMe` but not login |
| AuthSlice.AuthStore.constructor | src/redux/slices/authSlice.ts:21-27 | no user, no token, not loading, no error, unauthenticated; stored token as found |
| AuthSlice.AuthStore.Logout | src/redux/slices/authSlice.ts:84-90 | user and token nulled, unauthenticated, error nulled, stored token removed |
| AuthSlice.AuthStore.ClearError | src/redux/slices/authSlice.ts:91-93 | only `error` is nulled |
| AuthSlice.AuthStore.SetToken | src/redux/slices/authSlice.ts:94-98 | token and stored token set, authenticated; `user` untouched |
| AuthSlice.AuthStore.LoginPending | src/redux/slices/authSlice.ts:103-106 | loading set and error cleared |
| AuthSlice.AuthStore.LoginFulfilled | src/redux/slices/authSlice.ts:107-113 | user, token and stored token set, authenticated, loading cleared |
| AuthSlice.AuthStore.LoginRejected | src/redux/slices/authSlice.ts:114-117 | error stored, loading cleared, session untouched |
| AuthSlice.AuthStore.GetMePending | src/redux/slices/authSlice.ts:119-122 | only loading set; an earlier error stays |
| AuthSlice.AuthStore.GetMeFulfilled | src/redux/slices/authSlice.ts:123-128 | user set, authenticated, loading cleared |
| AuthSlice.AuthStore.GetMeRejected | src/redux/slices/authSlice.ts:129-134 | unauthenticated with the error; token, user and stored token kept |
| RouteGuard.IsAuthenticated | src/utils/auth.ts:24-26 | true exactly when a stored token is present and non-empty |
| RouteGuard.SomeStartsWith | src/utils/auth.ts:37-44 | `some(startsWith)`: true exactly when one route is a prefix of the path |
| RouteGuard.Middleware | src/utils/auth.ts:32-57 | redirect to login exactly for an '/admin' prefix without a non-empty token; redirect to admin exactly for a '/login' prefix with one; pass in every other case |
| RouteGuard.RedirectRulesExclusive | src/utils/auth.ts:29-30 | no path has both prefixes, so the two redirects never compete |
| RouteGuard.LookAlikePathsAreGuarded | src/utils/auth.ts:37-54 | '/administrator' without a token (or with an empty one) goes to login; '/login-help' with a token goes to admin |
| ProtectedRoute.Render | src/components/ProtectedRoute.tsx:61-106 | loading view exactly while loading or checking (the fallback when given); null when not authenticated or no user; access denied exactly for role 'admin' required and another user role; children exactly when not loading, authenticated, with a user, and the role admits them |
| ProtectedRoute.DefaultRoleAdmitsAnyUser | src/components/ProtectedRoute.tsx:17 | with the default role any authenticated user with a record sees the children |
| AdminTorneos.FilteredTorneos | src/app/admin/torneos/page.tsx:19-24 | a tournament is kept exactly when its lowercased name or description contains the lowercased search term (missing as '') and the status filter is 'todos' or equals its status |
| AdminTorneos.FilteredTorneosKeepOrder | src/app/admin/torneos/page.tsx:19 | the filtered list is an order-preserving subsequence |
| AdminTorneos.UnfilteredShowsAll | src/app/admin/torneos/page.tsx:20-22 | an empty search with 'todos' shows every tournament |
| AdminTorneos.CountEstado | src/app/admin/torneos/page.tsx:109 | a status count is at most the total and is zero exactly when no tournament has that status |
| AdminTorneos.CountEstadoSingleton | src/app/admin/torneos/page.tsx:109 | one tournament counts 1 exactly when its status is the one counted, else 0 |
| AdminTorneos.CountEstadoAppend | src/app/admin/torneos/page.tsx:109-135 | the count over two concatenated lists is the sum of their counts; with the singleton and empty cases this fixes every count |
| AdminTorneos.StatusCountsBounded | src/app/admin/torneos/page.tsx:97-135 | the 'activo', 'pendiente' and 'finalizado' counts add up to at most the total |
| AdminTorneos.StatusLabel | src/app/admin/torneos/page.tsx:221 | the status with its first character upper-cased and the rest kept, or 'Sin estado' when missing or empty |
| AdminTorneos.CreatorLabel | src/app/admin/torneos/page.tsx:263 | full name, else name, else 'Usuario desconocido'; never empty |
| AdminTorneos.EmptyStateTitle | src/app/admin/torneos/page.tsx:182 | 'No se encontraron torneos' exactly when a search or a filter is active, 'No hay torneos creados' otherwise |
| AdminEquipos.FilteredEquipos | src/app/admin/equipos/page.tsx:23-28 | a team is kept exactly when its lowercased name contains the lowercased term and the filter is 'todos' or matches the `_id` of a populated tournament or the bare id |
| AdminEquipos.FilteredEquiposKeepOrder | src/app/admin/equipos/page.tsx:23 | the filtered list is an order-preserving subsequence |
| AdminEquipos.MissingTorneoHiddenBySelection | src/app/admin/equipos/page.tsx:25-26 | under a tournament selection no team without a tournament is shown |
| AdminEquipos.TotalJugadores | src/app/admin/equipos/page.tsx:127-129 | the players total is non-negative and 0 on an empty list |
| AdminEquipos.TotalGoles | src/app/admin/equipos/page.tsx:142-144 | the goals total is 0 on an empty list and non-negative when no team has negative goals |
| AdminEquipos.TotalsSingleton | src/app/admin/equipos/page.tsx:127-144 | one team adds the length of its player list (0 when missing) to the players total and its goals scored (0 when missing) to the goals total; with the empty case and `TotalsAppend` this fixes both totals |
| AdminEquipos.TotalsAppend | src/app/admin/equipos/page.tsx:127-144 | both totals of a concatenation are the sums of the parts' totals |
| AdminEquipos.TeamWithinTotalJugadores | src/app/admin/equipos/page.tsx:127-129 | every team's player count (missing as 0) is at most the total |
| AdminEquipos.Initials | src/app/admin/equipos/page.tsx:219 | one or two characters: the first two of the name upper-cased, or 'E' when the name is missing or empty |
| AdminEquipos.NombreLabel | src/app/admin/equipos/page.tsx:223 | the name when non-empty, else 'Sin nombre' |
| AdminEquipos.TorneoLabel | src/app/admin/equipos/page.tsx:226-229 | the populated tournament's name, else 'Torneo no especificado' |
| AdminEquipos.DiferenciaLabel | src/app/admin/equipos/page.tsx:255 | starts with '+' exactly for a positive difference and '-' exactly for a negative one; '0' when missing |
| AdminEquipos.DiferenciaLabelReadsBack | src/app/admin/equipos/page.tsx:255 | the digits after the sign read back as the magnitude of the difference |
| AdminEquipos.EmptyStateTitle | src/app/admin/equipos/page.tsx:193 | 'No se encontraron equipos' exactly when a search or a filter is active, 'No hay equipos registrados' otherwise |
| Goleadores.GoalValue | src/app/goleadores/page.tsx:150 | `totalGoles` when present and non-zero, else `goles` (0 when missing) |
| Goleadores.ZeroTotalFallsThrough | src/app/goleadores/page.tsx:150 | `totalGoles` 0 with `goles` 5 gives 5 |
| Goleadores.MaxOf | src/app/goleadores/page.tsx:174 | `Math.max` of a non-empty list is at least every value and equals one of them |
| Goleadores.GoalValues | src/app/goleadores/page.tsx:174 | the mapped list has one goal value per scorer, in order |
| Goleadores.TotalGoals | src/app/goleadores/page.tsx:180 | the total of an empty list is 0, and non-negative when no goal value is negative |
| Goleadores.TotalGoalsSingletonAppend | src/app/goleadores/page.tsx:180 | one scorer contributes its goal value and the total of a concatenation is the sum of the totals; with the empty case this fixes the total |
| Goleadores.Stats | src/app/goleadores/page.tsx:170-186 | absent exactly for an empty list; otherwise the maximum bounds and is attained by the goal values, the total is their sum, and average times count equals the total |
| Goleadores.AverageAtMostMax | src/app/goleadores/page.tsx:174-186 | the average never exceeds the maximum |
| Goleadores.MaxAtMostTotal | src/app/goleadores/page.tsx:174-180 | with no negative counts the maximum is at most the total |
| Goleadores.ThreeScorers | src/app/goleadores/page.tsx:170-186 | scorers with 5, 3 and 3 goals give maximum 5, total 11, average 11/3 |
| Goleadores.MedalFor | src/app/goleadores/page.tsx:88-93 | positions 0, 1 and 2 get the three distinct tiers and every later index the plain one |
| Goleadores.Rows | src/app/goleadores/page.tsx:83-94 | one row per scorer in server order, position index + 1 |
| Goleadores.RowsNumbering | src/app/goleadores/page.tsx:83-94 | positions strictly increase, medals are not shared, the first row is position 1 with gold |
| Schema.StringIssues | src/components/EquipoForm.tsx:13-15 | no issue exactly when the string is present and within its length bounds; a missing string gives 'Required'; every issue names its field |
| EquipoForm.CheckImage | src/components/EquipoForm.tsx:55-67 | no file, a type not starting with 'image/', more than 5·1024·1024 bytes, or accepted, each exactly in its case |
| EquipoForm.CheckAlert | src/components/EquipoForm.tsx:58-66 | the two alert texts for the two refusals, none otherwise |
| EquipoForm.ImageCheckBoundaries | src/components/EquipoForm.tsx:58-67 | exactly 5 MiB is accepted, one byte more refused; 'application/pdf' and 'imagefoo' refused |
| EquipoForm.ParseForm | src/components/EquipoForm.tsx:12-19 | accepted exactly when 1 ≤ \|nombre\| ≤ 50, \|torneoId\| ≥ 1 and \|color\| ≥ 1, copying every field; issues otherwise, only on those three fields |
| EquipoForm.DefaultValues | src/components/EquipoForm.tsx:41-50 | a new form has only color '#000000'; an edit form copies the team with missing optionals as '' |
| EquipoForm.OnRegister | src/components/EquipoForm.tsx:168-190 | a registered field without a default reads as its input's empty value '' (the select's first option is '') and every given value is kept |
| EquipoForm.NewFormDefaultsFail | src/components/EquipoForm.tsx:41-50 | the untouched new form, once registered, fails with exactly the name and tournament minimum-length messages; the default colour passes |
| EquipoForm.EditFormRegistered | src/components/EquipoForm.tsx:41-48 | the edit defaults give every field, so registering changes none of them |
| EquipoForm.EditFormDefaults | src/components/EquipoForm.tsx:41-50 | the untouched edit form passes exactly when the stored team meets the schema, and then yields the team's values |
| EquipoForm.InitialEscudoUrl | src/components/EquipoForm.tsx:32 | the existing team's crest, or '' |
| EquipoForm.BuildPayload | src/components/EquipoForm.tsx:103-106 | form data copied; `escudo` is the crest URL when non-empty, else '/default-team-logo.png', never empty |
| EquipoForm.SubmitRequest | src/components/EquipoForm.tsx:108-112 | update under `equipo.id` exactly when a team is being edited, create otherwise, with that payload |
| EquipoForm.EditKeepsCrest | src/components/EquipoForm.tsx:32-112 | editing without a new upload re-sends the stored crest, or the default when it had none |
| EquipoForm.FormState.constructor | src/components/EquipoForm.tsx:32-33 | crest URL initialised from the team; not uploading |
| EquipoForm.FormState.StartImageUpload | src/components/EquipoForm.tsx:53-69 | an upload starts (flag set, file sent) exactly when the checks accept the file; a refused file raises its alert and changes nothing else; no file does nothing |
| EquipoForm.FormState.FinishImageUpload | src/components/EquipoForm.tsx:87-98 | the answer's URL becomes the crest, or an alert on failure; not uploading afterwards in both cases |
| CrearEquipo.ParseForm | src/app/admin/equipos/crear/page.tsx:19-25 | accepted exactly when nombre, ciudad, color and torneoId are non-empty, copying them with the optional crest URL |
| CrearEquipo.DefaultValues | src/app/admin/equipos/crear/page.tsx:66-72 | every field, crest URL included, starts as '' |
| CrearEquipo.DefaultsFail | src/app/admin/equipos/crear/page.tsx:66-72 | the all-'' defaults fail with the four messages in declaration order |
| CrearEquipo.WithCrest | src/app/admin/equipos/crear/page.tsx:130 | the crest URL is overwritten and the other fields kept |
| CrearEquipo.Page.constructor | src/app/admin/equipos/crear/page.tsx:54-56 | no image file chosen and not uploading; nothing alerted, uploaded, dispatched or navigated yet |
| CrearEquipo.Page.HandleImageChange | src/app/admin/equipos/crear/page.tsx:80-90 | a chosen file replaces the stored one; an empty choice keeps it |
| CrearEquipo.Page.OnSubmit | src/app/admin/equipos/crear/page.tsx:118-144 | without a user only the alert happens; otherwise the chosen file is uploaded, its URL overrides the crest before create is dispatched, a failed upload dispatches nothing, success navigates, failures alert, and `isUploading` is false at the end |

## Left out

- Async thunks (axios calls, `rejectWithValue`): network I/O. Only their fulfilled and rejected payloads appear, as method arguments. The rejected payload is taken to be a string, as the thunks produce it.
- The image-host upload, the upload HTTP request and the `FileReader` preview: third-party service and browser APIs. The host's answer is the `MediaHost.UploadResult` argument, and the preview is not kept.
- zod and react-hook-form internals: only the declared string constraints are modelled, and lengths count characters where zod counts UTF-16 code units.
- `localStorage` and cookies as real storage: the stored token is a field of `AuthSlice.AuthStore`, and the cookie is the `token` argument of `RouteGuard.Middleware`. redux-persist is not modelled.
- The `ProtectedRoute` effect with its `setTimeout`, and the `AuthProvider` effect: asynchronous and timing-based. `isChecking` is an argument of `ProtectedRoute.Render`.
- `router.push`, `NextResponse` and the middleware `matcher`: framework routing. The decision is a `RouteGuard.Decision` value, and navigation after create is a flag.
- JavaScript `number` values (`golesAFavor`, `diferenciaGoles`, `goles`, `totalGoles`) are unbounded integers: no precision loss above 2^53, no exponent form of `String(n)` from 1e21 on (`Text.IntToDecimal` prints digits for every integer), no fractional values and no `NaN` for `||` to skip.
- AdminEquipos.Initials: takes the first two characters, where `substring(0, 2)` takes two UTF-16 code units, so a name starting with a character outside the Basic Multilingual Plane is not modelled.
- Unicode case mapping: `toLowerCase`/`toUpperCase` are modelled on ASCII letters only.
- Goleadores.Stats: the average is an exact `real`; the floating-point division and `toFixed(1)` rounding are not modelled.
- `toLocaleDateString` dates, `console` logging and the `onSuccess`/`onCancel` callbacks of the team form: output only.
- A `null` `torneoId` on the team page, for which `typeof null === 'object'` makes the page read a property of `null`: a team's tournament is a populated object, a bare id, or missing.
- The ordered-fixture and standings computations: no comparator exists in these files; `partidosOrdenados` is stored as received.
- Files that only render (home, public tournament list, admin dashboard, rules, login, navigation bar, footer, providers) are not part of this model.
