# Tournament money and statistics bookkeeping, in Dafny

This project models the bookkeeping core of a console tournament web
application: how it settles a match (fetching the match from a game-statistics
provider, mapping it onto the tournament's registrants, writing result rows,
updating each user's running kills and wins, and crediting winners with the
tournament's prize pool), how donations and sponsor credits grow that pool, how
a user cashes out a balance through a payment provider, and how the sponsor table
is seeded.

Four modules follow the program's files:

- `Models` (models.dfy): the persisted records (User, Tournament, Donation,
  Sponsor, TournamentMatch, MatchResult, Registration, Payout), their column
  defaults, and the derived prize pool `TotalPrizePool`.
- `PubgApi` (pubg_api.dfy): the shard choice, the shapes of the two provider
  documents, and the extraction of one player's stats from a match document.
  The provider is a value `StatsProvider` that maps (shard, player name) and
  (shard, match id) to the document the provider would return. An absent key
  stands for a non-200 response.
- `Handlers` (handlers.dfy): every request handler as a function from a
  snapshot of the whole store (`Db`) and the handler's inputs to an outcome and
  the new snapshot, together with the lemmas about them. Settlement is
  specified by `SettleFrom`, the registration loop as a recursion that threads
  the users and the result rows. It is related to a reference view (`Wins`,
  `Kills`, `Rows`, `AnyAbort`) that judges each registration on its own.
- `App` (store.dfy): the store as a class `Store` whose fields are the tables.
  Its methods do what the handlers do, step by step. Each method is proved to
  leave `Snapshot()` equal to the matching `Handlers` function of the old
  snapshot. The participant loop of settlement is the method `Settle`, a
  `while` loop over the registrations on pending copies of the users and the
  result rows. The lookups of one turn of that loop are `ParticipantStep`.

Money is integer cents. The sponsor credit of 0.50 is `SponsorCredit == 50`.
The payment provider's answer is a `bool` parameter. The authenticated caller
is a user id parameter.

A handler commits all of its changes or none. That is how the database session
behaves: an exception rolls the uncommitted changes back. The model therefore
treats two lookups that raise in the settlement loop as a failed request that
changes nothing (`SyncCrashed`):

- a registration whose user does not exist (`User.query.get` gives `None` at
  app.py:102, and reading its handle at app.py:104 raises);
- a player document whose `data` list is empty (app.py:112, `[0]` raises).

A player lookup whose `data` list is empty is therefore not skipped: the
indexing at app.py:112 raises and the whole sync fails. A missing `winPlace`
reads as placement 0 (pubg_api.py:40). A match document that is an empty JSON
object counts as a failed fetch, because it is falsy at app.py:91
(`PubgApi.Truthy`).

## Model

| member | source | states |
|---|---|---|
| `Models.TotalPrizePool` | models.py:41-43 | the pool is derived from the base, the donation total and the sponsor-credit total on every read, and is never below the base while the other two totals are not negative |
| `Models.NewUser` | models.py:7-20 | a new user starts with balance 0, 0 kills and 0 wins, and with no PayPal email or platform handles |
| `Models.NewTournament` | models.py:28-38 | a new tournament starts with donation and sponsor-credit totals 0, status upcoming and capacity 100 |
| `Models.FreshTournamentPoolIsBase` | models.py:33-43 | the prize pool of a new tournament equals its base funding |
| `Models.NewMatchResult` | models.py:66-72 | a result row defaults to 0 kills, placement 0 and no win |
| `Models.NewPayout` | models.py:80-86 | a payout row defaults to status pending and has no transaction id |
| `Models.NewDonation` | models.py:45-50 | a donation without a donor name is recorded as "Anonymous" |
| `PubgApi.Lower` | pubg_api.py:15 | lower-casing keeps the length and lower-cases every character on its own |
| `PubgApi.Shard` | pubg_api.py:15-23 | the shard is "xbox" exactly when the lower-cased platform is "xbox", and "psn" otherwise |
| `PubgApi.IsXboxSpellings` | pubg_api.py:15 | the platforms sent to the xbox shard are exactly the four-letter spellings of xbox in any case |
| `PubgApi.IsXbox` | pubg_api.py:15 | the platform test shared by both requests and the handle choice: the lower-cased platform is "xbox" (characterised by `IsXboxSpellings`) |
| `PubgApi.XboxSeriesUsesPsnShard` | pubg_api.py:15 | the column's own platform value "Xbox Series" (models.py:36) is sent to the psn shard |
| `PubgApi.GetPlayerStats` | pubg_api.py:13-20 | the player lookup answers exactly when the provider has an answer for (shard of the platform, gamertag), and gives that answer |
| `PubgApi.GetMatchDetails` | pubg_api.py:22-28 | the match request answers exactly when the provider has an answer for (shard of the platform, match id), and gives that answer |
| `PubgApi.LookupsIgnoreCase` | pubg_api.py:15-23 | two platforms with the same lower-cased spelling get the same answers from both requests |
| `PubgApi.Truthy` | app.py:91 | a match document is falsy exactly when it is the empty JSON object |
| `PubgApi.IsParticipantFor` | pubg_api.py:34-37 | an item is the player's entry when its type is participant and its stats carry the account id (its effect on extraction: `ExtractFrom`, `ExtractIgnoresNonParticipant`) |
| `PubgApi.StatsOf` | pubg_api.py:38-42 | missing kills read as 0; a missing winPlace gives placement 0 and no win; win holds exactly when placement is 1 |
| `PubgApi.ExtractFrom` | pubg_api.py:33-43 | returns nothing exactly when no participant item has the account id; otherwise returns the stats of the first item that is such a participant |
| `PubgApi.ExtractPlayerStats` | pubg_api.py:30-43 | an absent `included` list yields nothing; an extracted result has win exactly when placement is 1 |
| `PubgApi.ExtractSelectsFirst` | pubg_api.py:33-42 | when the first matching participant is at position i, extraction returns that item's stats |
| `PubgApi.ExtractIgnoresNonParticipant` | pubg_api.py:34 | inserting an item whose type is not participant anywhere never changes the result, even if it carries the player id |
| `Handlers.Donate` | app.py:53-65 | unknown tournament: not found, store unchanged; amount 0 or less: store unchanged; otherwise the donation total and pool rise by exactly the amount and one Donation row is appended, with nothing else changed |
| `Handlers.DonateKeepsLedger` | app.py:58-61 | when every tournament's donation total is the sum of its donation rows, it still is after a donation |
| `Handlers.OtherHandlersKeepLedger` | app.py:67-217 | sponsor credit, payout, seeding and settlement all keep every donation total equal to the sum of its donation rows |
| `Handlers.EarnSponsorCredit` | app.py:67-76 | unknown tournament: store unchanged; otherwise the sponsor-credit total and pool rise by exactly 50 cents, with nothing else changed |
| `Handlers.RequestPayout` | app.py:141-182 | the outcome is not found, unauthorized, insufficient balance, rejected or succeeded, in the code's order; only success changes the store; it appends one completed Payout for the whole balance and zeroes only that balance |
| `Handlers.PayoutConservesMoney` | app.py:173-177 | after a successful payout the new payout amount plus the remaining balance equal the old balance, and the amount is positive |
| `Handlers.SeedSponsors` | app.py:211-214 | the seed set has three sponsors |
| `Handlers.InitSponsors` | app.py:207-217 | an empty sponsor table gets exactly the three seed sponsors; otherwise the store is unchanged |
| `Handlers.InitSponsorsIdempotent` | app.py:210 | seeding a second time changes nothing |
| `Handlers.Handle` | app.py:104 | the handle read is the xbox gamertag when the requests go to the xbox shard, and the psn id when they go to the psn shard |
| `Handlers.StepOf` | app.py:102-115 | one turn of the participant loop: abort, skip, or a credit with the extracted stats (its cases: `StepCases`) |
| `Handlers.StepCases` | app.py:102-115 | a turn aborts exactly when the user is missing or its player lookup has an empty `data` list; a credit goes to an existing user with a non-empty handle and has win exactly when placement is 1 |
| `Handlers.SettleFrom` | app.py:100-130 | the participant loop over the registrations in order, threading the users and the result rows; its meaning is given by `SettleAborts`, `SettleKeepsProfiles`, `SettleRows` and `SettleCredits` |
| `Handlers.AwardIsCredited` | app.py:125-130 | crediting one extraction adds its kills, and adds one win and one pool to the balance exactly when it won |
| `Handlers.PrizeIsProduct` | app.py:127-130 | the prize for w wins, the pool paid once per win, is w times the pool |
| `Handlers.FetchedMatch` | app.py:90-93 | settlement goes on with nothing when the match request fails or returns the empty object, and otherwise with the document returned |
| `Handlers.MissingHandleSkips` | app.py:104-107 | a registrant with no handle, or an empty one, on the tournament's platform is skipped |
| `Handlers.Rows` | app.py:115-123 | each row written belongs to the new match, has win exactly when its placement is 1, and belongs to a registrant; there are at most as many rows as registrations |
| `Handlers.TournamentRegistrations` | app.py:100 | the registrations processed are those of the tournament, each as many times as the table holds it, and no others |
| `Handlers.Sync` | app.py:78-134 | unknown tournament, missing match id, failed or empty fetch and a raising lookup each leave the store unchanged; success appends exactly one TournamentMatch for (tournament, match id) and changes only users and results |
| `Handlers.SettleAborts` | app.py:101-112 | the participant loop fails exactly when some registration has no user or an empty `data` list |
| `Handlers.SettleKeepsProfiles` | app.py:101-130 | the loop keeps every user and every user's platform handles |
| `Handlers.SettleRows` | app.py:115-123 | the loop appends exactly one result row per successful extraction, in registration order, with the extracted kills, placement and win |
| `Handlers.SettleCredits` | app.py:125-130 | after the loop every user's kills rose by its extracted kills and its wins by its number of wins; its balance rose by its wins times the same unchanged pool |
| `Handlers.SyncEffect` | app.py:95-132 | once the match is fetched, sync fails exactly when some lookup raises; on success its rows and every user's new totals are those of the reference view, with the pool read at settlement time |
| `Handlers.NegativePoolWinLowersBalance` | app.py:127-130 | at a negative pool a win lowers the winner's balance |
| `Handlers.SyncNeverDecreasesBalance` | app.py:127-130 | with a pool that is not negative, no sync lowers any balance |
| `Handlers.SyncUncreditedUserUnchanged` | app.py:106-115 | a registrant left without an extraction (no handle, no `data`, or no matching participant) gets no result row and keeps balance, kills and wins |
| `Handlers.SyncSkipsMissingHandle` | app.py:104-107 | a registrant without a handle on the tournament's platform gets no result row and keeps balance, kills and wins |
| `Handlers.SyncNonWinnerKeepsBalance` | app.py:127-130 | a user with no win keeps its balance and its win count |
| `Handlers.SyncedKeepsInputs` | app.py:95-132 | a successful sync changes neither the tournaments nor the registrations nor any handle, and no lookup in it raised |
| `Handlers.SyncedUser` | app.py:125-130 | after a successful sync a user is credited with exactly its own wins and kills at the pool read at settlement time |
| `Handlers.ResyncCreditsTwice` | app.py:95-130 | syncing the same match twice succeeds twice, adds two TournamentMatch rows and credits each winner the pool and a win twice |
| `App.Store.DonateToTournament` | app.py:53-65 | the store after the handler is `Handlers.Donate` of the store before |
| `App.Store.EarnSponsorCredit` | app.py:67-76 | the store after the handler is `Handlers.EarnSponsorCredit` of the store before |
| `App.Store.SyncTournamentStats` | app.py:78-134 | the handler, which commits the loop's pending users and rows only at the end, leaves the store as `Handlers.Sync` describes |
| `App.Settle` | app.py:100-130 | the `while` loop over the registrations computes what `Handlers.SettleFrom` describes |
| `App.ParticipantStep` | app.py:102-115 | the lookups for one registration give the turn `Handlers.StepOf` describes |
| `App.Store.RequestPayout` | app.py:141-182 | the store after the handler is `Handlers.RequestPayout` of the store before |
| `App.Store.InitSponsors` | app.py:207-217 | the store after the handler is `Handlers.InitSponsors` of the store before |

`App.SettlementExample` is a client of the store that proves one scenario, with
the lemmas `App.ExampleParticipantWins` and `App.ExampleSyncPaysWinner`. A
tournament with a base of 100.00 receives a donation of 50.00 before its match
is settled. Its winner then has balance 150.00, and after a payout balance 0,
with one completed payout of 150.00.

## Left out

- The HTTP requests of `get_player_stats` and `get_match_details` (pubg_api.py:16-20, 24-28) are network I/O. Their answers are the `StatsProvider` input, keyed by the shard the request would go to.
- The PayPal SDK configuration and call, and the request body with its batch id, email subject, note and `:.2f` amount (app.py:29-33, 154-172), are a foreign library. The provider's answer is the `providerAccepts` parameter. The Payout's `paypal_transaction_id` is never written by the code and stays absent.
- Flask routing, `flash` messages, redirects, templates, `login_manager`, `load_user`, the `@login_required` guard, and the views `index`, `tournaments`, `update_profile`, `login`, `register`, `logout`, `dashboard`, `page_not_found` and `static_preview` are web plumbing. The caller's identity is a parameter of the payout handler. The other guarded handlers are modelled as called by a logged-in user.
- SQLAlchemy sessions, commits and the configuration at app.py:11-33 are not modelled. The store lives in memory, and each handler acts atomically. Surrogate ids are map keys and sequence indices. Timestamps and dates are not modelled, because they come from the clock.
- Password hashing (models.py:22-26) wraps werkzeug. The hash column is only a field.
- Float money and the `float(...)` parsing of form fields are not modelled. Amounts are integer cents, and a form value that fails to parse is not modelled.
- `add_tournament` (app.py:185-205) is a single insert after form parsing and is not modelled as a handler. `NewTournament` gives the column defaults of the row it creates; the description "TPP Tournament" it also sets (app.py:197) is not part of `NewTournament`.
- Race conditions between concurrent syncs or payouts are concurrency concerns and out of scope.
- Python's `str.lower` lower-cases all of Unicode, and the model lower-cases ASCII only. No other character lower-cases to `x`, `b` or `o`, so the comparison with "xbox" comes out the same.
- JSON values of unexpected types are not modelled: a non-list `included`, non-integer kills or winPlace, a lookup entry without `id`, or a `null` account id. A missing `playerId` never matches an account id.
- Registrations are not unique in the code. The model allows duplicates, and a user registered twice is processed, and credited, twice.
- A provider request that raises is not modelled: a connection error or timeout in `requests.get`, or `response.json()` on a 200 answer whose body is not JSON (pubg_api.py:17-19, 25-27). Such a call inside the participant loop (app.py:110) would fail the whole sync with nothing committed. `StatsProvider` only answers or declines (a non-200 response).
- The provider is a fixed value: a repeated request for the same (shard, name) gets the same answer every time. This holds for a user registered twice and for the two syncs of `ResyncCreditsTwice`. A real second request can fail, for example when rate-limited.
- `filter_by(...).all()` at app.py:100 has no ORDER BY, so the database may return the registrations in any order. The model processes them in table order, and "in registration order" in `SettleRows` is that choice.
- Handlers.SyncNeverDecreasesBalance: requires a pool that is not negative. The code never checks the sign of the base prize that `add_tournament` stores, and `NegativePoolWinLowersBalance` shows that a win then lowers a balance.
