# RodadaDgrau betting ledger, in Dafny

RodadaDgrau is a single-page app for a weekly twelve-match pool ("crave o
12/12"). It has three roles:

- **Clients** fill in a ticket with one pick per match (home, draw or away) and ask for top-ups.
- **Bookies** ("cambistas") sell tickets, top up their own clients and keep a 20 % commission.
- **The administrator** edits the slate, validates tickets, resolves top-up requests, adjusts
  balances, registers users and settles with the bookies.

All state lives in memory: the users, the matches, the tickets, the balance requests, the settings,
and a snapshot of the logged-in user.

This project models that ledger as immutable records and pure `State -> State` functions, one per
handler. Money is exact `real`, and the commission is exactly one fifth. Each handler's contract
states its effect and its frame: which records change, by how much, and that nothing else moves.
Lemmas relate handlers to one another:

- approving twice credits twice;
- a sign-up can sign in again;
- the bookie's own totals are its row of the administrator's settlement;
- the settlement splits the whole ticket volume.

Module `Safety` makes the whole app a transition system. Each kind of event is dispatched the way
the top-level view renders its component:

- the login form only when nobody is logged in;
- the admin dashboard only for ADMIN;
- the bookie dashboard only for BOOKIE.

The gating stops at the event kind. The ids, statuses and targets an event carries are arbitrary,
although each view lists fewer. So the transition system over-approximates what the buttons can
send (see "Left out").

`Safety` proves that along every run from the initial state no balance goes negative. No figure
of the settlement table is negative either: a row's volume, top-ups, their sum, commission and
due, and the administration's total.

Modules:

| module | file | models |
|---|---|---|
| `ArrayOps` | array_ops.dfy | `filter`, `find`, `reduce(+)`, and `map` that rewrites matching elements |
| `Types` | types.dfy | the records and enumerations of types.ts, `parseFloat` outcomes, JavaScript truthiness |
| `Constants` | constants.dfy | `INITIAL_MATCHES`, `DEFAULT_SETTINGS` |
| `Store` | store.dfy | the application state, the built-in admin, shared selectors and record updates |
| `App` | app.dfy | the handlers in App.tsx |
| `Admin` | admin.dfy | AdminDashboard.tsx, including the settlement table |
| `Bookie` | bookie.dfy | BookieDashboard.tsx |
| `Betting` | betting.dfy | BettingArea.tsx |
| `Login` | login.dfy | Login.tsx |
| `Wallet` | wallet.dfy | Wallet.tsx |
| `Safety` | safety.dfy | the view dispatch in App.tsx, the money invariant, the stale-snapshot effect |

### Modelling assumption: snake_case field reads

BettingArea.tsx reads `settings.betting_blocked`, `settings.ticket_price` and
`settings.jackpot_prize`. The settings record (types.ts:58-63) declares only the camelCase
`bettingBlocked`, `ticketPrice` and `jackpotPrize`. The model takes those reads to mean the
camelCase fields. Read literally, the snake_case fields are `undefined`. The blocked checks in
`handlePick` and `handleAiFill` would then never fire, and `hasBalance` would always be false.
Worse, the render itself calls `settings.jackpot_prize.toLocaleString()` (BettingArea.tsx:40) and
`settings.ticket_price.toFixed(2)` (BettingArea.tsx:53). Both are method calls on `undefined`, so
they throw a TypeError while rendering. The betting view is the default one after login (App.tsx:54
and App.tsx:128). As written, then, the betting view never renders and no ticket can be submitted
at all.

TicketHistory.tsx has the same mismatch with the ticket record. It calls
`t.potential_prize.toLocaleString()` (TicketHistory.tsx:29) and reads `t.match_info[i]`
(TicketHistory.tsx:48). The ticket record declares `matchInfo` (types.ts:40) and
`potentialPrize` (types.ts:42). Read literally, any non-empty history throws while rendering, before its delete
button (TicketHistory.tsx:84) is drawn. The placing handler switches to the history view right
after adding a ticket (App.tsx:101), so that render would throw too.

App.tsx has no error boundary. A render error therefore unmounts the whole logged-in tree, the
navigation bar and both dashboards included, not just the one view. So as written, once a user
has logged in, no further event can happen. The model takes every snake_case read above to mean
the declared camelCase field. All of `Safety.Step`'s events other than signing in and signing up
describe that corrected reading. So do the betting, history and placing results.

### The session snapshot

`State.current` is the logged-in user's record as `currentUser` holds it. It is a copy. Handlers
that credit the users list (approvals, adjustments, top-ups) do not refresh it. The handlers that
read it (placing a ticket, saving the bookie's key, changing the admin password) write the whole
copy back over the list record. Lemmas about the listed balance therefore assume `Store.Synced`.
`Safety.SelfApprovalLostOnNextTicket` shows what happens without that assumption.

## Model

| member | source | states |
|---|---|---|
| ArrayOps.Filter | App.tsx:158 | `filter` keeps only elements of the input that pass, and keeps every element that passes |
| ArrayOps.FilterAppend | components/BookieDashboard.tsx:22-24 | filtering a concatenation filters each part and concatenates, so survivors keep their relative order |
| ArrayOps.Find | components/Login.tsx:39-42 | `find` succeeds exactly when some element passes, and returns a passing element of the list |
| ArrayOps.FindFirst | components/Login.tsx:39-42 | `find` returns the element at the first passing position |
| ArrayOps.FindAt | components/AdminDashboard.tsx:35 | a successful `find` has a position: the element found sits there and nothing before it passes |
| ArrayOps.SumAppend | components/AdminDashboard.tsx:115-127 | the `reduce(+)` total of a concatenation is the sum of the parts' totals |
| ArrayOps.SumNonNegative | components/AdminDashboard.tsx:119-121 | a `reduce(+)` over non-negative terms is non-negative |
| Types.StatusOf | components/AdminDashboard.tsx:34 | resolving a request yields APPROVED or REJECTED, never PENDING, and APPROVED exactly for an approval |
| Constants.DecimalRoundTrip | constants.tsx:5 | the decimal text of a match number reads back as that number |
| Constants.NatToStringInjective | constants.tsx:5 | different match numbers give different texts |
| Constants.InitialMatchesShape | constants.tsx:4-10 | the initial slate has 12 matches, as many as pick slots; ids `match-1`..`match-12` are pairwise distinct; match i has teams "Time Casa i" / "Time Fora i"; no result is set |
| Constants.DefaultSettingsShape | constants.tsx:12-17 | betting starts open, the ticket price is 2.0 (positive) and the jackpot 1000.0 |
| Store.DefaultAdmin | App.tsx:22-30 | the built-in user is an ADMIN with username "admin" and password "admin", balance 0, no bookie, created at start time |
| Store.InitialState | App.tsx:19-52 | the first start holds only the built-in admin, the twelve initial matches, no tickets, no requests, the default settings, and nobody logged in |
| Store.ClientsOf | components/BookieDashboard.tsx:22 | the bookie's clients are exactly the users whose `parentId` is the bookie's id |
| Store.TicketsUnder | components/BookieDashboard.tsx:23 | the bookie's tickets are exactly the tickets whose `parentId` is the bookie's id |
| Store.RequestsUnder | components/BookieDashboard.tsx:24 | the bookie's requests are exactly the requests whose `parentId` is the bookie's id |
| Store.FindUser | components/Wallet.tsx:20 | the parent lookup returns a listed user with that id, and fails exactly when no user has it |
| Store.FindRequest | components/AdminDashboard.tsx:35-36 | the request lookup returns a listed request with that id, and fails exactly when none has it |
| Store.CreditBalance | components/AdminDashboard.tsx:39 | only the balance of users with the requester's id changes, and it rises by the amount |
| Store.CreditFromBookie | components/BookieDashboard.tsx:47-56 | the target's balance and bookie-deposit total both rise by the amount, a missing total counting as 0; others are unchanged |
| App.MatchInfoOf | App.tsx:87 | a ticket's team names are the slate's, match by match and in order |
| App.PlaceTicket | App.tsx:71-99 | nothing happens without a logged-in user; the new ticket is prepended and older tickets keep their order; it copies price, jackpot, user id, name and bookie link, the picks, and the slate's team names; a covered balance gives VALIDATED with exactly the price debited, an uncovered one PENDING with no debit; only records with the user's id are replaced |
| App.PlaceTicketLedger | App.tsx:75-80 | with the snapshot in step with the list, the buyer's listed balance drops by exactly the price when covered and not at all otherwise; every other user is unchanged and the snapshot stays in step |
| App.PlaceTicketKeepsBalanceNonNegative | App.tsx:77-80 | a non-negative balance stays non-negative after a ticket |
| App.RequestBalance | App.tsx:106-118 | nothing happens without a logged-in user; otherwise a PENDING request for the amount, addressed to the user's bookie, is prepended; no balance changes |
| App.DeleteTicket | App.tsx:158 | the history keeps exactly the tickets whose id differs |
| App.DeleteTicketExact | App.tsx:158 | deleting a ticket with a unique id removes that ticket only, keeping the others in order |
| App.LogIn | App.tsx:65 | logging in only sets the session user |
| App.LogOut | App.tsx:66-69 | logging out only clears the session user |
| Admin.UpdateMatch | components/AdminDashboard.tsx:26-28 | only the named field of the match with that id changes; tickets are untouched, so issued team names survive edits |
| Admin.ActionTicket | components/AdminDashboard.tsx:30-32 | tickets with that id take the new status; everything else about every ticket is unchanged; the bookie dashboard's handler is the same code, with no check of whose ticket it is |
| Admin.ActionTicketHasNoTransitionGuard | components/AdminDashboard.tsx:30-32 | the handler moves a WON ticket to any status, PENDING included; no button sends PENDING or CANCELLED (AdminDashboard.tsx:286-288, BookieDashboard.tsx:148), so this is a fact about the handler, not about what the views offer |
| Admin.ActionRequest | components/AdminDashboard.tsx:34-42 | an unknown id changes nothing; an approval adds the amount to the requester's balance only, never to the bookie-deposit total; a rejection moves no balance; requests with that id take the status |
| Admin.ApproveTwiceCreditsTwice | components/AdminDashboard.tsx:35-42 | with no PENDING check, approving the same request twice credits twice the amount; this holds for any request list, even one with repeated ids, because both lookups find the first request with that id; the views list only PENDING requests (AdminDashboard.tsx:169), so no button approves a request twice: this is a fact about the handler alone |
| Admin.AdjustBalance | components/AdminDashboard.tsx:46-68 | a NaN or non-positive amount changes nothing; ADD raises the target's balance by the amount; REMOVE lowers it only when the result stays at least 0; other users are unchanged |
| Admin.RemoveNeverCreatesNegative | components/AdminDashboard.tsx:56-63 | after a REMOVE, any negative balance was already there unchanged |
| Admin.DeleteUser | components/AdminDashboard.tsx:70-79 | deleting yourself, or not confirming, changes nothing; otherwise exactly the users with that id go; tickets and requests are kept |
| Admin.RegisterUser | components/AdminDashboard.tsx:81-101 | one user is appended with balance 0; a bookie link is stored exactly for a CLIENT whose chosen parent is not "none" |
| Admin.ChangePassword | components/AdminDashboard.tsx:103-110 | an empty password is ignored; otherwise the admin's snapshot with the new password replaces its record and becomes the session user |
| Admin.SetPixKey | components/AdminDashboard.tsx:308 | only the default PIX key changes |
| Admin.ToggleBetting | components/AdminDashboard.tsx:309 | only the blocked flag changes, to its opposite |
| Admin.Bookies | components/AdminDashboard.tsx:113 | the settlement lists exactly the BOOKIE users |
| Admin.DirectTickets | components/AdminDashboard.tsx:114 | direct sales are exactly the tickets with a missing or empty bookie link |
| Admin.SettlementRowOf | components/AdminDashboard.tsx:117-124 | a bookie's row totals its tickets and its clients' top-ups; the commission is one fifth of the ticket volume; the bookie owes four fifths of the volume plus all top-ups |
| Admin.Settlement | components/AdminDashboard.tsx:117 | one settlement row per bookie, in list order |
| Admin.CommissionsAreOneFifth | components/AdminDashboard.tsx:123 | the total commission is one fifth of all bookie ticket volume |
| Admin.DirectVolume | components/AdminDashboard.tsx:114-115 | the direct volume is not negative while no ticket costs a negative amount |
| Admin.VolumeOfPartNonNegative | components/AdminDashboard.tsx:115-119 | any selection of tickets whose costs are all non-negative has a non-negative volume |
| Admin.TotalAdminDue | components/AdminDashboard.tsx:127 | the administration is owed four fifths of every bookie's ticket volume, plus every top-up, plus the direct volume |
| Admin.StrayTickets | components/AdminDashboard.tsx:114-118 | the stray tickets are exactly those whose non-empty bookie link names no listed bookie, so neither filter picks them up |
| Admin.PartitionTickets | components/AdminDashboard.tsx:114-119 | with distinct, non-empty bookie ids, the bookie volumes, the direct volume and the stray volume add up to the whole volume |
| Admin.SettlementCoversEveryTicket | components/AdminDashboard.tsx:113-127 | with sound bookie ids, each ticket counts exactly once across the rows, direct sales and stray tickets; the administration is owed the whole volume minus the stray volume and the commissions, plus top-ups; with every link naming a bookie there is no stray volume |
| Admin.DeletedBookieTicketsStray | components/AdminDashboard.tsx:70-79 | once a bookie is deleted, every ticket it sold is stray: it is in no bookie's row and not a direct sale |
| Admin.RowKeptAfterDelete | components/AdminDashboard.tsx:76 | a delete leaves a bookie's row as it was whenever none of that bookie's clients carries the deleted id; deletes elsewhere in the list do not matter |
| Admin.DeleteUserDropsDues | components/AdminDashboard.tsx:76-127 | a confirmed delete lowers the administration's total by exactly the deleted bookies' dues, provided no deleted user is a client of a surviving bookie |
| Admin.DeletingBookieDropsItsDue | components/AdminDashboard.tsx:76-127 | deleting a bookie that alone has its id, and is no other bookie's client, lowers the administration's total by four fifths of its ticket volume plus all its clients' top-ups |
| Bookie.Totals | components/BookieDashboard.tsx:26-29 | the bookie's volume and deposits total its own tickets and clients, with a missing deposit total as 0; the commission is one fifth of the volume; the bookie owes four fifths of it plus deposits |
| Bookie.TotalsMatchSettlement | components/BookieDashboard.tsx:26-29 | the bookie's own figures equal its row in the administrator's settlement |
| Bookie.SaveSettings | components/BookieDashboard.tsx:31-36 | the bookie's snapshot with the new key replaces its record and becomes the session user; other users are unchanged |
| Bookie.SaveSettingsOnlyPixKey | components/BookieDashboard.tsx:31-34 | with the snapshot in step, only the bookie's PIX key changes |
| Bookie.AddBalance | components/BookieDashboard.tsx:38-58 | an invalid amount changes nothing; otherwise the target's balance and bookie-deposit total rise by exactly the amount, and other users are unchanged |
| Bookie.ActionRequest | components/BookieDashboard.tsx:60-67 | only requests addressed to this bookie are handled; an approval credits balance and deposit total by the amount; the status is set either way |
| Bookie.ForeignRequestIgnored | components/BookieDashboard.tsx:61-62 | a request addressed to another bookie changes nothing |
| Bookie.OfferedTickets | components/BookieDashboard.tsx:142 | the tickets offered for validation are exactly the bookie's own PENDING tickets |
| Bookie.ValidateOfferedTicket | components/BookieDashboard.tsx:69-71 | the bookie's status handler, applied to an offered ticket with a unique id, moves only that ticket from PENDING to VALIDATED |
| Bookie.RegisterClient | components/BookieDashboard.tsx:73-88 | one CLIENT is appended, linked to the bookie, with balance 0 and deposit total 0 |
| Bookie.RegisterClientJoinsBookie | components/BookieDashboard.tsx:83-84 | the new client is among the bookie's clients and leaves its deposit total unchanged |
| Betting.InitialSlots | components/BettingArea.tsx:14 | there are twelve pick slots, all empty |
| Betting.HandlePick | components/BettingArea.tsx:17-22 | while blocked a click changes nothing; otherwise only the clicked slot changes, to the chosen value |
| Betting.AiFill | components/BettingArea.tsx:24-30 | while blocked nothing changes; otherwise the twelve slots become the twelve suggested picks, each in its own slot |
| Betting.AiFillThenSubmit | components/BettingArea.tsx:24-33 | while betting is open, a filled-in suggestion is complete, and submitting it passes on exactly the suggested picks |
| Betting.FilledCount | components/BettingArea.tsx:140 | the label's count of filled slots never exceeds the number of slots |
| Betting.FilledCountFull | components/BettingArea.tsx:140 | the count equals the number of slots exactly when no slot is empty |
| Betting.IsComplete | components/BettingArea.tsx:32 | the selection is complete exactly when the label's count reaches the number of slots |
| Betting.Submit | components/BettingArea.tsx:132-133 | a selection is passed on exactly when every slot is filled and betting is open, and the picks are the slot values |
| Betting.HasBalanceMeansAutoValidated | components/BettingArea.tsx:33 | the "balance covers it" badge holds exactly when placing the ticket makes it VALIDATED |
| Betting.ClicksFill | components/BettingArea.tsx:17-22 | while betting is open, a slot once filled stays filled and a clicked slot is filled |
| Betting.FullSlateSubmits | components/BettingArea.tsx:14-33 | clicking all twelve slots from scratch enables submission of a twelve-pick ticket |
| Login.FindLogin | components/Login.tsx:39-42 | login succeeds exactly when some user matches on username ignoring case and on the exact password, and returns such a user |
| Login.SignIn | components/Login.tsx:38-47 | signing in never changes the users list; on a match the found user becomes the session user, otherwise nothing changes |
| Login.SignUp | components/Login.tsx:20-36 | a username taken ignoring case is refused with nothing changed; otherwise one CLIENT with balance 0 and no bookie is appended and logged in |
| Login.SignUpKeepsUsernamesUnique | components/Login.tsx:21-36 | sign-up keeps usernames unique ignoring case |
| Login.SignUpThenSignIn | components/Login.tsx:36-44 | a new user can sign in with the same password and any casing of the username, and gets that very record |
| Login.DefaultAdminSignsIn | components/Login.tsx:39-44 | on first start, the built-in admin signs in with password "admin" and any casing of "admin", and becomes the session user |
| Login.AdminRegisterMayDuplicate | components/AdminDashboard.tsx:87-98 | admin registration does not check usernames, so it can break the uniqueness sign-up keeps |
| Wallet.TargetFor | components/Wallet.tsx:16-25 | a user whose link resolves to a user with a non-empty key pays that key, naming "Cambista" and the bookie's name; otherwise the default key with "Administração" |
| Wallet.DeletedBookieFallsBack | components/Wallet.tsx:19-24 | once the bookie is deleted, its clients pay the administration's key |
| Wallet.SavedBookieKeyIsUsed | components/Wallet.tsx:19-24 | after a bookie saves a non-empty key, its clients pay into it |
| Wallet.Deposit | components/Wallet.tsx:27-35 | a NaN or non-positive amount changes nothing; otherwise a PENDING request for the amount is filed; no balance ever changes |
| Safety.StepGating | App.tsx:120-153 | the login form acts only while nobody is logged in, the other views only while somebody is, and each dashboard only for its own role; an event kind the view does not offer changes nothing |
| Safety.StepKeepsSlate | App.tsx:120-160 | no event changes the ticket price, the jackpot or the number of matches |
| Safety.RunKeepsSlate | App.tsx:120-160 | no run of events changes the ticket price, the jackpot or the number of matches |
| Safety.ReachableSlateHasTwelveMatches | App.tsx:19-160 | every state reached from the first start has twelve matches, one per pick slot, and the default price |
| Safety.InitialGood | App.tsx:19-52 | the first-start state has sound balances and a positive price |
| Safety.StepGood | App.tsx:120-160 | every event the views offer keeps balances and deposit totals non-negative, request amounts positive, ticket costs non-negative and the price positive |
| Safety.RunGood | App.tsx:120-160 | any run of events keeps the state good |
| Safety.GoodSettlementNonNegative | components/AdminDashboard.tsx:117-127 | in a good state no settlement figure is negative: each row's volume, top-ups, their sum, commission and due, and the administration's total |
| Safety.ReachableStatesSound | App.tsx:19-160 | from the initial state, no run of events makes a balance, a settlement row figure or the administration's total negative |
| Safety.SelfApprovalLostOnNextTicket | App.tsx:97-99 | an admin who approves their own top-up and then buys a ticket loses the credit: the stale snapshot is written back |

## Left out

- JSX rendering, tabs, `alert` and `confirm` are left out. The confirmation is a boolean parameter of `Admin.DeleteUser`.
- `prompt` and the amount text fields become a parsed amount (`Types.Parsed`: NaN or a number). `parseFloat` yielding `Infinity` is not modelled.
- localStorage loading and saving with JSON (App.tsx:14-63) is persistence I/O. The model starts from the first-start state.
- geminiService.ts calls an external language model. Its suggestion is an input of `seq<Pick>`. Malformed or non-H/D/A values are not modelled.
- Betting.AiFill requires a twelve-pick suggestion. The service guarantees that length on every path (geminiService.ts:41-48), and the handler does not check it.
- supabaseClient.ts is client configuration only and is not part of this model.
- Navbar.tsx and TicketHistory.tsx are display only, apart from the history's render error described above. The history's delete callback is modelled as `App.DeleteTicket`.
- `Math.random` ids and `Date.now()` become the parameters `id` and `now`. Id uniqueness is assumed only where a lemma says so.
- JavaScript floating point, `toFixed` and `toLocaleString` are not modelled. Money is exact `real`.
- `toLowerCase` is modelled for the ASCII letters A-Z only. Other characters are left as they are.
- React `setState` batching and concurrency are not modelled. Each handler is one atomic transition on the whole state.
- Betting.HandlePick, Betting.AiFill, Betting.Submit and Betting.HasBalanceMeansAutoValidated read the camelCase settings fields where the component reads snake_case ones. See the modelling assumption above.
- Betting.HandlePick requires the slot index to be within the slot array. A JavaScript write past the end, which would lengthen the array, is not modelled. The view offers one index per match (BettingArea.tsx:80). Every reachable state has twelve matches (`Safety.ReachableSlateHasTwelveMatches`), and the slots hold twelve entries (`Betting.InitialSlots`, `Betting.AiFill`), so the index is always in range.
- Admin.PartitionTickets and Admin.SettlementCoversEveryTicket require distinct, non-empty bookie ids. Ids are random strings (`Math.random`), so a clash is not modelled.
- Deleting a bookie keeps its tickets and its clients. Their links then name no listed bookie, so neither a settlement row nor the direct volume counts the tickets (`Admin.DeletedBookieTicketsStray`). The administration's total drops by the bookie's whole due: four fifths of its ticket volume plus its clients' top-ups (`Admin.DeletingBookieDropsItsDue`).
- Admin.DeleteUserDropsDues requires that no deleted user is a client of a surviving bookie. Deleting such a client also removes its top-ups from its bookie's row, and that drop is not stated.
- Safety.StepGating gates each event by its kind only: login state and role. The ids, statuses, targets and slots an event carries are unconstrained. Each view offers fewer:
  - `Place` takes any slot array, not only one built by clicks and suggestions.
  - `AdminResolve` takes any request id; the admin view lists only PENDING requests without a bookie (AdminDashboard.tsx:169).
  - `AdminSetStatus` takes any ticket and status; the admin view offers VALIDATED, WON and LOST on direct tickets (AdminDashboard.tsx:278-288).
  - `BookieResolve` takes any request id; the bookie view lists only its own PENDING requests (BookieDashboard.tsx:123).
  - `BookieSetStatus` takes any ticket and status; the bookie view offers VALIDATED on its own PENDING tickets (BookieDashboard.tsx:142-148).
  - `BookieTopUp` takes any user; the bookie view lists only its own clients (BookieDashboard.tsx:173-187).
  - `DeleteTicket` takes any ticket id; the history lists only the user's own tickets (App.tsx:157).
  
  The runs therefore over-approximate what the buttons can send, and the invariants proved over runs (`Safety.RunGood`, `Safety.ReachableStatesSound`, `Safety.ReachableSlateHasTwelveMatches`) hold a fortiori.
- A raffle or draw of winning tickets does not exist in these files. Ticket outcomes only change through the status handlers.
