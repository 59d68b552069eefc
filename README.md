# Stars Jackpot: a verified model of the round engine

Stars Jackpot is a Telegram mini-app lottery. Users stake Telegram Stars into a round,
and every Star buys ten tickets. A user may place at most three bets per round. Once a
round holds `maxParticipants` bets, a winning ticket is drawn. The holder of that ticket
gets the pot less the house fee, and a new round with the same configuration opens.
Around this engine sit referral links, one-off tasks, a per-address rate limiter, an
error handler and the mini app's countdown display.

The Dafny project models:

- `models.dfy` (module `Models`): the stored documents (users, rounds with their
  embedded bets, jackpots, tasks, transactions). It holds their enumerations and
  defaults, the `participantsCount` virtual, and the two unique indexes as predicates.
- `rounds.dfy` (module `Rounds`): one round's arithmetic.
  - Ticket ranges are booked contiguously from 1.
  - `FindWinner` is the draw's scan, a loop with a `break`, proved to find the one
    range that holds the ticket.
  - The fee and the prize.
  - Settling a round and opening the next one.
- `codes.dfy` (module `Codes`): the referral link, and recovering the referrer's
  Telegram id from the code with JavaScript's first-occurrence `replace`.
- `lottery.dfy` (module `Lottery`): the store and the route handlers. Each handler is
  specified twice:
  - by an outcome function on a value of the whole store (`Db`), about which the lemmas
    are proved;
  - by a method of `class Store`, which updates the fields in place the way the handler
    does, and whose `ensures` ties the new state to that function.

  The handlers modelled are `GET /current`, `POST /bet` with `determineWinner`,
  `POST /use-referral` and `POST /verify/:taskId`. A store invariant (`StoreValid`) is
  proved to be kept by every modelled handler.
- `middleware.dfy` (module `Middleware`):
  - the fixed-window rate limiter, as a class holding the request dictionary; its
    purge loop is proved against a pure specification;
  - the error handler's choice of status code and body.
- `countdown.dfy` (module `Countdown`): `formatTime`, with `Math.floor` and JavaScript's
  truncating `%` written out; the once-a-second countdown tick.

Some collaborators become parameters:

- the winning ticket, which comes from a randomness service;
- the clock (`now`);
- the Telegram subscription/share verifier's answer (`verified`);
- `NODE_ENV`.

Document ids (Mongo ObjectIds) are natural numbers, and a transaction's `round` holds
the round's number. Stars amounts are integers. Balances and prizes are exact reals.

## Model

| member | source | states |
|---|---|---|
| Models.NewUser | jackpot-models.js:5-69 | a new user has the given Telegram id, zero balance, winnings, stakes and referral earnings, no referrer, empty referral and task lists, language `ru`, not anonymous, light mode, both dates now |
| Models.NewRound | jackpot-models.js:83-159 | a new round is `pending`, starts now, has no bets, pot 0, 0 tickets, `maxParticipants` 5, minimum bet 1, fee 5%, no winner and no end time |
| Models.OpenRound | jackpot-routes.js:124-130 | a round opened by a handler is `active` with the given configuration, starts now, and is otherwise empty |
| Models.NewJackpot | jackpot-models.js:173-219 | a new jackpot is `active` with pot 0, no participants and no winner |
| Models.NewTransaction | jackpot-models.js:280-326 | a new transaction keeps its user, type, amount and date, is `pending`, and carries no references |
| Models.StoreKeepsNumbersUnique | jackpot-models.js:84-88 | storing a round whose number is not in use keeps round numbers unique |
| Rounds.Book | jackpot-routes.js:207-223 | booking raises `participantsCount` by exactly one and keeps the earlier bets. The new bet is the user's stake, starts at the old `totalTickets + 1` and ends at the new `totalTickets`, which grew by ten tickets per Star. The pot grows by the stake; number, status, configuration and winner are kept |
| Rounds.BookKeepsWellFormed | jackpot-routes.js:208-223 | booking a bet of `amount >= 1` appends exactly one bet, with tickets `totalTickets + 1` to `totalTickets + 10*amount`, raises the pot by `amount`, keeps the ranges contiguous from 1 with `totalTickets` equal to the last end, and changes nothing else in the round |
| Rounds.BookCountsBets | jackpot-routes.js:196-198 | booking raises the bettor's bet count in the round by one and leaves everyone else's alone |
| Rounds.RangesWithin | jackpot-routes.js:208-223 | every booked range lies within `1 .. totalTickets` |
| Rounds.EndsBefore | jackpot-routes.js:208-223 | an earlier bet's range ends before a later bet's range starts |
| Rounds.Disjoint | jackpot-routes.js:208-223 | no ticket lies in two bets' ranges |
| Rounds.Covered | jackpot-routes.js:208-223 | a ticket lies in some range exactly when it is between 1 and `totalTickets` |
| Rounds.TicketsMatchStakes | jackpot-routes.js:210-223 | the number of tickets is ten times the sum of the stakes |
| Rounds.FirstOwner | jackpot-routes.js:278-284 | the index found holds the ticket and no earlier range does; with none found, no range holds it |
| Rounds.OwnerUnique | jackpot-routes.js:278-288 | in a well-formed round, the scan finds an owner exactly when `1 <= ticket <= totalTickets`, and that owner is the only range holding the ticket |
| Rounds.FindWinner | jackpot-routes.js:275-284 | the loop with `break` returns the first bet whose range holds the ticket, or none when no range does |
| Rounds.FirstOwnerIsFirst | jackpot-routes.js:278-284 | any index with the first-owner property is the specification's answer |
| Rounds.Prize | jackpot-routes.js:291-292 | prize plus fee is the pot, and with a pot of at least 0 and a fee of 0-100% both lie between 0 and the pot |
| Rounds.PotSplit | jackpot-routes.js:291-292 | the prize is `totalPot * (100 - feePercent) / 100` |
| Rounds.Settle | jackpot-routes.js:294-302 | settling changes only status, end time, winner and winning ticket: the round is `completed` at `now`, the winner is the given user at the given ticket, and the recorded prize plus the fee is the pot |
| Rounds.SettleRecordsDraw | jackpot-routes.js:294-302 | the settled round is `completed`, ends now, records the winning ticket and the winner `{user, ticket, prize}` of its unique owner, and keeps its bets, pot, tickets and number |
| Rounds.NextRoundContinues | jackpot-routes.js:322-328 | the next round is numbered one higher, is active, has no bets, pot 0 and 0 tickets, and keeps `maxParticipants`, `minBet` and `feePercent` |
| Codes.IndexOf | jackpot-routes.js:464 | the index found is the first occurrence of the pattern; with none, the pattern does not occur |
| Codes.RemoveFirst | jackpot-routes.js:464 | without an occurrence of the pattern the string is kept; otherwise the result is the string with the pattern cut out at an index where it occurs and before which it occurs nowhere, and only there |
| Codes.ReferralLinkLeadsBack | jackpot-routes.js:443-464 | the link ends in `start=` followed by a code from which `/use-referral` recovers exactly the owner's Telegram id |
| Codes.ReferralRoundTrip | jackpot-routes.js:443-464 | the id recovered from any handed-out code is the owner's Telegram id |
| Codes.BareCodeIsId | jackpot-routes.js:464 | a code without `ref_` is taken as the Telegram id itself |
| Codes.InnerPrefixIsRemoved | jackpot-routes.js:464 | the replacement is not anchored: `xref_1` yields `x1` |
| Lottery.NumberAfterHighest | jackpot-routes.js:185-187 | `/bet` numbers a new round above every stored number: 1 with no rounds, otherwise one above an existing number |
| Lottery.LatestCompleted | jackpot-routes.js:119-121 | the round found is completed and no completed round ended after it; with none found, no round is completed |
| Lottery.HighestNumberIsFresh | jackpot-routes.js:185-187 | the number `/bet` picks is never in use |
| Lottery.NumberingAgrees | jackpot-routes.js:119-125 | when every round is completed and later numbers ended later, `/current` and `/bet` pick the same number |
| Lottery.NumberingDiverges | jackpot-routes.js:119-125 | for example, with round 1 completed and round 2 cancelled, `/current` picks the number 2, which is in use, while `/bet` picks 3 |
| Lottery.CurrentCollides | jackpot-routes.js:119-140 | whenever the number after the latest completed round is already stored and no round is active, `/current` fails on the unique index with nothing changed, while `/bet` opens its round under a free number |
| Lottery.CurrentOutcome | jackpot-routes.js:111-143 | `/current` writes no collection but the active round; a failure changes nothing; the reply is the active round afterwards, and a new round is reported only when there was no active round |
| Lottery.CurrentRoundRule | jackpot-routes.js:111-140 | `/current` returns an active round unchanged; without one it opens an empty default round (5, 1, 5%) numbered one after the latest completed round, and fails with nothing changed exactly when that number is taken |
| Lottery.DrawOutcome | jackpot-routes.js:269-336 | the draw never adds or removes a user and never touches tasks; it only appends to the transactions and to the stored rounds |
| Lottery.DrawWithoutOwner | jackpot-routes.js:286-288 | a ticket in no range fails the draw and changes no document |
| Lottery.DrawPaysOwner | jackpot-routes.js:272-331 | for a ticket in `1 .. totalTickets`, the unique owner wins and the round is stored settled. The winner's balance and `totalWon` rise by the prize and one `win` entry is logged. The draw succeeds, opening the next round, exactly when that number is free. With the winner's document missing, nothing is paid and no round is active |
| Lottery.BetRoundIsFresh | jackpot-routes.js:180-193 | with no active round, `/bet` opens an empty default round numbered above every stored number (1 with none) |
| Lottery.BetOutcome | jackpot-routes.js:164-266 | a refused bet changes nothing. An accepted bet is from a known user, adds or removes no user, leaves tasks alone and only appends to the transactions, the last entry being the bet. The reply holds ten tickets per Star in one range, and the balance less the stake |
| Lottery.DrawOnFillingBet | jackpot-routes.js:239-242 | every accepted bet raises `participantsCount` by one, so on a round below `maxParticipants` the draw runs exactly on the bet that brings the count to `maxParticipants` |
| Lottery.BetRefused | jackpot-routes.js:170-205 | the bet is refused exactly when, in this order, the user is unknown, the balance is below the stake, the user holds three bets in the round, or the stake is below `minBet`; a refusal changes nothing |
| Lottery.BetBooksTickets | jackpot-routes.js:207-260 | an accepted bet gets tickets `totalTickets + 1 .. totalTickets + 10*amount`, appended as one bet; the pot rises by the stake and the round stays well formed; the reply reports the range and the balance less the stake |
| Lottery.BetWithoutDraw | jackpot-routes.js:207-249 | an accepted bet that does not fill the round changes exactly this: the round gains the bet, the bettor's `balance` falls and `totalBets` rises by the stake, and one `bet` entry of `-amount` is logged |
| Lottery.BetWithDraw | jackpot-routes.js:239-249 | an accepted bet that fills the round runs the draw first, then takes the stake from the bettor's record as the draw left it, and logs the bet |
| Lottery.BetOutcomeAsWritten | jackpot-routes.js:226-249 | as written, the reply and every document but the bettor's agree with the corrected bet, and so does the bettor's `totalWon`; the bettor's `balance` and `totalBets` are the values loaded before the draw, less and plus the stake |
| Lottery.LastBettorLosesPrize | jackpot-routes.js:226-249 | as written, when the bet that fills the round also wins it, the bettor's balance ends at the old balance less the stake, and the prize appears only in `totalWon`; the corrected bet leaves balance less stake plus prize |
| Lottery.LastBettorLosesPrizeExample | jackpot-routes.js:226-249 | one user with 1 Star stakes it into a one-bet round and wins: as written the balance becomes 0, corrected it becomes 0.95 |
| Lottery.UserWithTelegramId | jackpot-routes.js:478 | the referrer lookup finds a user with the code's Telegram id, or reports that none has it |
| Lottery.ReferralOutcome | jackpot-routes.js:458-512 | a referral writes only users and adds or removes none; a refusal changes nothing; on success the user's referrer is another user, who lists the user |
| Lottery.ReferralRules | jackpot-routes.js:458-497 | the referral is refused, changing nothing, exactly when the user is unknown, already has a referrer, nobody has the code's Telegram id, or that id is the user's own. On success the user's referrer is recorded, the user is on the referrer's list, appended only when absent (so once on a list without duplicates, see `ReferKeepsUsersValid`), and no other document changes |
| Lottery.ReferralOnce | jackpot-routes.js:472-475 | after a successful referral, any further referral code for the same user is refused |
| Lottery.ReferKeepsUsersValid | jackpot-routes.js:489-497 | recording a referral keeps the users valid: no duplicate on any referral list and nobody referred by themselves |
| Lottery.TaskOutcome | jackpot-routes.js:565-641 | a verification writes only users and transactions and adds or removes no user; a refusal changes nothing; success needs a known user, a known task the user had not completed and the verifier's confirmation, then lists the task as completed, answers its reward and logs one `task_reward` entry |
| Lottery.TaskRules | jackpot-routes.js:565-628 | the task is refused, changing nothing, exactly when the user or task is unknown, the task is already completed, or the verifier did not confirm it. On success the user's record differs only in `completedTasks`, which gains the task, and one `task_reward` entry of the reward is logged; the balance is not credited, and nothing else changes |
| Lottery.TaskOnce | jackpot-routes.js:582-585 | after a task pays out, verifying it again for the same user is refused |
| Lottery.CompleteKeepsUsersValid | jackpot-routes.js:612-613 | marking a not-yet-completed task keeps every completed-task list free of duplicates |
| Lottery.CreditKeepsUsersValid | jackpot-routes.js:305-308 | paying a non-negative prize keeps the users valid |
| Lottery.DebitKeepsUsersValid | jackpot-routes.js:176-227 | taking a stake the balance covers keeps the users valid |
| Lottery.CurrentKeepsValid | jackpot-routes.js:111-140 | `/current` keeps the store valid: one well-formed active round at most, unique round numbers, valid users |
| Lottery.DrawKeepsUsersValid | jackpot-routes.js:269-336 | the draw keeps the users valid and lowers no balance |
| Lottery.DrawKeepsRoundsValid | jackpot-routes.js:269-336 | the draw keeps at most one well-formed active round and unique round numbers |
| Lottery.DrawKeepsValid | jackpot-routes.js:269-336 | the draw keeps the store valid and lowers no balance |
| Lottery.BookingKeepsRoundsValid | jackpot-routes.js:180-223 | booking an accepted bet into the chosen round keeps the rounds valid |
| Lottery.BetKeepsValid | jackpot-routes.js:164-266 | every bet, accepted or refused, keeps the store valid; in particular no balance goes negative |
| Lottery.ReferralKeepsValid | jackpot-routes.js:458-512 | every referral request keeps the store valid |
| Lottery.TaskKeepsValid | jackpot-routes.js:565-641 | every task verification keeps the store valid |
| Lottery.PotNonNegative | jackpot-routes.js:221-222 | a well-formed round's pot is not negative |
| Lottery.Store.Current | jackpot-routes.js:111-143 | the handler's in-place updates and reply are those of `CurrentOutcome` |
| Lottery.Store.DetermineWinner | jackpot-routes.js:269-336 | the scan, the settlement, the credit, the win entry and the next round, done in place, give `DrawOutcome` |
| Lottery.Store.PlaceBet | jackpot-routes.js:164-266 | the guards, the booking, the draw when due and the stake, done in place, give `BetOutcome` |
| Lottery.Store.TakeStake | jackpot-routes.js:226-249 | the bettor's record loses the stake, gains it in `totalBets`, and one `bet` entry is logged |
| Lottery.Store.UseReferral | jackpot-routes.js:458-512 | the handler's in-place updates and reply are those of `ReferralOutcome` |
| Lottery.Store.VerifyTask | jackpot-routes.js:565-641 | the handler's in-place updates and reply are those of `TaskOutcome` |
| Middleware.Seeded | jackpot-middleware.js:143-148 | after seeding, the requesting address has an entry |
| Middleware.Decide | jackpot-middleware.js:131-162 | after a request the dictionary holds the addresses the purge kept plus the requesting one (their entries are stated by `OthersUntouched`); an admitted request leaves its count at most `max`, a refused one found it at `max` or above |
| Middleware.PurgeKeepsFresh | jackpot-middleware.js:136-140 | after the purge every entry is inside the window: an entry is removed exactly when its window opened before `now - windowMs`, and kept entries are unchanged |
| Middleware.FirstRequestSeeds | jackpot-middleware.js:143-159 | an address without a live entry starts at count 0 with its window opening now, and its first request passes exactly when `max > 0` |
| Middleware.LimitRule | jackpot-middleware.js:150-159 | a request is refused exactly when the count has reached `max`, leaving the entry as it was. Otherwise the count rises by exactly one and the window's opening time is kept |
| Middleware.OthersUntouched | jackpot-middleware.js:131-161 | apart from the purge, a request changes no other address's entry |
| Middleware.DecideKeepsBounded | jackpot-middleware.js:143-159 | counts stay non-negative and at most `max` (or 0), so with `max >= 0` no count ever exceeds `max` |
| Middleware.WindowCap | jackpot-middleware.js:136-159 | requests within `windowMs` of an entry's opening pass at most `max - count` times, and the window never moves |
| Middleware.FreshWindowCap | jackpot-middleware.js:136-159 | starting fresh, at most `max` requests pass within one window |
| Middleware.RateLimiter.constructor | jackpot-middleware.js:120-129 | the limiter keeps its options, which default to a 60 000 ms window, 60 requests and the standard refusal text, and starts with an empty dictionary |
| Middleware.RateLimiter.Handle | jackpot-middleware.js:131-162 | the purge loop, seeding and the limit check, done in place on the dictionary, give the answer and dictionary of `Decide` |
| Middleware.Classify | jackpot-middleware.js:48-75 | every error answers 400, 401 or 500 with that status's fixed message, and its `error` field is the error's own message or the withheld-detail text |
| Middleware.ClassifyTable | jackpot-middleware.js:48-75 | `MongoError`/`ValidationError` answer 400 and JWT errors answer 401, both with the error's message. Every other name answers 500, whose message is withheld exactly in production |
| Countdown.FloorDiv | telegram-mini-app-lottery.tsx:3 | the minutes are the largest whole number of minutes not above the count |
| Countdown.JsRem | telegram-mini-app-lottery.tsx:4 | the remainder has the sign of the count: in `[0, 60)` for a non-negative count, in `(-60, 0]` otherwise |
| Countdown.NatToString | telegram-mini-app-lottery.tsx:5 | a number prints as at least one decimal digit, one digit exactly below 10 |
| Countdown.NatToStringRoundTrip | telegram-mini-app-lottery.tsx:5 | reading a printed number back gives the number |
| Countdown.FormatTime | telegram-mini-app-lottery.tsx:2-6 | a non-negative count shows a colon followed by two characters of seconds; a negative count's display starts with a minus sign |
| Countdown.FormatTimeFields | telegram-mini-app-lottery.tsx:1-6 | for a non-negative count: unpadded whole minutes, a colon, exactly two digits of seconds in `[0, 59]`, and `mins*60 + secs` is the count |
| Countdown.ParseTime | telegram-mini-app-lottery.tsx:1-6 | a parsed display has a colon three characters from the end; what the parse means is stated by `FormatTimeRoundTrip` |
| Countdown.FormatTimeRoundTrip | telegram-mini-app-lottery.tsx:1-6 | the display of a non-negative count reads back as that count |
| Countdown.FormatTimeInjective | telegram-mini-app-lottery.tsx:1-6 | two different non-negative counts never display alike |
| Countdown.NegativeCountGarbles | telegram-mini-app-lottery.tsx:2-6 | a negative count that is not a whole number of minutes displays garbled: the rounded-down minutes, then `:0-` and the truncated remainder's digits |
| Countdown.NegativeMinutesShowClean | telegram-mini-app-lottery.tsx:2-6 | a negative whole number of minutes displays as the minutes and `:00` |
| Countdown.NegativeCountExamples | telegram-mini-app-lottery.tsx:2-6 | -5 displays as `-1:0-5` and -60 as `-1:00` |
| Countdown.Tick | telegram-mini-app-lottery.tsx:170 | a tick maps a positive count to one less and anything else to 0, so it is never negative |
| Countdown.TicksCountDown | telegram-mini-app-lottery.tsx:165-173 | `n` ticks from a non-negative count leave `timeLeft - n`, held at 0 |

## Left out

- Express routing, authentication middleware and HTTP plumbing. Each handler returns
  a result or an error value in place of a status code and JSON body. The refusal
  texts and the `console.error` lines are not modelled.
- Mongoose I/O. The collections are in-memory maps and sequences, every save succeeds
  except where a unique index refuses it, and `populate` and sorting are not modelled;
  `LatestCompleted` picks the latest `endTime` directly.
- The randomness service behind `generateRandomTicket`. The winning ticket is a
  parameter of the draw and of `/bet`.
- JWT signing and verification, the Telegram subscription and share verifiers, and
  bcrypt password checking. The verifiers' answer is the `verified` parameter.
- The unknown-task-type branch of `/verify/:taskId`. `TaskType` has only the three
  types the schema allows, so that branch cannot be reached.
- Concurrency: interleaved requests and the order of the `Promise.all` saves. Each
  handler runs alone. The one ordering effect that shows up even in a single request,
  the stale save of the bettor, is modelled (see Findings).
- Floating point. The fee and prize are exact reals, and the JavaScript double
  rounding of `totalPot * feePercent / 100` is not modelled.
- `amount` is an integer number of Stars, while the source accepts any JSON number.
- Transaction notes, `verificationHash` (declared but never computed), the jackpot
  draw, admin statistics, payments, user registration and the request logger are not
  part of this model. `referralEarnings` is only a stored field: no handler writes it,
  and `/referral-link` only reads it (jackpot-routes.js:448).
- The admin routes `PUT /round/settings` (jackpot-routes.js:838-864) and
  `POST /user/balance` (jackpot-routes.js:867-913) are not modelled. They can set any
  round configuration and add any amount to a balance. With them, `minBet >= 1`,
  `0 <= feePercent <= 100` and non-negative balances can fail, and a 150% fee makes
  the prize negative. So `StoreValid`, and the claims that no balance goes negative
  and that the draw lowers no balance, are proved for the modelled handlers only.
- JavaScript number width. `NatToString`, `FormatTimeRoundTrip` and `FormatTimeInjective`
  are stated over unbounded integers, while JavaScript prints numbers from 1e21 on in
  exponent form and loses integer precision past 2^53. The counts shown start at a few
  hundred seconds (354 for the current round) and only go down, so they never get there.
- The mini app's rendering, localisation and `setInterval` scheduling. Only the tick's
  update and `formatTime` are modelled; `progressPercentage` is floating-point UI
  arithmetic.
- The rate limiter's other request fields. `req.ip` and `Date.now()` are parameters,
  and the 429 body is the configured `message`.
- Lottery.Store.UseReferral: requires unique Telegram ids among the users. That is the
  database's unique index, which the store invariant `StoreValid` keeps.
- Lottery.Store.PlaceBet, Lottery.Store.DetermineWinner and the other handler methods
  do not carry the store invariant in their contracts. It is proved about the
  outcome functions that the methods are tied to (`BetKeepsValid`, `DrawKeepsValid`,
  and so on).
- Lottery.Store.PlaceBet: models the corrected save, so that the bettor's record is
  the one the draw left. The stale save as written is `Lottery.BetOutcomeAsWritten`.

## Findings

| source | as written | input that shows it | evidently intended | confidence | as-written member | corrected member |
|---|---|---|---|---|---|---|
| jackpot-routes.js:226-249, 305-308 | The bet handler loads the bettor's document, lowers `user.balance` in memory, then runs `determineWinner`. The draw loads the winner's document separately and saves a credited balance. Afterwards the handler saves its own copy, whose `balance` path overwrites the credit. | One user with balance 1 stakes 1 Star into a round with `maxParticipants` 1, and ticket 1 is drawn. The bettor ends with balance 0, `totalWon` 0.95 and a `win` entry of 0.95. | The winning bettor keeps the prize: balance 0.95. | not executed | Lottery.BetOutcomeAsWritten | Lottery.BetOutcome |

Two more behaviours of the source are modelled as written and stated by lemmas, but are
not claimed as bugs:

- `/current` numbers a new round after the latest completed round, while `/bet` numbers
  it after the highest stored number (`Lottery.NumberingDiverges`). The first can pick a
  number already taken, and then fails on the unique index (`Lottery.CurrentCollides`).
  A stored `cancelled` or `pending` round is one way to get there; the schema allows
  both statuses, but no modelled handler writes either.
- `/verify/:taskId` logs a `task_reward` transaction but credits nothing to the user
  (`Lottery.TaskRules`).
