/** The round engine: the store of users, rounds and transactions, and the route handlers
    that change it. `/bet` validates a stake, books a ticket range in the active round
    (opening one when none is active) and, once the round is full, runs the draw, which
    pays the winner, completes the round and opens the next one. `/current` opens a round
    lazily; `/use-referral` and `/verify/:taskId` are once-only updates of a user.
    The winning ticket, which the source obtains from a randomness service, is a
    parameter; clock readings are parameters too. */
module Lottery {
  import opened Models
  import opened Rounds
  import opened Codes

  datatype Error =
    | UserNotFound | InsufficientFunds | TooManyBets | BetTooSmall
    | DuplicateRoundNumber
    | AlreadyReferred | ReferrerNotFound | SelfReferral
    | TaskNotFound | TaskAlreadyCompleted | TaskNotVerified

  datatype Result<T> = Ok(value: T) | Err(error: Error)

  /** The reply of an accepted bet: the round, the ticket range and the bettor's balance
      right after the stake was taken. */
  datatype Receipt = Receipt(roundNumber: int, ticketStart: int, ticketEnd: int, ticketCount: int, userBalance: real)

  /** The reply of `/current`: the active round and whether it was created just now. */
  datatype CurrentRound = CurrentRound(round: Round, isNew: bool)

  // ---------------------------------------------------------------------------
  // Round numbering

  /** `/bet` numbers a new round one above the highest stored number (1 with none). */
  function NumberAfterHighest(rounds: seq<Round>): (n: int)
    ensures forall i :: 0 <= i < |rounds| ==> rounds[i].roundNumber < n
    ensures rounds == [] ==> n == 1
    ensures rounds != [] ==> exists i :: 0 <= i < |rounds| && rounds[i].roundNumber + 1 == n
  {
    if rounds == [] then 1
    else if |rounds| == 1 then rounds[0].roundNumber + 1
    else
      var m := NumberAfterHighest(rounds[..|rounds| - 1]);
      var last := rounds[|rounds| - 1].roundNumber + 1;
      assert forall i :: 0 <= i < |rounds| - 1 ==> rounds[..|rounds| - 1][i] == rounds[i];
      if m < last then last else m
  }

  /** `a` ended strictly after `b`; a round without `endTime` sorts below every dated one. */
  predicate EndedAfter(a: Round, b: Round) {
    a.endTime.Some? && (b.endTime.None? || a.endTime.value > b.endTime.value)
  }

  /** The completed round that sorts first by `endTime`, descending; of rounds ending
      together the one stored first. */
  function LatestCompleted(rounds: seq<Round>): (k: Option<nat>)
    ensures k.Some? ==> k.value < |rounds| && rounds[k.value].status == Completed
    ensures k.Some? ==> forall j :: 0 <= j < |rounds| && rounds[j].status == Completed ==>
      !EndedAfter(rounds[j], rounds[k.value])
    ensures k.None? ==> forall j :: 0 <= j < |rounds| ==> rounds[j].status != Completed
  {
    if rounds == [] then None
    else
      var pre := rounds[..|rounds| - 1];
      var last := |rounds| - 1;
      var k := LatestCompleted(pre);
      assert forall i :: 0 <= i < last ==> pre[i] == rounds[i];
      if rounds[last].status != Completed then k
      else if k.None? || EndedAfter(rounds[last], rounds[k.value]) then Some(last)
      else k
  }

  /** `/current` numbers a new round one above the latest completed round (1 with none). */
  function NumberAfterLatestCompleted(rounds: seq<Round>): int {
    match LatestCompleted(rounds)
    case None => 1
    case Some(k) => rounds[k].roundNumber + 1
  }

  /** The number `/bet` picks is never in use. */
  lemma HighestNumberIsFresh(rounds: seq<Round>)
    ensures NumberAfterHighest(rounds) !in RoundNumbers(rounds)
  {
  }

  /** When every stored round is completed and later numbers ended later, the two
      numbering rules agree. */
  lemma NumberingAgrees(rounds: seq<Round>)
    requires forall i :: 0 <= i < |rounds| ==> rounds[i].status == Completed && rounds[i].endTime.Some?
    requires forall i, j :: 0 <= i < |rounds| && 0 <= j < |rounds| && rounds[i].roundNumber < rounds[j].roundNumber ==>
      rounds[i].endTime.value < rounds[j].endTime.value
    ensures NumberAfterLatestCompleted(rounds) == NumberAfterHighest(rounds)
  {
    if rounds != [] {
      var k := LatestCompleted(rounds).value;
      var n := NumberAfterHighest(rounds);
      var i :| 0 <= i < |rounds| && rounds[i].roundNumber + 1 == n;
      assert !EndedAfter(rounds[i], rounds[k]);
    }
  }

  /** The two rules can differ once a later round is not completed: for example, with
      round 1 completed and round 2 cancelled, `/current` proposes the number 2, which is
      taken. */
  lemma NumberingDiverges()
    ensures var rounds := [
        Round(1, 0, Some(10), Completed, [], 5, 1, 0, 5, None, None, 0),
        Round(2, 20, None, Cancelled, [], 5, 1, 0, 5, None, None, 0)];
      && NumberAfterLatestCompleted(rounds) == 2
      && 2 in RoundNumbers(rounds)
      && NumberAfterHighest(rounds) == 3
  {
  }

  // ---------------------------------------------------------------------------
  // Balance and ledger updates

  /** The bet handler's change to the bettor: `balance -= amount`, `totalBets += amount`. */
  function Debit(u: User, amount: int): User {
    u.(balance := u.balance - amount as real, totalBets := u.totalBets + amount as real)
  }

  /** The draw's change to the winner: `balance += prize`, `totalWon += prize`. */
  function Credit(u: User, prize: real): User {
    u.(balance := u.balance + prize, totalWon := u.totalWon + prize)
  }

  function BetRecord(user: UserId, amount: int, roundNumber: int, now: int): Transaction {
    NewTransaction(user, BetTx, -(amount as real), now).(round := Some(roundNumber), status := TxCompleted)
  }

  function WinRecord(user: UserId, prize: real, roundNumber: int, now: int): Transaction {
    NewTransaction(user, WinTx, prize, now).(round := Some(roundNumber), status := TxCompleted)
  }

  function TaskRecord(user: UserId, task: TaskId, reward: int, now: int): Transaction {
    NewTransaction(user, TaskRewardTx, reward as real, now).(task := Some(task), status := TxCompleted)
  }

  // ---------------------------------------------------------------------------
  // The stored documents

  /** The collections the handlers read and write. `current` is the round with status
      `active`; `archive` holds every other stored round, in the order it was stored. */
  datatype Db = Db(
    users: map<UserId, User>,
    tasks: map<TaskId, Task>,
    current: Option<Round>,
    archive: seq<Round>,
    ledger: seq<Transaction>)

  /** What a handler answers, with the documents after it. */
  datatype Step<T> = Step(result: T, db: Db)

  /** Every stored round: the archive, then the active round if there is one. */
  function Stored(archive: seq<Round>, current: Option<Round>): seq<Round> {
    archive + (if current.Some? then [current.value] else [])
  }

  // ---------------------------------------------------------------------------
  // GET /current

  /** `/current`: the active round as it is, or a new round numbered after the latest
      completed one, refused when that number is already taken (the unique index on
      `roundNumber`). */
  function CurrentOutcome(db: Db, now: int): (s: Step<Result<CurrentRound>>)
    ensures s.db == db.(current := s.db.current)
    ensures s.result.Err? ==> s.db == db
    ensures s.result.Ok? ==> s.db.current == Some(s.result.value.round)
    ensures s.result.Ok? && s.result.value.isNew ==> db.current.None?
    ensures s.result.Ok? && !s.result.value.isNew ==> s.db == db
  {
    if db.current.Some? then Step(Ok(CurrentRound(db.current.value, false)), db)
    else
      var n := NumberAfterLatestCompleted(db.archive);
      if n in RoundNumbers(db.archive) then Step(Err(DuplicateRoundNumber), db)
      else
        var r := OpenRound(n, DefaultMaxParticipants, DefaultMinBet, DefaultFeePercent, now);
        Step(Ok(CurrentRound(r, true)), db.(current := Some(r)))
  }

  /** `/current` never replaces an active round; without one it opens an empty active
      round with the default configuration, numbered one above the latest completed
      round, and changes nothing else. */
  lemma CurrentRoundRule(db: Db, now: int)
    ensures var s := CurrentOutcome(db, now);
      && (db.current.Some? ==> s.result == Ok(CurrentRound(db.current.value, false)) && s.db == db)
      && (db.current.None? && s.result.Ok? ==>
            var r := s.result.value.round;
            && s.result.value.isNew && s.db == db.(current := Some(r))
            && r.roundNumber == NumberAfterLatestCompleted(db.archive)
            && r.roundNumber !in RoundNumbers(db.archive)
            && r.status == Active && r.participants == [] && r.totalPot == 0 && r.totalTickets == 0
            && r.maxParticipants == 5 && r.minBet == 1 && r.feePercent == 5)
      && (s.result.Err? <==> db.current.None? && NumberAfterLatestCompleted(db.archive) in RoundNumbers(db.archive))
      && (s.result.Err? ==> s.db == db && s.result.error == DuplicateRoundNumber)
  {
  }

  /** Whenever the number after the latest completed round is already stored, with no
      active round `/current` fails on the unique index and changes nothing, while `/bet`
      opens its round under a number that is free. */
  lemma CurrentCollides(db: Db, now: int)
    requires db.current.None?
    requires NumberAfterLatestCompleted(db.archive) in RoundNumbers(db.archive)
    ensures CurrentOutcome(db, now) == Step(Err(DuplicateRoundNumber), db)
    ensures BetRound(db, now).roundNumber !in RoundNumbers(db.archive)
  {
    HighestNumberIsFresh(db.archive);
  }

  // ---------------------------------------------------------------------------
  // determineWinner

  /** `determineWinner` on the active round. Without a range holding the ticket the draw
      fails and nothing changes. Otherwise the round is completed with its winner; when
      the winner's document is missing the draw fails there, and the completed round is
      saved by the bet handler without payment. With the document the winner is credited,
      the win is logged and round `roundNumber + 1` is opened with the same configuration,
      unless that number is taken, in which case the draw fails with no active round. */
  function DrawOutcome(db: Db, ticket: int, now: int): (s: Step<bool>)
    requires db.current.Some?
    ensures s.db.users.Keys == db.users.Keys && s.db.tasks == db.tasks
    ensures |db.ledger| <= |s.db.ledger| && s.db.ledger[..|db.ledger|] == db.ledger
    ensures |db.archive| <= |s.db.archive| && s.db.archive[..|db.archive|] == db.archive
  {
    var r := db.current.value;
    match FirstOwner(r.participants, ticket)
    case None => Step(false, db)
    case Some(k) =>
      var w := r.participants[k].user;
      var archive := db.archive + [Settle(r, w, ticket, now)];
      if w !in db.users then Step(false, db.(current := None, archive := archive))
      else
        var prize := Prize(r.totalPot, r.feePercent);
        var users := db.users[w := Credit(db.users[w], prize)];
        var ledger := db.ledger + [WinRecord(w, prize, r.roundNumber, now)];
        var next := NextRound(r, now);
        if next.roundNumber in RoundNumbers(archive) then Step(false, Db(users, db.tasks, None, archive, ledger))
        else Step(true, Db(users, db.tasks, Some(next), archive, ledger))
  }

  /** A ticket that no range holds fails the draw and leaves every document alone. */
  lemma DrawWithoutOwner(db: Db, ticket: int, now: int)
    requires db.current.Some?
    requires forall j :: 0 <= j < |db.current.value.participants| ==> !Owns(db.current.value.participants[j], ticket)
    ensures DrawOutcome(db, ticket, now) == Step(false, db)
  {
  }

  /** On a well-formed round every ticket from 1 to `totalTickets` has exactly one owner,
      and the draw pays that bettor: `balance` and `totalWon` rise by the prize, one `win`
      entry of the prize is logged, the round is completed with its winner, and the next
      round is the same configuration numbered one higher, unless that number is taken. */
  lemma DrawPaysOwner(db: Db, ticket: int, now: int)
    requires db.current.Some? && WellFormed(db.current.value)
    requires 1 <= ticket <= db.current.value.totalTickets
    ensures var r := db.current.value;
      var s := DrawOutcome(db, ticket, now);
      && FirstOwner(r.participants, ticket).Some?
      && var k := FirstOwner(r.participants, ticket).value;
         var w := r.participants[k].user;
         var prize := Prize(r.totalPot, r.feePercent);
         && (forall j :: 0 <= j < |r.participants| && Owns(r.participants[j], ticket) ==> j == k)
         && s.db.archive == db.archive + [Settle(r, w, ticket, now)]
         && (w in db.users ==>
              && s.db.users == db.users[w := Credit(db.users[w], prize)]
              && s.db.users[w].balance == db.users[w].balance + prize
              && s.db.users[w].totalWon == db.users[w].totalWon + prize
              && s.db.ledger == db.ledger + [WinRecord(w, prize, r.roundNumber, now)]
              && s.result == (r.roundNumber + 1 !in RoundNumbers(db.archive))
              && s.db.current == (if s.result then Some(NextRound(r, now)) else None))
         && (w !in db.users ==> !s.result && s.db == db.(current := None, archive := s.db.archive))
  {
    var r := db.current.value;
    OwnerUnique(r.participants, ticket);
    var k := FirstOwner(r.participants, ticket).value;
    var w := r.participants[k].user;
    NumbersAppend(db.archive, Settle(r, w, ticket, now));
  }

  // ---------------------------------------------------------------------------
  // POST /bet

  /** The round `/bet` stakes into: the active one, or a fresh one numbered after the highest. */
  function BetRound(db: Db, now: int): Round {
    match db.current
    case Some(r) => r
    case None => OpenRound(NumberAfterHighest(db.archive), DefaultMaxParticipants, DefaultMinBet, DefaultFeePercent, now)
  }

  /** With no active round, `/bet` opens an empty active round with the default
      configuration, numbered one above the highest stored number (1 with none), and that
      number is free. */
  lemma BetRoundIsFresh(db: Db, now: int)
    requires db.current.None?
    ensures var r := BetRound(db, now);
      && r.status == Active && r.participants == [] && r.totalPot == 0 && r.totalTickets == 0
      && r.maxParticipants == 5 && r.minBet == 1 && r.feePercent == 5
      && r.roundNumber !in RoundNumbers(db.archive)
      && (db.archive == [] ==> r.roundNumber == 1)
      && (forall i :: 0 <= i < |db.archive| ==> db.archive[i].roundNumber < r.roundNumber)
  {
    HighestNumberIsFresh(db.archive);
  }

  /** The guards of `/bet`, in the handler's order. */
  function BetRefusal(db: Db, userId: UserId, amount: int, now: int): Option<Error> {
    if userId !in db.users then Some(UserNotFound)
    else if db.users[userId].balance < amount as real then Some(InsufficientFunds)
    else if BetsBy(BetRound(db, now).participants, userId) >= MaxBetsPerUser then Some(TooManyBets)
    else if amount < BetRound(db, now).minBet then Some(BetTooSmall)
    else None
  }

  /** The documents after an accepted bet is booked into its round and, when that fills
      the round, the draw has run; the bettor's own debit is not yet applied. */
  function Booked(db: Db, userId: UserId, amount: int, ticket: int, now: int): Db {
    var r := Book(BetRound(db, now), userId, amount, now);
    var db1 := db.(current := Some(r));
    if DrawDue(r) then DrawOutcome(db1, ticket, now).db else db1
  }

  /** The draw is due once the booked round has `maxParticipants` bets. */
  predicate DrawDue(r: Round) {
    ParticipantsCount(r) >= r.maxParticipants
  }

  /** `participantsCount` grows by one with every accepted bet, so on a round that had
      fewer than `maxParticipants` bets the draw runs on the bet that brings the count to
      `maxParticipants`, and on no earlier one. */
  lemma DrawOnFillingBet(db: Db, userId: UserId, amount: int, now: int)
    ensures var r := BetRound(db, now);
      var r' := Book(r, userId, amount, now);
      && ParticipantsCount(r') == ParticipantsCount(r) + 1
      && (ParticipantsCount(r) < r.maxParticipants ==>
            (DrawDue(r') <==> ParticipantsCount(r') == r.maxParticipants))
  {
  }

  /** The reply to an accepted bet: the booked range and the balance after the stake. */
  function BetReceipt(db: Db, userId: UserId, amount: int, now: int): Receipt
    requires userId in db.users
  {
    var r := BetRound(db, now);
    Receipt(r.roundNumber, r.totalTickets + 1, r.totalTickets + amount * TicketsPerStar,
            amount * TicketsPerStar, db.users[userId].balance - amount as real)
  }

  /** `/bet`: a refused bet changes nothing; an accepted one is booked (with the draw when
      due), then the stake is taken from the bettor's stored record and the bet is logged. */
  function BetOutcome(db: Db, userId: UserId, amount: int, ticket: int, now: int): (s: Step<Result<Receipt>>)
    ensures s.result.Err? ==> s.db == db
    ensures s.result.Ok? ==>
      && userId in db.users && s.db.users.Keys == db.users.Keys && s.db.tasks == db.tasks
      && |db.ledger| < |s.db.ledger| && s.db.ledger[..|db.ledger|] == db.ledger
      && s.db.ledger[|s.db.ledger| - 1] == BetRecord(userId, amount, s.result.value.roundNumber, now)
      && s.result.value.ticketCount == amount * TicketsPerStar
      && s.result.value.ticketEnd - s.result.value.ticketStart + 1 == s.result.value.ticketCount
      && s.result.value.userBalance == db.users[userId].balance - amount as real
  {
    match BetRefusal(db, userId, amount, now)
    case Some(e) => Step(Err(e), db)
    case None =>
      var db2 := Booked(db, userId, amount, ticket, now);
      var n := BetRound(db, now).roundNumber;
      Step(Ok(BetReceipt(db, userId, amount, now)), Staked(db2, userId, amount, n, now))
  }

  /** `/bet` in the handler's steps: book into the chosen round, draw when due, then take
      the stake and log the bet. */
  lemma BetOutcomeSteps(db: Db, userId: UserId, amount: int, ticket: int, now: int,
                        r: Round, booked: Db, drawn: Db)
    requires BetRefusal(db, userId, amount, now).None?
    requires r == Book(BetRound(db, now), userId, amount, now)
    requires booked == db.(current := Some(r))
    requires drawn == if DrawDue(r) then DrawOutcome(booked, ticket, now).db else booked
    ensures userId in drawn.users
    ensures BetOutcome(db, userId, amount, ticket, now) ==
      Step(Ok(Receipt(r.roundNumber, r.totalTickets - amount * TicketsPerStar + 1, r.totalTickets,
                      amount * TicketsPerStar, db.users[userId].balance - amount as real)),
           Staked(drawn, userId, amount, r.roundNumber, now))
  {
  }

  /** The bet handler's own writes: the stake taken from the bettor, the bet logged. */
  function Staked(db: Db, userId: UserId, amount: int, roundNumber: int, now: int): Db
    requires userId in db.users
  {
    db.(users := db.users[userId := Debit(db.users[userId], amount)],
        ledger := db.ledger + [BetRecord(userId, amount, roundNumber, now)])
  }

  /** A bet is refused, with no document changed, exactly when the user is unknown, the
      balance is below the stake, the user already holds three bets in the round, or the
      stake is below `minBet` — each reported only when the checks before it pass. */
  lemma BetRefused(db: Db, userId: UserId, amount: int, ticket: int, now: int)
    ensures var s := BetOutcome(db, userId, amount, ticket, now);
      var r := BetRound(db, now);
      && (s.result.Err? ==> s.db == db)
      && (s.result == Err(UserNotFound) <==> userId !in db.users)
      && (s.result == Err(InsufficientFunds) <==> userId in db.users && db.users[userId].balance < amount as real)
      && (s.result == Err(TooManyBets) <==>
            userId in db.users && db.users[userId].balance >= amount as real
            && BetsBy(r.participants, userId) >= MaxBetsPerUser)
      && (s.result == Err(BetTooSmall) <==>
            userId in db.users && db.users[userId].balance >= amount as real
            && BetsBy(r.participants, userId) < MaxBetsPerUser && amount < r.minBet)
      && (s.result.Ok? <==>
            userId in db.users && db.users[userId].balance >= amount as real
            && BetsBy(r.participants, userId) < MaxBetsPerUser && amount >= r.minBet)
  {
  }

  /** An accepted bet takes the next `amount * 10` tickets, from `totalTickets + 1`
      on; on a well-formed round with `minBet >= 1` the booked round is well formed again,
      so ranges stay contiguous from 1 and disjoint, and its `totalTickets` is the new
      range's end, with the stake added to the pot. */
  lemma BetBooksTickets(db: Db, userId: UserId, amount: int, ticket: int, now: int)
    requires WellFormed(BetRound(db, now)) && BetRound(db, now).minBet >= 1
    requires BetOutcome(db, userId, amount, ticket, now).result.Ok?
    ensures var old_r := BetRound(db, now);
      var rc := BetOutcome(db, userId, amount, ticket, now).result.value;
      var r := Book(old_r, userId, amount, now);
      && rc.ticketStart == old_r.totalTickets + 1
      && rc.ticketEnd == rc.ticketStart + amount * TicketsPerStar - 1
      && rc.ticketCount == amount * TicketsPerStar
      && rc.userBalance == db.users[userId].balance - amount as real
      && WellFormed(r) && r.totalTickets == rc.ticketEnd
      && r.participants == old_r.participants + [Bet(userId, amount, rc.ticketStart, rc.ticketEnd, now)]
      && r.totalPot == old_r.totalPot + amount
  {
    BookKeepsWellFormed(BetRound(db, now), userId, amount, now);
  }

  /** An accepted bet that does not fill the round changes exactly this: one participant
      appended, pot and ticket counter raised, the bettor's `balance` lowered and
      `totalBets` raised by the stake, and one `bet` entry of `-amount` logged. */
  lemma BetWithoutDraw(db: Db, userId: UserId, amount: int, ticket: int, now: int)
    requires BetOutcome(db, userId, amount, ticket, now).result.Ok?
    requires !DrawDue(Book(BetRound(db, now), userId, amount, now))
    ensures var s := BetOutcome(db, userId, amount, ticket, now);
      var r := BetRound(db, now);
      var u := db.users[userId];
      && s.db.current == Some(Book(r, userId, amount, now))
      && s.db.archive == db.archive && s.db.tasks == db.tasks
      && s.db.users == db.users[userId := u.(balance := u.balance - amount as real, totalBets := u.totalBets + amount as real)]
      && s.db.ledger == db.ledger + [BetRecord(userId, amount, r.roundNumber, now)]
      && s.db.ledger[|db.ledger|].amount == -(amount as real) && s.db.ledger[|db.ledger|].txType == BetTx
  {
  }

  /** An accepted bet that fills the round runs the draw on the booked round and then
      takes the stake from the bettor's record as the draw left it: a bettor who wins
      keeps both the prize and the debit. */
  lemma BetWithDraw(db: Db, userId: UserId, amount: int, ticket: int, now: int)
    requires BetOutcome(db, userId, amount, ticket, now).result.Ok?
    requires DrawDue(Book(BetRound(db, now), userId, amount, now))
    ensures var s := BetOutcome(db, userId, amount, ticket, now);
      var r := Book(BetRound(db, now), userId, amount, now);
      var d := DrawOutcome(db.(current := Some(r)), ticket, now).db;
      && userId in d.users
      && s.db == d.(users := d.users[userId := Debit(d.users[userId], amount)],
                    ledger := d.ledger + [BetRecord(userId, amount, r.roundNumber, now)])
      && s.db.users[userId].balance == d.users[userId].balance - amount as real
  {
  }

  // ---------------------------------------------------------------------------
  // The stored-save hazard of the bet handler

  /** As written, the bet handler saves the user document it loaded before the draw: its
      modified paths, `balance` and `totalBets`, overwrite the stored document, which the
      draw may meanwhile have credited. `loaded` is the copy read at the start, `stored` the
      document in the store when the handler saves. */
  function SavedBettorAsWritten(loaded: User, amount: int, stored: User): User {
    stored.(balance := loaded.balance - amount as real, totalBets := loaded.totalBets + amount as real)
  }

  /** `/bet` as written: the bettor's saved record is the copy loaded before the draw. */
  function BetOutcomeAsWritten(db: Db, userId: UserId, amount: int, ticket: int, now: int): (s: Step<Result<Receipt>>)
    ensures var c := BetOutcome(db, userId, amount, ticket, now);
      && s.result == c.result
      && s.db == c.db.(users := s.db.users)
      && s.db.users.Keys == c.db.users.Keys
      && (forall u :: u in s.db.users && u != userId ==> s.db.users[u] == c.db.users[u])
      && (s.result.Err? ==> s.db == db)
      && (s.result.Ok? ==>
            && s.db.users[userId].balance == db.users[userId].balance - amount as real
            && s.db.users[userId].totalBets == db.users[userId].totalBets + amount as real
            && s.db.users[userId].totalWon == c.db.users[userId].totalWon)
  {
    match BetRefusal(db, userId, amount, now)
    case Some(e) => Step(Err(e), db)
    case None =>
      var db2 := Booked(db, userId, amount, ticket, now);
      var n := BetRound(db, now).roundNumber;
      Step(Ok(BetReceipt(db, userId, amount, now)),
           db2.(users := db2.users[userId := SavedBettorAsWritten(db.users[userId], amount, db2.users[userId])],
                ledger := db2.ledger + [BetRecord(userId, amount, n, now)]))
  }

  /** When the bet that fills the round wins it, the prize reaches the bettor's `totalWon`
      but not the `balance`, and a `win` entry is logged for money the bettor does not have. */
  lemma LastBettorLosesPrize(db: Db, userId: UserId, amount: int, ticket: int, now: int)
    requires BetOutcome(db, userId, amount, ticket, now).result.Ok?
    requires var r := Book(BetRound(db, now), userId, amount, now);
      && DrawDue(r) && WellFormed(BetRound(db, now)) && BetRound(db, now).minBet >= 1
      && Owns(r.participants[|r.participants| - 1], ticket)
    ensures var r := Book(BetRound(db, now), userId, amount, now);
      var prize := Prize(r.totalPot, r.feePercent);
      var u := db.users[userId];
      var bad := BetOutcomeAsWritten(db, userId, amount, ticket, now).db.users[userId];
      var good := BetOutcome(db, userId, amount, ticket, now).db.users[userId];
      && bad.balance == u.balance - amount as real
      && bad.totalWon == u.totalWon + prize
      && good.balance == u.balance - amount as real + prize
      && good.totalWon == u.totalWon + prize
  {
    var r := Book(BetRound(db, now), userId, amount, now);
    BookKeepsWellFormed(BetRound(db, now), userId, amount, now);
    RangesWithin(r.participants, |r.participants| - 1);
    OwnerUnique(r.participants, ticket);
    DrawPaysOwner(db.(current := Some(r)), ticket, now);
  }

  /** A concrete case: in an open round configured for a single bet, a user with a
      balance of 1 stakes 1 star and wins the pot of 1 less the 5% fee; as written the
      balance after the bet is 0 instead of 0.95. */
  lemma LastBettorLosesPrizeExample()
    ensures var open := OpenRound(1, 1, 1, 5, 0);
      var db := Db(map[7 := NewUser("7", 0).(balance := 1.0)], map[], Some(open), [], []);
      var bad := BetOutcomeAsWritten(db, 7, 1, 1, 9).db.users;
      var good := BetOutcome(db, 7, 1, 1, 9).db.users;
      && 7 in bad && bad[7].balance == 0.0
      && 7 in good && good[7].balance == 0.95
  {
    var open := OpenRound(1, 1, 1, 5, 0);
    var bettor := NewUser("7", 0).(balance := 1.0);
    var db := Db(map[7 := bettor], map[], Some(open), [], []);
    assert BetRound(db, 9) == open;
    assert BetRefusal(db, 7, 1, 9) == None;
    var r := Book(open, 7, 1, 9);
    var ps := [Bet(7, 1, 1, 10, 9)];
    assert r.participants == ps;
    assert DrawDue(r);
    assert FirstOwner(ps, 1) == Some(0) by {
      FirstOwnerIsFirst(ps, 1, Some(0));
    }
    var prize := Prize(1, 5);
    assert prize == 0.95;
    var d := DrawOutcome(db.(current := Some(r)), 1, 9).db;
    assert d.users == db.users[7 := Credit(bettor, prize)];
    assert Booked(db, 7, 1, 1, 9) == d;
  }

  // ---------------------------------------------------------------------------
  // POST /use-referral

  /** `User.findOne({ telegramId })`. */
  ghost function UserWithTelegramId(users: map<UserId, User>, telegramId: string): (r: Option<UserId>)
    ensures r.Some? ==> r.value in users && users[r.value].telegramId == telegramId
    ensures r.None? ==> forall u :: u in users ==> users[u].telegramId != telegramId
  {
    if exists u :: u in users && users[u].telegramId == telegramId then
      var u :| u in users && users[u].telegramId == telegramId; Some(u)
    else None
  }

  /** `/use-referral`: refuse a user who already has a referrer, a code whose Telegram id
      belongs to nobody and the user's own code; otherwise record the referrer and put
      the user on the referrer's list unless already there. */
  ghost function ReferralOutcome(db: Db, userId: UserId, referralCode: string): (s: Step<Result<UserId>>)
    ensures s.db == db.(users := s.db.users) && s.db.users.Keys == db.users.Keys
    ensures s.result.Err? ==> s.db == db
    ensures s.result.Ok? ==>
      && userId in s.db.users && s.result.value in s.db.users && s.result.value != userId
      && s.db.users[userId].referrer == Some(s.result.value)
      && userId in s.db.users[s.result.value].referrals
  {
    var tid := ReferrerTelegramId(referralCode);
    if userId !in db.users then Step(Err(UserNotFound), db)
    else if db.users[userId].referrer.Some? then Step(Err(AlreadyReferred), db)
    else match UserWithTelegramId(db.users, tid)
      case None => Step(Err(ReferrerNotFound), db)
      case Some(rid) =>
        var user := db.users[userId];
        var referrer := db.users[rid];
        if referrer.telegramId == user.telegramId then Step(Err(SelfReferral), db)
        else Step(Ok(rid), db.(users := Refer(db.users, userId, rid)))
  }

  /** The accepted referral's writes: the user's `referrer`, then the referrer's list,
      extended only when the user is not on it yet. */
  function Refer(users: map<UserId, User>, userId: UserId, rid: UserId): map<UserId, User>
    requires userId in users && rid in users
  {
    var referrer := users[rid];
    var users' := users[userId := users[userId].(referrer := Some(rid))];
    if userId in referrer.referrals then users'
    else users'[rid := referrer.(referrals := referrer.referrals + [userId])]
  }

  /** Users that keep their Telegram ids, and whose balances and lists satisfy the
      per-user conditions, are valid. */
  lemma PerUserValid(users: map<UserId, User>, users': map<UserId, User>)
    requires UniqueTelegramIds(users) && users'.Keys == users.Keys
    requires forall u :: u in users ==> users'[u].telegramId == users[u].telegramId
    requires forall u :: u in users' ==>
      && users'[u].balance >= 0.0
      && NoDuplicates(users'[u].referrals) && NoDuplicates(users'[u].completedTasks)
      && (users'[u].referrer.Some? ==> users'[u].referrer.value != u)
    ensures UsersValid(users')
  {
  }

  /** Recording a referrer other than the user keeps the users valid. */
  lemma ReferKeepsUsersValid(users: map<UserId, User>, userId: UserId, rid: UserId)
    requires UsersValid(users) && userId in users && rid in users && rid != userId
    ensures UsersValid(Refer(users, userId, rid))
  {
    var referrals := users[rid].referrals;
    if userId !in referrals {
      AppendFreshKeepsNoDuplicates(referrals, userId);
    }
    var users' := Refer(users, userId, rid);
    forall u | u in users'
      ensures users'[u].telegramId == users[u].telegramId && users'[u].balance == users[u].balance
      ensures NoDuplicates(users'[u].referrals) && NoDuplicates(users'[u].completedTasks)
      ensures users'[u].referrer.Some? ==> users'[u].referrer.value != u
    {
      if u == userId {
        assert users'[u] == users[u].(referrer := Some(rid));
      } else if u != rid {
        assert users'[u] == users[u];
      }
    }
    PerUserValid(users, users');
  }

  /** The referral guards: each refusal changes nothing and happens exactly when its check
      fails after the earlier ones pass; an accepted code sets the referrer, which is
      another user holding the code's Telegram id, and lists the user once with it. */
  lemma ReferralRules(db: Db, userId: UserId, referralCode: string)
    ensures var s := ReferralOutcome(db, userId, referralCode);
      var tid := ReferrerTelegramId(referralCode);
      && (s.result.Err? ==> s.db == db)
      && (s.result == Err(UserNotFound) <==> userId !in db.users)
      && (s.result == Err(AlreadyReferred) <==> userId in db.users && db.users[userId].referrer.Some?)
      && (s.result == Err(ReferrerNotFound) <==>
            userId in db.users && db.users[userId].referrer.None?
            && forall u :: u in db.users ==> db.users[u].telegramId != tid)
      && (s.result == Err(SelfReferral) <==>
            userId in db.users && db.users[userId].referrer.None?
            && (exists u :: u in db.users && db.users[u].telegramId == tid)
            && db.users[userId].telegramId == tid)
      && (s.result.Ok? ==>
            var rid := s.result.value;
            && userId in db.users && rid in db.users && rid != userId
            && db.users[rid].telegramId == tid && db.users[userId].telegramId != tid
            && s.db.users.Keys == db.users.Keys
            && s.db.users[userId] == db.users[userId].(referrer := Some(rid))
            && s.db.users[rid].referrals == db.users[rid].referrals +
                 (if userId in db.users[rid].referrals then [] else [userId])
            && userId in s.db.users[rid].referrals
            && (forall u :: u in db.users && u != userId && u != rid ==> s.db.users[u] == db.users[u])
            && s.db == db.(users := s.db.users))
  {
    var s := ReferralOutcome(db, userId, referralCode);
    if s.result.Ok? {
      var rid := s.result.value;
      if userId in db.users[rid].referrals {
        assert db.users[rid].referrals + [] == db.users[rid].referrals;
      }
    }
  }

  /** A referral is used at most once: after one is accepted, every further code is refused. */
  lemma ReferralOnce(db: Db, userId: UserId, code: string, code': string)
    requires ReferralOutcome(db, userId, code).result.Ok?
    ensures ReferralOutcome(ReferralOutcome(db, userId, code).db, userId, code').result == Err(AlreadyReferred)
  {
    ReferralRules(db, userId, code);
  }

  // ---------------------------------------------------------------------------
  // POST /verify/:taskId

  /** `/verify/:taskId`: refuse an unknown user or task, a task the user already
      completed and one the verifier did not confirm (`verified` is the verifier's answer
      for the task's type); otherwise mark the task completed and log its reward. The
      balance is not credited. */
  function TaskOutcome(db: Db, userId: UserId, taskId: TaskId, verified: bool, now: int): (s: Step<Result<int>>)
    ensures s.db.tasks == db.tasks && s.db.current == db.current && s.db.archive == db.archive
    ensures s.db.users.Keys == db.users.Keys
    ensures s.result.Err? ==> s.db == db
    ensures s.result.Ok? ==>
      && userId in db.users && taskId in db.tasks && verified
      && taskId !in db.users[userId].completedTasks && taskId in s.db.users[userId].completedTasks
      && s.result.value == db.tasks[taskId].reward
      && s.db.ledger == db.ledger + [TaskRecord(userId, taskId, s.result.value, now)]
  {
    if userId !in db.users then Step(Err(UserNotFound), db)
    else if taskId !in db.tasks then Step(Err(TaskNotFound), db)
    else
      var user := db.users[userId];
      if taskId in user.completedTasks then Step(Err(TaskAlreadyCompleted), db)
      else if !verified then Step(Err(TaskNotVerified), db)
      else
        var reward := db.tasks[taskId].reward;
        Step(Ok(reward), db.(users := Complete(db.users, userId, taskId),
                             ledger := db.ledger + [TaskRecord(userId, taskId, reward, now)]))
  }

  /** The accepted task's write: `completedTasks.push(taskId)`. */
  function Complete(users: map<UserId, User>, userId: UserId, taskId: TaskId): map<UserId, User>
    requires userId in users
  {
    users[userId := users[userId].(completedTasks := users[userId].completedTasks + [taskId])]
  }

  /** Completing a task the user has not completed keeps the users valid. */
  lemma CompleteKeepsUsersValid(users: map<UserId, User>, userId: UserId, taskId: TaskId)
    requires UsersValid(users) && userId in users && taskId !in users[userId].completedTasks
    ensures UsersValid(Complete(users, userId, taskId))
  {
    AppendFreshKeepsNoDuplicates(users[userId].completedTasks, taskId);
    var users' := Complete(users, userId, taskId);
    assert forall u :: u in users' ==> users'[u].telegramId == users[u].telegramId;
  }

  /** The task guards: each refusal changes nothing and happens exactly when its check fails
      after the earlier ones pass; a verified task is added to the user's completed tasks,
      one `task_reward` entry is logged, and no balance changes. */
  lemma TaskRules(db: Db, userId: UserId, taskId: TaskId, verified: bool, now: int)
    ensures var s := TaskOutcome(db, userId, taskId, verified, now);
      && (s.result.Err? ==> s.db == db)
      && (s.result == Err(UserNotFound) <==> userId !in db.users)
      && (s.result == Err(TaskNotFound) <==> userId in db.users && taskId !in db.tasks)
      && (s.result == Err(TaskAlreadyCompleted) <==>
            userId in db.users && taskId in db.tasks && taskId in db.users[userId].completedTasks)
      && (s.result == Err(TaskNotVerified) <==>
            userId in db.users && taskId in db.tasks && taskId !in db.users[userId].completedTasks && !verified)
      && (s.result.Ok? ==>
            && userId in db.users && taskId in db.tasks && s.result.value == db.tasks[taskId].reward
            && s.db.users.Keys == db.users.Keys
            && s.db.users[userId].completedTasks == db.users[userId].completedTasks + [taskId]
            && s.db.users[userId] == db.users[userId].(completedTasks := db.users[userId].completedTasks + [taskId])
            && s.db.users[userId].balance == db.users[userId].balance
            && (forall u :: u in db.users && u != userId ==> s.db.users[u] == db.users[u])
            && s.db.ledger == db.ledger + [TaskRecord(userId, taskId, db.tasks[taskId].reward, now)]
            && s.db.tasks == db.tasks && s.db.current == db.current && s.db.archive == db.archive)
  {
  }

  /** A task rewards a user at most once: after it is accepted, verifying it again is refused. */
  lemma TaskOnce(db: Db, userId: UserId, taskId: TaskId, verified: bool, verified': bool, now: int, now': int)
    requires TaskOutcome(db, userId, taskId, verified, now).result.Ok?
    ensures var db' := TaskOutcome(db, userId, taskId, verified, now).db;
      TaskOutcome(db', userId, taskId, verified', now').result == Err(TaskAlreadyCompleted)
  {
    var db' := TaskOutcome(db, userId, taskId, verified, now).db;
    assert taskId in db'.users[userId].completedTasks;
  }

  // ---------------------------------------------------------------------------
  // The store invariant

  /** The stored users: unique Telegram ids, non-negative balances, nobody referred by
      themselves, and no duplicate in a referral list or a completed-task list. */
  ghost predicate UsersValid(users: map<UserId, User>) {
    && UniqueTelegramIds(users)
    && (forall u :: u in users ==> users[u].balance >= 0.0)
    && (forall u :: u in users ==> NoDuplicates(users[u].referrals) && NoDuplicates(users[u].completedTasks))
    && (forall u :: u in users && users[u].referrer.Some? ==> users[u].referrer.value != u)
  }

  /** The round open for bets. */
  ghost predicate OpenRoundValid(r: Round) {
    && r.status == Active
    && WellFormed(r)
    && r.minBet >= 1
    && 0 <= r.feePercent <= 100
  }

  /** At most one round is active, it is well formed, and round numbers are unique. */
  ghost predicate RoundsValid(current: Option<Round>, archive: seq<Round>) {
    && (current.Some? ==> OpenRoundValid(current.value))
    && (forall i :: 0 <= i < |archive| ==> archive[i].status != Active)
    && UniqueRoundNumbers(Stored(archive, current))
  }

  ghost predicate StoreValid(db: Db) {
    UsersValid(db.users) && RoundsValid(db.current, db.archive)
  }

  /** The two maps hold the same users with the same identities, links and task lists. */
  ghost predicate SameLinks(users: map<UserId, User>, users': map<UserId, User>) {
    && users'.Keys == users.Keys
    && forall u :: u in users ==>
      && users'[u].telegramId == users[u].telegramId
      && users'[u].referrer == users[u].referrer
      && users'[u].referrals == users[u].referrals
      && users'[u].completedTasks == users[u].completedTasks
  }

  /** Moving money only keeps the users valid while no balance goes negative. */
  lemma MoneyMoveKeepsUsersValid(users: map<UserId, User>, users': map<UserId, User>)
    requires UsersValid(users) && SameLinks(users, users')
    requires forall u :: u in users' ==> users'[u].balance >= 0.0
    ensures UsersValid(users')
  {
  }

  /** Crediting a prize that is not negative keeps the users valid and lowers no balance. */
  lemma CreditKeepsUsersValid(users: map<UserId, User>, w: UserId, prize: real)
    requires UsersValid(users) && w in users && prize >= 0.0
    ensures UsersValid(users[w := Credit(users[w], prize)])
  {
    MoneyMoveKeepsUsersValid(users, users[w := Credit(users[w], prize)]);
  }

  /** Taking a stake the balance covers keeps the users valid. */
  lemma DebitKeepsUsersValid(users: map<UserId, User>, u: UserId, amount: int)
    requires UsersValid(users) && u in users && users[u].balance >= amount as real
    ensures UsersValid(users[u := Debit(users[u], amount)])
  {
    MoneyMoveKeepsUsersValid(users, users[u := Debit(users[u], amount)]);
  }

  lemma NumbersAppend(rounds: seq<Round>, r: Round)
    ensures RoundNumbers(rounds + [r]) == RoundNumbers(rounds) + {r.roundNumber}
  {
    var a := rounds + [r];
    forall n ensures n in RoundNumbers(a) <==> n in RoundNumbers(rounds) + {r.roundNumber} {
      if n in RoundNumbers(a) {
        var i :| 0 <= i < |a| && a[i].roundNumber == n;
        if i < |rounds| { assert a[i] == rounds[i]; }
      }
      if n in RoundNumbers(rounds) {
        var i :| 0 <= i < |rounds| && rounds[i].roundNumber == n;
        assert a[i] == rounds[i];
      }
      if n == r.roundNumber { assert a[|rounds|] == r; }
    }
  }

  /** Replacing the last stored round by one with the same number keeps numbers unique. */
  lemma SameNumberKeepsUnique(archive: seq<Round>, r: Round, r': Round)
    requires UniqueRoundNumbers(archive + [r]) && r'.roundNumber == r.roundNumber
    ensures UniqueRoundNumbers(archive + [r'])
  {
    assert forall i :: 0 <= i < |archive| + 1 ==> (archive + [r'])[i].roundNumber == (archive + [r])[i].roundNumber;
  }

  /** `/current` keeps the store valid. */
  lemma CurrentKeepsValid(db: Db, now: int)
    requires StoreValid(db)
    ensures StoreValid(CurrentOutcome(db, now).db)
  {
    if db.current.None? {
      var n := NumberAfterLatestCompleted(db.archive);
      if n !in RoundNumbers(db.archive) {
        var r := OpenRound(n, DefaultMaxParticipants, DefaultMinBet, DefaultFeePercent, now);
        assert Stored(db.archive, None) == db.archive;
        StoreKeepsNumbersUnique(db.archive, r);
        assert Stored(db.archive, Some(r)) == db.archive + [r];
      }
    }
  }

  /** The draw keeps the users valid and never lowers a balance. */
  lemma DrawKeepsUsersValid(db: Db, ticket: int, now: int)
    requires UsersValid(db.users) && db.current.Some? && OpenRoundValid(db.current.value)
    ensures var d := DrawOutcome(db, ticket, now).db;
      && UsersValid(d.users)
      && forall u :: u in db.users ==> d.users[u].balance >= db.users[u].balance
  {
    var r := db.current.value;
    var ps := r.participants;
    if FirstOwner(ps, ticket).Some? {
      var w := ps[FirstOwner(ps, ticket).value].user;
      if w in db.users {
        PotNonNegative(r);
        CreditKeepsUsersValid(db.users, w, Prize(r.totalPot, r.feePercent));
      }
    }
  }

  /** The draw keeps the rounds valid: the settled round is archived under its number and
      the next round is stored only under a free number. */
  lemma DrawKeepsRoundsValid(db: Db, ticket: int, now: int)
    requires RoundsValid(db.current, db.archive) && db.current.Some?
    ensures var d := DrawOutcome(db, ticket, now).db;
      RoundsValid(d.current, d.archive)
  {
    var r := db.current.value;
    var ps := r.participants;
    if FirstOwner(ps, ticket).Some? {
      var w := ps[FirstOwner(ps, ticket).value].user;
      var settled := Settle(r, w, ticket, now);
      var archive := db.archive + [settled];
      assert Stored(db.archive, db.current) == db.archive + [r];
      SameNumberKeepsUnique(db.archive, r, settled);
      assert Stored(archive, None) == archive;
      if w in db.users {
        var next := NextRound(r, now);
        NumbersAppend(db.archive, settled);
        if next.roundNumber !in RoundNumbers(archive) {
          StoreKeepsNumbersUnique(archive, next);
          assert Stored(archive, Some(next)) == archive + [next];
          NextRoundContinues(r, now);
        }
      }
    }
  }

  /** The draw keeps the store valid and never lowers a balance. */
  lemma DrawKeepsValid(db: Db, ticket: int, now: int)
    requires StoreValid(db) && db.current.Some?
    ensures var d := DrawOutcome(db, ticket, now).db;
      && StoreValid(d)
      && forall u :: u in db.users ==> d.users[u].balance >= db.users[u].balance
  {
    DrawKeepsUsersValid(db, ticket, now);
    DrawKeepsRoundsValid(db, ticket, now);
  }

  /** Booking an accepted bet keeps the rounds valid with the booked round active. */
  lemma BookingKeepsRoundsValid(db: Db, userId: UserId, amount: int, now: int)
    requires RoundsValid(db.current, db.archive)
    requires amount >= BetRound(db, now).minBet && BetsBy(BetRound(db, now).participants, userId) < MaxBetsPerUser
    ensures RoundsValid(Some(Book(BetRound(db, now), userId, amount, now)), db.archive)
  {
    var r := BetRound(db, now);
    var b := Book(r, userId, amount, now);
    if db.current.None? {
      BetRoundIsFresh(db, now);
      assert Stored(db.archive, db.current) == db.archive;
      StoreKeepsNumbersUnique(db.archive, r);
    }
    BookKeepsWellFormed(r, userId, amount, now);
    assert Stored(db.archive, Some(b)) == db.archive + [b];
    SameNumberKeepsUnique(db.archive, r, b);
  }

  /** `/bet` keeps the store valid. */
  lemma BetKeepsValid(db: Db, userId: UserId, amount: int, ticket: int, now: int)
    requires StoreValid(db)
    ensures StoreValid(BetOutcome(db, userId, amount, ticket, now).db)
  {
    if BetRefusal(db, userId, amount, now).None? {
      var b := Book(BetRound(db, now), userId, amount, now);
      var db1 := db.(current := Some(b));
      BookingKeepsRoundsValid(db, userId, amount, now);
      if DrawDue(b) {
        DrawKeepsValid(db1, ticket, now);
      }
      var d := Booked(db, userId, amount, ticket, now);
      assert StoreValid(d) && d.users[userId].balance >= db.users[userId].balance;
      DebitKeepsUsersValid(d.users, userId, amount);
    }
  }

  /** `/use-referral` keeps the store valid. */
  lemma ReferralKeepsValid(db: Db, userId: UserId, referralCode: string)
    requires StoreValid(db)
    ensures StoreValid(ReferralOutcome(db, userId, referralCode).db)
  {
    var s := ReferralOutcome(db, userId, referralCode);
    if s.result.Ok? {
      var rid := UserWithTelegramId(db.users, ReferrerTelegramId(referralCode)).value;
      ReferKeepsUsersValid(db.users, userId, rid);
    }
  }

  /** `/verify/:taskId` keeps the store valid. */
  lemma TaskKeepsValid(db: Db, userId: UserId, taskId: TaskId, verified: bool, now: int)
    requires StoreValid(db)
    ensures StoreValid(TaskOutcome(db, userId, taskId, verified, now).db)
  {
    if TaskOutcome(db, userId, taskId, verified, now).result.Ok? {
      CompleteKeepsUsersValid(db.users, userId, taskId);
    }
  }

  /** A well-formed round's pot is not negative. */
  lemma PotNonNegative(r: Round)
    requires WellFormed(r)
    ensures r.totalPot >= 0
  {
    TicketsMatchStakes(r.participants);
    if r.participants != [] {
      RangesWithin(r.participants, |r.participants| - 1);
    }
  }
  // ---------------------------------------------------------------------------
  // The handlers, updating the stored documents in place

  class Store {
    var users: map<UserId, User>
    var tasks: map<TaskId, Task>
    /** The round with status `active`, if there is one. */
    var current: Option<Round>
    /** Every other stored round, in the order it was stored. */
    var archive: seq<Round>
    /** The transaction log, in the order entries were saved. */
    var ledger: seq<Transaction>

    function Snapshot(): Db
      reads this
    {
      Db(users, tasks, current, archive, ledger)
    }

    constructor (db: Db)
      ensures Snapshot() == db
    {
      users, tasks, current, archive, ledger := db.users, db.tasks, db.current, db.archive, db.ledger;
    }

    /** `GET /current`. */
    method Current(now: int) returns (res: Result<CurrentRound>)
      modifies this
      ensures Step(res, Snapshot()) == CurrentOutcome(old(Snapshot()), now)
    {
      if current.Some? {
        return Ok(CurrentRound(current.value, false));
      }
      var lastRound := LatestCompleted(archive);
      var n := if lastRound.Some? then archive[lastRound.value].roundNumber + 1 else 1;
      var newRound := OpenRound(n, 5, 1, 5, now);
      if newRound.roundNumber in RoundNumbers(archive) {
        return Err(DuplicateRoundNumber);
      }
      current := Some(newRound);
      res := Ok(CurrentRound(newRound, true));
    }

    /** `determineWinner` on the active round, with the winning ticket as a parameter. */
    method DetermineWinner(ticket: int, now: int) returns (ok: bool)
      requires current.Some?
      modifies this
      ensures Step(ok, Snapshot()) == DrawOutcome(old(Snapshot()), ticket, now)
    {
      ghost var before := Snapshot();
      var round := current.value;
      var found := FindWinner(round.participants, ticket);
      if found.None? {
        return false;
      }
      var winnerId := round.participants[found.value].user;
      var fee := Fee(round.totalPot, round.feePercent);
      var prize := round.totalPot as real - fee;
      assert prize == Prize(round.totalPot, round.feePercent);
      round := round.(status := Completed, endTime := Some(now),
                      winner := Some(Winner(winnerId, ticket, prize)), winningTicket := Some(ticket));
      assert round == Settle(before.current.value, winnerId, ticket, now);
      archive := archive + [round];
      current := None;
      if winnerId !in users {
        // The winner's document is missing: the draw stops here, and the bet handler
        // saves the round as it now stands.
        return false;
      }
      var winner := users[winnerId];
      winner := winner.(balance := winner.balance + prize, totalWon := winner.totalWon + prize);
      assert winner == Credit(before.users[winnerId], Prize(before.current.value.totalPot, before.current.value.feePercent));
      users := users[winnerId := winner];
      ledger := ledger + [WinRecord(winnerId, prize, round.roundNumber, now)];
      var newRound := OpenRound(round.roundNumber + 1, round.maxParticipants, round.minBet, round.feePercent, now);
      assert newRound == NextRound(before.current.value, now);
      if newRound.roundNumber in RoundNumbers(archive) {
        return false;
      }
      current := Some(newRound);
      return true;
    }

    /** `POST /bet`, with the draw's winning ticket as a parameter. */
    method PlaceBet(userId: UserId, amount: int, ticket: int, now: int) returns (res: Result<Receipt>)
      modifies this
      ensures Step(res, Snapshot()) == BetOutcome(old(Snapshot()), userId, amount, ticket, now)
    {
      ghost var before := Snapshot();
      if userId !in users {
        return Err(UserNotFound);
      }
      var user := users[userId];
      if user.balance < amount as real {
        return Err(InsufficientFunds);
      }
      var round: Round;
      if current.Some? {
        round := current.value;
      } else {
        round := OpenRound(NumberAfterHighest(archive), 5, 1, 5, now);
      }
      var userBetsCount := BetsBy(round.participants, userId);
      if userBetsCount >= MaxBetsPerUser {
        return Err(TooManyBets);
      }
      if amount < round.minBet {
        return Err(BetTooSmall);
      }
      var ticketStart := round.totalTickets + 1;
      var ticketsCount := amount * TicketsPerStar;
      var ticketEnd := ticketStart + ticketsCount - 1;
      round := round.(participants := round.participants + [Bet(userId, amount, ticketStart, ticketEnd, now)]);
      round := round.(totalPot := round.totalPot + amount, totalTickets := round.totalTickets + ticketsCount);
      current := Some(round);
      ghost var booked := Snapshot();
      if ParticipantsCount(round) >= round.maxParticipants {
        var _ := DetermineWinner(ticket, now);
      }
      BetOutcomeSteps(before, userId, amount, ticket, now, round, booked, Snapshot());
      TakeStake(userId, amount, round.roundNumber, now);
      res := Ok(Receipt(round.roundNumber, ticketStart, ticketEnd, ticketsCount, user.balance - amount as real));
    }

    /** The bet handler's `balance -= amount`, `totalBets += amount` on the bettor's
        stored record, and the saved `bet` transaction. */
    method TakeStake(userId: UserId, amount: int, roundNumber: int, now: int)
      requires userId in users
      modifies this
      ensures Snapshot() == Staked(old(Snapshot()), userId, amount, roundNumber, now)
    {
      var bettor := users[userId];
      users := users[userId := bettor.(balance := bettor.balance - amount as real,
                                       totalBets := bettor.totalBets + amount as real)];
      ledger := ledger + [BetRecord(userId, amount, roundNumber, now)];
    }

    /** `POST /use-referral`; the unique index on `telegramId` makes the referrer lookup
        a function of the code. */
    method UseReferral(userId: UserId, referralCode: string) returns (res: Result<UserId>)
      requires UniqueTelegramIds(users)
      modifies this
      ensures Step(res, Snapshot()) == ReferralOutcome(old(Snapshot()), userId, referralCode)
    {
      var referrerTelegramId := ReferrerTelegramId(referralCode);
      if userId !in users {
        return Err(UserNotFound);
      }
      var user := users[userId];
      if user.referrer.Some? {
        return Err(AlreadyReferred);
      }
      if !exists r :: r in users && users[r].telegramId == referrerTelegramId {
        return Err(ReferrerNotFound);
      }
      var referrerId :| referrerId in users && users[referrerId].telegramId == referrerTelegramId;
      assert UserWithTelegramId(users, referrerTelegramId) == Some(referrerId);
      var referrer := users[referrerId];
      if referrer.telegramId == user.telegramId {
        return Err(SelfReferral);
      }
      users := users[userId := user.(referrer := Some(referrerId))];
      if userId !in referrer.referrals {
        users := users[referrerId := referrer.(referrals := referrer.referrals + [userId])];
      }
      res := Ok(referrerId);
    }

    /** `POST /verify/:taskId`, with the verifier's answer as a parameter. */
    method VerifyTask(userId: UserId, taskId: TaskId, verified: bool, now: int) returns (res: Result<int>)
      modifies this
      ensures Step(res, Snapshot()) == TaskOutcome(old(Snapshot()), userId, taskId, verified, now)
    {
      if userId !in users {
        return Err(UserNotFound);
      }
      if taskId !in tasks {
        return Err(TaskNotFound);
      }
      var user := users[userId];
      var task := tasks[taskId];
      if taskId in user.completedTasks {
        return Err(TaskAlreadyCompleted);
      }
      if !verified {
        return Err(TaskNotVerified);
      }
      var ticketsReward := task.reward;
      users := users[userId := user.(completedTasks := user.completedTasks + [taskId])];
      ledger := ledger + [TaskRecord(userId, taskId, ticketsReward, now)];
      res := Ok(ticketsReward);
    }
  }
}
