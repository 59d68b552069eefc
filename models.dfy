/** The stored documents of the lottery: users, rounds with their embedded bets,
    the weekly jackpot, tasks and the append-only transaction log, with the
    enumerations and default values their schemas declare. Dates are integer
    timestamps (milliseconds) supplied by the caller. */
module Models {

  /** Document identifiers (Mongo ObjectIds) of users, tasks and rounds. */
  type UserId = nat
  type TaskId = nat

  datatype Option<T> = None | Some(value: T)

  datatype Language = Ru | En

  datatype RoundStatus = Pending | Active | Completed | Cancelled

  datatype TxType = BetTx | WinTx | ReferralTx | TaskRewardTx | AdminTx

  datatype TxStatus = TxPending | TxCompleted | TxFailed

  datatype TaskType = Subscription | SocialShare | Partner

  datatype JackpotStatus = JackpotActive | JackpotCompleted

  datatype User = User(
    telegramId: string,
    username: Option<string>,
    firstName: Option<string>,
    lastName: Option<string>,
    isAnonymous: bool,
    balance: real,
    totalWon: real,
    totalBets: real,
    referrer: Option<UserId>,
    referrals: seq<UserId>,
    referralEarnings: real,
    completedTasks: seq<TaskId>,
    language: Language,
    darkMode: bool,
    createdAt: int,
    lastActive: int)

  /** One entry of a round's `participants`: a stake and its inclusive ticket range. */
  datatype Bet = Bet(user: UserId, bet: int, ticketStart: int, ticketEnd: int, betTime: int)

  datatype Winner = Winner(user: UserId, ticket: int, prize: real)

  datatype Round = Round(
    roundNumber: int,
    startTime: int,
    endTime: Option<int>,
    status: RoundStatus,
    participants: seq<Bet>,
    maxParticipants: int,
    minBet: int,
    totalPot: int,
    feePercent: int,
    winner: Option<Winner>,
    winningTicket: Option<int>,
    totalTickets: int)

  datatype JackpotEntry = JackpotEntry(user: UserId, tickets: int)

  datatype Jackpot = Jackpot(
    startDate: int,
    endDate: int,
    totalPot: real,
    participants: seq<JackpotEntry>,
    winner: Option<Winner>,
    winningTicket: Option<int>,
    status: JackpotStatus)

  datatype Task = Task(
    title: string,
    description: string,
    reward: int,
    taskType: TaskType,
    channel: Option<string>,
    url: Option<string>,
    isActive: bool,
    isPartner: bool,
    order: int,
    createdAt: int,
    expiresAt: Option<int>)

  datatype Transaction = Transaction(
    user: UserId,
    txType: TxType,
    amount: real,
    round: Option<int>,
    jackpot: Option<nat>,
    referral: Option<UserId>,
    task: Option<TaskId>,
    telegramPaymentId: Option<string>,
    status: TxStatus,
    createdAt: int)

  /** Defaults of the round schema. */
  const DefaultMaxParticipants := 5
  const DefaultMinBet := 1
  const DefaultFeePercent := 5

  /** A user document as the schema creates it from its required field alone. */
  function NewUser(telegramId: string, now: int): (u: User)
    ensures u.telegramId == telegramId
    ensures u.balance == 0.0 && u.totalWon == 0.0 && u.totalBets == 0.0 && u.referralEarnings == 0.0
    ensures !u.isAnonymous && !u.darkMode && u.language == Ru
    ensures u.referrer == None && u.referrals == [] && u.completedTasks == []
    ensures u.createdAt == now && u.lastActive == now
  {
    User(telegramId, None, None, None, false, 0.0, 0.0, 0.0, None, [], 0.0, [], Ru, false, now, now)
  }

  /** The number of bets placed in a round (the `participantsCount` virtual). */
  function ParticipantsCount(r: Round): (n: nat)
    ensures n == |r.participants|
  {
    |r.participants|
  }

  /** A round document as the schema creates it from its required field alone. */
  function NewRound(roundNumber: int, now: int): (r: Round)
    ensures r.roundNumber == roundNumber && r.startTime == now
    ensures r.status == Pending && r.endTime == None
    ensures r.participants == [] && ParticipantsCount(r) == 0
    ensures r.totalPot == 0 && r.totalTickets == 0
    ensures r.maxParticipants == 5 && r.minBet == 1 && r.feePercent == 5
    ensures r.winner == None && r.winningTicket == None
  {
    Round(roundNumber, now, None, Pending, [], DefaultMaxParticipants, DefaultMinBet, 0,
          DefaultFeePercent, None, None, 0)
  }

  /** A round opened for betting with the given configuration. */
  function OpenRound(roundNumber: int, maxParticipants: int, minBet: int, feePercent: int, now: int): (r: Round)
    ensures r.roundNumber == roundNumber && r.status == Active && r.startTime == now
    ensures r.maxParticipants == maxParticipants && r.minBet == minBet && r.feePercent == feePercent
    ensures r.participants == [] && r.totalPot == 0 && r.totalTickets == 0
    ensures r.endTime == None && r.winner == None && r.winningTicket == None
  {
    NewRound(roundNumber, now).(status := Active, maxParticipants := maxParticipants,
                                minBet := minBet, feePercent := feePercent)
  }

  /** A jackpot document as the schema creates it from its required fields. */
  function NewJackpot(startDate: int, endDate: int): (j: Jackpot)
    ensures j.startDate == startDate && j.endDate == endDate
    ensures j.status == JackpotActive && j.totalPot == 0.0 && j.participants == []
    ensures j.winner == None && j.winningTicket == None
  {
    Jackpot(startDate, endDate, 0.0, [], None, None, JackpotActive)
  }

  /** A transaction as the schema creates it from its required fields: status defaults to pending. */
  function NewTransaction(user: UserId, txType: TxType, amount: real, now: int): (t: Transaction)
    ensures t.user == user && t.txType == txType && t.amount == amount && t.createdAt == now
    ensures t.status == TxPending
    ensures t.round == None && t.jackpot == None && t.referral == None && t.task == None
    ensures t.telegramPaymentId == None
  {
    Transaction(user, txType, amount, None, None, None, None, None, TxPending, now)
  }

  /** The unique index on `roundNumber`: no two stored rounds share a number. */
  ghost predicate UniqueRoundNumbers(rounds: seq<Round>) {
    forall i, j :: 0 <= i < |rounds| && 0 <= j < |rounds| && i != j ==>
      rounds[i].roundNumber != rounds[j].roundNumber
  }

  /** The round numbers in use. */
  function RoundNumbers(rounds: seq<Round>): (ns: set<int>)
    ensures forall i :: 0 <= i < |rounds| ==> rounds[i].roundNumber in ns
    ensures forall n :: n in ns ==> exists i :: 0 <= i < |rounds| && rounds[i].roundNumber == n
  {
    set i | 0 <= i < |rounds| :: rounds[i].roundNumber
  }

  /** Storing a round whose number is not yet in use keeps the index unique. */
  lemma StoreKeepsNumbersUnique(rounds: seq<Round>, r: Round)
    requires UniqueRoundNumbers(rounds)
    requires r.roundNumber !in RoundNumbers(rounds)
    ensures UniqueRoundNumbers(rounds + [r])
  {
    var all := rounds + [r];
    forall i, j | 0 <= i < |all| && 0 <= j < |all| && i != j
      ensures all[i].roundNumber != all[j].roundNumber
    {
      if i == |rounds| {
        assert all[j] == rounds[j];
      } else if j == |rounds| {
        assert all[i] == rounds[i];
      } else {
        assert all[i] == rounds[i] && all[j] == rounds[j];
      }
    }
  }

  /** The unique index on `telegramId`: no two users share one. */
  ghost predicate UniqueTelegramIds(users: map<UserId, User>) {
    forall a, b :: a in users && b in users && a != b ==> users[a].telegramId != users[b].telegramId
  }

  /** No element occurs twice. */
  ghost predicate NoDuplicates<T>(s: seq<T>) {
    forall i, j :: 0 <= i < j < |s| ==> s[i] != s[j]
  }

  /** Appending an element that is not yet present keeps a sequence duplicate-free. */
  lemma AppendFreshKeepsNoDuplicates<T>(s: seq<T>, x: T)
    requires NoDuplicates(s)
    requires x !in s
    ensures NoDuplicates(s + [x])
  {
    var t := s + [x];
    forall i, j | 0 <= i < j < |t| ensures t[i] != t[j] {
      assert t[i] == s[i];
      if j == |s| {
        assert t[i] in s;
      } else {
        assert t[j] == s[j];
      }
    }
  }
}
