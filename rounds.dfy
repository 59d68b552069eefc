/** Ticket allocation, winner resolution and settlement arithmetic of one round:
    the pure parts of the bet handler and of `determineWinner`. */
module Rounds {
  import opened Models

  /** One star of stake buys ten tickets. */
  const TicketsPerStar := 10
  /** A user may hold at most three bets in one round. */
  const MaxBetsPerUser := 3

  /** Ticket `t` lies in the inclusive range of bet `b`. */
  predicate Owns(b: Bet, t: int) {
    b.ticketStart <= t <= b.ticketEnd
  }

  /** The last ticket handed out, 0 when nobody has bet yet. */
  function LastEnd(ps: seq<Bet>): int {
    if ps == [] then 0 else ps[|ps| - 1].ticketEnd
  }

  /** Sum of the stakes. */
  function Stakes(ps: seq<Bet>): int {
    if ps == [] then 0 else Stakes(ps[..|ps| - 1]) + ps[|ps| - 1].bet
  }

  /** Number of bets placed by `u`. */
  function BetsBy(ps: seq<Bet>, u: UserId): nat {
    if ps == [] then 0
    else BetsBy(ps[..|ps| - 1], u) + (if ps[|ps| - 1].user == u then 1 else 0)
  }

  /** Ranges are handed out in arrival order: the first starts at 1, each next one
      right after the previous one ends, and a stake of `bet >= 1` holds `bet * 10` tickets. */
  ghost predicate Contiguous(ps: seq<Bet>) {
    forall i :: 0 <= i < |ps| ==>
      && ps[i].bet >= 1
      && ps[i].ticketEnd == ps[i].ticketStart + ps[i].bet * TicketsPerStar - 1
      && ps[i].ticketStart == LastEnd(ps[..i]) + 1
  }

  /** The invariant of a round's bookkeeping: contiguous ranges, `totalTickets` is the
      last range's end, `totalPot` the sum of stakes, and nobody holds more than three bets. */
  ghost predicate WellFormed(r: Round) {
    && Contiguous(r.participants)
    && r.totalTickets == LastEnd(r.participants)
    && r.totalPot == Stakes(r.participants)
    && forall u :: BetsBy(r.participants, u) <= MaxBetsPerUser
  }

  /** The bet handler's bookkeeping for an accepted bet: the next `amount * 10` tickets
      go to `user`, and pot and ticket counter grow accordingly. */
  function Book(r: Round, user: UserId, amount: int, now: int): (r': Round)
    ensures ParticipantsCount(r') == ParticipantsCount(r) + 1
    ensures r'.participants[..|r.participants|] == r.participants
    ensures var b := r'.participants[|r.participants|];
      b.user == user && b.bet == amount && b.ticketStart == r.totalTickets + 1
      && b.ticketEnd == r'.totalTickets && r'.totalTickets - r.totalTickets == amount * TicketsPerStar
    ensures r'.totalPot - r.totalPot == amount
    ensures r'.roundNumber == r.roundNumber && r'.status == r.status && r'.maxParticipants == r.maxParticipants
      && r'.minBet == r.minBet && r'.feePercent == r.feePercent && r'.winner == r.winner
  {
    var start := r.totalTickets + 1;
    var count := amount * TicketsPerStar;
    r.(participants := r.participants + [Bet(user, amount, start, start + count - 1, now)],
       totalPot := r.totalPot + amount,
       totalTickets := r.totalTickets + count)
  }

  lemma ContiguousPrefix(ps: seq<Bet>, n: nat)
    requires Contiguous(ps) && n <= |ps|
    ensures Contiguous(ps[..n])
  {
    var q := ps[..n];
    forall i | 0 <= i < |q|
      ensures q[i].bet >= 1 && q[i].ticketEnd == q[i].ticketStart + q[i].bet * TicketsPerStar - 1
      ensures q[i].ticketStart == LastEnd(q[..i]) + 1
    {
      assert q[i] == ps[i] && q[..i] == ps[..i];
    }
  }

  /** An accepted bet receives `[totalTickets + 1, totalTickets + amount * 10]`; the round
      stays well formed, `totalTickets` becomes the new range's end, the pot grows by the
      stake, and nothing but the three booked fields changes. */
  lemma BookKeepsWellFormed(r: Round, user: UserId, amount: int, now: int)
    requires WellFormed(r)
    requires amount >= 1
    requires BetsBy(r.participants, user) < MaxBetsPerUser
    ensures var r' := Book(r, user, amount, now);
      && WellFormed(r')
      && |r'.participants| == |r.participants| + 1
      && r'.participants[..|r.participants|] == r.participants
      && r'.participants[|r.participants|]
           == Bet(user, amount, r.totalTickets + 1, r.totalTickets + amount * TicketsPerStar, now)
      && r'.totalTickets == r'.participants[|r.participants|].ticketEnd
      && r'.totalPot == r.totalPot + amount
      && r'.(participants := r.participants, totalPot := r.totalPot, totalTickets := r.totalTickets) == r
  {
    var r' := Book(r, user, amount, now);
    var ps, ps' := r.participants, r'.participants;
    assert ps'[..|ps|] == ps;
    forall i | 0 <= i < |ps'|
      ensures ps'[i].bet >= 1 && ps'[i].ticketEnd == ps'[i].ticketStart + ps'[i].bet * TicketsPerStar - 1
      ensures ps'[i].ticketStart == LastEnd(ps'[..i]) + 1
    {
      if i < |ps| {
        assert ps'[i] == ps[i] && ps'[..i] == ps[..i];
      } else {
        assert ps'[..i] == ps;
      }
    }
    forall u ensures BetsBy(ps', u) <= MaxBetsPerUser {
      BetsByAppend(ps, ps'[|ps|], u);
    }
    assert Stakes(ps') == Stakes(ps) + amount by { assert ps'[..|ps'| - 1] == ps; }
  }

  lemma BetsByAppend(ps: seq<Bet>, b: Bet, u: UserId)
    ensures BetsBy(ps + [b], u) == BetsBy(ps, u) + (if b.user == u then 1 else 0)
  {
    assert (ps + [b])[..|ps|] == ps;
  }

  /** Booking one bet of `user` raises that user's bet count by one and nobody else's. */
  lemma BookCountsBets(r: Round, user: UserId, amount: int, now: int, u: UserId)
    ensures BetsBy(Book(r, user, amount, now).participants, u)
         == BetsBy(r.participants, u) + (if u == user then 1 else 0)
  {
    BetsByAppend(r.participants, Book(r, user, amount, now).participants[|r.participants|], u);
  }

  /** Every range lies within `[1, LastEnd]`. */
  lemma {:induction false} RangesWithin(ps: seq<Bet>, i: nat)
    requires Contiguous(ps) && i < |ps|
    ensures 1 <= ps[i].ticketStart <= ps[i].ticketEnd <= LastEnd(ps)
  {
    if i > 0 { RangesWithin(ps, i - 1); }
    if i < |ps| - 1 { EndsBefore(ps, i, |ps| - 1); }
  }

  /** Ranges of earlier bets end before those of later bets start. */
  lemma {:induction false} EndsBefore(ps: seq<Bet>, i: nat, j: nat)
    requires Contiguous(ps) && i < j < |ps|
    ensures ps[i].ticketEnd < ps[j].ticketStart
  {
    if j > i + 1 {
      EndsBefore(ps, i, j - 1);
    }
  }

  /** Ranges of distinct bets are disjoint. */
  lemma Disjoint(ps: seq<Bet>, i: nat, j: nat, t: int)
    requires Contiguous(ps) && i < |ps| && j < |ps| && i != j
    ensures !(Owns(ps[i], t) && Owns(ps[j], t))
  {
    if i < j { EndsBefore(ps, i, j); } else { EndsBefore(ps, j, i); }
  }

  /** Together, the ranges cover exactly `[1, LastEnd]`: a ticket has an owner iff it lies there. */
  lemma {:induction false} Covered(ps: seq<Bet>, t: int)
    requires Contiguous(ps)
    ensures (exists i :: 0 <= i < |ps| && Owns(ps[i], t)) <==> 1 <= t <= LastEnd(ps)
  {
    if 1 <= t <= LastEnd(ps) {
      var n := |ps| - 1;
      var pre := ps[..n];
      ContiguousPrefix(ps, n);
      if t <= LastEnd(pre) {
        Covered(pre, t);
        var i :| 0 <= i < |pre| && Owns(pre[i], t);
        assert ps[i] == pre[i];
      } else {
        assert n == 0 ==> ps[n].ticketStart == 1;
        assert n > 0 ==> ps[n].ticketStart == pre[n - 1].ticketEnd + 1;
        assert Owns(ps[n], t);
      }
    }
    if exists i :: 0 <= i < |ps| && Owns(ps[i], t) {
      var i :| 0 <= i < |ps| && Owns(ps[i], t);
      RangesWithin(ps, i);
    }
  }

  /** The first bet whose range holds `t`, scanning in arrival order. */
  function FirstOwner(ps: seq<Bet>, t: int): (k: Option<nat>)
    ensures k.Some? ==> k.value < |ps| && Owns(ps[k.value], t)
    ensures k.Some? ==> forall j :: 0 <= j < k.value ==> !Owns(ps[j], t)
    ensures k.None? ==> forall j :: 0 <= j < |ps| ==> !Owns(ps[j], t)
  {
    if ps == [] then None
    else if Owns(ps[0], t) then Some(0)
    else match FirstOwner(ps[1..], t)
      case None => None
      case Some(k) => Some(k + 1)
  }

  /** On contiguous ranges the scan finds an owner exactly for the tickets `1..LastEnd`,
      and that owner is the only bet holding the ticket. */
  lemma OwnerUnique(ps: seq<Bet>, t: int)
    requires Contiguous(ps)
    ensures FirstOwner(ps, t).Some? <==> 1 <= t <= LastEnd(ps)
    ensures FirstOwner(ps, t).Some? ==>
      forall j :: 0 <= j < |ps| && Owns(ps[j], t) ==> j == FirstOwner(ps, t).value
  {
    Covered(ps, t);
    if FirstOwner(ps, t).Some? {
      var k := FirstOwner(ps, t).value;
      forall j | 0 <= j < |ps| && Owns(ps[j], t) ensures j == k {
        if j != k { Disjoint(ps, j, k, t); }
      }
    }
  }

  /** The scan of `determineWinner`: walk the bets in order and stop at the first whose
      range holds the winning ticket. */
  method FindWinner(ps: seq<Bet>, t: int) returns (k: Option<nat>)
    ensures k.Some? ==> k.value < |ps| && Owns(ps[k.value], t)
    ensures k.Some? ==> forall j :: 0 <= j < k.value ==> !Owns(ps[j], t)
    ensures k.None? ==> forall j :: 0 <= j < |ps| ==> !Owns(ps[j], t)
    ensures k == FirstOwner(ps, t)
  {
    k := None;
    var i := 0;
    while i < |ps|
      invariant 0 <= i <= |ps|
      invariant forall j :: 0 <= j < i ==> !Owns(ps[j], t)
    {
      if t >= ps[i].ticketStart && t <= ps[i].ticketEnd {
        k := Some(i);
        break;
      }
      i := i + 1;
    }
    FirstOwnerIsFirst(ps, t, k);
  }

  /** The three clauses characterising the first owner single it out. */
  lemma FirstOwnerIsFirst(ps: seq<Bet>, t: int, k: Option<nat>)
    requires k.Some? ==> k.value < |ps| && Owns(ps[k.value], t)
    requires k.Some? ==> forall j :: 0 <= j < k.value ==> !Owns(ps[j], t)
    requires k.None? ==> forall j :: 0 <= j < |ps| ==> !Owns(ps[j], t)
    ensures k == FirstOwner(ps, t)
  {
  }

  /** House fee: `totalPot * feePercent / 100`, exact (no rounding). */
  function Fee(totalPot: int, feePercent: int): real {
    (totalPot * feePercent) as real / 100.0
  }

  /** The winner's prize: the pot minus the fee. Fee and prize split the pot exactly,
      and with a fee between 0 and 100 percent both lie between 0 and the pot. */
  function Prize(totalPot: int, feePercent: int): (p: real)
    ensures p + Fee(totalPot, feePercent) == totalPot as real
    ensures 0 <= totalPot && 0 <= feePercent <= 100 ==>
      0.0 <= p <= totalPot as real && 0.0 <= Fee(totalPot, feePercent) <= totalPot as real
  {
    PotSplit(totalPot, feePercent);
    totalPot as real - Fee(totalPot, feePercent)
  }

  lemma PotSplit(totalPot: int, feePercent: int)
    ensures 0 <= totalPot && 0 <= feePercent <= 100 ==>
      0 <= totalPot * feePercent <= totalPot * 100
    ensures totalPot as real - Fee(totalPot, feePercent) == (totalPot * (100 - feePercent)) as real / 100.0
  {
    assert totalPot * (100 - feePercent) == totalPot * 100 - totalPot * feePercent;
    if 0 <= totalPot && 0 <= feePercent <= 100 {
      assert totalPot * feePercent <= totalPot * 100 by {
        assert totalPot * (100 - feePercent) >= 0;
      }
    }
  }

  /** `determineWinner`'s update of the round: completed at `now`, with the winner, the
      winning ticket and the prize recorded. */
  function Settle(r: Round, winner: UserId, ticket: int, now: int): (s: Round)
    ensures s == r.(status := s.status, endTime := s.endTime, winner := s.winner, winningTicket := s.winningTicket)
    ensures s.status == Completed && s.endTime == Some(now) && s.winner.Some? && s.winner.value.user == winner
    ensures s.winningTicket == Some(ticket) && s.winner.value.ticket == ticket
    ensures s.winner.value.prize + Fee(r.totalPot, r.feePercent) == r.totalPot as real
  {
    r.(status := Completed, endTime := Some(now),
       winner := Some(Winner(winner, ticket, Prize(r.totalPot, r.feePercent))),
       winningTicket := Some(ticket))
  }

  /** The round opened after a draw: next number, same configuration, empty. */
  function NextRound(r: Round, now: int): Round {
    OpenRound(r.roundNumber + 1, r.maxParticipants, r.minBet, r.feePercent, now)
  }

  /** Settling a well-formed round at the ticket its scan resolved: the round is completed
      once, its winner holds the winning ticket and nobody else does, and the recorded prize
      and the fee add up to the pot; the bets themselves are kept as they were. */
  lemma SettleRecordsDraw(r: Round, ticket: int, now: int)
    requires WellFormed(r)
    requires FirstOwner(r.participants, ticket).Some?
    ensures var k := FirstOwner(r.participants, ticket).value;
      var s := Settle(r, r.participants[k].user, ticket, now);
      && s.status == Completed && s.endTime == Some(now)
      && s.winningTicket == Some(ticket) && s.winner.Some?
      && s.winner.value.ticket == ticket
      && s.winner.value.user == r.participants[k].user
      && 1 <= ticket <= s.totalTickets
      && (forall j :: 0 <= j < |s.participants| && Owns(s.participants[j], ticket) ==> j == k)
      && s.winner.value.prize + Fee(s.totalPot, s.feePercent) == s.totalPot as real
      && s.participants == r.participants && s.totalPot == r.totalPot
      && s.totalTickets == r.totalTickets && s.roundNumber == r.roundNumber
  {
    OwnerUnique(r.participants, ticket);
  }

  /** The round after a draw is numbered one higher, keeps the configuration, is active and empty. */
  lemma NextRoundContinues(r: Round, now: int)
    ensures var n := NextRound(r, now);
      && n.roundNumber == r.roundNumber + 1 && n.status == Active
      && n.maxParticipants == r.maxParticipants && n.minBet == r.minBet && n.feePercent == r.feePercent
      && n.participants == [] && n.totalPot == 0 && n.totalTickets == 0
      && WellFormed(n) && n.winner == None && n.endTime == None
  {
  }

  /** On contiguous ranges the total ticket count is ten times the pot:
      `totalTickets == sum(ticketEnd - ticketStart + 1)`. */
  lemma {:induction false} TicketsMatchStakes(ps: seq<Bet>)
    requires Contiguous(ps)
    ensures LastEnd(ps) == TicketsPerStar * Stakes(ps)
  {
    if ps != [] {
      var pre := ps[..|ps| - 1];
      ContiguousPrefix(ps, |ps| - 1);
      TicketsMatchStakes(pre);
      assert |ps| - 1 > 0 ==> ps[|ps| - 1].ticketStart == pre[|pre| - 1].ticketEnd + 1;
    }
  }
}
