/**
 The handlers the top-level application passes down: placing a ticket,
 requesting a top-up, deleting a ticket from the history, logging in and out.
 Random ids and `Date.now()` arrive as the parameters `id` and `now`.
 */
module App {
  import opened ArrayOps
  import opened Types
  import opened Store

  /** The team names of the current slate, copied onto a new ticket. */
  function MatchInfoOf(matches: seq<Match>): (info: seq<MatchInfo>)
    ensures |info| == |matches|
    ensures forall i :: 0 <= i < |matches| ==>
              info[i].home == matches[i].homeTeam && info[i].away == matches[i].awayTeam
  {
    seq(|matches|, i requires 0 <= i < |matches| => MatchInfo(matches[i].homeTeam, matches[i].awayTeam))
  }

  /** The auto-validation test: the balance covers the ticket price. */
  predicate CoversPrice(balance: real, settings: AppSettings)
  {
    balance >= settings.ticketPrice
  }

  /** Issues a ticket for the logged-in user. The status and the debit are
      decided by that user's snapshot balance alone; betting being blocked
      and the number of picks are not consulted. The snapshot, with its new
      balance, is written back over every users-list record with its id. */
  function PlaceTicket(s: State, picks: seq<Pick>, id: string, now: int): (s': State)
    ensures s.current.None? ==> s' == s
    ensures s.current.Some? ==>
              var u, price := s.current.value, s.settings.ticketPrice;
              && |s'.tickets| == |s.tickets| + 1
              && s'.tickets[1..] == s.tickets
              && var t := s'.tickets[0];
                 && t.id == id && t.date == now
                 && t.userId == u.id && t.userName == u.name && t.parentId == u.parentId
                 && t.picks == picks
                 && t.cost == price && t.potentialPrize == s.settings.jackpotPrize
                 && |t.matchInfo| == |s.matches|
                 && (forall i :: 0 <= i < |s.matches| ==> t.matchInfo[i] == MatchInfo(s.matches[i].homeTeam, s.matches[i].awayTeam))
                 && (u.balance >= price ==> t.status == Validated && s'.current == Some(u.(balance := u.balance - price)))
                 && (u.balance < price ==> t.status == TicketStatus.Pending && s'.current == Some(u))
    ensures s.current.Some? ==>
              && |s'.users| == |s.users|
              && (forall i :: 0 <= i < |s.users| && s.users[i].id == s.current.value.id ==> s'.users[i] == s'.current.value)
              && (forall i :: 0 <= i < |s.users| && s.users[i].id != s.current.value.id ==> s'.users[i] == s.users[i])
    ensures s'.matches == s.matches && s'.requests == s.requests && s'.settings == s.settings
  {
    match s.current
    case None => s
    case Some(u) =>
      var paid := CoversPrice(u.balance, s.settings);
      var status := if paid then Validated else TicketStatus.Pending;
      var updated := if paid then u.(balance := u.balance - s.settings.ticketPrice) else u;
      var ticket := Ticket(id, u.id, u.name, picks, MatchInfoOf(s.matches), s.settings.ticketPrice,
                           s.settings.jackpotPrize, status, now, u.parentId);
      s.(tickets := [ticket] + s.tickets,
         users := ReplaceUser(s.users, updated),
         current := Some(updated))
  }

  /** When the snapshot is in step with the users list, placing a ticket
      moves exactly the price out of the buyer's listed balance if it was
      covered, and nothing otherwise; no other record changes. */
  lemma PlaceTicketLedger(s: State, picks: seq<Pick>, id: string, now: int, i: nat)
    requires Synced(s) && s.current.Some?
    requires i < |s.users|
    ensures var s' := PlaceTicket(s, picks, id, now);
            var u, price := s.users[i], s.settings.ticketPrice;
            && (u.id == s.current.value.id && u.balance >= price ==>
                  SameButBalance(u, s'.users[i]) && s'.users[i].balance == u.balance - price
                  && s'.tickets[0].status == Validated)
            && (u.id == s.current.value.id && u.balance < price ==>
                  s'.users[i] == u && s'.tickets[0].status == TicketStatus.Pending)
            && (u.id != s.current.value.id ==> s'.users[i] == u)
            && Synced(s')
  {
  }

  /** A balance that covers the price stays non-negative after the debit;
      an uncovered one is not touched. */
  lemma PlaceTicketKeepsBalanceNonNegative(s: State, picks: seq<Pick>, id: string, now: int)
    requires s.current.Some? && s.current.value.balance >= 0.0
    ensures var s' := PlaceTicket(s, picks, id, now);
            s'.current.Some? && s'.current.value.balance >= 0.0
  {
  }

  /** Files a PENDING top-up request for the logged-in user, addressed to
      that user's bookie. No balance changes. */
  function RequestBalance(s: State, amount: real, id: string, now: int): (s': State)
    ensures s.current.None? ==> s' == s
    ensures s.current.Some? ==>
              var u := s.current.value;
              && |s'.requests| == |s.requests| + 1
              && s'.requests[1..] == s.requests
              && var q := s'.requests[0];
                 && q.id == id && q.date == now
                 && q.status == RequestStatus.Pending && q.amount == amount
                 && q.userId == u.id && q.userName == u.name && q.parentId == u.parentId
    ensures s'.users == s.users && s'.current == s.current
    ensures s'.tickets == s.tickets && s'.matches == s.matches && s'.settings == s.settings
  {
    match s.current
    case None => s
    case Some(u) =>
      var q := BalanceRequest(id, u.id, u.name, amount, RequestStatus.Pending, now, u.parentId);
      s.(requests := [q] + s.requests)
  }

  /** The filter predicate of the history's delete button. */
  function OtherThan(id: string): Ticket -> bool
  {
    (t: Ticket) => t.id != id
  }

  /** The history's delete button: drops every ticket carrying `id`. */
  function DeleteTicket(s: State, id: string): (s': State)
    ensures forall t :: t in s'.tickets <==> t in s.tickets && t.id != id
    ensures s'.users == s.users && s'.current == s.current && s'.requests == s.requests
    ensures s'.matches == s.matches && s'.settings == s.settings
  {
    s.(tickets := Filter(s.tickets, OtherThan(id)))
  }

  /** Deleting a ticket whose id is unique removes exactly that ticket and
      keeps every other ticket in its original order. */
  lemma DeleteTicketExact(s: State, a: seq<Ticket>, t: Ticket, b: seq<Ticket>)
    requires s.tickets == a + [t] + b
    requires forall x :: x in a + b ==> x.id != t.id
    ensures DeleteTicket(s, t.id).tickets == a + b
  {
    var p := OtherThan(t.id);
    assert forall i :: 0 <= i < |a| ==> p(a[i]) by {
      forall i | 0 <= i < |a| ensures p(a[i]) { assert a[i] in a + b; }
    }
    assert forall i :: 0 <= i < |b| ==> p(b[i]) by {
      forall i | 0 <= i < |b| ensures p(b[i]) { assert b[i] in a + b; }
    }
    FilterAll(a, p);
    FilterAll(b, p);
    FilterSingleton(t, p);
    FilterAppend(a, [t], p);
    assert Filter(a + [t], p) == a;
    FilterAppend(a + [t], b, p);
    assert s.tickets == (a + [t]) + b;
  }

  /** `handleLogin`: the chosen record becomes the session snapshot. */
  function LogIn(s: State, u: User): (s': State)
    ensures s'.current == Some(u)
    ensures s'.users == s.users && s'.tickets == s.tickets && s'.requests == s.requests
    ensures s'.matches == s.matches && s'.settings == s.settings
  {
    s.(current := Some(u))
  }

  /** `handleLogout`: the session ends; no stored data changes. */
  function LogOut(s: State): (s': State)
    ensures s'.current == None
    ensures s'.users == s.users && s'.tickets == s.tickets && s'.requests == s.requests
    ensures s'.matches == s.matches && s'.settings == s.settings
  {
    s.(current := None)
  }
}
