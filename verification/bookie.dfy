/**
 The bookie's dashboard: its own clients, tickets and requests, its running
 totals, top-ups for clients, resolving its clients' requests, validating
 tickets, registering clients and saving its PIX key. `me` is the logged-in
 bookie the dashboard is rendered for.
 */
module Bookie {
  import opened ArrayOps
  import opened Types
  import opened Store
  import Admin

  /** The figures at the top of the bookie's finance tab. */
  datatype BookieTotals = BookieTotals(ticketVolume: real, deposits: real, commission: real, adminDue: real)

  function Totals(s: State, me: User): (r: BookieTotals)
    ensures r.ticketVolume == Volume(TicketsUnder(s.tickets, me.id))
    ensures r.deposits == Deposits(ClientsOf(s.users, me.id))
    ensures 5.0 * r.commission == r.ticketVolume
    ensures r.adminDue == 0.8 * r.ticketVolume + r.deposits
  {
    var volume := Volume(TicketsUnder(s.tickets, me.id));
    var added := Deposits(ClientsOf(s.users, me.id));
    var commission := volume * Admin.CommissionRate;
    BookieTotals(volume, added, commission, (volume + added) - commission)
  }

  /** What a bookie sees for itself is its line of the administrator's
      settlement table. */
  lemma TotalsMatchSettlement(s: State, i: nat)
    requires i < |Admin.Settlement(s)|
    ensures var row, t := Admin.Settlement(s)[i], Totals(s, Admin.Settlement(s)[i].bookie);
            && t.ticketVolume == row.total && t.deposits == row.recargas
            && t.commission == row.commission && t.adminDue == row.due
  {
  }

  /** Writes the bookie's snapshot, with the new PIX key, over its users-list
      record and makes it the session snapshot. */
  function SaveSettings(s: State, me: User, pix: string): (s': State)
    ensures s'.current == Some(me.(pixKey := Some(pix)))
    ensures |s'.users| == |s.users|
    ensures forall i :: 0 <= i < |s.users| && s.users[i].id == me.id ==> s'.users[i] == me.(pixKey := Some(pix))
    ensures forall i :: 0 <= i < |s.users| && s.users[i].id != me.id ==> s'.users[i] == s.users[i]
    ensures s'.tickets == s.tickets && s'.requests == s.requests && s'.matches == s.matches
    ensures s'.settings == s.settings
  {
    var updated := me.(pixKey := Some(pix));
    s.(users := ReplaceUser(s.users, updated), current := Some(updated))
  }

  /** With the snapshot in step with the list, saving changes only the
      bookie's PIX key. */
  lemma SaveSettingsOnlyPixKey(s: State, me: User, pix: string, i: nat)
    requires s.current == Some(me) && Synced(s)
    requires i < |s.users|
    ensures var s' := SaveSettings(s, me, pix);
            s'.users[i] == s.users[i].(pixKey := s'.users[i].pixKey)
            && (s.users[i].id == me.id ==> s'.users[i].pixKey == Some(pix))
            && Synced(s')
  {
  }

  /** A top-up a bookie makes for a client: invalid amounts change nothing;
      otherwise the balance and the bookie-deposit total both rise by the
      amount. The handler does not check that the user is the bookie's. */
  function AddBalance(s: State, userId: string, amount: Parsed): (s': State)
    ensures !ValidAmount(amount) ==> s' == s
    ensures ValidAmount(amount) ==>
              && |s'.users| == |s.users|
              && (forall i :: 0 <= i < |s.users| && s.users[i].id != userId ==> s'.users[i] == s.users[i])
              && (forall i :: 0 <= i < |s.users| && s.users[i].id == userId ==>
                    && SameButMoney(s.users[i], s'.users[i])
                    && s'.users[i].balance == s.users[i].balance + amount.value
                    && DepositsOf(s'.users[i]) == DepositsOf(s.users[i]) + amount.value)
    ensures s'.tickets == s.tickets && s'.requests == s.requests && s'.matches == s.matches
    ensures s'.settings == s.settings && s'.current == s.current
  {
    if !ValidAmount(amount) then s
    else s.(users := CreditFromBookie(s.users, userId, amount.value))
  }

  /** Resolves the first of the bookie's own requests carrying `id`; requests
      addressed elsewhere are ignored. Approval credits both the balance and
      the bookie-deposit total. Every request carrying `id` takes the status. */
  function ActionRequest(s: State, me: User, id: string, d: Decision): (s': State)
    ensures FindRequest(RequestsUnder(s.requests, me.id), id).None? ==> s' == s
    ensures FindRequest(RequestsUnder(s.requests, me.id), id).Some? ==>
              var q := FindRequest(RequestsUnder(s.requests, me.id), id).value;
              && q in s.requests && q.parentId == Some(me.id)
              && |s'.users| == |s.users|
              && (forall i :: 0 <= i < |s.users| && (d == Reject || s.users[i].id != q.userId) ==> s'.users[i] == s.users[i])
              && (forall i :: 0 <= i < |s.users| && d == Approve && s.users[i].id == q.userId ==>
                    && SameButMoney(s.users[i], s'.users[i])
                    && s'.users[i].balance == s.users[i].balance + q.amount
                    && DepositsOf(s'.users[i]) == DepositsOf(s.users[i]) + q.amount)
              && |s'.requests| == |s.requests|
              && (forall i :: 0 <= i < |s.requests| && s.requests[i].id == id ==>
                    s'.requests[i] == s.requests[i].(status := StatusOf(d)))
              && (forall i :: 0 <= i < |s.requests| && s.requests[i].id != id ==> s'.requests[i] == s.requests[i])
    ensures s'.tickets == s.tickets && s'.matches == s.matches
    ensures s'.settings == s.settings && s'.current == s.current
  {
    match FindRequest(RequestsUnder(s.requests, me.id), id)
    case None => s
    case Some(q) =>
      var users := if d == Approve then CreditFromBookie(s.users, q.userId, q.amount) else s.users;
      s.(users := users, requests := WithRequestStatus(s.requests, id, StatusOf(d)))
  }

  /** A bookie cannot resolve a request that is not addressed to it. */
  lemma ForeignRequestIgnored(s: State, me: User, id: string, d: Decision)
    requires forall q :: q in s.requests && q.id == id ==> q.parentId != Some(me.id)
    ensures ActionRequest(s, me, id, d) == s
  {
  }

  /** The tickets the dashboard offers for validation: the bookie's own
      PENDING tickets. */
  function OfferedTickets(s: State, me: User): (r: seq<Ticket>)
    ensures forall t :: t in r <==> t in s.tickets && t.parentId == Some(me.id) && t.status == TicketStatus.Pending
  {
    Filter(TicketsUnder(s.tickets, me.id), (t: Ticket) => t.status == TicketStatus.Pending)
  }

  /** The dashboard's status handler is the administrator's, unchanged
      (`Admin.ActionTicket`): it does not check whose ticket it is. Validating
      an offered ticket, when ticket ids are unique, touches only that one
      ticket of the bookie and moves it from PENDING to VALIDATED. */
  lemma ValidateOfferedTicket(s: State, me: User, t: Ticket)
    requires t in OfferedTickets(s, me)
    requires forall i, j :: 0 <= i < j < |s.tickets| ==> s.tickets[i].id != s.tickets[j].id
    ensures var s' := Admin.ActionTicket(s, t.id, Validated);
            forall i :: 0 <= i < |s.tickets| ==>
              if s.tickets[i] == t
              then s'.tickets[i] == t.(status := Validated) && t.parentId == Some(me.id) && t.status == TicketStatus.Pending
              else s'.tickets[i] == s.tickets[i]
  {
  }

  /** The fields of the bookie's client form. */
  datatype ClientForm = ClientForm(name: string, username: string, password: string)

  /** Appends a CLIENT linked to this bookie, with balance 0 and a zero
      bookie-deposit total. */
  function RegisterClient(s: State, me: User, form: ClientForm, id: string, now: int): (s': State)
    ensures |s'.users| == |s.users| + 1 && s'.users[..|s.users|] == s.users
    ensures var u := s'.users[|s.users|];
            && u.id == id && u.name == form.name && u.username == form.username
            && u.password == Some(form.password) && u.createdAt == now
            && u.role == Client && u.parentId == Some(me.id)
            && u.balance == 0.0 && u.totalDepositsByBookie == Some(0.0) && u.pixKey == None
    ensures s'.tickets == s.tickets && s'.requests == s.requests && s'.matches == s.matches
    ensures s'.settings == s.settings && s'.current == s.current
  {
    var u := User(id, form.name, form.username, Some(form.password), Client, 0.0, None, now, Some(me.id), Some(0.0));
    s.(users := s.users + [u])
  }

  /** A newly registered client is one of the bookie's clients and adds
      nothing to its deposit total. */
  lemma RegisterClientJoinsBookie(s: State, me: User, form: ClientForm, id: string, now: int)
    ensures var s' := RegisterClient(s, me, form, id, now);
            && s'.users[|s.users|] in ClientsOf(s'.users, me.id)
            && Deposits(ClientsOf(s'.users, me.id)) == Deposits(ClientsOf(s.users, me.id))
  {
    var s' := RegisterClient(s, me, form, id, now);
    var u := s'.users[|s.users|];
    var p := (x: User) => x.parentId == Some(me.id);
    assert s'.users == s.users + [u];
    FilterAppend(s.users, [u], p);
    FilterSingleton(u, p);
    var before := Filter(s.users, p);
    assert Filter(s'.users, p) == before + [u];
    assert Deposits(before + [u]) == Deposits(before) + DepositsOf(u) by {
      assert (before + [u])[..|before + [u]| - 1] == before;
    }
  }
}
