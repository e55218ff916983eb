/**
 The administrator's dashboard: editing matches, setting ticket statuses,
 resolving direct balance requests, manual balance adjustments, deleting and
 registering users, the general settings, and the bookie settlement table.
 `me` is the logged-in administrator the dashboard is rendered for.
 */
module Admin {
  import opened ArrayOps
  import opened Types
  import opened Store

  // ---------------------------------------------------------------- matches

  /** The editable text fields of a match. */
  datatype MatchField = League | HomeTeam | AwayTeam | Date

  function FieldOf(m: Match, f: MatchField): string
  {
    match f
    case League => m.league
    case HomeTeam => m.homeTeam
    case AwayTeam => m.awayTeam
    case Date => m.date
  }

  function WithField(m: Match, f: MatchField, value: string): Match
  {
    match f
    case League => m.(league := value)
    case HomeTeam => m.(homeTeam := value)
    case AwayTeam => m.(awayTeam := value)
    case Date => m.(date := value)
  }

  /** Writes one field of the match(es) carrying `id`. Tickets are not
      touched, so the names they copied at issue survive the edit. */
  function UpdateMatch(s: State, id: string, f: MatchField, value: string): (s': State)
    ensures |s'.matches| == |s.matches|
    ensures forall i :: 0 <= i < |s.matches| && s.matches[i].id != id ==> s'.matches[i] == s.matches[i]
    ensures forall i :: 0 <= i < |s.matches| && s.matches[i].id == id ==>
              && FieldOf(s'.matches[i], f) == value
              && (forall g :: g != f ==> FieldOf(s'.matches[i], g) == FieldOf(s.matches[i], g))
              && s'.matches[i].id == id && s'.matches[i].result == s.matches[i].result
    ensures s'.tickets == s.tickets && s'.users == s.users && s'.requests == s.requests
    ensures s'.settings == s.settings && s'.current == s.current
  {
    s.(matches := MapWhere(s.matches, (m: Match) => m.id == id, (m: Match) => WithField(m, f, value)))
  }

  // ---------------------------------------------------------------- tickets

  /** Sets the status of the ticket(s) carrying `id`, from whatever status
      they had: there is no transition rule. */
  function ActionTicket(s: State, id: string, status: TicketStatus): (s': State)
    ensures |s'.tickets| == |s.tickets|
    ensures forall i :: 0 <= i < |s.tickets| ==>
              s'.tickets[i].status == (if s.tickets[i].id == id then status else s.tickets[i].status)
    ensures forall i :: 0 <= i < |s.tickets| ==> s'.tickets[i] == s.tickets[i].(status := s'.tickets[i].status)
    ensures s'.users == s.users && s'.requests == s.requests && s'.matches == s.matches
    ensures s'.settings == s.settings && s'.current == s.current
  {
    s.(tickets := WithTicketStatus(s.tickets, id, status))
  }

  /** A WON ticket can be put back to PENDING (or any other status). */
  lemma ActionTicketHasNoTransitionGuard(s: State, i: nat, status: TicketStatus)
    requires i < |s.tickets| && s.tickets[i].status == Won
    ensures ActionTicket(s, s.tickets[i].id, status).tickets[i].status == status
  {
  }

  // --------------------------------------------------------------- requests

  /** Resolves the first request carrying `id`: on approval its amount is
      credited to the requester's balance (never to the bookie-deposit
      total). Every request carrying `id` takes the new status. Whether the
      request was still PENDING is not checked. */
  function ActionRequest(s: State, id: string, d: Decision): (s': State)
    ensures FindRequest(s.requests, id).None? ==> s' == s
    ensures FindRequest(s.requests, id).Some? ==>
              var q := FindRequest(s.requests, id).value;
              && |s'.users| == |s.users|
              && (forall i :: 0 <= i < |s.users| ==> SameButBalance(s.users[i], s'.users[i]))
              && (forall i :: 0 <= i < |s.users| ==>
                    s'.users[i].balance == s.users[i].balance
                                          + (if d == Approve && s.users[i].id == q.userId then q.amount else 0.0))
              && |s'.requests| == |s.requests|
              && (forall i :: 0 <= i < |s.requests| && s.requests[i].id == id ==>
                    s'.requests[i] == s.requests[i].(status := StatusOf(d)))
              && (forall i :: 0 <= i < |s.requests| && s.requests[i].id != id ==> s'.requests[i] == s.requests[i])
    ensures s'.tickets == s.tickets && s'.matches == s.matches
    ensures s'.settings == s.settings && s'.current == s.current
  {
    match FindRequest(s.requests, id)
    case None => s
    case Some(q) =>
      var users := if d == Approve then CreditBalance(s.users, q.userId, q.amount) else s.users;
      s.(users := users, requests := WithRequestStatus(s.requests, id, StatusOf(d)))
  }

  /** Approving the same request twice credits its amount twice, whatever
      the request ids: the second lookup finds the same request, now APPROVED,
      with the same requester and amount. */
  lemma ApproveTwiceCreditsTwice(s: State, id: string)
    requires FindRequest(s.requests, id).Some?
    ensures var q := FindRequest(s.requests, id).value;
            var s2 := ActionRequest(ActionRequest(s, id, Approve), id, Approve);
            && |s2.users| == |s.users|
            && forall i :: 0 <= i < |s.users| ==>
                 s2.users[i].balance == s.users[i].balance + (if s.users[i].id == q.userId then 2.0 * q.amount else 0.0)
  {
    var q := FindRequest(s.requests, id).value;
    var p := (r: BalanceRequest) => r.id == id;
    var k := FindAt(s.requests, p);
    var s1 := ActionRequest(s, id, Approve);
    assert s1.requests[k] == q.(status := Approved);
    forall j | 0 <= j < k ensures !p(s1.requests[j]) {
      assert s1.requests[j] == s.requests[j];
    }
    FindFirst(s1.requests, p, k);
    assert FindRequest(s1.requests, id) == Some(q.(status := Approved));
  }

  // ---------------------------------------------------------------- balance

  datatype Adjustment = Add | Remove

  function Adjusted(u: User, kind: Adjustment, amount: real): User
  {
    var newBalance := if kind == Add then u.balance + amount else u.balance - amount;
    if newBalance < 0.0 && kind == Remove then u else u.(balance := newBalance)
  }

  /** A manual ADD or REMOVE of a typed-in amount. A NaN or non-positive
      amount changes nothing; a REMOVE that would leave the balance below
      zero leaves that user untouched. */
  function AdjustBalance(s: State, userId: string, amount: Parsed, kind: Adjustment): (s': State)
    ensures !ValidAmount(amount) ==> s' == s
    ensures ValidAmount(amount) ==>
              && |s'.users| == |s.users|
              && (forall i :: 0 <= i < |s.users| ==> SameButBalance(s.users[i], s'.users[i]))
              && (forall i :: 0 <= i < |s.users| && s.users[i].id != userId ==> s'.users[i] == s.users[i])
              && (forall i :: 0 <= i < |s.users| && s.users[i].id == userId && kind == Add ==>
                    s'.users[i].balance == s.users[i].balance + amount.value)
              && (forall i :: 0 <= i < |s.users| && s.users[i].id == userId && kind == Remove ==>
                    if s.users[i].balance >= amount.value
                    then s'.users[i].balance == s.users[i].balance - amount.value
                    else s'.users[i] == s.users[i])
    ensures s'.tickets == s.tickets && s'.requests == s.requests && s'.matches == s.matches
    ensures s'.settings == s.settings && s'.current == s.current
  {
    if !ValidAmount(amount) then s
    else s.(users := MapWhere(s.users, (u: User) => u.id == userId, (u: User) => Adjusted(u, kind, amount.value)))
  }

  /** REMOVE never drives a balance below zero: any negative balance after
      it was already there before. */
  lemma RemoveNeverCreatesNegative(s: State, userId: string, amount: Parsed)
    ensures var s' := AdjustBalance(s, userId, amount, Remove);
            forall i :: 0 <= i < |s'.users| && s'.users[i].balance < 0.0 ==> s'.users[i] == s.users[i]
  {
  }

  // ------------------------------------------------------------------ users

  /** Deleting yourself is refused; a confirmed delete removes every user
      carrying `userId`. Tickets and requests are kept. */
  function DeleteUser(s: State, me: User, userId: string, confirmed: bool): (s': State)
    ensures userId == me.id || !confirmed ==> s' == s
    ensures userId != me.id && confirmed ==>
              forall u :: u in s'.users <==> u in s.users && u.id != userId
    ensures s'.tickets == s.tickets && s'.requests == s.requests && s'.matches == s.matches
    ensures s'.settings == s.settings && s'.current == s.current
  {
    if userId == me.id || !confirmed then s
    else s.(users := Filter(s.users, UserOtherThan(userId)))
  }

  /** The fields of the administrator's registration form. `parentChoice`
      is "none" or the id of a bookie. */
  datatype RegistrationForm = RegistrationForm(
    name: string, username: string, password: string, role: UserRole, parentChoice: string)

  /** Appends the new user with balance 0. A bookie link is stored only for
      a CLIENT whose chosen parent is not "none". The username is not
      checked against existing ones. */
  function RegisterUser(s: State, form: RegistrationForm, id: string, now: int): (s': State)
    ensures |s'.users| == |s.users| + 1 && s'.users[..|s.users|] == s.users
    ensures var u := s'.users[|s.users|];
            && u.id == id && u.name == form.name && u.username == form.username
            && u.password == Some(form.password) && u.role == form.role && u.createdAt == now
            && u.balance == 0.0 && u.pixKey == None && u.totalDepositsByBookie == None
            && (u.parentId.Some? <==> form.role == Client && form.parentChoice != "none")
            && (u.parentId.Some? ==> u.parentId.value == form.parentChoice)
    ensures s'.tickets == s.tickets && s'.requests == s.requests && s'.matches == s.matches
    ensures s'.settings == s.settings && s'.current == s.current
  {
    var parent := if form.role == Client && form.parentChoice != "none" then Some(form.parentChoice) else None;
    var u := User(id, form.name, form.username, Some(form.password), form.role, 0.0, None, now, parent, None);
    s.(users := s.users + [u])
  }

  /** An empty password is ignored; otherwise the administrator's snapshot,
      with the new password, replaces its users-list record and becomes the
      session snapshot. */
  function ChangePassword(s: State, me: User, newPassword: string): (s': State)
    ensures newPassword == "" ==> s' == s
    ensures newPassword != "" ==>
              && s'.current == Some(me.(password := Some(newPassword)))
              && |s'.users| == |s.users|
              && (forall i :: 0 <= i < |s.users| && s.users[i].id == me.id ==> s'.users[i] == s'.current.value)
              && (forall i :: 0 <= i < |s.users| && s.users[i].id != me.id ==> s'.users[i] == s.users[i])
    ensures s'.tickets == s.tickets && s'.requests == s.requests && s'.matches == s.matches
    ensures s'.settings == s.settings
  {
    if newPassword == "" then s
    else
      var updated := me.(password := Some(newPassword));
      s.(users := ReplaceUser(s.users, updated), current := Some(updated))
  }

  // --------------------------------------------------------------- settings

  /** Edits the default PIX key; nothing else in the settings moves. */
  function SetPixKey(s: State, key: string): (s': State)
    ensures s'.settings.pixKey == key
    ensures s'.settings.bettingBlocked == s.settings.bettingBlocked
    ensures s'.settings.ticketPrice == s.settings.ticketPrice && s'.settings.jackpotPrize == s.settings.jackpotPrize
    ensures s'.users == s.users && s'.tickets == s.tickets && s'.requests == s.requests
    ensures s'.matches == s.matches && s'.current == s.current
  {
    s.(settings := s.settings.(pixKey := key))
  }

  /** Opens or closes betting. */
  function ToggleBetting(s: State): (s': State)
    ensures s'.settings.bettingBlocked != s.settings.bettingBlocked
    ensures s'.settings == s.settings.(bettingBlocked := s'.settings.bettingBlocked)
    ensures s'.users == s.users && s'.tickets == s.tickets && s'.requests == s.requests
    ensures s'.matches == s.matches && s'.current == s.current
  {
    s.(settings := s.settings.(bettingBlocked := !s.settings.bettingBlocked))
  }

  // ------------------------------------------------------------- settlement

  /** The bookie's share of its ticket volume. */
  const CommissionRate: real := 0.20

  /** One line of the bookie settlement table. */
  datatype SettlementRow = SettlementRow(
    bookie: User,
    total: real,              // ticket volume sold through the bookie
    recargas: real,           // top-ups the bookie made for its clients
    totalWithDeposits: real,
    commission: real,
    due: real                 // what the bookie owes the administration
  )

  predicate IsBookie(u: User)
  {
    u.role == Bookie
  }

  function Bookies(users: seq<User>): (r: seq<User>)
    ensures forall u :: u in r <==> u in users && u.role == Bookie
  {
    Filter(users, IsBookie)
  }

  /** Tickets of customers without a bookie (a missing or empty link). */
  function DirectTickets(tickets: seq<Ticket>): (r: seq<Ticket>)
    ensures forall t :: t in r <==> t in tickets && !Truthy(t.parentId)
  {
    Filter(tickets, (t: Ticket) => !Truthy(t.parentId))
  }

  /** The volume of direct sales; it cannot be negative while no ticket
      costs a negative amount. */
  function DirectVolume(s: State): (r: real)
    ensures (forall t :: t in s.tickets ==> t.cost >= 0.0) ==> r >= 0.0
  {
    var direct := DirectTickets(s.tickets);
    VolumeOfPartNonNegative(direct, s.tickets);
    Volume(direct)
  }

  /** A part of a ticket list whose costs are all non-negative has a
      non-negative volume. */
  lemma VolumeOfPartNonNegative(part: seq<Ticket>, tickets: seq<Ticket>)
    requires forall t :: t in part ==> t in tickets
    ensures (forall t :: t in tickets ==> t.cost >= 0.0) ==> Volume(part) >= 0.0
  {
    if forall t :: t in tickets ==> t.cost >= 0.0 {
      SumNonNegative(part, CostOf);
    }
  }

  /** The settlement of one bookie: the commission is a fifth of its ticket
      volume only, so the bookie owes four fifths of that volume plus every
      top-up it made. */
  function SettlementRowOf(s: State, b: User): (row: SettlementRow)
    ensures row.bookie == b
    ensures row.total == Volume(TicketsUnder(s.tickets, b.id))
    ensures row.recargas == Deposits(ClientsOf(s.users, b.id))
    ensures row.totalWithDeposits == row.total + row.recargas
    ensures 5.0 * row.commission == row.total
    ensures row.due == 0.8 * row.total + row.recargas
  {
    var total := Volume(TicketsUnder(s.tickets, b.id));
    var recargas := Deposits(ClientsOf(s.users, b.id));
    var totalWithDeposits := total + recargas;
    var commission := total * CommissionRate;
    SettlementRow(b, total, recargas, totalWithDeposits, commission, totalWithDeposits - commission)
  }

  function RowsFor(s: State, bookies: seq<User>): (rows: seq<SettlementRow>)
    ensures |rows| == |bookies|
    ensures forall i :: 0 <= i < |bookies| ==> rows[i] == SettlementRowOf(s, bookies[i])
  {
    seq(|bookies|, i requires 0 <= i < |bookies| => SettlementRowOf(s, bookies[i]))
  }

  /** One row per bookie, in users-list order. */
  function Settlement(s: State): (rows: seq<SettlementRow>)
    ensures |rows| == |Bookies(s.users)|
    ensures forall i :: 0 <= i < |rows| ==> rows[i].bookie == Bookies(s.users)[i]
  {
    RowsFor(s, Bookies(s.users))
  }

  /** Every figure of a settlement row is at least 0. */
  predicate RowNonNegative(row: SettlementRow)
  {
    && row.total >= 0.0 && row.recargas >= 0.0 && row.totalWithDeposits >= 0.0
    && row.commission >= 0.0 && row.due >= 0.0
  }

  function DueOf(row: SettlementRow): real { row.due }
  function TotalOf(row: SettlementRow): real { row.total }
  function RecargasOf(row: SettlementRow): real { row.recargas }
  function CommissionOf(row: SettlementRow): real { row.commission }

  /** What the administration is owed in all: every bookie's due plus the
      volume of direct sales. */
  function TotalAdminDue(s: State): (r: real)
    ensures r == 0.8 * Sum(Settlement(s), TotalOf) + Sum(Settlement(s), RecargasOf) + DirectVolume(s)
  {
    SumDues(Settlement(s));
    Sum(Settlement(s), DueOf) + DirectVolume(s)
  }

  lemma {:induction false} SumDues(rows: seq<SettlementRow>)
    requires forall i :: 0 <= i < |rows| ==> rows[i].due == 0.8 * rows[i].total + rows[i].recargas
    ensures Sum(rows, DueOf) == 0.8 * Sum(rows, TotalOf) + Sum(rows, RecargasOf)
  {
    if |rows| > 0 {
      SumDues(rows[..|rows| - 1]);
    }
  }

  lemma {:induction false} SumCommissions(rows: seq<SettlementRow>)
    requires forall i :: 0 <= i < |rows| ==> 5.0 * rows[i].commission == rows[i].total
    ensures 5.0 * Sum(rows, CommissionOf) == Sum(rows, TotalOf)
  {
    if |rows| > 0 {
      SumCommissions(rows[..|rows| - 1]);
    }
  }

  /** The total commission is one fifth of all bookie ticket volume. */
  lemma CommissionsAreOneFifth(s: State)
    ensures 5.0 * Sum(Settlement(s), CommissionOf) == Sum(Settlement(s), TotalOf)
  {
    SumCommissions(Settlement(s));
  }

  // Every ticket is counted at most once across the settlement: in the row
  // of the one bookie it names, or in the direct volume. A ticket whose link
  // names no listed bookie (its bookie was deleted) is counted nowhere.

  /** Bookie ids are distinct and non-empty. */
  predicate BookieIdsSound(s: State)
  {
    var bs := Bookies(s.users);
    && (forall i, j :: 0 <= i < j < |bs| ==> bs[i].id != bs[j].id)
    && (forall i :: 0 <= i < |bs| ==> bs[i].id != "")
  }

  /** The bookie links are sound: bookie ids are sound, and every non-empty
      ticket link names a bookie. */
  predicate LinksWellFormed(s: State)
  {
    && BookieIdsSound(s)
    && (forall t :: t in s.tickets && Truthy(t.parentId) ==> Names(Bookies(s.users), t.parentId))
  }

  /** Some bookie in `bs` is the one `link` names. */
  predicate Names(bs: seq<User>, link: Option<string>)
  {
    exists i :: 0 <= i < |bs| && link == Some(bs[i].id)
  }

  /** A ticket sold through a bookie that is not in `bs`. */
  function Stray(bs: seq<User>): Ticket -> bool
  {
    (t: Ticket) => Truthy(t.parentId) && !Names(bs, t.parentId)
  }

  /** Tickets whose bookie link names no listed bookie: neither a bookie row
      nor the direct volume counts them. */
  function StrayTickets(s: State): (r: seq<Ticket>)
    ensures forall t :: t in r <==> t in s.tickets && Truthy(t.parentId) && !Names(Bookies(s.users), t.parentId)
  {
    Filter(s.tickets, Stray(Bookies(s.users)))
  }

  /** The ticket volume of the bookies in `bs`, bookie by bookie. */
  function BookieVolume(tickets: seq<Ticket>, bs: seq<User>): real
  {
    if |bs| == 0 then 0.0
    else BookieVolume(tickets, bs[..|bs| - 1]) + Volume(TicketsUnder(tickets, bs[|bs| - 1].id))
  }

  lemma {:induction false} RowsTotal(s: State, bs: seq<User>)
    ensures Sum(RowsFor(s, bs), TotalOf) == BookieVolume(s.tickets, bs)
  {
    if |bs| > 0 {
      var rows := RowsFor(s, bs);
      assert rows[..|rows| - 1] == RowsFor(s, bs[..|bs| - 1]);
      RowsTotal(s, bs[..|bs| - 1]);
    }
  }

  /** The volume of a filtered ticket list grows by the new ticket's cost
      exactly when the new ticket passes the filter. */
  lemma VolumeSnoc(tickets: seq<Ticket>, t: Ticket, p: Ticket -> bool)
    ensures Volume(Filter(tickets + [t], p)) == Volume(Filter(tickets, p)) + (if p(t) then t.cost else 0.0)
  {
    FilterAppend(tickets, [t], p);
    FilterSingleton(t, p);
    SumAppend(Filter(tickets, p), Filter([t], p), CostOf);
    assert Sum([t], CostOf) == t.cost by {
      assert [t][..0] == [];
    }
  }

  lemma {:induction false} BookieVolumeSnoc(tickets: seq<Ticket>, t: Ticket, bs: seq<User>)
    requires forall i, j :: 0 <= i < j < |bs| ==> bs[i].id != bs[j].id
    ensures BookieVolume(tickets + [t], bs) == BookieVolume(tickets, bs) + (if Names(bs, t.parentId) then t.cost else 0.0)
  {
    if |bs| > 0 {
      var bs', b := bs[..|bs| - 1], bs[|bs| - 1];
      BookieVolumeSnoc(tickets, t, bs');
      VolumeSnoc(tickets, t, (x: Ticket) => x.parentId == Some(b.id));
      if Names(bs', t.parentId) {
        var i :| 0 <= i < |bs'| && t.parentId == Some(bs'[i].id);
        assert bs[i] == bs'[i];
      }
      assert Names(bs, t.parentId) <==> Names(bs', t.parentId) || t.parentId == Some(b.id) by {
        if Names(bs, t.parentId) {
          var i :| 0 <= i < |bs| && t.parentId == Some(bs[i].id);
          if i < |bs'| { assert bs'[i] == bs[i]; }
        }
        if Names(bs', t.parentId) {
          var i :| 0 <= i < |bs'| && t.parentId == Some(bs'[i].id);
          assert bs[i] == bs'[i];
        }
      }
    }
  }

  lemma {:induction false} PartitionTickets(tickets: seq<Ticket>, bs: seq<User>)
    requires forall i, j :: 0 <= i < j < |bs| ==> bs[i].id != bs[j].id
    requires forall i :: 0 <= i < |bs| ==> bs[i].id != ""
    ensures BookieVolume(tickets, bs) + Volume(DirectTickets(tickets)) + Volume(Filter(tickets, Stray(bs))) == Volume(tickets)
  {
    if |tickets| == 0 {
      assert BookieVolume(tickets, bs) == 0.0 by {
        ZeroBookieVolume(bs);
      }
    } else {
      var ts, t := tickets[..|tickets| - 1], tickets[|tickets| - 1];
      assert tickets == ts + [t];
      PartitionTickets(ts, bs);
      BookieVolumeSnoc(ts, t, bs);
      VolumeSnoc(ts, t, (x: Ticket) => !Truthy(x.parentId));
      VolumeSnoc(ts, t, Stray(bs));
      if Names(bs, t.parentId) {
        var i :| 0 <= i < |bs| && t.parentId == Some(bs[i].id);
        assert Truthy(t.parentId);
      }
    }
  }

  /** The base case of `PartitionTickets`: with no tickets every bookie's
      volume is 0. */
  lemma {:induction false} ZeroBookieVolume(bs: seq<User>)
    ensures BookieVolume([], bs) == 0.0
  {
    if |bs| > 0 {
      ZeroBookieVolume(bs[..|bs| - 1]);
    }
  }

  /** With sound bookie ids, the bookie rows, the direct volume and the stray
      tickets split the whole ticket volume; the administration is owed all
      of it except the stray tickets and the commissions, plus the bookies'
      top-ups. With sound links there are no stray tickets. */
  lemma SettlementCoversEveryTicket(s: State)
    requires BookieIdsSound(s)
    ensures Sum(Settlement(s), TotalOf) + DirectVolume(s) + Volume(StrayTickets(s)) == Volume(s.tickets)
    ensures TotalAdminDue(s) == Volume(s.tickets) - Volume(StrayTickets(s)) - Sum(Settlement(s), CommissionOf) + Sum(Settlement(s), RecargasOf)
    ensures LinksWellFormed(s) ==> Volume(StrayTickets(s)) == 0.0
  {
    var bs := Bookies(s.users);
    RowsTotal(s, bs);
    PartitionTickets(s.tickets, bs);
    CommissionsAreOneFifth(s);
    if LinksWellFormed(s) {
      assert StrayTickets(s) == [];
    }
  }

  /** Deleting a bookie strands its tickets: each one it sold becomes a stray
      ticket, which the settlement no longer counts. */
  lemma DeletedBookieTicketsStray(s: State, me: User, b: User, t: Ticket)
    requires b in s.users && b.role == Bookie && b.id != me.id && b.id != ""
    requires t in s.tickets && t.parentId == Some(b.id)
    ensures var s' := DeleteUser(s, me, b.id, true);
            && t in StrayTickets(s')
            && t !in DirectTickets(s'.tickets)
            && forall i :: 0 <= i < |Settlement(s')| ==> t !in TicketsUnder(s'.tickets, Settlement(s')[i].bookie.id)
  {
    var s' := DeleteUser(s, me, b.id, true);
    var bs := Bookies(s'.users);
    forall i | 0 <= i < |Settlement(s')|
      ensures t !in TicketsUnder(s'.tickets, Settlement(s')[i].bookie.id)
    {
      assert Settlement(s')[i].bookie == bs[i];
    }
  }

  /** A bookie's due, as a function of the bookie. */
  function DueFor(s: State): User -> real
  {
    (b: User) => SettlementRowOf(s, b).due
  }

  /** The sum of the rows' dues is the sum of the bookies' dues. */
  lemma {:induction false} RowsDues(s: State, bs: seq<User>)
    ensures Sum(RowsFor(s, bs), DueOf) == Sum(bs, DueFor(s))
  {
    if |bs| > 0 {
      var init := bs[..|bs| - 1];
      assert RowsFor(s, bs)[..|init|] == RowsFor(s, init);
      RowsDues(s, init);
    }
  }

  /** No user carrying `userId` is a client of a bookie that does not carry it. */
  predicate NoSurvivorClient(s: State, userId: string)
  {
    forall u, c :: u in s.users && c in s.users && u.id == userId && c.role == Bookie && c.id != userId ==>
      u.parentId != Some(c.id)
  }

  /** A delete that removes none of a bookie's clients leaves that bookie's
      row as it was, whatever else it removes. */
  lemma RowKeptAfterDelete(s: State, me: User, userId: string, c: User)
    requires userId != me.id
    requires forall u :: u in s.users && u.id == userId ==> u.parentId != Some(c.id)
    ensures SettlementRowOf(DeleteUser(s, me, userId, true), c) == SettlementRowOf(s, c)
  {
    var s' := DeleteUser(s, me, userId, true);
    var clients := ClientsOf(s.users, c.id);
    forall i | 0 <= i < |clients|
      ensures UserOtherThan(userId)(clients[i])
    {
      assert clients[i] in s.users && clients[i].parentId == Some(c.id);
    }
    FilterAll(clients, UserOtherThan(userId));
    FilterCommute(s.users, UserOtherThan(userId), ClientOf(c.id));
    assert s'.users == Filter(s.users, UserOtherThan(userId));
    assert ClientsOf(s'.users, c.id) == clients;
  }

  /** A confirmed delete lowers the administration's total by exactly the
      dues of the deleted bookies, provided no deleted user is a client of a
      bookie that stays: every other row and the direct volume are kept. */
  lemma DeleteUserDropsDues(s: State, me: User, userId: string)
    requires userId != me.id && NoSurvivorClient(s, userId)
    ensures TotalAdminDue(DeleteUser(s, me, userId, true))
         == TotalAdminDue(s) - Sum(RowsFor(s, Filter(Bookies(s.users), UserWithId(userId))), DueOf)
  {
    var s' := DeleteUser(s, me, userId, true);
    var bs := Bookies(s.users);
    var kept := Filter(bs, UserOtherThan(userId));
    var gone := Filter(bs, UserWithId(userId));
    FilterCommute(s.users, UserOtherThan(userId), IsBookie);
    assert Bookies(s'.users) == kept;
    forall i | 0 <= i < |kept|
      ensures RowsFor(s', kept)[i] == RowsFor(s, kept)[i]
    {
      RowKeptAfterDelete(s, me, userId, kept[i]);
    }
    assert Settlement(s') == RowsFor(s, kept);
    assert DirectVolume(s') == DirectVolume(s);
    RowsDues(s, bs);
    RowsDues(s, kept);
    RowsDues(s, gone);
    SumFilterSplit(bs, DueFor(s), UserOtherThan(userId), UserWithId(userId));
  }

  /** Deleting a bookie that alone carries its id, and is no other bookie's
      client, removes its whole row from the administration's total: four
      fifths of its ticket volume and every top-up its clients received. */
  lemma DeletingBookieDropsItsDue(s: State, me: User, k: nat)
    requires k < |s.users| && s.users[k].role == Bookie && s.users[k].id != me.id
    requires forall i :: 0 <= i < |s.users| && s.users[i].id == s.users[k].id ==> i == k
    requires forall c :: c in s.users && c.role == Bookie && c.id != s.users[k].id ==> s.users[k].parentId != Some(c.id)
    ensures var b := s.users[k];
            TotalAdminDue(DeleteUser(s, me, b.id, true))
            == TotalAdminDue(s) - 0.8 * Volume(TicketsUnder(s.tickets, b.id)) - Deposits(ClientsOf(s.users, b.id))
  {
    var b := s.users[k];
    FilterUnique(s.users, UserWithId(b.id), k);
    FilterCommute(s.users, IsBookie, UserWithId(b.id));
    FilterSingleton(b, IsBookie);
    assert Filter(Bookies(s.users), UserWithId(b.id)) == [b];
    DeleteUserDropsDues(s, me, b.id);
    var row := SettlementRowOf(s, b);
    assert RowsFor(s, [b]) == [row];
    assert Sum([row], DueOf) == row.due by {
      assert [row][..0] == [];
    }
  }
}
