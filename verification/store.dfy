/**
 The whole in-memory state of the application and the selectors and
 record updates that more than one handler shares.
 */
module Store {
  import opened ArrayOps
  import opened Types
  import Constants

  /** The five stored collections plus the logged-in user's snapshot. The
      snapshot is a copy: handlers that change the users list do not refresh
      it, and handlers that read it may write the copy back. */
  datatype State = State(
    users: seq<User>,
    matches: seq<Match>,
    tickets: seq<Ticket>,
    requests: seq<BalanceRequest>,
    settings: AppSettings,
    current: Option<User>
  )

  /** The built-in administrator created when nothing is stored. */
  function DefaultAdmin(now: int): (u: User)
    ensures u.role == Admin && u.username == "admin" && u.password == Some("admin")
    ensures u.balance == 0.0 && u.parentId == None && u.createdAt == now
  {
    User("admin-1", "Administrador Geral", "admin", Some("admin"), Admin, 0.0, None, now, None, None)
  }

  /** The state on first start: one admin, the initial slate, no tickets,
      no requests, default settings, nobody logged in. */
  function InitialState(now: int): (s: State)
    ensures s.users == [DefaultAdmin(now)] && s.current == None
    ensures s.tickets == [] && s.requests == []
    ensures |s.matches| == Constants.SlateSize && s.settings == Constants.DefaultSettings
  {
    State([DefaultAdmin(now)], Constants.InitialMatches(), [], [], Constants.DefaultSettings, None)
  }

  /** The logged-in snapshot agrees with every users-list record carrying its id. */
  predicate Synced(s: State)
  {
    s.current.Some? ==> forall i :: 0 <= i < |s.users| && s.users[i].id == s.current.value.id ==> s.users[i] == s.current.value
  }

  /** Two user records that differ at most in their balance. */
  predicate SameButBalance(u: User, v: User)
  {
    v == u.(balance := v.balance)
  }

  /** Two user records that differ at most in balance and bookie deposits. */
  predicate SameButMoney(u: User, v: User)
  {
    v == u.(balance := v.balance, totalDepositsByBookie := v.totalDepositsByBookie)
  }

  /** Whether a user's bookie is `bookieId`. */
  function ClientOf(bookieId: string): User -> bool
  {
    (u: User) => u.parentId == Some(bookieId)
  }

  /** Users whose bookie is `bookieId`. */
  function ClientsOf(users: seq<User>, bookieId: string): (r: seq<User>)
    ensures forall u :: u in r <==> u in users && u.parentId == Some(bookieId)
  {
    Filter(users, ClientOf(bookieId))
  }

  /** Tickets sold through the bookie `bookieId`. */
  function TicketsUnder(tickets: seq<Ticket>, bookieId: string): (r: seq<Ticket>)
    ensures forall t :: t in r <==> t in tickets && t.parentId == Some(bookieId)
  {
    Filter(tickets, (t: Ticket) => t.parentId == Some(bookieId))
  }

  /** Balance requests addressed to the bookie `bookieId`. */
  function RequestsUnder(requests: seq<BalanceRequest>, bookieId: string): (r: seq<BalanceRequest>)
    ensures forall q :: q in r <==> q in requests && q.parentId == Some(bookieId)
  {
    Filter(requests, (q: BalanceRequest) => q.parentId == Some(bookieId))
  }

  /** Total ticket cost, as the dashboards' `reduce` computes it. */
  function Volume(tickets: seq<Ticket>): real
  {
    Sum(tickets, CostOf)
  }

  /** Total bookie top-ups, counting a missing total as 0. */
  function Deposits(users: seq<User>): real
  {
    Sum(users, DepositsOf)
  }

  /** Whether a user carries the id `id`. */
  function UserWithId(id: string): User -> bool
  {
    (u: User) => u.id == id
  }

  /** Whether a user carries an id other than `id`. */
  function UserOtherThan(id: string): User -> bool
  {
    (u: User) => u.id != id
  }

  /** The first user with this id. */
  function FindUser(users: seq<User>, id: string): (r: Option<User>)
    ensures r.Some? ==> r.value in users && r.value.id == id
    ensures r.None? <==> forall u :: u in users ==> u.id != id
  {
    Find(users, UserWithId(id))
  }

  /** The first balance request with this id. */
  function FindRequest(requests: seq<BalanceRequest>, id: string): (r: Option<BalanceRequest>)
    ensures r.Some? ==> r.value in requests && r.value.id == id
    ensures r.None? <==> forall q :: q in requests ==> q.id != id
  {
    Find(requests, (q: BalanceRequest) => q.id == id)
  }

  /** Sets the status of every ticket carrying `id`; nothing else moves. */
  function WithTicketStatus(tickets: seq<Ticket>, id: string, status: TicketStatus): (r: seq<Ticket>)
    ensures |r| == |tickets|
    ensures forall i :: 0 <= i < |tickets| && tickets[i].id == id ==> r[i] == tickets[i].(status := status)
    ensures forall i :: 0 <= i < |tickets| && tickets[i].id != id ==> r[i] == tickets[i]
  {
    MapWhere(tickets, (t: Ticket) => t.id == id, (t: Ticket) => t.(status := status))
  }

  /** Sets the status of every request carrying `id`; nothing else moves. */
  function WithRequestStatus(requests: seq<BalanceRequest>, id: string, status: RequestStatus): (r: seq<BalanceRequest>)
    ensures |r| == |requests|
    ensures forall i :: 0 <= i < |requests| && requests[i].id == id ==> r[i] == requests[i].(status := status)
    ensures forall i :: 0 <= i < |requests| && requests[i].id != id ==> r[i] == requests[i]
  {
    MapWhere(requests, (q: BalanceRequest) => q.id == id, (q: BalanceRequest) => q.(status := status))
  }

  /** Adds `amount` to the balance of every user carrying `userId`. */
  function CreditBalance(users: seq<User>, userId: string, amount: real): (r: seq<User>)
    ensures |r| == |users|
    ensures forall i :: 0 <= i < |users| ==> SameButBalance(users[i], r[i])
    ensures forall i :: 0 <= i < |users| ==>
              r[i].balance == users[i].balance + (if users[i].id == userId then amount else 0.0)
  {
    MapWhere(users, (u: User) => u.id == userId, (u: User) => u.(balance := u.balance + amount))
  }

  /** A top-up made by a bookie: the balance and the bookie-deposit total of
      every user carrying `userId` both rise by `amount`. */
  function CreditFromBookie(users: seq<User>, userId: string, amount: real): (r: seq<User>)
    ensures |r| == |users|
    ensures forall i :: 0 <= i < |users| && users[i].id != userId ==> r[i] == users[i]
    ensures forall i :: 0 <= i < |users| && users[i].id == userId ==>
              && SameButMoney(users[i], r[i])
              && r[i].balance == users[i].balance + amount
              && r[i].totalDepositsByBookie == Some(DepositsOf(users[i]) + amount)
  {
    MapWhere(users, (u: User) => u.id == userId,
             (u: User) => u.(balance := u.balance + amount, totalDepositsByBookie := Some(DepositsOf(u) + amount)))
  }

  /** Replaces every user carrying `v.id` by the record `v`. */
  function ReplaceUser(users: seq<User>, v: User): (r: seq<User>)
    ensures |r| == |users|
    ensures forall i :: 0 <= i < |users| && users[i].id == v.id ==> r[i] == v
    ensures forall i :: 0 <= i < |users| && users[i].id != v.id ==> r[i] == users[i]
  {
    MapWhere(users, (u: User) => u.id == v.id, (u: User) => v)
  }
}
