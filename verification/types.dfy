/**
 The records of the betting ledger: users with their role and bookie link,
 the match slate, issued tickets, balance top-up requests and the singleton
 settings. Money is an exact `real`; optional fields are `Option`s.
 */
module Types {
  import opened ArrayOps

  datatype UserRole = Admin | Client | Bookie

  /** The outcome a pick predicts: home win, draw or away win. */
  datatype Pick = H | D | A

  datatype TicketStatus = Pending | Validated | Lost | Won | Cancelled

  datatype RequestStatus = Pending | Approved | Rejected

  datatype User = User(
    id: string,
    name: string,
    username: string,
    password: Option<string>,
    role: UserRole,
    balance: real,
    pixKey: Option<string>,
    createdAt: int,
    parentId: Option<string>,              // the bookie this user belongs to
    totalDepositsByBookie: Option<real>    // manual top-ups made by that bookie
  )

  datatype Match = Match(
    id: string,
    league: string,
    homeTeam: string,
    awayTeam: string,
    date: string,
    result: Option<Pick>
  )

  /** The team names of one match as copied onto a ticket. */
  datatype MatchInfo = MatchInfo(home: string, away: string)

  datatype Ticket = Ticket(
    id: string,
    userId: string,
    userName: string,
    picks: seq<Pick>,
    matchInfo: seq<MatchInfo>,
    cost: real,
    potentialPrize: real,
    status: TicketStatus,
    date: int,
    parentId: Option<string>
  )

  datatype BalanceRequest = BalanceRequest(
    id: string,
    userId: string,
    userName: string,
    amount: real,
    status: RequestStatus,
    date: int,
    parentId: Option<string>
  )

  datatype AppSettings = AppSettings(
    pixKey: string,
    bettingBlocked: bool,
    ticketPrice: real,
    jackpotPrize: real
  )

  /** How an admin or bookie resolves a balance request. */
  datatype Decision = Approve | Reject

  function StatusOf(d: Decision): (st: RequestStatus)
    ensures st != RequestStatus.Pending
    ensures d == Approve <==> st == Approved
  {
    match d
    case Approve => Approved
    case Reject => Rejected
  }

  /** What `parseFloat` yields for a text field: NaN or a number. */
  datatype Parsed = NaN | Num(value: real)

  /** The amount guard shared by every money form: not NaN and above 0. */
  predicate ValidAmount(a: Parsed)
  {
    a.Num? && a.value > 0.0
  }

  /** JavaScript truthiness of an optional string: present and non-empty. */
  predicate Truthy(s: Option<string>)
  {
    s.Some? && s.value != ""
  }

  /** `u.totalDepositsByBookie || 0` */
  function DepositsOf(u: User): real
  {
    match u.totalDepositsByBookie
    case Some(d) => d
    case None => 0.0
  }

  function CostOf(t: Ticket): real
  {
    t.cost
  }
}
