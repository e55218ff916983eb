/**
 The application as a transition system: every user action is an event,
 dispatched the way the top-level view does it (the login form when nobody
 is logged in; the administrator's and the bookie's dashboards only for
 those roles). Money stays sound along every run from the initial state.
 */
module Safety {
  import opened ArrayOps
  import opened Types
  import opened Store
  import App
  import Admin
  import Bookie
  import Betting
  import Login
  import Wallet
  import Constants

  datatype Event =
    // login form
    | SignIn(username: string, password: string)
    | SignUp(form: Login.SignUpForm, id: string, now: int)
    // any logged-in user
    | LogOut
    | Place(slots: Betting.Slots, id: string, now: int)
    | Deposit(amount: Parsed, id: string, now: int)
    | DeleteTicket(ticketId: string)
    // administrator
    | EditMatch(matchId: string, field: Admin.MatchField, value: string)
    | AdminSetStatus(ticketId: string, status: TicketStatus)
    | AdminResolve(requestId: string, decision: Decision)
    | AdminAdjust(userId: string, amount: Parsed, kind: Admin.Adjustment)
    | AdminDelete(userId: string, confirmed: bool)
    | AdminRegister(registration: Admin.RegistrationForm, id: string, now: int)
    | AdminPassword(password: string)
    | AdminPix(key: string)
    | AdminToggle
    // bookie
    | BookiePix(key: string)
    | BookieTopUp(userId: string, amount: Parsed)
    | BookieResolve(requestId: string, decision: Decision)
    | BookieSetStatus(ticketId: string, status: TicketStatus)
    | BookieRegister(client: Bookie.ClientForm, id: string, now: int)

  predicate LoggedInAs(s: State, role: UserRole)
  {
    s.current.Some? && s.current.value.role == role
  }

  /** The login form's events. */
  predicate LoginEvent(e: Event)
  {
    e.SignIn? || e.SignUp?
  }

  /** The administrator's dashboard's events. */
  predicate AdminEvent(e: Event)
  {
    || e.EditMatch? || e.AdminSetStatus? || e.AdminResolve? || e.AdminAdjust?
    || e.AdminDelete? || e.AdminRegister? || e.AdminPassword? || e.AdminPix? || e.AdminToggle?
  }

  /** The bookie's dashboard's events. */
  predicate BookieEvent(e: Event)
  {
    e.BookiePix? || e.BookieTopUp? || e.BookieResolve? || e.BookieSetStatus? || e.BookieRegister?
  }

  /** One event, dispatched the way the top-level view does it. */
  function Step(s: State, e: Event): State
  {
    match e
    case SignIn(username, password) =>
      if s.current.None? then Login.SignIn(s, username, password) else s
    case SignUp(form, id, now) =>
      if s.current.None? then Login.SignUp(s, form, id, now) else s
    case LogOut =>
      if s.current.Some? then App.LogOut(s) else s
    case Place(slots, id, now) =>
      var picks := Betting.Submit(slots, s.settings);
      if picks.Some? then App.PlaceTicket(s, picks.value, id, now) else s
    case Deposit(amount, id, now) =>
      Wallet.Deposit(s, amount, id, now)
    case DeleteTicket(ticketId) =>
      if s.current.Some? then App.DeleteTicket(s, ticketId) else s
    case EditMatch(matchId, field, value) =>
      if LoggedInAs(s, UserRole.Admin) then Admin.UpdateMatch(s, matchId, field, value) else s
    case AdminSetStatus(ticketId, status) =>
      if LoggedInAs(s, UserRole.Admin) then Admin.ActionTicket(s, ticketId, status) else s
    case AdminResolve(requestId, decision) =>
      if LoggedInAs(s, UserRole.Admin) then Admin.ActionRequest(s, requestId, decision) else s
    case AdminAdjust(userId, amount, kind) =>
      if LoggedInAs(s, UserRole.Admin) then Admin.AdjustBalance(s, userId, amount, kind) else s
    case AdminDelete(userId, confirmed) =>
      if LoggedInAs(s, UserRole.Admin) then Admin.DeleteUser(s, s.current.value, userId, confirmed) else s
    case AdminRegister(registration, id, now) =>
      if LoggedInAs(s, UserRole.Admin) then Admin.RegisterUser(s, registration, id, now) else s
    case AdminPassword(password) =>
      if LoggedInAs(s, UserRole.Admin) then Admin.ChangePassword(s, s.current.value, password) else s
    case AdminPix(key) =>
      if LoggedInAs(s, UserRole.Admin) then Admin.SetPixKey(s, key) else s
    case AdminToggle =>
      if LoggedInAs(s, UserRole.Admin) then Admin.ToggleBetting(s) else s
    case BookiePix(key) =>
      if LoggedInAs(s, UserRole.Bookie) then Bookie.SaveSettings(s, s.current.value, key) else s
    case BookieTopUp(userId, amount) =>
      if LoggedInAs(s, UserRole.Bookie) then Bookie.AddBalance(s, userId, amount) else s
    case BookieResolve(requestId, decision) =>
      if LoggedInAs(s, UserRole.Bookie) then Bookie.ActionRequest(s, s.current.value, requestId, decision) else s
    case BookieSetStatus(ticketId, status) =>
      if LoggedInAs(s, UserRole.Bookie) then Admin.ActionTicket(s, ticketId, status) else s
    case BookieRegister(client, id, now) =>
      if LoggedInAs(s, UserRole.Bookie) then Bookie.RegisterClient(s, s.current.value, client, id, now) else s
  }

  /** A run of events, in order. */
  function Run(s: State, es: seq<Event>): State
    decreases |es|
  {
    if |es| == 0 then s else Run(Step(s, es[0]), es[1..])
  }

  /** Events the current view does not offer change nothing: the login form
      only while nobody is logged in, everything else only while somebody
      is, and each dashboard's actions only for its own role. */
  lemma StepGating(s: State, e: Event)
    ensures s.current.None? && !LoginEvent(e) ==> Step(s, e) == s
    ensures s.current.Some? && LoginEvent(e) ==> Step(s, e) == s
    ensures AdminEvent(e) && !LoggedInAs(s, UserRole.Admin) ==> Step(s, e) == s
    ensures BookieEvent(e) && !LoggedInAs(s, UserRole.Bookie) ==> Step(s, e) == s
  {
  }

  /** No event changes the ticket price, the jackpot or the number of matches. */
  lemma StepKeepsSlate(s: State, e: Event)
    ensures Step(s, e).settings.ticketPrice == s.settings.ticketPrice
    ensures Step(s, e).settings.jackpotPrize == s.settings.jackpotPrize
    ensures |Step(s, e).matches| == |s.matches|
  {
  }

  /** Along any run the price, the jackpot and the number of matches stay as
      they were; from the first start the slate keeps its twelve matches, one
      per pick slot. */
  lemma {:induction false} RunKeepsSlate(s: State, es: seq<Event>)
    ensures var r := Run(s, es);
            && r.settings.ticketPrice == s.settings.ticketPrice
            && r.settings.jackpotPrize == s.settings.jackpotPrize
            && |r.matches| == |s.matches|
    decreases |es|
  {
    if |es| > 0 {
      StepKeepsSlate(s, es[0]);
      RunKeepsSlate(Step(s, es[0]), es[1..]);
    }
  }

  lemma ReachableSlateHasTwelveMatches(now: int, es: seq<Event>)
    ensures |Run(InitialState(now), es).matches| == Constants.SlateSize
    ensures Run(InitialState(now), es).settings.ticketPrice == Constants.DefaultSettings.ticketPrice
  {
    RunKeepsSlate(InitialState(now), es);
  }

  predicate SoundUser(u: User)
  {
    u.balance >= 0.0 && DepositsOf(u) >= 0.0
  }

  /** Balances and bookie-deposit totals are non-negative (in the list and
      in the session snapshot), every request asks for a positive amount,
      tickets cost a non-negative amount, and the price is positive. */
  predicate Good(s: State)
  {
    && UsersSound(s.users)
    && (s.current.Some? ==> SoundUser(s.current.value))
    && (forall q :: q in s.requests ==> q.amount > 0.0)
    && (forall t :: t in s.tickets ==> t.cost >= 0.0)
    && s.settings.ticketPrice > 0.0
  }

  lemma InitialGood(now: int)
    ensures Good(InitialState(now))
  {
    var s := InitialState(now);
    assert s.users == [DefaultAdmin(now)];
  }

  predicate UsersSound(users: seq<User>)
  {
    forall u :: u in users ==> SoundUser(u)
  }

  /** A users list whose every record is sound, or the sound snapshot. */
  lemma SoundPointwise(before: seq<User>, after: seq<User>, extra: User)
    requires UsersSound(before) && SoundUser(extra)
    requires |after| == |before|
    requires forall i :: 0 <= i < |before| ==> after[i] == before[i] || after[i] == extra
    ensures UsersSound(after)
  {
    forall u | u in after ensures SoundUser(u) {
      var i :| 0 <= i < |after| && after[i] == u;
    }
  }

  /** Balances that only grow, and deposit totals that only grow, stay sound. */
  lemma SoundGrowing(before: seq<User>, after: seq<User>)
    requires UsersSound(before)
    requires |after| == |before|
    requires forall i :: 0 <= i < |before| ==>
               after[i].balance >= before[i].balance && DepositsOf(after[i]) >= DepositsOf(before[i])
    ensures UsersSound(after)
  {
    forall u | u in after ensures SoundUser(u) {
      var i :| 0 <= i < |after| && after[i] == u;
      assert SoundUser(before[i]);
    }
  }

  lemma SoundAppend(before: seq<User>, after: seq<User>)
    requires UsersSound(before)
    requires |after| == |before| + 1 && after[..|before|] == before && SoundUser(after[|before|])
    ensures UsersSound(after)
  {
    forall u | u in after ensures SoundUser(u) {
      var i :| 0 <= i < |after| && after[i] == u;
      if i < |before| { assert after[..|before|][i] == before[i]; }
    }
  }

  lemma PlaceGood(s: State, picks: seq<Pick>, id: string, now: int)
    requires Good(s)
    ensures Good(App.PlaceTicket(s, picks, id, now))
  {
    var s' := App.PlaceTicket(s, picks, id, now);
    if s.current.Some? {
      SoundPointwise(s.users, s'.users, s'.current.value);
      forall t | t in s'.tickets ensures t.cost >= 0.0 {
        if t != s'.tickets[0] {
          var i :| 0 <= i < |s'.tickets| && s'.tickets[i] == t;
          assert s'.tickets[1..][i - 1] == t;
        }
      }
    }
  }

  lemma DepositGood(s: State, amount: Parsed, id: string, now: int)
    requires Good(s)
    ensures Good(Wallet.Deposit(s, amount, id, now))
  {
    var s' := Wallet.Deposit(s, amount, id, now);
    if ValidAmount(amount) && s.current.Some? {
      forall q | q in s'.requests ensures q.amount > 0.0 {
        if q != s'.requests[0] {
          var i :| 0 <= i < |s'.requests| && s'.requests[i] == q;
          assert s'.requests[1..][i - 1] == q;
        }
      }
    }
  }

  lemma AdminResolveGood(s: State, requestId: string, d: Decision)
    requires Good(s)
    ensures Good(Admin.ActionRequest(s, requestId, d))
  {
    var s' := Admin.ActionRequest(s, requestId, d);
    if FindRequest(s.requests, requestId).Some? {
      SoundGrowing(s.users, s'.users);
    }
  }

  lemma AdjustGood(s: State, userId: string, amount: Parsed, kind: Admin.Adjustment)
    requires Good(s)
    ensures Good(Admin.AdjustBalance(s, userId, amount, kind))
  {
    var s' := Admin.AdjustBalance(s, userId, amount, kind);
    forall u | u in s'.users ensures SoundUser(u) {
      var i :| 0 <= i < |s'.users| && s'.users[i] == u;
      assert SoundUser(s.users[i]);
    }
  }

  lemma BookieTopUpGood(s: State, userId: string, amount: Parsed)
    requires Good(s)
    ensures Good(Bookie.AddBalance(s, userId, amount))
  {
    if ValidAmount(amount) {
      SoundGrowing(s.users, Bookie.AddBalance(s, userId, amount).users);
    }
  }

  lemma BookieResolveGood(s: State, me: User, requestId: string, d: Decision)
    requires Good(s)
    ensures Good(Bookie.ActionRequest(s, me, requestId, d))
  {
    if FindRequest(RequestsUnder(s.requests, me.id), requestId).Some? {
      SoundGrowing(s.users, Bookie.ActionRequest(s, me, requestId, d).users);
    }
  }

  /** Every event keeps the state good. */
  lemma StepGood(s: State, e: Event)
    requires Good(s)
    ensures Good(Step(s, e))
  {
    match e
    case Place(slots, id, now) =>
      var picks := Betting.Submit(slots, s.settings);
      if picks.Some? { PlaceGood(s, picks.value, id, now); }
    case Deposit(amount, id, now) =>
      DepositGood(s, amount, id, now);
    case AdminResolve(requestId, decision) =>
      AdminResolveGood(s, requestId, decision);
    case AdminAdjust(userId, amount, kind) =>
      AdjustGood(s, userId, amount, kind);
    case AdminRegister(registration, id, now) =>
      if LoggedInAs(s, UserRole.Admin) {
        SoundAppend(s.users, Admin.RegisterUser(s, registration, id, now).users);
      }
    case AdminPassword(password) =>
      if LoggedInAs(s, UserRole.Admin) {
        var s' := Admin.ChangePassword(s, s.current.value, password);
        if password != "" { SoundPointwise(s.users, s'.users, s'.current.value); }
      }
    case BookiePix(key) =>
      if LoggedInAs(s, UserRole.Bookie) {
        SoundPointwise(s.users, Bookie.SaveSettings(s, s.current.value, key).users, s.current.value.(pixKey := Some(key)));
      }
    case BookieTopUp(userId, amount) =>
      BookieTopUpGood(s, userId, amount);
    case BookieResolve(requestId, decision) =>
      if LoggedInAs(s, UserRole.Bookie) { BookieResolveGood(s, s.current.value, requestId, decision); }
    case BookieRegister(client, id, now) =>
      if LoggedInAs(s, UserRole.Bookie) {
        SoundAppend(s.users, Bookie.RegisterClient(s, s.current.value, client, id, now).users);
      }
    case SignUp(form, id, now) =>
      if s.current.None? {
        var s' := Login.SignUp(s, form, id, now);
        if !Login.Taken(s.users, form.username) { SoundAppend(s.users, s'.users); }
      }
    case _ =>
  }

  lemma {:induction false} RunGood(s: State, es: seq<Event>)
    requires Good(s)
    ensures Good(Run(s, es))
    decreases |es|
  {
    if |es| > 0 {
      StepGood(s, es[0]);
      RunGood(Step(s, es[0]), es[1..]);
    }
  }

  /** In a good state no figure of the settlement table is negative: each
      row's volume, top-ups, their sum, the commission and the due, and the
      administration's total. */
  lemma GoodSettlementNonNegative(s: State)
    requires Good(s)
    ensures forall i :: 0 <= i < |Admin.Settlement(s)| ==> Admin.RowNonNegative(Admin.Settlement(s)[i])
    ensures Admin.TotalAdminDue(s) >= 0.0
  {
    var rows := Admin.Settlement(s);
    forall i | 0 <= i < |rows|
      ensures Admin.RowNonNegative(rows[i])
    {
      var b := rows[i].bookie;
      var ts := TicketsUnder(s.tickets, b.id);
      var cs := ClientsOf(s.users, b.id);
      SumNonNegative(ts, CostOf);
      SumNonNegative(cs, DepositsOf);
    }
    SumNonNegative(rows, Admin.DueOf);
    SumNonNegative(Admin.DirectTickets(s.tickets), CostOf);
  }

  /** Along every run from the initial state, balances never go negative
      and no settlement figure is negative. */
  lemma ReachableStatesSound(now: int, es: seq<Event>)
    ensures var s := Run(InitialState(now), es);
            && (forall u :: u in s.users ==> u.balance >= 0.0)
            && (forall i :: 0 <= i < |Admin.Settlement(s)| ==> Admin.RowNonNegative(Admin.Settlement(s)[i]))
            && Admin.TotalAdminDue(s) >= 0.0
  {
    InitialGood(now);
    RunGood(InitialState(now), es);
    GoodSettlementNonNegative(Run(InitialState(now), es));
  }

  /** The session snapshot goes stale: an administrator who approves their
      own top-up and then buys a ticket writes the old snapshot back, so the
      credit is lost, exactly as if the approval had never happened. */
  lemma SelfApprovalLostOnNextTicket(s: State, requestId: string, picks: seq<Pick>, id: string, now: int, i: nat)
    requires LoggedInAs(s, UserRole.Admin) && Synced(s)
    requires i < |s.users| && s.users[i].id == s.current.value.id
    requires FindRequest(s.requests, requestId).Some?
    requires FindRequest(s.requests, requestId).value.userId == s.current.value.id
    ensures var approved := Admin.ActionRequest(s, requestId, Approve);
            && approved.users[i].balance == s.users[i].balance + FindRequest(s.requests, requestId).value.amount
            && App.PlaceTicket(approved, picks, id, now).users[i] == App.PlaceTicket(s, picks, id, now).users[i]
  {
  }
}
