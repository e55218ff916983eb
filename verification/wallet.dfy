/**
 The wallet: which PIX key a user should pay into, and the deposit button,
 which only files a PENDING top-up request.
 */
module Wallet {
  import opened ArrayOps
  import opened Types
  import opened Store
  import App
  import Admin
  import Bookie

  /** The key to pay into and who receives the money. */
  datatype PixTarget = PixTarget(key: string, responsible: string)

  const AdminResponsible: string := "Administração"

  /** The user has a bookie link that resolves to a user with a non-empty key. */
  predicate PaysBookie(user: User, users: seq<User>)
  {
    && Truthy(user.parentId)
    && FindUser(users, user.parentId.value).Some?
    && Truthy(FindUser(users, user.parentId.value).value.pixKey)
  }

  /** The first user carrying the bookie link's id, when it has a non-empty
      key, receives the money; otherwise the administration does. */
  function TargetFor(user: User, settings: AppSettings, users: seq<User>): (r: PixTarget)
    ensures !PaysBookie(user, users) ==> r == PixTarget(settings.pixKey, AdminResponsible)
    ensures PaysBookie(user, users) ==>
              var p := FindUser(users, user.parentId.value).value;
              && p in users && p.id == user.parentId.value
              && r == PixTarget(p.pixKey.value, "Cambista " + p.name)
  {
    var fallback := PixTarget(settings.pixKey, AdminResponsible);
    if !Truthy(user.parentId) then fallback
    else match FindUser(users, user.parentId.value)
      case None => fallback
      case Some(p) => if Truthy(p.pixKey) then PixTarget(p.pixKey.value, "Cambista " + p.name) else fallback
  }

  /** Once the bookie is deleted, its clients are sent to the administration's key. */
  lemma DeletedBookieFallsBack(s: State, me: User, client: User, bookieId: string)
    requires client.parentId == Some(bookieId) && bookieId != me.id
    ensures var s' := Admin.DeleteUser(s, me, bookieId, true);
            TargetFor(client, s'.settings, s'.users) == PixTarget(s.settings.pixKey, AdminResponsible)
  {
  }

  /** After a bookie saves a non-empty key, its clients are sent to it. */
  lemma SavedBookieKeyIsUsed(s: State, me: User, pix: string, client: User)
    requires client.parentId == Some(me.id) && me.id != "" && pix != ""
    requires me in s.users
    ensures var s' := Bookie.SaveSettings(s, me, pix);
            TargetFor(client, s'.settings, s'.users) == PixTarget(pix, "Cambista " + me.name)
  {
    var s' := Bookie.SaveSettings(s, me, pix);
    var i :| 0 <= i < |s.users| && s.users[i] == me;
    assert s'.users[i] == me.(pixKey := Some(pix));
  }

  /** The deposit button: a NaN or non-positive amount is refused; otherwise
      a PENDING request is filed. The balance itself is never changed here. */
  function Deposit(s: State, amount: Parsed, id: string, now: int): (s': State)
    ensures !ValidAmount(amount) || s.current.None? ==> s' == s
    ensures ValidAmount(amount) && s.current.Some? ==>
              && |s'.requests| == |s.requests| + 1 && s'.requests[1..] == s.requests
              && s'.requests[0].status == RequestStatus.Pending
              && s'.requests[0].amount == amount.value && s'.requests[0].amount > 0.0
              && s'.requests[0].userId == s.current.value.id
    ensures s'.users == s.users && s'.current == s.current && s'.tickets == s.tickets
    ensures s'.matches == s.matches && s'.settings == s.settings
  {
    if !ValidAmount(amount) then s else App.RequestBalance(s, amount.value, id, now)
  }
}
