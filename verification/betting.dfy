/**
 The pick selector shown before a ticket is submitted: twelve empty slots,
 one click per slot, the suggestion button, and the submit button's guards.
 The settings fields this component reads are taken to be the same
 `bettingBlocked`, `ticketPrice` and `jackpotPrize` the rest of the
 application uses.
 */
module Betting {
  import opened ArrayOps
  import opened Types
  import opened Store
  import Constants
  import App

  /** One optional pick per match; `None` is an unfilled slot. */
  type Slots = seq<Option<Pick>>

  /** Every slot starts empty. */
  function InitialSlots(): (r: Slots)
    ensures |r| == Constants.SlateSize
    ensures forall i :: 0 <= i < |r| ==> r[i].None?
  {
    seq(Constants.SlateSize, i => None)
  }

  /** Choosing `v` for match `i`; ignored while betting is blocked. */
  function HandlePick(slots: Slots, settings: AppSettings, i: nat, v: Pick): (r: Slots)
    requires i < |slots|
    ensures settings.bettingBlocked ==> r == slots
    ensures !settings.bettingBlocked ==>
              |r| == |slots| && r[i] == Some(v) && forall j :: 0 <= j < |slots| && j != i ==> r[j] == slots[j]
  {
    if settings.bettingBlocked then slots else slots[i := Some(v)]
  }

  /** The suggestion button: the suggested picks replace the slots wholesale;
      ignored while betting is blocked. The suggestion service returns twelve
      picks on every path (its reply is used only when it holds exactly twelve,
      and every fallback has twelve); the handler itself does not count them. */
  function AiFill(slots: Slots, settings: AppSettings, suggestion: seq<Pick>): (r: Slots)
    requires |suggestion| == Constants.SlateSize
    ensures settings.bettingBlocked ==> r == slots
    ensures !settings.bettingBlocked ==>
              |r| == Constants.SlateSize && forall j :: 0 <= j < |suggestion| ==> r[j] == Some(suggestion[j])
  {
    if settings.bettingBlocked then slots
    else seq(|suggestion|, j requires 0 <= j < |suggestion| => Some(suggestion[j]))
  }

  /** How many slots are filled, as the submit button's label counts them. */
  function FilledCount(slots: Slots): (n: nat)
    ensures n <= |slots|
  {
    if |slots| == 0 then 0
    else FilledCount(slots[..|slots| - 1]) + (if slots[|slots| - 1].Some? then 1 else 0)
  }

  /** The count reaches the number of slots exactly when no slot is empty. */
  lemma {:induction false} FilledCountFull(slots: Slots)
    ensures FilledCount(slots) == |slots| <==> forall j :: 0 <= j < |slots| ==> slots[j].Some?
  {
    if |slots| > 0 {
      var init := slots[..|slots| - 1];
      FilledCountFull(init);
      if FilledCount(slots) == |slots| {
        forall j | 0 <= j < |slots| ensures slots[j].Some? {
          if j < |init| { assert slots[j] == init[j]; }
        }
      }
      if forall j :: 0 <= j < |slots| ==> slots[j].Some? {
        forall j | 0 <= j < |init| ensures init[j].Some? { assert init[j] == slots[j]; }
      }
    }
  }

  /** Every slot holds a pick; equivalently the label reads "n/n". */
  predicate IsComplete(slots: Slots): (r: bool)
    ensures r <==> FilledCount(slots) == |slots|
  {
    FilledCountFull(slots);
    forall j :: 0 <= j < |slots| ==> slots[j].Some?
  }

  /** Whether the price can be paid from the balance (the auto-validation badge). */
  predicate HasBalance(balance: real, settings: AppSettings)
  {
    balance >= settings.ticketPrice
  }

  /** The picks of a complete selection. */
  function Chosen(slots: Slots): (picks: seq<Pick>)
    requires IsComplete(slots)
    ensures |picks| == |slots|
    ensures forall j :: 0 <= j < |slots| ==> slots[j] == Some(picks[j])
  {
    seq(|slots|, j requires 0 <= j < |slots| => slots[j].value)
  }

  /** The submit button: it is disabled while incomplete or blocked, and its
      handler passes the picks on only when complete. */
  function Submit(slots: Slots, settings: AppSettings): (r: Option<seq<Pick>>)
    ensures r.Some? <==> IsComplete(slots) && !settings.bettingBlocked
    ensures r.Some? ==> |r.value| == |slots| && forall j :: 0 <= j < |slots| ==> slots[j] == Some(r.value[j])
  {
    if !settings.bettingBlocked && IsComplete(slots) then Some(Chosen(slots)) else None
  }

  /** The badge and the handler agree: the balance shown as sufficient is
      exactly the one for which the placed ticket comes out VALIDATED. */
  lemma HasBalanceMeansAutoValidated(s: State, picks: seq<Pick>, id: string, now: int)
    requires s.current.Some?
    ensures HasBalance(s.current.value.balance, s.settings) <==>
            App.PlaceTicket(s, picks, id, now).tickets[0].status == Validated
  {
  }

  /** A click on slot `index` choosing `value`. */
  datatype Click = Click(index: nat, value: Pick)

  /** Some click in the run chose a value for slot `j`. */
  predicate Clicked(cs: seq<Click>, j: nat)
  {
    exists k :: 0 <= k < |cs| && cs[k].index == j
  }

  /** A run of clicks on the slots, in order. */
  function Clicks(slots: Slots, settings: AppSettings, cs: seq<Click>): (r: Slots)
    requires forall k :: 0 <= k < |cs| ==> cs[k].index < |slots|
    ensures |r| == |slots|
    decreases |cs|
  {
    if |cs| == 0 then slots
    else Clicks(HandlePick(slots, settings, cs[0].index, cs[0].value), settings, cs[1..])
  }

  /** Clicking only ever fills slots: a filled slot stays filled, and a slot
      that was clicked is filled when betting is open. */
  lemma {:induction false} ClicksFill(slots: Slots, settings: AppSettings, cs: seq<Click>, j: nat)
    requires forall k :: 0 <= k < |cs| ==> cs[k].index < |slots|
    requires j < |slots| && !settings.bettingBlocked
    requires slots[j].Some? || Clicked(cs, j)
    ensures Clicks(slots, settings, cs)[j].Some?
    decreases |cs|
  {
    if |cs| > 0 {
      var next := HandlePick(slots, settings, cs[0].index, cs[0].value);
      if next[j].None? {
        var k :| 0 <= k < |cs| && cs[k].index == j;
        assert k != 0;
        assert cs[1..][k - 1].index == j;
      }
      ClicksFill(next, settings, cs[1..], j);
    }
  }

  /** From the initial slots, clicking every one of the twelve slots while
      betting is open enables submission, and the ticket then carries
      exactly twelve picks. */
  lemma FullSlateSubmits(settings: AppSettings, cs: seq<Click>)
    requires !settings.bettingBlocked
    requires forall k :: 0 <= k < |cs| ==> cs[k].index < Constants.SlateSize
    requires forall j :: 0 <= j < Constants.SlateSize ==> Clicked(cs, j)
    ensures var r := Submit(Clicks(InitialSlots(), settings, cs), settings);
            r.Some? && |r.value| == Constants.SlateSize
  {
    var slots := Clicks(InitialSlots(), settings, cs);
    forall j | 0 <= j < |slots|
      ensures slots[j].Some?
    {
      ClicksFill(InitialSlots(), settings, cs, j);
    }
  }

  /** The suggestion round-trips: while betting is open, filling from a
      suggestion makes the selection complete, and submitting passes on
      exactly the suggested picks. */
  lemma AiFillThenSubmit(slots: Slots, settings: AppSettings, suggestion: seq<Pick>)
    requires |suggestion| == Constants.SlateSize
    requires !settings.bettingBlocked
    ensures Submit(AiFill(slots, settings, suggestion), settings) == Some(suggestion)
  {
    var filled := AiFill(slots, settings, suggestion);
    assert Chosen(filled) == suggestion;
  }
}
