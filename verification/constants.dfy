/**
 The initial slate of twelve matches and the default settings the
 application starts from when nothing has been stored yet.
 */
module Constants {
  import opened ArrayOps
  import opened Types

  /** Number of matches in one slate, and of pick slots on a ticket. */
  const SlateSize: nat := 12

  function DigitChar(d: nat): char
    requires d < 10
  {
    "0123456789"[d]
  }

  /** The decimal text JavaScript produces when a non-negative integer is
      interpolated into a template string. */
  function NatToString(n: nat): (s: string)
    ensures |s| >= 1
    ensures forall i :: 0 <= i < |s| ==> '0' <= s[i] <= '9'
  {
    if n < 10 then [DigitChar(n)] else NatToString(n / 10) + [DigitChar(n % 10)]
  }

  /** Reads a string of decimal digits back as a number. */
  function DecimalValue(s: string): nat
    requires forall i :: 0 <= i < |s| ==> '0' <= s[i] <= '9'
  {
    if |s| == 0 then 0
    else 10 * DecimalValue(s[..|s| - 1]) + (s[|s| - 1] as int - '0' as int)
  }

  /** Printing a number in decimal and reading it back gives the number. */
  lemma {:induction false} DecimalRoundTrip(n: nat)
    ensures DecimalValue(NatToString(n)) == n
  {
    var s := NatToString(n);
    if n >= 10 {
      DecimalRoundTrip(n / 10);
      assert s[..|s| - 1] == NatToString(n / 10);
    }
  }

  /** Hence distinct numbers print differently. */
  lemma NatToStringInjective(a: nat, b: nat)
    requires a != b
    ensures NatToString(a) != NatToString(b)
  {
    DecimalRoundTrip(a);
    DecimalRoundTrip(b);
  }

  function InitialMatch(i: nat): Match
  {
    Match("match-" + NatToString(i + 1), "Brasileirão Série A",
          "Time Casa " + NatToString(i + 1), "Time Fora " + NatToString(i + 1),
          "Hoje às 16:00", None)
  }

  /** `INITIAL_MATCHES`: twelve matches numbered from 1. */
  function InitialMatches(): seq<Match>
  {
    seq(SlateSize, i requires 0 <= i < SlateSize => InitialMatch(i))
  }

  /** `DEFAULT_SETTINGS` */
  const DefaultSettings: AppSettings :=
    AppSettings("3db60233-bf8c-4364-9513-f3ac32c5b9ab", false, 2.0, 1000.0)

  /** The slate has one match per pick slot, their ids are pairwise distinct,
      and match i carries the team names "Time Casa i+1" / "Time Fora i+1". */
  lemma InitialMatchesShape()
    ensures |InitialMatches()| == SlateSize
    ensures forall i, j :: 0 <= i < j < |InitialMatches()| ==> InitialMatches()[i].id != InitialMatches()[j].id
    ensures forall i :: 0 <= i < |InitialMatches()| ==>
              && InitialMatches()[i].homeTeam == "Time Casa " + NatToString(i + 1)
              && InitialMatches()[i].awayTeam == "Time Fora " + NatToString(i + 1)
              && InitialMatches()[i].result == None
  {
    forall i, j | 0 <= i < j < |InitialMatches()|
      ensures InitialMatches()[i].id != InitialMatches()[j].id
    {
      var x, y := NatToString(i + 1), NatToString(j + 1);
      NatToStringInjective(i + 1, j + 1);
      assert InitialMatches()[i].id == "match-" + x && ("match-" + x)[6..] == x;
      assert InitialMatches()[j].id == "match-" + y && ("match-" + y)[6..] == y;
    }
  }

  /** Betting starts open, a ticket costs a positive 2.0 and the jackpot is 1000.0. */
  lemma DefaultSettingsShape()
    ensures !DefaultSettings.bettingBlocked
    ensures DefaultSettings.ticketPrice == 2.0 && DefaultSettings.ticketPrice > 0.0
    ensures DefaultSettings.jackpotPrize == 1000.0
  {
  }
}
