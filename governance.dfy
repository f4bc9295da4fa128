/** The governance panel's arithmetic: the time left on a proposal, the
    share of votes in favour, and when the vote buttons or the "Voted" badge
    are shown. */
module Governance {
  import opened Common
  import Store

  const DayMs: int := 86400000
  const HourMs: int := 3600000

  /** JavaScript's `a % b`: the remainder takes the sign of the dividend. */
  function JsRem(a: int, b: int): (r: int)
    requires b > 0
    ensures a >= 0 ==> 0 <= r < b
    ensures a < 0 ==> -b < r <= 0
  {
    if a >= 0 then a % b else -((-a) % b)
  }

  datatype Remaining = Remaining(days: int, hours: int)

  /** `Math.floor(diff / day)` and `Math.floor((diff % day) / hour)`. For a
      positive divisor Dafny's integer division is the floor. */
  function TimeRemaining(endDate: int, now: int): Remaining {
    var diff := endDate - now;
    Remaining(diff / DayMs, JsRem(diff, DayMs) / HourMs)
  }

  /** Before the deadline, the days and hours are the whole days and the whole
      hours left over; after it the hours run from -24 to 0. */
  lemma TimeRemainingSpec(endDate: int, now: int)
    ensures var t := TimeRemaining(endDate, now); var diff := endDate - now;
      && (diff >= 0 ==> 0 <= t.days && 0 <= t.hours <= 23
                        && t.days * DayMs + t.hours * HourMs <= diff < t.days * DayMs + (t.hours + 1) * HourMs)
      && (diff < 0 ==> t.days < 0 && -24 <= t.hours <= 0)
  {
    var diff := endDate - now;
    var t := TimeRemaining(endDate, now);
    if diff >= 0 {
      var rem := diff % DayMs;
      assert diff == t.days * DayMs + rem;
      assert rem == t.hours * HourMs + rem % HourMs;
    }
  }

  /** The for-share in percent; an untouched proposal shows an even split. */
  function VotePercentage(votesFor: real, votesAgainst: real): real {
    var total := votesFor + votesAgainst;
    if total == 0.0 then 50.0 else votesFor / total * 100.0
  }

  /** 50 for no votes; otherwise the for-share, between 0 and 100 for
      non-negative tallies; and the against-bar (100 minus it) is the
      against-share, so the two bars always fill 100. */
  lemma VotePercentageSpec(votesFor: real, votesAgainst: real)
    ensures votesFor + votesAgainst == 0.0 ==> VotePercentage(votesFor, votesAgainst) == 50.0
    ensures votesFor >= 0.0 && votesAgainst >= 0.0 ==> 0.0 <= VotePercentage(votesFor, votesAgainst) <= 100.0
    ensures votesFor + votesAgainst != 0.0 ==>
      100.0 - VotePercentage(votesFor, votesAgainst) == votesAgainst / (votesFor + votesAgainst) * 100.0
  {
    var total := votesFor + votesAgainst;
    if total != 0.0 {
      assert votesFor / total + votesAgainst / total == 1.0;
      if votesFor >= 0.0 && votesAgainst >= 0.0 {
        assert votesFor / total <= 1.0;
      }
    }
  }

  /** The vote buttons: active proposal, connected wallet, shares held, and
      no vote cast yet. */
  predicate ShowVoteButtons(p: Store.Proposal, isConnected: bool, sharesOwned: real) {
    p.status == Store.Active && isConnected && sharesOwned > 0.0 && p.userVoted != Some(true)
  }

  predicate ShowVotedBadge(p: Store.Proposal, isConnected: bool) {
    p.status == Store.Active && isConnected && p.userVoted == Some(true)
  }

  /** The buttons and the badge are never shown together, and on an active
      proposal seen by a connected shareholder exactly one of them is. */
  lemma ButtonsOrBadge(p: Store.Proposal, isConnected: bool, sharesOwned: real)
    ensures !(ShowVoteButtons(p, isConnected, sharesOwned) && ShowVotedBadge(p, isConnected))
    ensures p.status == Store.Active && isConnected && sharesOwned > 0.0 ==>
      ShowVoteButtons(p, isConnected, sharesOwned) || ShowVotedBadge(p, isConnected)
  {
  }

  /** A button press on a proposal whose id is unique passes both guards of
      the store's vote, so the vote is counted. */
  lemma ButtonsMeanVoteCounted(ps: seq<Store.Proposal>, i: nat, isConnected: bool, sharesOwned: real)
    requires i < |ps| && forall j :: 0 <= j < |ps| && j != i ==> ps[j].id != ps[i].id
    requires ShowVoteButtons(ps[i], isConnected, sharesOwned)
    ensures sharesOwned > 0.0 && !Store.HasVoted(ps, ps[i].id)
  {
    var o := Store.FindProposal(ps, ps[i].id);
    var k :| 0 <= k < |ps| && ps[k] == o.value && ps[k].id == ps[i].id;
    assert k == i;
  }
}
