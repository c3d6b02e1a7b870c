/** Status derivation and control gating of one contest card. */
module ContestItem {
  import opened Domain

  datatype Status = Ended | Active | Draft

  /** `hasEnded`: the end date lies strictly before `now`, so the contest is still running up to
      and including its end instant. */
  predicate HasEnded(c: Contest, now: int): (ended: bool)
    ensures ended <==> c.endDate < now
    ensures !ended <==> now <= c.endDate
  {
    c.endDate < now
  }

  /** At the end instant itself the contest has not ended yet. */
  lemma NotEndedAtEndDate(c: Contest, published: set<Id>, now: int)
    requires now == c.endDate
    ensures !HasEnded(c, now)
    ensures ContestStatus(c, published, now) != Ended
  {
  }

  /** `getContestStatus`: ended beats published, published beats draft. The published flag is
      membership of the contest's id in the dashboard's mirrored set of published ids. */
  function ContestStatus(c: Contest, published: set<Id>, now: int): (s: Status)
    ensures s == Ended <==> c.endDate < now
    ensures s == Active <==> !(c.endDate < now) && c.id in published
    ensures s == Draft <==> !(c.endDate < now) && c.id !in published
  {
    if HasEnded(c, now) then Ended
    else if c.id in published then Active
    else Draft
  }

  /** The string the component passes to the badge helpers. */
  function StatusName(s: Status): string {
    match s
    case Ended => "ended"
    case Active => "active"
    case Draft => "draft"
  }

  /** `getStatusText`: a switch on the status string whose default branch is Draft. */
  function StatusText(status: string): (t: string)
    ensures t == "Ended" <==> status == "ended"
    ensures t == "Active" <==> status == "active"
    ensures t == "Draft" <==> status != "ended" && status != "active"
  {
    if status == "ended" then "Ended"
    else if status == "active" then "Active"
    else "Draft"
  }

  const EndedStyle := "bg-gray-100 text-gray-800"
  const ActiveStyle := "bg-green-100 text-green-800"
  const DraftStyle := "bg-yellow-100 text-yellow-800"

  /** `getStatusBadgeStyle`: gray when ended, green when active, yellow otherwise. */
  function BadgeStyle(status: string): (style: string)
    ensures style == EndedStyle <==> status == "ended"
    ensures style == ActiveStyle <==> status == "active"
    ensures style == DraftStyle <==> status != "ended" && status != "active"
  {
    if status == "ended" then EndedStyle
    else if status == "active" then ActiveStyle
    else DraftStyle
  }

  /** Distinct statuses get distinct badges: text and style tell the three apart. */
  lemma BadgeDistinguishesStatus(s1: Status, s2: Status)
    ensures StatusText(StatusName(s1)) == StatusText(StatusName(s2)) ==> s1 == s2
    ensures BadgeStyle(StatusName(s1)) == BadgeStyle(StatusName(s2)) ==> s1 == s2
  {
  }

  /** What the card offers the organizer. */
  datatype Controls = Controls(addContestantDisabled: bool, publishShown: bool, publishLabel: string)

  /** Add Contestant is disabled once the contest has ended; the publish toggle is rendered only
      before that, labelled by the current published state. */
  function CardControls(c: Contest, published: set<Id>, now: int): (r: Controls)
    ensures r.publishShown <==> ContestStatus(c, published, now) != Ended
    ensures r.addContestantDisabled <==> !r.publishShown
    ensures r.publishLabel == "Unpublish" <==> c.id in published
    ensures r.publishLabel in {"Publish", "Unpublish"}
  {
    Controls(
      addContestantDisabled := HasEnded(c, now),
      publishShown := !HasEnded(c, now),
      publishLabel := if c.id in published then "Unpublish" else "Publish")
  }

  /** Number of contestants carrying the server's winner flag (`filter(c => c.isWinner).length`). */
  function CountWinners(cs: seq<Contestant>): (n: nat)
    ensures n <= |cs|
    ensures n == 0 <==> forall i :: 0 <= i < |cs| ==> !cs[i].isWinner
  {
    if cs == [] then 0
    else (if cs[0].isWinner then 1 else 0) + CountWinners(cs[1..])
  }

  /** More than one flagged winner exactly when two different positions are flagged. */
  lemma {:induction false} SeveralWinnersIff(cs: seq<Contestant>)
    ensures CountWinners(cs) > 1 <==>
      exists i, j :: 0 <= i < j < |cs| && cs[i].isWinner && cs[j].isWinner
  {
    if cs != [] {
      SeveralWinnersIff(cs[1..]);
      if CountWinners(cs) > 1 {
        if cs[0].isWinner {
          var j :| 0 <= j < |cs[1..]| && cs[1..][j].isWinner;
          assert cs[0].isWinner && cs[j + 1].isWinner;
        } else {
          var i, j :| 0 <= i < j < |cs[1..]| && cs[1..][i].isWinner && cs[1..][j].isWinner;
          assert cs[i + 1].isWinner && cs[j + 1].isWinner;
        }
      } else {
        forall i, j | 0 <= i < j < |cs| && cs[i].isWinner
          ensures !cs[j].isWinner
        {
          if i == 0 {
            assert cs[j] == cs[1..][j - 1];
          } else {
            assert cs[i] == cs[1..][i - 1] && cs[j] == cs[1..][j - 1];
          }
        }
      }
    }
  }

  /** The "Contest ended - Winner(s) announced!" banner, or None when it is not rendered. It is
      rendered for an ended contest with contestants of which some carry the winner flag. */
  function WinnerBanner(c: Contest, now: int): (r: Option<string>)
    ensures r.Some? <==>
      c.endDate < now && |c.contestants| > 0 && exists i :: 0 <= i < |c.contestants| && c.contestants[i].isWinner
    ensures r.Some? ==>
      (r.value == "Contest ended - Winners announced!" <==>
        exists i, j :: 0 <= i < j < |c.contestants| && c.contestants[i].isWinner && c.contestants[j].isWinner)
    ensures r.Some? ==>
      r.value in {"Contest ended - Winner announced!", "Contest ended - Winners announced!"}
  {
    var n := CountWinners(c.contestants);
    SeveralWinnersIff(c.contestants);
    if |c.contestants| > 0 && HasEnded(c, now) && n > 0 then
      Some(if n > 1 then "Contest ended - Winners announced!" else "Contest ended - Winner announced!")
    else
      None
  }
}
