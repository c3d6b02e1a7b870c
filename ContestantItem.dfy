/** One contestant row on the voting surface: its display rules and the `loading` latch that
    guards its vote button. */
module ContestantItem {
  import opened Domain
  import ContestItem

  /** The trophy and "Winner!" marks appear once the contest has ended and the server flagged
      this contestant. */
  function ShowsAsWinner(contest: Contest, x: Contestant, now: int): (w: bool)
    ensures w <==> contest.endDate < now && x.isWinner
  {
    ContestItem.HasEnded(contest, now) && x.isWinner
  }

  /** `votes || 0`. */
  function DisplayedVotes(x: Contestant): (n: nat)
    ensures x.votes.Some? ==> n == x.votes.value
    ensures x.votes.None? ==> n == 0
  {
    match x.votes
    case Some(v) => v
    case None => 0
  }

  /** `name || "Unnamed Contestant"`. */
  function DisplayName(x: Contestant): (s: string)
    ensures x.name != "" ==> s == x.name
    ensures x.name == "" ==> s == "Unnamed Contestant"
  {
    if x.name != "" then x.name else "Unnamed Contestant"
  }

  /** The placeholder letter shown when there is no photo: `name?.charAt(0) || "?"`. */
  function Initial(x: Contestant): (s: string)
    ensures |s| == 1
    ensures x.name != "" ==> s[0] == x.name[0]
    ensures x.name == "" ==> s == "?"
  {
    if x.name != "" then [x.name[0]] else "?"
  }

  /** The image source, or None when the row falls back to the placeholder initial. An address
      beginning with "http" is used as is; any other key is joined to the API base with "/". */
  function PhotoSrc(apiUrl: string, x: Contestant): (r: Option<string>)
    ensures r.None? <==> x.photoUrl == ""
    ensures r.Some? && "http" <= x.photoUrl ==> r.value == x.photoUrl
    ensures r.Some? && !("http" <= x.photoUrl) ==>
      |r.value| == |apiUrl| + 1 + |x.photoUrl| && apiUrl + "/" <= r.value && r.value[|apiUrl| + 1..] == x.photoUrl
  {
    if x.photoUrl == "" then None
    else if "http" <= x.photoUrl then Some(x.photoUrl)
    else Some(apiUrl + "/" + x.photoUrl)
  }

  /** The vote button: disabled while a vote is in flight or once the contest has ended; its label
      says which of the two holds, loading first. */
  datatype VoteButtonView = VoteButtonView(disabled: bool, text: string)

  function VoteButton(loading: bool, ended: bool): (v: VoteButtonView)
    ensures v.disabled <==> loading || ended
    ensures v.text == "Voting..." <==> loading
    ensures v.text == "Contest Ended" <==> !loading && ended
    ensures v.text == "Vote" <==> !v.disabled
  {
    VoteButtonView(
      disabled := loading || ended,
      text := if loading then "Voting..." else if ended then "Contest Ended" else "Vote")
  }

  // ---------------------------------------------------------------------------------------
  // The vote latch as a state machine. `inFlight`, `calls` and `settled` count the calls of the
  // parent's `handleVote` that are outstanding, issued and finished; they instrument the latch.

  datatype Latch = Latch(loading: bool, inFlight: nat, calls: nat, settled: nat)

  const Idle := Latch(false, 0, 0, 0)

  /** The latch is set exactly while one call is outstanding, and every issued call is either
      outstanding or finished. */
  predicate LatchInvariant(l: Latch) {
    && l.inFlight <= 1
    && (l.loading <==> l.inFlight == 1)
    && l.calls == l.settled + l.inFlight
  }

  /** A click: dropped while loading or once the contest has ended; otherwise the latch is set
      and one call of `handleVote` is issued. */
  function Click(l: Latch, ended: bool): (r: Latch)
    ensures l.loading || ended ==> r == l
    ensures !l.loading && !ended ==> r.loading && r.calls == l.calls + 1 && r.inFlight == l.inFlight + 1
  {
    if l.loading || ended then l
    else Latch(true, l.inFlight + 1, l.calls + 1, l.settled)
  }

  /** How the awaited call ended; the `finally` block runs in both cases. */
  datatype CallOutcome = Resolved | Threw

  /** Settlement of the outstanding call: the latch is cleared whatever the outcome. */
  function Settle(l: Latch, outcome: CallOutcome): (r: Latch)
    requires l.inFlight > 0
    ensures !r.loading && r.calls == l.calls && r.inFlight == l.inFlight - 1
  {
    Latch(false, l.inFlight - 1, l.calls, l.settled + 1)
  }

  datatype Event = Clicked(ended: bool) | Settled(outcome: CallOutcome)

  /** One event. A settlement with nothing outstanding cannot arise and leaves the latch alone. */
  function Step(l: Latch, e: Event): Latch {
    match e
    case Clicked(ended) => Click(l, ended)
    case Settled(outcome) => if l.inFlight > 0 then Settle(l, outcome) else l
  }

  /** The latch after a sequence of events, in order. */
  function Run(l: Latch, events: seq<Event>): Latch
    decreases |events|
  {
    if events == [] then l else Run(Step(l, events[0]), events[1..])
  }

  lemma {:induction false} RunKeepsInvariant(l: Latch, events: seq<Event>)
    requires LatchInvariant(l)
    ensures LatchInvariant(Run(l, events))
    decreases |events|
  {
    if events != [] {
      RunKeepsInvariant(Step(l, events[0]), events[1..]);
    }
  }

  /** Whatever the interleaving of clicks and settlements after the button is mounted, at most
      one vote call per contestant is outstanding, it is outstanding exactly while the button
      shows "Voting...", and every other issued call has settled. */
  lemma {:induction false} AtMostOneInFlight(events: seq<Event>)
    ensures LatchInvariant(Run(Idle, events))
  {
    RunKeepsInvariant(Idle, events);
  }

  /** Clicks that arrive while a vote is in flight issue no further call and change nothing. */
  lemma {:induction false} ClicksWhileLoadingAreDropped(l: Latch, events: seq<Event>)
    requires l.loading
    requires forall k :: 0 <= k < |events| ==> events[k].Clicked?
    ensures Run(l, events) == l
    decreases |events|
  {
    if events != [] {
      ClicksWhileLoadingAreDropped(Step(l, events[0]), events[1..]);
    }
  }

  /** After the end date no click, however many, issues a vote call. */
  lemma {:induction false} ClicksAfterEndAreDropped(l: Latch, events: seq<Event>)
    requires forall k :: 0 <= k < |events| ==> events[k] == Clicked(true)
    ensures Run(l, events) == l
    decreases |events|
  {
    if events != [] {
      ClicksAfterEndAreDropped(Step(l, events[0]), events[1..]);
    }
  }

  /** The per-contestant button state of `handleVoteClick`. The counters are ghost: they observe
      the calls of `handleVote` and are not part of the component. */
  class VoteLatch {
    var loading: bool
    ghost var inFlight: nat
    ghost var calls: nat
    ghost var settled: nat

    ghost function State(): Latch
      reads this
    {
      Latch(loading, inFlight, calls, settled)
    }

    constructor ()
      ensures State() == Idle
      ensures LatchInvariant(State())
    {
      loading := false;
      inFlight, calls, settled := 0, 0, 0;
    }

    /** The synchronous part of a click, up to the awaited call: returns whether `handleVote`
        was called. */
    method BeginVote(ended: bool) returns (called: bool)
      requires LatchInvariant(State())
      modifies this
      ensures LatchInvariant(State())
      ensures called <==> !old(loading) && !ended
      ensures State() == Click(old(State()), ended)
    {
      if loading || ended {
        return false;
      }
      loading := true;
      inFlight, calls := inFlight + 1, calls + 1;
      called := true;
    }

    /** The `finally` block after the awaited call resolved or threw. */
    method SettleVote(outcome: CallOutcome)
      requires LatchInvariant(State()) && loading
      modifies this
      ensures !loading && LatchInvariant(State())
      ensures State() == Settle(old(State()), outcome)
    {
      loading := false;
      inFlight, settled := inFlight - 1, settled + 1;
    }
  }
}
