/** The organizer's dashboard: the list of contests, the mirrored set of published ids, and the
    create, publish-toggle and add-contestant commands against the contests API. Each network
    call is replaced by its outcome, passed in by the caller. */
module Overview {
  import opened Domain
  import ContestModal

  /** The signed-in user as the authentication context holds it; its `_id` may be missing. */
  datatype User = User(id: Option<Id>)

  /** The authentication context and the stored token, as read at the moment of the command.
      `currentUser` is None when the context holds no user object; `token` is None when nothing
      is stored. */
  datatype Session = Session(userLoading: bool, authenticated: bool, currentUser: Option<User>, token: Option<string>)

  /** `currentUser?._id` is truthy: a user whose id is present and non-empty. */
  predicate HasUserId(session: Session) {
    session.currentUser.Some? && session.currentUser.value.id.Some? && session.currentUser.value.id.value != ""
  }

  /** The stored token is truthy: present and non-empty. */
  predicate HasToken(session: Session) {
    session.token.Some? && session.token.value != ""
  }

  /** The `userId` part of the create body: the user's id, or the text "undefined" that the
      multipart body receives for a user without one. */
  function FormUserId(u: User): (r: Id)
    ensures u.id.Some? ==> r == u.id.value
    ensures u.id.None? ==> r == "undefined"
  {
    match u.id
    case Some(id) => id
    case None => "undefined"
  }

  /** The outcome of one API call: a response whose body says `success` and carries `data`, or a
      thrown error (network, authorization or server failure). */
  datatype ApiResult<T> = Responded(success: bool, data: T) | Threw

  predicate Confirmed<T>(r: ApiResult<T>) {
    r.Responded? && r.success
  }

  const ServerOrigin := "http://localhost:5000"

  /** The ids of the fetched contests that are flagged published (`filter` then `map`). */
  function PublishedIds(cs: seq<Contest>): (r: set<Id>)
    ensures forall id :: id in r <==> exists i :: 0 <= i < |cs| && cs[i].id == id && cs[i].isPublished
  {
    if cs == [] then {}
    else
      var rest := PublishedIds(cs[1..]);
      assert forall i :: 1 <= i < |cs| ==> cs[i] == cs[1..][i - 1];
      (if cs[0].isPublished then {cs[0].id} else {}) + rest
  }

  /** `contests.find(c => c._id === id)`: the first contest with that id. */
  function FindContest(cs: seq<Contest>, id: Id): (r: Option<Contest>)
    ensures r.None? <==> forall i :: 0 <= i < |cs| ==> cs[i].id != id
    ensures r.Some? ==> exists k :: 0 <= k < |cs| && cs[k] == r.value && cs[k].id == id &&
                                  forall i :: 0 <= i < k ==> cs[i].id != id
  {
    if cs == [] then None
    else if cs[0].id == id then Some(cs[0])
    else
      var r := FindContest(cs[1..], id);
      assert forall i :: 1 <= i < |cs| ==> cs[i] == cs[1..][i - 1];
      if r.Some? then
        var k :| 0 <= k < |cs[1..]| && cs[1..][k] == r.value && cs[1..][k].id == id &&
                 forall i :: 0 <= i < k ==> cs[1..][i].id != id;
        assert cs[k + 1] == r.value;
        r
      else r
  }

  /** The publish value the toggle sends, or None when it refuses before any API call: the id is
      unknown or the contest has no contestants. The value asked for is the opposite of the
      mirrored state. */
  function PublishRequest(cs: seq<Contest>, published: set<Id>, id: Id): (r: Option<bool>)
    ensures r.Some? ==> r.value == (id !in published)
    ensures (forall i :: 0 <= i < |cs| ==> cs[i].id != id) ==> r.None?
  {
    match FindContest(cs, id)
    case None => None
    case Some(c) => if |c.contestants| == 0 then None else Some(id !in published)
  }

  /** With unique ids, the toggle is refused exactly for a contest without contestants. */
  lemma PublishGate(cs: seq<Contest>, published: set<Id>, k: int)
    requires UniqueIds(cs) && 0 <= k < |cs|
    ensures PublishRequest(cs, published, cs[k].id).None? <==> |cs[k].contestants| == 0
    ensures PublishRequest(cs, published, cs[k].id).Some? ==>
      PublishRequest(cs, published, cs[k].id).value == (cs[k].id !in published)
  {
  }

  /** The mirrored published set after a toggle that asked for `value`: on a confirmed response
      the id is added or removed accordingly, on any other outcome nothing changes. */
  function PublishedAfter(published: set<Id>, id: Id, value: bool, result: ApiResult<()>): (r: set<Id>)
    ensures Confirmed(result) ==> (id in r <==> value)
    ensures !Confirmed(result) ==> r == published
    ensures forall other :: other != id ==> (other in r <==> other in published)
  {
    if !Confirmed(result) then published
    else if value then published + {id}
    else published - {id}
  }

  /** Two confirmed toggles of the same contest in a row restore the published set. */
  lemma ToggleTwiceRestores(published: set<Id>, id: Id)
    ensures
      var once := PublishedAfter(published, id, id !in published, Responded(true, ()));
      PublishedAfter(once, id, id !in once, Responded(true, ())) == published
  {
  }

  /** The contest list after `onAddContestant`: the new contestant is appended to every contest
      whose id equals the selected id (none when nothing is selected). */
  function WithContestant(cs: seq<Contest>, selected: Option<Id>, x: Contestant): (r: seq<Contest>)
    ensures |r| == |cs|
    ensures forall i :: 0 <= i < |cs| ==> r[i].id == cs[i].id
    ensures forall i :: 0 <= i < |cs| && selected == Some(cs[i].id) ==>
      r[i] == cs[i].(contestants := cs[i].contestants + [x])
    ensures forall i :: 0 <= i < |cs| && selected != Some(cs[i].id) ==> r[i] == cs[i]
  {
    if cs == [] then []
    else
      var head := if selected == Some(cs[0].id) then cs[0].(contestants := cs[0].contestants + [x]) else cs[0];
      [head] + WithContestant(cs[1..], selected, x)
  }

  /** Number of contests in the list with the given id. */
  function CountId(cs: seq<Contest>, selected: Option<Id>): nat {
    if cs == [] then 0
    else (if selected == Some(cs[0].id) then 1 else 0) + CountId(cs[1..], selected)
  }

  /** Number of contestants over all contests. */
  function TotalContestants(cs: seq<Contest>): nat {
    if cs == [] then 0 else |cs[0].contestants| + TotalContestants(cs[1..])
  }

  /** Adding a contestant grows the total by one per matching contest: nothing is lost or
      duplicated elsewhere. */
  lemma {:induction false} AddContestantTotal(cs: seq<Contest>, selected: Option<Id>, x: Contestant)
    ensures TotalContestants(WithContestant(cs, selected, x)) == TotalContestants(cs) + CountId(cs, selected)
  {
    if cs != [] {
      AddContestantTotal(cs[1..], selected, x);
      var r := WithContestant(cs, selected, x);
      assert r[1..] == WithContestant(cs[1..], selected, x);
    }
  }

  /** With unique ids there is at most one matching contest. */
  lemma {:induction false} UniqueIdCount(cs: seq<Contest>, selected: Option<Id>)
    requires UniqueIds(cs)
    ensures CountId(cs, selected) <= 1
    ensures CountId(cs, selected) == 1 <==> exists k :: 0 <= k < |cs| && selected == Some(cs[k].id)
  {
    if cs != [] {
      assert UniqueIds(cs[1..]) by {
        forall i, j | 0 <= i < j < |cs[1..]| ensures cs[1..][i].id != cs[1..][j].id {
          assert cs[1..][i] == cs[i + 1] && cs[1..][j] == cs[j + 1];
        }
      }
      UniqueIdCount(cs[1..], selected);
      if selected == Some(cs[0].id) {
        assert forall k :: 0 <= k < |cs[1..]| ==> cs[1..][k] == cs[k + 1];
      }
      if exists k :: 0 <= k < |cs| && selected == Some(cs[k].id) {
        var k :| 0 <= k < |cs| && selected == Some(cs[k].id);
        if k > 0 {
          assert cs[1..][k - 1] == cs[k];
        }
      }
    }
  }

  /** With unique ids, adding a contestant to the selected contest grows the total by exactly one
      when that contest is listed, and changes nothing otherwise. */
  lemma AddContestantGrowsByOne(cs: seq<Contest>, selected: Option<Id>, x: Contestant)
    requires UniqueIds(cs)
    ensures TotalContestants(WithContestant(cs, selected, x)) ==
      TotalContestants(cs) + (if exists k :: 0 <= k < |cs| && selected == Some(cs[k].id) then 1 else 0)
    ensures (forall k :: 0 <= k < |cs| ==> selected != Some(cs[k].id)) ==> WithContestant(cs, selected, x) == cs
  {
  }

  /** The multipart body of the create call. The cover photo is attached only when chosen. */
  datatype CreateRequest = CreateRequest(
    name: string,
    description: string,
    startDate: string,
    endDate: string,
    userId: Id,
    coverPhoto: Option<ContestModal.File>)

  /** A contestant thumbnail on the dashboard: an "http" address is used as is, any other key is
      appended to the server origin with no separator; None when there is no photo. */
  function ThumbnailSrc(x: Contestant): (r: Option<string>)
    ensures r.None? <==> x.photoUrl == ""
    ensures r.Some? && "http" <= x.photoUrl ==> r.value == x.photoUrl
    ensures r.Some? && !("http" <= x.photoUrl) ==>
      ServerOrigin <= r.value && r.value[|ServerOrigin|..] == x.photoUrl
  {
    if x.photoUrl == "" then None
    else if "http" <= x.photoUrl then Some(x.photoUrl)
    else Some(ServerOrigin + x.photoUrl)
  }

  /** The cover image: always the server origin, "/", then the stored key. */
  function CoverSrc(c: Contest): (r: string)
    ensures ServerOrigin + "/" <= r
    ensures r[|ServerOrigin| + 1..] == c.coverPhotoUrl
  {
    ServerOrigin + "/" + c.coverPhotoUrl
  }

  /** What a dashboard card offers: the voting link only for a published contest, Add Contestant
      only for an unpublished one, and the toggle labelled by the current state. */
  datatype CardActions = CardActions(votingUrl: Option<string>, addContestantShown: bool, toggleLabel: string)

  function DashboardCard(origin: string, c: Contest, published: set<Id>): (r: CardActions)
    ensures r.votingUrl.Some? <==> c.id in published
    ensures r.votingUrl.Some? ==> r.votingUrl.value == origin + "/vote/" + c.id
    ensures r.addContestantShown <==> r.votingUrl.None?
    ensures r.toggleLabel == (if c.id in published then "Unpublish" else "Publish")
  {
    if c.id in published then CardActions(Some(origin + "/vote/" + c.id), false, "Unpublish")
    else CardActions(None, true, "Publish")
  }

  class Dashboard {
    var contests: seq<Contest>
    var published: set<Id>
    var selectedContestId: Option<Id>
    var isModalOpen: bool
    var isContestantModalOpen: bool

    constructor ()
      ensures contests == [] && published == {} && selectedContestId == None
      ensures !isModalOpen && !isContestantModalOpen
    {
      contests, published, selectedContestId := [], {}, None;
      isModalOpen, isContestantModalOpen := false, false;
    }

    /** `fetchContests`: nothing happens while the user is loading, unauthenticated, without a
        non-empty id or without a non-empty token; a confirmed response replaces the list and rebuilds the published set
        from it; a failure keeps both. Returns whether the API was called. */
    method FetchContests(session: Session, result: ApiResult<seq<Contest>>) returns (requested: bool)
      modifies this`contests, this`published
      ensures requested <==> !session.userLoading && session.authenticated
                             && HasUserId(session) && HasToken(session)
      ensures contests == (if requested && Confirmed(result) then result.data else old(contests))
      ensures published == (if requested && Confirmed(result) then PublishedIds(result.data) else old(published))
    {
      if session.userLoading || !session.authenticated || !HasUserId(session) {
        return false;
      }
      if !HasToken(session) {
        return false;
      }
      requested := true;
      if result.Responded? && result.success {
        contests := result.data;
        published := PublishedIds(result.data);
      }
    }

    /** `handlePublishToggle`. Returns the publish value sent, or None when the gate refused
        before calling the API; the list is never touched. */
    method HandlePublishToggle(id: Id, result: ApiResult<()>) returns (request: Option<bool>)
      modifies this`published
      ensures request == PublishRequest(contests, old(published), id)
      ensures published == (if request.Some? then PublishedAfter(old(published), id, request.value, result)
                            else old(published))
    {
      var contest := FindContest(contests, id);
      if contest.None? || |contest.value.contestants| == 0 {
        return None;
      }
      var isPublished := id !in published;
      request := Some(isPublished);
      if result.Responded? && result.success {
        var newSet := published;
        if isPublished {
          newSet := newSet + {id};
        } else {
          newSet := newSet - {id};
        }
        published := newSet;
      }
    }

    /** `handleCreateContest`, the `onSubmit` of the create form. Nothing is sent while the user is
        loading, unauthenticated or without a non-empty token; with no user object at all, reading
        its id throws while the body is built, before the call, and the error is caught. A user
        without an id sends "undefined" as its id. A confirmed response appends the returned contest and closes the
        modal. Returns the body sent, if any. */
    method HandleCreateContest(session: Session, form: ContestModal.ContestForm, result: ApiResult<Contest>)
      returns (request: Option<CreateRequest>)
      modifies this`contests, this`isModalOpen
      ensures request.Some? <==> !session.userLoading && session.authenticated
                                 && HasToken(session) && session.currentUser.Some?
      ensures request.Some? ==> request.value == CreateRequest(form.name, form.description,
        form.startDate, form.endDate, FormUserId(session.currentUser.value), form.coverPhoto)
      ensures contests == (if request.Some? && Confirmed(result) then old(contests) + [result.data]
                           else old(contests))
      ensures isModalOpen == (if request.Some? && Confirmed(result) then false else old(isModalOpen))
    {
      if session.userLoading || !session.authenticated {
        return None;
      }
      if !HasToken(session) {
        return None;
      }
      if session.currentUser.None? {
        return None;
      }
      request := Some(CreateRequest(form.name, form.description, form.startDate, form.endDate,
        FormUserId(session.currentUser.value), form.coverPhoto));
      if result.Responded? && result.success {
        contests := contests + [result.data];
        isModalOpen := false;
      }
    }

    /** The Add Contestant button: remembers the contest and opens the contestant modal. */
    method SelectContest(id: Id)
      modifies this`selectedContestId, this`isContestantModalOpen
      ensures selectedContestId == Some(id) && isContestantModalOpen
    {
      selectedContestId := Some(id);
      isContestantModalOpen := true;
    }

    /** `onAddContestant`: the contestant returned by the server joins the selected contest. */
    method AddContestant(x: Contestant)
      modifies this`contests
      ensures contests == WithContestant(old(contests), selectedContestId, x)
    {
      contests := WithContestant(contests, selectedContestId, x);
    }
  }
}
