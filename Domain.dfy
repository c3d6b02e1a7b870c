/** The entities the dashboard and the voting page share: a contest and its contestants,
    as the server returns them, with timestamps reduced to integers. */
module Domain {

  datatype Option<T> = None | Some(value: T)

  /** Server-generated identifiers (`_id`) are opaque strings. */
  type Id = string

  /** A contestant. An absent `name` or `photoUrl` is the empty string; `votes` may be absent. */
  datatype Contestant = Contestant(
    id: Id,
    contestId: Id,
    name: string,
    photoUrl: string,
    votes: Option<nat>,
    isWinner: bool)

  /** A contest in the later, richer shape (name, description, cover photo). */
  datatype Contest = Contest(
    id: Id,
    name: string,
    description: string,
    coverPhotoUrl: string,
    startDate: int,
    endDate: int,
    isPublished: bool,
    contestants: seq<Contestant>)

  /** No two contests in a list share an id. */
  predicate UniqueIds(cs: seq<Contest>) {
    forall i, j :: 0 <= i < j < |cs| ==> cs[i].id != cs[j].id
  }
}
