/**
 * The repository records of the service, the responses its handlers give,
 * the identifier gate and, for each handler, a pure step function from the
 * store before a request to the store after it and the response.
 * The step functions are the specification the store's methods are proved
 * against.
 */
module Repositories {
  import opened Wrappers

  /**
   * One repository record. `likes` is optional because the update handler
   * stores a replacement object that has no `likes` field at all.
   */
  datatype Repository = Repository(
    id: string,
    title: string,
    url: string,
    techs: seq<string>,
    likes: Option<nat>)

  /** What a handler answers; each variant stands for one HTTP response. */
  datatype Response =
    | Listed(records: seq<Repository>)  // 200, the whole store
    | Ok(record: Repository)            // 200, one record
    | NoContent                         // 204, empty body
    | InvalidId                         // 400, { error: "Invalid ID." }
    | NotFound                          // 400, { error: "Repository not found." }
    | NotFoundEmpty                     // 400, empty body (the like handler)
    | LikesNotANumber                   // like on a record without `likes`

  /**
   * The HTTP status code of a response: every error answers 400, delete's
   * success 204, and everything else 200 (the like on a missing counter
   * answers 200 as well: the script stores NaN and sends the record, with
   * NaN serialised as null).
   */
  function Status(r: Response): (code: nat)
    ensures code == 400 <==> (r.InvalidId? || r.NotFound? || r.NotFoundEmpty?)
    ensures code == 204 <==> r.NoContent?
    ensures code == 200 <==> (r.Listed? || r.Ok? || r.LikesNotANumber?)
  {
    match r
    case Listed(_) => 200
    case Ok(_) => 200
    case NoContent => 204
    case InvalidId => 400
    case NotFound => 400
    case NotFoundEmpty => 400
    case LikesNotANumber => 200
  }

  /**
   * The `error` field of the JSON body, when the body carries one: only the
   * invalid-identifier and not-found answers carry one, and both are 400s.
   */
  function ErrorMessage(r: Response): (m: Option<string>)
    ensures m.Some? <==> (r.InvalidId? || r.NotFound?)
    ensures m.Some? ==> Status(r) == 400
    ensures r.InvalidId? ==> m == Some("Invalid ID.")
    ensures r.NotFound? ==> m == Some("Repository not found.")
  {
    match r
    case InvalidId => Some("Invalid ID.")
    case NotFound => Some("Repository not found.")
    case _ => None
  }

  /** The store after a request, together with the response to it. */
  datatype Step = Step(store: seq<Repository>, response: Response)

  /** Outcome of the identifier gate: go on to the handler, or answer now. */
  datatype Gate = Next | Reject(response: Response)

  /**
   * The `validateId` middleware: a route identifier that is not a UUID is
   * answered with 400 "Invalid ID." before the handler runs.
   */
  function ValidateId(isUuid: string -> bool, id: string): (g: Gate)
    ensures g.Next? <==> isUuid(id)
    ensures g.Reject? ==> g.response == InvalidId
    ensures g.Reject? ==> Status(g.response) == 400 && ErrorMessage(g.response) == Some("Invalid ID.")
  {
    if !isUuid(id) then Reject(InvalidId) else Next
  }

  /** No record of `rs` has identifier `id`. */
  ghost predicate NoMatch(rs: seq<Repository>, id: string) {
    forall j :: 0 <= j < |rs| ==> rs[j].id != id
  }

  /** `i` is the position of the first record of `rs` whose identifier is `id`. */
  ghost predicate IsFirstMatch(rs: seq<Repository>, id: string, i: int) {
    0 <= i < |rs| && rs[i].id == id && forall j :: 0 <= j < i ==> rs[j].id != id
  }

  /**
   * What `findIndex`/`find` with the predicate `repository.id === id`
   * look up: the first record with that identifier, or nothing.
   */
  function FirstIndexOf(rs: seq<Repository>, id: string): (r: Option<nat>)
    ensures r.Some? ==> IsFirstMatch(rs, id, r.value)
    ensures r.None? <==> NoMatch(rs, id)
  {
    if rs == [] then None
    else if rs[0].id == id then Some(0)
    else match FirstIndexOf(rs[1..], id)
      case None => None
      case Some(k) => Some(k + 1)
  }

  /** Identifiers are pairwise distinct (the code never checks it). */
  ghost predicate UniqueIds(rs: seq<Repository>) {
    forall i, j :: 0 <= i < j < |rs| ==> rs[i].id != rs[j].id
  }

  /** The record the create handler builds. */
  function NewRepository(id: string, title: string, url: string, techs: seq<string>): (r: Repository)
    ensures r.id == id && r.title == title && r.url == url && r.techs == techs
    ensures r.likes == Some(0)
  {
    Repository(id, title, url, techs, Some(0))
  }

  /** GET /repositories: the store, unchanged, is the response. */
  function ListStep(rs: seq<Repository>): (s: Step)
    ensures s.store == rs && s.response.Listed? && s.response.records == rs
  {
    Step(rs, Listed(rs))
  }

  /** POST /repositories, with `id` standing for the freshly generated uuid. */
  function CreateStep(rs: seq<Repository>, id: string, title: string, url: string, techs: seq<string>): (s: Step)
    ensures |s.store| == |rs| + 1 && s.store[..|rs|] == rs
    ensures s.store[|rs|] == NewRepository(id, title, url, techs)
    ensures s.response == Ok(s.store[|rs|])
  {
    var repository := NewRepository(id, title, url, techs);
    Step(rs + [repository], Ok(repository))
  }

  /**
   * PUT /repositories/:id. The first record with the identifier is replaced
   * by one built from the body, WITHOUT a `likes` field.
   */
  function UpdateStep(isUuid: string -> bool, rs: seq<Repository>, id: string,
                      title: string, url: string, techs: seq<string>): (s: Step)
    ensures !isUuid(id) ==> s == Step(rs, InvalidId)
    ensures isUuid(id) && NoMatch(rs, id) ==> s == Step(rs, NotFound)
    ensures isUuid(id) && !NoMatch(rs, id) ==>
      var i := FirstIndexOf(rs, id).value;
      |s.store| == |rs| &&
      s.store[i] == Repository(id, title, url, techs, None) &&
      (forall j :: 0 <= j < |rs| && j != i ==> s.store[j] == rs[j]) &&
      s.response == Ok(s.store[i])
  {
    match ValidateId(isUuid, id)
    case Reject(response) => Step(rs, response)
    case Next =>
      match FirstIndexOf(rs, id)
      case None => Step(rs, NotFound)
      case Some(i) =>
        var repository := Repository(id, title, url, techs, None);
        Step(rs[i := repository], Ok(repository))
  }

  /** DELETE /repositories/:id: the first record with the identifier is spliced out. */
  function DeleteStep(isUuid: string -> bool, rs: seq<Repository>, id: string): (s: Step)
    ensures !isUuid(id) ==> s == Step(rs, InvalidId)
    ensures isUuid(id) && NoMatch(rs, id) ==> s == Step(rs, NotFound)
    ensures isUuid(id) && !NoMatch(rs, id) ==>
      var i := FirstIndexOf(rs, id).value;
      |s.store| == |rs| - 1 &&
      (forall j :: 0 <= j < i ==> s.store[j] == rs[j]) &&
      (forall j :: i <= j < |s.store| ==> s.store[j] == rs[j + 1]) &&
      s.response == NoContent
  {
    match ValidateId(isUuid, id)
    case Reject(response) => Step(rs, response)
    case Next =>
      match FirstIndexOf(rs, id)
      case None => Step(rs, NotFound)
      case Some(i) => Step(rs[..i] + rs[i + 1..], NoContent)
  }

  /**
   * POST /repositories/:id/like: the first record with the identifier gets
   * one more like. A record without `likes` (one that was updated) is
   * answered with LikesNotANumber and left as it is.
   */
  function LikeStep(isUuid: string -> bool, rs: seq<Repository>, id: string): (s: Step)
    ensures !isUuid(id) ==> s == Step(rs, InvalidId)
    ensures isUuid(id) && NoMatch(rs, id) ==> s == Step(rs, NotFoundEmpty)
    ensures isUuid(id) && !NoMatch(rs, id) ==>
      var i := FirstIndexOf(rs, id).value;
      if rs[i].likes.None? then s == Step(rs, LikesNotANumber)
      else
        |s.store| == |rs| &&
        s.store[i] == rs[i].(likes := Some(rs[i].likes.value + 1)) &&
        (forall j :: 0 <= j < |rs| && j != i ==> s.store[j] == rs[j]) &&
        s.response == Ok(s.store[i])
  {
    match ValidateId(isUuid, id)
    case Reject(response) => Step(rs, response)
    case Next =>
      match FirstIndexOf(rs, id)
      case None => Step(rs, NotFoundEmpty)
      case Some(i) =>
        var repository := rs[i];
        match repository.likes
        case None => Step(rs, LikesNotANumber)
        case Some(n) =>
          var liked := repository.(likes := Some(n + 1));
          Step(rs[i := liked], Ok(liked))
  }
}
