# Repository store of a small CRUD service

The service keeps repository records (`id`, `title`, `url`, `techs`, `likes`)
in one module-level array and answers five routes: list, create, update,
delete and like. Update, delete and like sit behind an identifier gate
(`validateId`) that rejects route identifiers that are not UUIDs. This
project models that store and its handlers and proves what each handler does
to the store and what it answers.

- `wrappers.dfy`: the `Option` datatype.
- `repositories.dfy` (module `Repositories`): the record, the responses (one
  variant per HTTP answer, with `Status` and `ErrorMessage` giving the status
  code and the `error` text), the gate `ValidateId`, the first-match lookup
  `FirstIndexOf`, and one pure step function per handler. A step function
  maps the old store to the new store and the response.
- `app.dfy` (module `App`): class `RepositoryStore`. Its field
  `repositories: seq<Repository>` is the array, and it has one method per
  handler. `FindIndex` is the linear `findIndex` scan with its loop
  invariants. Each state-changing method is proved to produce exactly the
  store and response of its step function.
- `properties.dfy` (module `Properties`): lemmas that relate several requests.

The UUID check is a constant field `isUuid: string -> bool` of the store.
The constructor sets it, so every request to one store is judged by the same
predicate. It is left uninterpreted because its definition is not part of this
model. The generated
id of a new record is an argument of `Create`.

The update handler builds its replacement record without `likes`
(src/app.js:76-81). The comment at src/app.js:19-20 asks for only title, url
and techs to change, so likes should survive an update. The code does not do
that, and the model follows the code: `likes` is an `Option<nat>`, and update
stores `None`. `Properties.UpdateThenLike` shows what follows: a like after an
update finds no counter.

## Model

| member | source | states |
|---|---|---|
| `Repositories.ValidateId` | src/app.js:31-39 | the gate lets the request on exactly when the id is a UUID; otherwise it answers `InvalidId`, status 400 with "Invalid ID." |
| `Repositories.Status` | src/app.js:35-113 | the invalid-id and both not-found answers are 400, delete's success is 204, and list, create, update and like answers are 200 (including the like on a missing counter: the script stores NaN and answers 200 with the record, NaN serialised as null) |
| `Repositories.ErrorMessage` | src/app.js:35-94 | only the invalid-id answer ("Invalid ID.") and the update/delete not-found answer ("Repository not found.") carry an error body, and both are 400; the like's not-found answer has no body |
| `Repositories.NewRepository` | src/app.js:48-54 | the created record carries the given id, title, url and techs, and likes 0 |
| `Repositories.FirstIndexOf` | src/app.js:66 | reports the position of the first record whose id equals the parameter, and reports absence exactly when no record has that id |
| `Repositories.ListStep` | src/app.js:41-43 | list answers with the whole store and leaves it unchanged |
| `Repositories.CreateStep` | src/app.js:45-60 | create appends exactly one record `{id, title, url, techs, likes: 0}`; earlier records stay unchanged and in order; the response is the appended record |
| `Repositories.UpdateStep` | src/app.js:62-86 | a bad id answers `InvalidId` and an unknown id answers `NotFound`, both with the store unchanged; otherwise only the first matching slot becomes `{id, title, url, techs}` with no likes, the length is kept and the response is the stored record |
| `Repositories.DeleteStep` | src/app.js:88-100 | a bad id answers `InvalidId` and an unknown id answers `NotFound`, both with the store unchanged; otherwise the first match is removed, the length drops by one, the other records keep their order and the response is `NoContent` |
| `Repositories.LikeStep` | src/app.js:102-114 | a bad id answers `InvalidId` and an unknown id answers `NotFoundEmpty`, both with the store unchanged; a first match without a likes field answers `LikesNotANumber` with the store unchanged; otherwise the first match's likes rise by exactly one, its other fields and all other slots stay the same, and the response is the updated record |
| `App.RepositoryStore.constructor` | src/app.js:29 | the store starts empty, and its UUID check is fixed once for all requests |
| `App.RepositoryStore.List` | src/app.js:41-43 | answers with the current store and changes nothing |
| `App.RepositoryStore.FindIndex` | src/app.js:66 | returns the position of the first record with the id, or -1 exactly when there is none; agrees with `FirstIndexOf` |
| `App.RepositoryStore.Create` | src/app.js:45-60 | the new store and the response are those of `CreateStep` on the old store |
| `App.RepositoryStore.Update` | src/app.js:62-86 | the new store and the response are those of `UpdateStep` on the old store |
| `App.RepositoryStore.Delete` | src/app.js:88-100 | the new store and the response are those of `DeleteStep` on the old store |
| `App.RepositoryStore.Like` | src/app.js:102-114 | the new store and the response are those of `LikeStep` on the old store |
| `Properties.FirstMatchIsLookup` | src/app.js:66 | any first match is the position the lookup reports, so it is unique |
| `Properties.SameIdsSameLookup` | src/app.js:66 | two stores with the same ids slot by slot give the same lookup result for every id |
| `Properties.CreateThenLookup` | src/app.js:48-56 | after creating a record with a new id, the lookup finds that id at the end of the store |
| `Properties.UpdateKeepsLookup` | src/app.js:76-83 | update keeps every lookup result, so later updates, deletes and likes address the same records as before |
| `Properties.LikeKeepsLookup` | src/app.js:105-111 | like keeps every lookup result |
| `Properties.CreateKeepsUniqueIds` | src/app.js:48-56 | if the ids are distinct and the new id is not among them, the ids stay distinct after create |
| `Properties.UpdateKeepsUniqueIds` | src/app.js:76-83 | update keeps distinct ids distinct |
| `Properties.DeleteKeepsUniqueIds` | src/app.js:97 | delete keeps distinct ids distinct |
| `Properties.LikeKeepsUniqueIds` | src/app.js:111 | like keeps distinct ids distinct |
| `Properties.DeleteRemovesFound` | src/app.js:91-99 | delete takes away exactly one copy of the found record (a multiset equation); with distinct ids, that id is gone afterwards |
| `Properties.LikeStore` | src/app.js:105-113 | a like changes the store only when it finds a record with a counter, and then only by incrementing that one slot's likes |
| `Properties.LikeRepeatedly` | src/app.js:102-114 | `n` likes on a record with a counter raise it by exactly `n` and leave its other fields and all other records unchanged |
| `Properties.LikeLeavesOthers` | src/app.js:105-111 | a like on one id keeps the lookup of a different id, the record it finds, and whether a like on it would apply |
| `Properties.LikesCommute` | src/app.js:105-111 | likes on two ids result in the same store in either order |
| `Properties.UpdateThenLike` | src/app.js:76-83 | after a successful update, a like on the same id finds no likes field (`LikesNotANumber`), so update loses the counter |
| `Properties.ExampleSession` | src/app.js:45-114 | on an empty store: create gives likes 0, like gives likes 1, update answers with the new fields and no likes, delete answers `NoContent`, and the final list is empty |

## Left out

- Express setup, JSON body parsing, CORS and the module export (src/app.js:1-8, 116) are framework glue. Responses are a datatype. `Status` and `ErrorMessage` give their status codes and error texts; JSON serialisation is not modelled.
- `uuid()` (src/app.js:49) is random and comes from a library, so the new id is an argument of `Create`. The code never checks that ids are unique, and no method or step function assumes it. Uniqueness appears only as a hypothesis of lemmas: `Properties.CreateThenLookup` and `Properties.CreateKeepsUniqueIds` (a fresh new id), the `*KeepsUniqueIds` lemmas, and the second ensures of `Properties.DeleteRemovesFound`.
- `isUuid` (src/app.js:34) comes from a library whose definition is not part of this model. It is an uninterpreted parameter.
- Body fields are not validated by the code and may be missing or of any JSON type (src/app.js:46, 64). The model makes `title` and `url` strings and `techs` a `seq<string>`, so it does not represent missing or other-typed fields.
- `find` (src/app.js:105) returns a reference to the stored object. Its `likes++` (111) therefore changes the stored record. The model has value records, so `Like` uses the same first-match scan (`FindIndex`) and writes the incremented record back into that slot.
- App.RepositoryStore.Like, Repositories.LikeStep: on a record that an update left without `likes`, JavaScript evaluates `undefined++`, stores NaN and answers 200. The model answers `LikesNotANumber` and leaves the store unchanged, so it does not model the NaN value or later likes on it (floating point).
- Repositories.LikeStep, App.RepositoryStore.Like, Properties.LikeRepeatedly: the counter is an unbounded `nat`. In JavaScript it is a double, and once it reaches 2^53 (9007199254740992) `++` no longer changes it. "Rises by exactly one" and "rises by exactly `n`" therefore hold of the script only while the counter stays below 2^53.
- Concurrency is not modelled. Each request runs to completion before the next, so the handlers are modelled as sequential method calls.
