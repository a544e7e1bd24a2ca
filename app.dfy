/**
 * The service's module-level `repositories` array and the five route
 * handlers that read and change it in place. Each handler is a method whose
 * new store and response are those of the matching step function.
 */
module App {
  import opened Wrappers
  import opened Repositories

  class RepositoryStore {
    /** The records, in insertion order. */
    var repositories: seq<Repository>

    /** The UUID syntax check the identifier gate uses, fixed for the process. */
    const isUuid: string -> bool

    /** The store starts empty when the process starts. */
    constructor (isUuid: string -> bool)
      ensures repositories == [] && this.isUuid == isUuid
    {
      repositories := [];
      this.isUuid := isUuid;
    }

    /** GET /repositories. */
    method List() returns (response: Response)
      ensures response == Listed(repositories)
    {
      response := Listed(repositories);
    }

    /** POST /repositories; `id` is the uuid the handler generates. */
    method Create(id: string, title: string, url: string, techs: seq<string>) returns (response: Response)
      modifies this
      ensures Step(repositories, response) == CreateStep(old(repositories), id, title, url, techs)
    {
      var repository := NewRepository(id, title, url, techs);
      repositories := repositories + [repository];
      response := Ok(repository);
    }

    /**
     * `findIndex(repository => repository.id === id)`: the position of the
     * first record with the identifier, or -1.
     */
    method FindIndex(id: string) returns (index: int)
      ensures -1 <= index < |repositories|
      ensures index == -1 <==> NoMatch(repositories, id)
      ensures index != -1 ==> IsFirstMatch(repositories, id, index)
      ensures index == -1 <==> FirstIndexOf(repositories, id).None?
      ensures index != -1 ==> FirstIndexOf(repositories, id) == Some(index)
    {
      index := 0;
      while index < |repositories|
        invariant 0 <= index <= |repositories|
        invariant forall j :: 0 <= j < index ==> repositories[j].id != id
      {
        if repositories[index].id == id {
          return;
        }
        index := index + 1;
      }
      index := -1;
    }

    /** PUT /repositories/:id, behind the identifier gate. */
    method Update(id: string, title: string, url: string, techs: seq<string>)
      returns (response: Response)
      modifies this
      ensures Step(repositories, response) == UpdateStep(isUuid, old(repositories), id, title, url, techs)
    {
      var gate := ValidateId(isUuid, id);
      if gate.Reject? {
        return gate.response;
      }
      var index := FindIndex(id);
      if index < 0 {
        return NotFound;
      }
      var repository := Repository(id, title, url, techs, None);
      repositories := repositories[index := repository];
      response := Ok(repository);
    }

    /** DELETE /repositories/:id, behind the identifier gate. */
    method Delete(id: string) returns (response: Response)
      modifies this
      ensures Step(repositories, response) == DeleteStep(isUuid, old(repositories), id)
    {
      var gate := ValidateId(isUuid, id);
      if gate.Reject? {
        return gate.response;
      }
      var index := FindIndex(id);
      if index < 0 {
        return NotFound;
      }
      repositories := repositories[..index] + repositories[index + 1..];
      response := NoContent;
    }

    /**
     * POST /repositories/:id/like, behind the identifier gate. The record
     * `find` hands back is the stored one, so the increment lands in its slot.
     */
    method Like(id: string) returns (response: Response)
      modifies this
      ensures Step(repositories, response) == LikeStep(isUuid, old(repositories), id)
    {
      var gate := ValidateId(isUuid, id);
      if gate.Reject? {
        return gate.response;
      }
      var index := FindIndex(id);
      if index < 0 {
        return NotFoundEmpty;
      }
      var repository := repositories[index];
      if repository.likes.None? {
        return LikesNotANumber;
      }
      repository := repository.(likes := Some(repository.likes.value + 1));
      repositories := repositories[index := repository];
      response := Ok(repository);
    }
  }
}
