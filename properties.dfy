/**
 * Properties of the handlers that relate several requests or hold for every
 * store: which record a lookup addresses, what stays unique, what repeated
 * likes add up to, and where the update handler loses the like counter.
 */
module Properties {
  import opened Wrappers
  import opened Repositories

  /** The first match is the one the lookup reports. */
  lemma FirstMatchIsLookup(rs: seq<Repository>, id: string, i: int)
    requires IsFirstMatch(rs, id, i)
    ensures FirstIndexOf(rs, id) == Some(i)
  {
  }

  /** Two stores with the same identifiers slot by slot answer every lookup alike. */
  lemma SameIdsSameLookup(a: seq<Repository>, b: seq<Repository>, x: string)
    requires |a| == |b|
    requires forall j :: 0 <= j < |a| ==> a[j].id == b[j].id
    ensures FirstIndexOf(a, x) == FirstIndexOf(b, x)
  {
  }

  /** After a create with a new identifier, that identifier is found at the end. */
  lemma CreateThenLookup(rs: seq<Repository>, id: string, title: string, url: string, techs: seq<string>)
    requires NoMatch(rs, id)
    ensures FirstIndexOf(CreateStep(rs, id, title, url, techs).store, id) == Some(|rs|)
  {
  }

  /** Update keeps every identifier in its slot, so later lookups address the same records. */
  lemma UpdateKeepsLookup(isUuid: string -> bool, rs: seq<Repository>, id: string,
                          title: string, url: string, techs: seq<string>, x: string)
    ensures FirstIndexOf(UpdateStep(isUuid, rs, id, title, url, techs).store, x) == FirstIndexOf(rs, x)
  {
    var s := UpdateStep(isUuid, rs, id, title, url, techs).store;
    if isUuid(id) && !NoMatch(rs, id) {
      SameIdsSameLookup(s, rs, x);
    }
  }

  /** Like keeps every identifier in its slot, so later lookups address the same records. */
  lemma LikeKeepsLookup(isUuid: string -> bool, rs: seq<Repository>, id: string, x: string)
    ensures FirstIndexOf(LikeStep(isUuid, rs, id).store, x) == FirstIndexOf(rs, x)
  {
    var s := LikeStep(isUuid, rs, id).store;
    if isUuid(id) && !NoMatch(rs, id) {
      SameIdsSameLookup(s, rs, x);
    }
  }

  /** Create keeps identifiers unique when the generated one is new. */
  lemma CreateKeepsUniqueIds(rs: seq<Repository>, id: string, title: string, url: string, techs: seq<string>)
    requires UniqueIds(rs) && NoMatch(rs, id)
    ensures UniqueIds(CreateStep(rs, id, title, url, techs).store)
  {
  }

  /** Update keeps identifiers unique. */
  lemma UpdateKeepsUniqueIds(isUuid: string -> bool, rs: seq<Repository>, id: string,
                             title: string, url: string, techs: seq<string>)
    requires UniqueIds(rs)
    ensures UniqueIds(UpdateStep(isUuid, rs, id, title, url, techs).store)
  {
  }

  /** Delete keeps identifiers unique. */
  lemma DeleteKeepsUniqueIds(isUuid: string -> bool, rs: seq<Repository>, id: string)
    requires UniqueIds(rs)
    ensures UniqueIds(DeleteStep(isUuid, rs, id).store)
  {
  }

  /** Like keeps identifiers unique. */
  lemma LikeKeepsUniqueIds(isUuid: string -> bool, rs: seq<Repository>, id: string)
    requires UniqueIds(rs)
    ensures UniqueIds(LikeStep(isUuid, rs, id).store)
  {
  }

  /**
   * Delete takes out exactly one record, the one found: the store loses one
   * copy of it and nothing else, and with unique identifiers the identifier
   * is gone afterwards.
   */
  lemma DeleteRemovesFound(isUuid: string -> bool, rs: seq<Repository>, id: string, i: nat)
    requires isUuid(id) && FirstIndexOf(rs, id) == Some(i)
    ensures multiset(DeleteStep(isUuid, rs, id).store) + multiset{rs[i]} == multiset(rs)
    ensures UniqueIds(rs) ==> NoMatch(DeleteStep(isUuid, rs, id).store, id)
  {
    var s := DeleteStep(isUuid, rs, id).store;
    assert s == rs[..i] + rs[i + 1..];
    assert rs == rs[..i] + [rs[i]] + rs[i + 1..];
  }

  /** The store after `n` like requests for the same identifier. */
  function LikeTimes(isUuid: string -> bool, rs: seq<Repository>, id: string, n: nat): seq<Repository>
    decreases n
  {
    if n == 0 then rs else LikeTimes(isUuid, LikeStep(isUuid, rs, id).store, id, n - 1)
  }

  /** `n` likes on a record that has a counter raise it by exactly `n` and change nothing else. */
  lemma {:induction false} LikeRepeatedly(isUuid: string -> bool, rs: seq<Repository>, id: string, n: nat, i: nat)
    requires isUuid(id) && FirstIndexOf(rs, id) == Some(i) && rs[i].likes.Some?
    ensures |LikeTimes(isUuid, rs, id, n)| == |rs|
    ensures LikeTimes(isUuid, rs, id, n)[i] == rs[i].(likes := Some(rs[i].likes.value + n))
    ensures forall j :: 0 <= j < |rs| && j != i ==> LikeTimes(isUuid, rs, id, n)[j] == rs[j]
    decreases n
  {
    if n > 0 {
      var s := LikeStep(isUuid, rs, id).store;
      LikeKeepsLookup(isUuid, rs, id, id);
      LikeRepeatedly(isUuid, s, id, n - 1, i);
    }
  }

  /** A like changes the store exactly when it finds a record that has a counter. */
  ghost predicate LikeApplies(isUuid: string -> bool, rs: seq<Repository>, id: string) {
    isUuid(id) && FirstIndexOf(rs, id).Some? && rs[FirstIndexOf(rs, id).value].likes.Some?
  }

  /** The store a like leaves behind, written as one slot update. */
  lemma LikeStore(isUuid: string -> bool, rs: seq<Repository>, id: string)
    ensures !LikeApplies(isUuid, rs, id) ==> LikeStep(isUuid, rs, id).store == rs
    ensures LikeApplies(isUuid, rs, id) ==>
      var i := FirstIndexOf(rs, id).value;
      LikeStep(isUuid, rs, id).store == rs[i := rs[i].(likes := Some(rs[i].likes.value + 1))]
  {
  }

  /** A like on one identifier leaves the record another identifier finds as it was. */
  lemma LikeLeavesOthers(isUuid: string -> bool, rs: seq<Repository>, a: string, b: string)
    requires a != b
    ensures var sa := LikeStep(isUuid, rs, a).store;
      FirstIndexOf(sa, b) == FirstIndexOf(rs, b) &&
      (FirstIndexOf(rs, b).Some? ==> sa[FirstIndexOf(rs, b).value] == rs[FirstIndexOf(rs, b).value]) &&
      LikeApplies(isUuid, sa, b) == LikeApplies(isUuid, rs, b)
  {
    LikeKeepsLookup(isUuid, rs, a, b);
    LikeStore(isUuid, rs, a);
  }

  /** Likes for two different identifiers lead to the same store in either order. */
  lemma LikesCommute(isUuid: string -> bool, rs: seq<Repository>, a: string, b: string)
    ensures LikeStep(isUuid, LikeStep(isUuid, rs, a).store, b).store
         == LikeStep(isUuid, LikeStep(isUuid, rs, b).store, a).store
  {
    if a != b {
      var sa, sb := LikeStep(isUuid, rs, a).store, LikeStep(isUuid, rs, b).store;
      LikeLeavesOthers(isUuid, rs, a, b);
      LikeLeavesOthers(isUuid, rs, b, a);
      LikeStore(isUuid, rs, a);
      LikeStore(isUuid, rs, b);
      LikeStore(isUuid, sa, b);
      LikeStore(isUuid, sb, a);
    }
  }

  /**
   * The update handler stores a record without `likes`, so a like that
   * follows an update of the same record meets `undefined`: the counter is
   * lost even though only title, url and techs were meant to change.
   */
  lemma UpdateThenLike(isUuid: string -> bool, rs: seq<Repository>, id: string,
                       title: string, url: string, techs: seq<string>)
    requires isUuid(id) && !NoMatch(rs, id)
    ensures var s := UpdateStep(isUuid, rs, id, title, url, techs).store;
            LikeStep(isUuid, s, id) == Step(s, LikesNotANumber)
  {
    UpdateKeepsLookup(isUuid, rs, id, title, url, techs, id);
  }

  /**
   * A session on an empty store: create, like, update, delete, list. The
   * created record starts at zero likes, the like brings it to one, the
   * update answers with the new fields and the final list is empty.
   */
  lemma ExampleSession(isUuid: string -> bool, id: string, title: string, url: string, techs: seq<string>,
                       title2: string, url2: string, techs2: seq<string>)
    requires isUuid(id)
    ensures var created := CreateStep([], id, title, url, techs);
            var liked := LikeStep(isUuid, created.store, id);
            var updated := UpdateStep(isUuid, liked.store, id, title2, url2, techs2);
            var deleted := DeleteStep(isUuid, updated.store, id);
            created.response == Ok(Repository(id, title, url, techs, Some(0))) &&
            liked.response == Ok(Repository(id, title, url, techs, Some(1))) &&
            updated.response == Ok(Repository(id, title2, url2, techs2, None)) &&
            deleted.response == NoContent &&
            ListStep(deleted.store).response == Listed([])
  {
    var created := CreateStep([], id, title, url, techs);
    CreateThenLookup([], id, title, url, techs);
    var liked := LikeStep(isUuid, created.store, id);
    LikeKeepsLookup(isUuid, created.store, id, id);
    var updated := UpdateStep(isUuid, liked.store, id, title2, url2, techs2);
    UpdateKeepsLookup(isUuid, liked.store, id, title2, url2, techs2, id);
  }
}
