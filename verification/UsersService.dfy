/** The user service as an object over its profile table. */
module UsersService {
  import opened Options
  import opened Tokens
  import opened Pagination
  import Profiles
  import opened P = Profiles

  class UsersService {
    var profiles: Table

    ghost predicate Valid()
      reads this
    {
      TableInv(profiles)
    }

    constructor ()
      ensures Valid() && profiles == map[]
    {
      profiles := map[];
    }

    method FindByUser(userId: UserId) returns (row: Option<Profile>)
      requires Valid()
      ensures row == Profiles.FindByUser(profiles, userId)
      ensures row.Some? ==> row.value.id in profiles && profiles[row.value.id] == row.value
    {
      row := None;
      if id :| id in profiles && !profiles[id].deleted && profiles[id].userId == userId {
        FindByUserIsTheRow(profiles, id, userId);
        row := Some(profiles[id]);
      } else {
        assert forall id :: !LiveFor(profiles, id, userId);
      }
    }

    /** The look-up, the INSERT and, should that fail, the second look-up. */
    method CreateProfile(p: NewProfile, id: ProfileId) returns (reply: Reply)
      requires Valid()
      modifies this
      ensures Valid()
      ensures Outcome(profiles, reply) == Create(old(profiles), p, id)
    {
      CreateKeeps(profiles, p, id);
      var existing := FindByUser(p.userId);
      if existing.Some? {
        return View(existing.value);
      }
      var row := FreshRow(id, p);
      if id in profiles {
        var again := FindByUser(p.userId);
        return ViewOrElse(again, Failed);
      }
      assert forall i :: !LiveFor(profiles, i, p.userId);
      profiles := profiles[id := row];
      return View(row);
    }

    method Update(userId: UserId, c: Changes) returns (reply: Reply)
      requires Valid()
      modifies this
      ensures Valid()
      ensures Outcome(profiles, reply) == Profiles.Update(old(profiles), userId, c)
    {
      UpdateKeeps(profiles, userId, c);
      var found := FindByUser(userId);
      if found.None? {
        return NotFound;
      }
      var row := Apply(found.value, c);
      profiles := profiles[row.id := row];
      return View(row);
    }

    method Remove(userId: UserId) returns (reply: Reply)
      requires Valid()
      modifies this
      ensures Valid()
      ensures Outcome(profiles, reply) == Profiles.Remove(old(profiles), userId)
    {
      RemoveKeeps(profiles, userId);
      var found := FindByUser(userId);
      if found.None? {
        return NotFound;
      }
      profiles := profiles[found.value.id := found.value.(deleted := true)];
      return Deleted;
    }

    /** The ids of the live profiles that match the search, each once, in the order of the query. */
    ghost predicate Lists(order: seq<ProfileId>, matches: Profile -> bool)
      reads this
    {
      && (forall i, j | 0 <= i < j < |order| :: order[i] != order[j])
      && (forall id :: id in order <==> id in profiles && !profiles[id].deleted && matches(profiles[id]))
    }

    /** findAll over a listing the database has filtered and ordered: the page shows consecutive rows of it,
        and reading every page shows every matching live profile exactly once. */
    method FindAll(order: seq<ProfileId>, matches: Profile -> bool, page: nat, limit: nat)
        returns (result: Paginated<Profile>)
      requires Valid() && Lists(order, matches) && page >= 1 && limit >= 1
      ensures |result.items| == |PageOf(order, page, limit)| <= limit
      ensures forall i | 0 <= i < |result.items| ::
                && PageOf(order, page, limit)[i] in profiles
                && result.items[i] == profiles[PageOf(order, page, limit)[i]]
                && !result.items[i].deleted && matches(result.items[i])
      ensures Walk(order, result.meta.totalPages, limit) == order
      ensures forall pages: nat :: |order| <= pages * limit <==> result.meta.totalPages <= pages
      ensures result.meta.hasNextPage <==> PageOf(order, page + 1, limit) != []
      ensures result.meta.page == page && result.meta.limit == limit && result.meta.total == |order|
      ensures result.meta.hasPreviousPage <==> page > 1
    {
      var st := GetSkipTake(page, limit);
      PageIsSlice(order, page, limit);
      var ids := order[Min(st.skip, |order|)..Min(st.skip + st.take, |order|)];
      assert forall i | 0 <= i < |ids| :: ids[i] in order;
      var items := seq(|ids|, i requires 0 <= i < |ids| && ids[i] in profiles reads this => profiles[ids[i]]);
      result := BuildPaginatedResult(items, |order|, page, limit);
      assert result.meta.totalPages == TotalPages(|order|, limit);
      PagesPartition(order, page, limit);
      AnnouncedPagesAreLeast(|order|, limit);
    }
  }
}
