/** The profile table of the user service, and each handler on it as one step. */
module Profiles {
  import opened Options
  import opened Emails
  import opened Tokens

  type ProfileId = nat

  /** A row of `user_profiles`; `deleted` stands for a non-null `deletedAt`. */
  datatype Profile = Profile(
    id: ProfileId,
    userId: UserId,
    email: string,
    firstName: string,
    lastName: string,
    phone: Option<string>,
    bio: Option<string>,
    avatar: Option<string>,
    dateOfBirth: Option<string>,
    deleted: bool)

  type Table = map<ProfileId, Profile>

  datatype NewProfile = NewProfile(userId: UserId, email: string, firstName: string, lastName: string)

  datatype Changes = Changes(
    firstName: Option<string>,
    lastName: Option<string>,
    phone: Option<string>,
    bio: Option<string>,
    avatar: Option<string>,
    dateOfBirth: Option<string>)

  datatype Reply = View(profile: Profile) | Deleted | NotFound | Failed

  datatype Outcome = Outcome(table: Table, reply: Reply)

  predicate LiveFor(t: Table, id: ProfileId, userId: UserId) {
    id in t && !t[id].deleted && t[id].userId == userId
  }

  /** SELECT by userId; soft-deleted rows are hidden. */
  ghost function FindByUser(t: Table, userId: UserId): Option<Profile> {
    if exists id :: LiveFor(t, id, userId) then var id :| LiveFor(t, id, userId); Some(t[id]) else None
  }

  /** What the partial unique index on userId guarantees. */
  ghost predicate TableInv(t: Table) {
    && (forall id | id in t :: t[id].id == id)
    && (forall i, j, u | LiveFor(t, i, u) && LiveFor(t, j, u) :: i == j)
  }

  lemma FindByUserIsTheRow(t: Table, id: ProfileId, userId: UserId)
    requires TableInv(t) && LiveFor(t, id, userId)
    ensures FindByUser(t, userId) == Some(t[id])
  {
  }

  function FreshRow(id: ProfileId, p: NewProfile): Profile {
    Profile(id, p.userId, Normalize(p.email), Trim(p.firstName), Trim(p.lastName), None, None, None, None, false)
  }

  /** INSERT, atomic with the primary key and the partial unique index; None is a violation. */
  ghost function Insert(t: Table, row: Profile): Option<Table> {
    if row.id in t || exists id :: LiveFor(t, id, row.userId) then None else Some(t[row.id := row])
  }

  function ViewOrElse(row: Option<Profile>, otherwise: Reply): Reply {
    match row case Some(r) => View(r) case None => otherwise
  }

  ghost function Create(t: Table, p: NewProfile, id: ProfileId): Outcome {
    match FindByUser(t, p.userId)
    case Some(row) => Outcome(t, View(row))
    case None =>
      match Insert(t, FreshRow(id, p))
      case Some(t') => Outcome(t', View(FreshRow(id, p)))
      case None => Outcome(t, ViewOrElse(FindByUser(t, p.userId), Failed))
  }

  function OrElse(change: Option<string>, current: string): string {
    match change case Some(s) => s case None => current
  }

  function OrElseOpt(change: Option<string>, current: Option<string>): Option<string> {
    match change case Some(s) => Some(s) case None => current
  }

  function Trimmed(s: Option<string>): Option<string> {
    match s case Some(t) => Some(Trim(t)) case None => None
  }

  function Apply(row: Profile, c: Changes): Profile {
    row.(firstName := OrElse(Trimmed(c.firstName), row.firstName),
         lastName := OrElse(Trimmed(c.lastName), row.lastName),
         phone := OrElseOpt(c.phone, row.phone),
         bio := OrElseOpt(c.bio, row.bio),
         avatar := OrElseOpt(c.avatar, row.avatar),
         dateOfBirth := OrElseOpt(c.dateOfBirth, row.dateOfBirth))
  }

  ghost function Update(t: Table, userId: UserId, c: Changes): Outcome {
    match FindByUser(t, userId)
    case None => Outcome(t, NotFound)
    case Some(row) => Outcome(t[row.id := Apply(row, c)], View(Apply(row, c)))
  }

  ghost function Remove(t: Table, userId: UserId): Outcome {
    match FindByUser(t, userId)
    case None => Outcome(t, NotFound)
    case Some(row) => Outcome(t[row.id := row.(deleted := true)], Deleted)
  }

  function FindOne(t: Table, id: ProfileId): Reply {
    if id in t && !t[id].deleted then View(t[id]) else NotFound
  }

  /** Rows stay; owner and address of a row never change, deletion is final. */
  ghost predicate TableGrows(t: Table, t': Table) {
    forall id | id in t ::
      id in t' && t'[id].userId == t[id].userId && t'[id].email == t[id].email && (t[id].deleted ==> t'[id].deleted)
  }

  /** Creating is idempotent: it always leaves exactly one live row for the user, the one it answers with,
      and repeating it changes nothing and answers with the same row. */
  lemma CreateIsIdempotent(t: Table, p: NewProfile, id: ProfileId, again: NewProfile, id': ProfileId)
    requires TableInv(t) && id !in t && again.userId == p.userId
    ensures var o := Create(t, p, id);
            && TableInv(o.table) && TableGrows(t, o.table)
            && o.reply.View? && LiveFor(o.table, o.reply.profile.id, p.userId)
            && o.table[o.reply.profile.id] == o.reply.profile
            && Create(o.table, again, id') == o
  {
    var o := Create(t, p, id);
    if FindByUser(t, p.userId).None? {
      assert forall i :: !LiveFor(t, i, p.userId);
      assert LiveFor(o.table, id, p.userId);
      forall i, j, u | LiveFor(o.table, i, u) && LiveFor(o.table, j, u) ensures i == j {
        assert i != id ==> LiveFor(t, i, u);
        assert j != id ==> LiveFor(t, j, u);
      }
      FindByUserIsTheRow(o.table, id, p.userId);
    } else {
      var row :| LiveFor(t, row, p.userId) && FindByUser(t, p.userId) == Some(t[row]);
    }
  }

  /** What a creation stores and answers. If the user has a live row it answers that one and changes nothing; if not,
      it adds a row with the drawn id, the given names and address in their stored form and nothing else filled in. */
  lemma CreateExactly(t: Table, p: NewProfile, id: ProfileId)
    requires TableInv(t)
    ensures forall i | LiveFor(t, i, p.userId) :: Create(t, p, id) == Outcome(t, View(t[i]))
    ensures (forall i :: !LiveFor(t, i, p.userId)) && id in t ==> Create(t, p, id) == Outcome(t, Failed)
    ensures (forall i :: !LiveFor(t, i, p.userId)) && id !in t ==>
              var o := Create(t, p, id);
              && o.reply.View? && o.table == t[id := o.reply.profile]
              && var row := o.reply.profile;
                 && row.id == id && row.userId == p.userId && row.email == Normalize(p.email)
                 && row.firstName == Trim(p.firstName) && row.lastName == Trim(p.lastName)
                 && row.phone == None && row.bio == None && row.avatar == None && row.dateOfBirth == None
                 && !row.deleted
  {
    forall i | LiveFor(t, i, p.userId) ensures Create(t, p, id) == Outcome(t, View(t[i])) {
      FindByUserIsTheRow(t, i, p.userId);
    }
  }

  /** What a removal does: the user's live row is marked deleted and nothing else about it or any other row changes; a
      user without a live row is not found. */
  lemma RemoveExactly(t: Table, userId: UserId)
    requires TableInv(t)
    ensures forall i | LiveFor(t, i, userId) :: Remove(t, userId) == Outcome(t[i := t[i].(deleted := true)], Deleted)
    ensures (forall i :: !LiveFor(t, i, userId)) ==> Remove(t, userId) == Outcome(t, NotFound)
  {
    forall i | LiveFor(t, i, userId) ensures Remove(t, userId) == Outcome(t[i := t[i].(deleted := true)], Deleted) {
      FindByUserIsTheRow(t, i, userId);
    }
  }

  /** A look-up by profile id shows a live row as it is and hides a deleted one. */
  lemma FindOneExactly(t: Table, id: ProfileId)
    requires TableInv(t)
    ensures id in t && !t[id].deleted ==> FindOne(t, id) == View(t[id])
    ensures id !in t || t[id].deleted ==> FindOne(t, id) == NotFound
  {
  }

  lemma CreateKeeps(t: Table, p: NewProfile, id: ProfileId)
    requires TableInv(t)
    ensures var o := Create(t, p, id); TableInv(o.table) && TableGrows(t, o.table)
    ensures forall i | i in Create(t, p, id).table && i !in t ::
              Create(t, p, id).table[i].userId == p.userId && Create(t, p, id).table[i].email == Normalize(p.email)
              && !Create(t, p, id).table[i].deleted
    ensures forall i | i in t :: Create(t, p, id).table[i] == t[i]
    ensures Create(t, p, id).reply.View? ==>
              exists i :: i in Create(t, p, id).table && Create(t, p, id).table[i].userId == p.userId
  {
    if id !in t {
      CreateIsIdempotent(t, p, id, p, id);
    }
  }

  lemma UpdateKeeps(t: Table, userId: UserId, c: Changes)
    requires TableInv(t)
    ensures var o := Update(t, userId, c); TableInv(o.table) && TableGrows(t, o.table) && TableGrows(o.table, t)
    ensures Update(t, userId, c).table.Keys == t.Keys
  {
    var t' := Update(t, userId, c).table;
    forall i, j, u | LiveFor(t', i, u) && LiveFor(t', j, u) ensures i == j {
      assert LiveFor(t, i, u) && LiveFor(t, j, u);
    }
  }

  /** An update changes the given fields of the user's one live row, names trimmed, and nothing else; giving the
      same changes again changes nothing. */
  lemma UpdateChangesWhatIsGiven(t: Table, userId: UserId, c: Changes, row: ProfileId)
    requires TableInv(t) && LiveFor(t, row, userId)
    ensures var o := Update(t, userId, c);
            && o.reply.View? && row in o.table && o.reply.profile == o.table[row]
            && (forall i | i in t && i != row :: i in o.table && o.table[i] == t[i])
            && o.table[row].email == t[row].email && o.table[row].userId == userId && !o.table[row].deleted
            && o.table[row].id == t[row].id
            && (c.firstName == None ==> o.table[row].firstName == t[row].firstName)
            && (c.firstName.Some? ==> o.table[row].firstName == Trim(c.firstName.value))
            && (c.lastName == None ==> o.table[row].lastName == t[row].lastName)
            && (c.lastName.Some? ==> o.table[row].lastName == Trim(c.lastName.value))
            && o.table[row].phone == (if c.phone.Some? then c.phone else t[row].phone)
            && o.table[row].bio == (if c.bio.Some? then c.bio else t[row].bio)
            && o.table[row].avatar == (if c.avatar.Some? then c.avatar else t[row].avatar)
            && o.table[row].dateOfBirth == (if c.dateOfBirth.Some? then c.dateOfBirth else t[row].dateOfBirth)
            && Update(o.table, userId, c) == o
  {
    FindByUserIsTheRow(t, row, userId);
    UpdateKeeps(t, userId, c);
    var o := Update(t, userId, c);
    assert LiveFor(o.table, row, userId);
    FindByUserIsTheRow(o.table, row, userId);
    assert o.table[row := o.table[row]] == o.table;
  }

  /** A user without a live row has nothing to update. */
  lemma UpdateNeedsALiveRow(t: Table, userId: UserId, c: Changes)
    requires forall i :: !LiveFor(t, i, userId)
    ensures Update(t, userId, c) == Outcome(t, NotFound)
  {
  }

  lemma RemoveKeeps(t: Table, userId: UserId)
    requires TableInv(t)
    ensures var o := Remove(t, userId); TableInv(o.table) && TableGrows(t, o.table) && o.table.Keys == t.Keys
    ensures forall i | i in t && Remove(t, userId).table[i].deleted && !t[i].deleted :: t[i].userId == userId
    ensures !exists i :: LiveFor(Remove(t, userId).table, i, userId)
  {
    var t' := Remove(t, userId).table;
    forall i, j, u | LiveFor(t', i, u) && LiveFor(t', j, u) ensures i == j {
      assert LiveFor(t, i, u) && LiveFor(t, j, u);
    }
    forall i ensures !LiveFor(t', i, userId) {
      if LiveFor(t', i, userId) {
        assert LiveFor(t, i, userId);
        FindByUserIsTheRow(t, i, userId);
      }
    }
  }
}
