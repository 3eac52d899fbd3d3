/** The gateway's multi-service operations over an unreliable bus. A message once sent may be delivered at
    any later time, any number of times or never; its reply may be heard or lost; a caller may give up
    waiting at any moment. The auth service meanwhile serves any other calls. */
module Sagas {
  import opened Options
  import opened Emails
  import opened Tokens
  import opened AuthStore
  import Auth = AuthHandlers
  import opened AuthHistory
  import opened AuthEffects
  import Users = Profiles
  import opened Profiles

  type Pid = nat

  datatype Dto = Dto(email: string, password: string, firstName: string, lastName: string)

  datatype Body =
    | RegisterAccount(dto: Dto)
    | DeactivateAccount(account: UserId)
    | CreateProfile(profile: NewProfile)
    | FindProfile(profileId: ProfileId)
    | UpdateProfile(owner: UserId, changes: Changes)
    | RemoveProfile(removed: UserId)

  datatype Message = Message(from: Pid, body: Body)

  datatype Answer = FromAuth(auth: Auth.Reply) | FromUsers(users: Users.Reply)

  datatype Delivery = Delivery(message: Message, answer: Answer)

  /** What a gateway operation is waiting for, or how it ended. */
  datatype Saga =
    // AuthController.register
    | Registering(dto: Dto)
    | Profiling(dto: Dto, account: Auth.UserView)
    | Compensating(account: Auth.UserView)
    | Registered(account: Auth.UserView)
    | Compensated(account: Auth.UserView)
    | Uncompensated(account: Auth.UserView)
    // UsersController.remove
    | Finding(profileId: ProfileId)
    | Deactivating(userId: UserId)
    | Removing(userId: UserId)
    | Removed(userId: UserId)
    // UsersController.updateMe and update
    | FindingToUpdate(profileId: ProfileId, changes: Changes)
    | Updating(userId: UserId, changes: Changes)
    | Updated
    // any of them, answered with an error before anything had to be undone
    | Refused

  /** What an operation was asked to do. */
  datatype Task =
    | ToRegister(dto: Dto)
    | ToRemove(profileId: ProfileId)
    | ToUpdateMe(userId: UserId, changes: Changes)
    | ToUpdate(profileId: ProfileId, changes: Changes)

  /** `asked` is a record of the operations' tasks, for the specification; no step reads it. */
  datatype State = State(
    auth: System,
    profiles: Table,
    sent: set<Message>,
    replies: set<Delivery>,
    sagas: map<Pid, Saga>,
    asked: map<Pid, Task>)

  const INITIAL := State(System(EMPTY_DB, 0), map[], {}, {}, map[], map[])

  datatype Action =
    | StartRegister(pid: Pid, dto: Dto)
    | StartRemove(pid: Pid, profileId: ProfileId)
    | StartUpdateMe(pid: Pid, userId: UserId, changes: Changes)
    | StartUpdate(pid: Pid, profileId: ProfileId, changes: Changes)
    | Deliver(message: Message, id: nat, hashed: string, waits: Waits)
    | Hear(pid: Pid, answer: Answer)
    | GiveUp(pid: Pid)
    | Elsewhere(call: Call)

  /** The message an operation is waiting to hear about. */
  function Awaited(p: Pid, saga: Saga): Option<Message> {
    match saga
    case Registering(dto) => Some(Message(p, RegisterAccount(dto)))
    case Profiling(dto, account) =>
      Some(Message(p, CreateProfile(NewProfile(account.id, account.email, dto.firstName, dto.lastName))))
    case Compensating(account) => Some(Message(p, DeactivateAccount(account.id)))
    case Finding(profileId) => Some(Message(p, FindProfile(profileId)))
    case Deactivating(userId) => Some(Message(p, DeactivateAccount(userId)))
    case Removing(userId) => Some(Message(p, RemoveProfile(userId)))
    case FindingToUpdate(profileId, _) => Some(Message(p, FindProfile(profileId)))
    case Updating(userId, changes) => Some(Message(p, UpdateProfile(userId, changes)))
    case _ => None
  }

  /** Where a reply takes an operation. */
  function AfterReply(saga: Saga, answer: Answer): Saga {
    match (saga, answer)
    case (Registering(dto), FromAuth(Session(account, _))) => Profiling(dto, account)
    case (Profiling(_, account), FromUsers(View(_))) => Registered(account)
    case (Compensating(account), FromAuth(Ack)) => Compensated(account)
    case (Finding(_), FromUsers(View(row))) => Deactivating(row.userId)
    case (Deactivating(userId), FromAuth(Ack)) => Removing(userId)
    case (Removing(userId), FromUsers(Deleted)) => Removed(userId)
    case (FindingToUpdate(_, changes), FromUsers(View(row))) => Updating(row.userId, changes)
    case (Updating(_, _), FromUsers(View(_))) => Updated
    case _ => AfterError(saga)
  }

  /** Where an error reply or a time-out takes an operation: only a failed profile creation is compensated. */
  function AfterError(saga: Saga): Saga {
    match saga
    case Profiling(_, account) => Compensating(account)
    case Compensating(account) => Uncompensated(account)
    case _ => Refused
  }

  /** Enter a stage and send the message it waits for. */
  function Enter(s: State, p: Pid, saga: Saga): State {
    var s1 := s.(sagas := s.sagas[p := saga]);
    match Awaited(p, saga)
    case None => s1
    case Some(m) => s1.(sent := s1.sent + {m})
  }

  /** A request arrives at the gateway. */
  function Begin(s: State, p: Pid, task: Task, saga: Saga): State {
    if p in s.sagas then s else Enter(s.(asked := s.asked[p := task]), p, saga)
  }

  /** A service handles one delivery. */
  ghost function Handle(cfg: Config, s: State, m: Message, id: nat, hashed: string, waits: Waits): State {
    match m.body
    case RegisterAccount(dto) =>
      var call := Call(DoRegister(dto.email, hashed, id), waits);
      AuthHandles(cfg, s, m, call)
    case DeactivateAccount(account) => AuthHandles(cfg, s, m, Call(DoDeactivate(account), waits))
    case CreateProfile(profile) => UsersHandle(s, m, Users.Create(s.profiles, profile, id))
    case FindProfile(profileId) => UsersHandle(s, m, Users.Outcome(s.profiles, FindOne(s.profiles, profileId)))
    case UpdateProfile(owner, changes) => UsersHandle(s, m, Users.Update(s.profiles, owner, changes))
    case RemoveProfile(removed) => UsersHandle(s, m, Users.Remove(s.profiles, removed))
  }

  ghost function AuthHandles(cfg: Config, s: State, m: Message, call: Call): State {
    s.(auth := Next(cfg, s.auth, call),
       replies := s.replies + {Delivery(m, FromAuth(Serve(cfg, s.auth, call).reply))})
  }

  function UsersHandle(s: State, m: Message, o: Users.Outcome): State {
    s.(profiles := o.table, replies := s.replies + {Delivery(m, FromUsers(o.reply))})
  }

  ghost function Step(cfg: Config, s: State, a: Action): State {
    match a
    case StartRegister(p, dto) => Begin(s, p, ToRegister(dto), Registering(dto))
    case StartRemove(p, profileId) => Begin(s, p, ToRemove(profileId), Finding(profileId))
    case StartUpdateMe(p, userId, changes) => Begin(s, p, ToUpdateMe(userId, changes), Updating(userId, changes))
    case StartUpdate(p, profileId, changes) =>
      Begin(s, p, ToUpdate(profileId, changes), FindingToUpdate(profileId, changes))
    case Deliver(m, id, hashed, waits) => if m in s.sent then Handle(cfg, s, m, id, hashed, waits) else s
    case Hear(p, answer) =>
      if p in s.sagas && Awaited(p, s.sagas[p]).Some? && Delivery(Awaited(p, s.sagas[p]).value, answer) in s.replies
      then Enter(s, p, AfterReply(s.sagas[p], answer))
      else s
    case GiveUp(p) =>
      if p in s.sagas && Awaited(p, s.sagas[p]).Some? then Enter(s, p, AfterError(s.sagas[p])) else s
    case Elsewhere(call) => s.(auth := Next(cfg, s.auth, call))
  }

  ghost function Exec(cfg: Config, s: State, schedule: seq<Action>): State
    decreases |schedule|
  {
    if schedule == [] then s else Exec(cfg, Step(cfg, s, schedule[0]), schedule[1..])
  }

  // ----- the invariant -----

  predicate Known(db: Db, id: UserId, email: string) {
    id in db.users && db.users[id].email == email
  }

  /** The account is inactive, soft-deleted and without a usable refresh token. */
  ghost predicate Gone(db: Db, id: UserId) {
    Auth.Dead(db, id) && Sessions(db, id) == 0
  }

  predicate OwnedBy(t: Table, i: ProfileId, id: UserId) {
    i in t && t[i].userId == id
  }

  predicate Asked(s: State, p: Pid, task: Task) {
    p in s.asked && s.asked[p] == task
  }

  /** The reply that told registration p that its account is there. */
  predicate TellsSession(d: Delivery, p: Pid, dto: Dto, account: Auth.UserView) {
    && d.message == Message(p, RegisterAccount(dto))
    && d.answer.FromAuth? && d.answer.auth.Session? && d.answer.auth.user == account
  }

  ghost predicate HeardSession(s: State, p: Pid, dto: Dto, account: Auth.UserView) {
    exists d :: d in s.replies && TellsSession(d, p, dto, account)
  }

  /** The account is one that registration p has created, for the address it was asked to register. */
  ghost predicate OwnAccount(s: State, p: Pid, dto: Dto, account: Auth.UserView) {
    && Asked(s, p, ToRegister(dto)) && HeardSession(s, p, dto, account)
    && Known(s.auth.db, account.id, account.email) && account.email == Normalize(dto.email)
  }

  predicate CompensationSent(s: State, p: Pid, account: Auth.UserView) {
    Message(p, DeactivateAccount(account.id)) in s.sent
  }

  /** A name is the one a creation asked for, or one that an update of the user has asked for. */
  ghost predicate FirstNameAskedFor(s: State, owner: UserId, name: string, created: string) {
    name == Trim(created)
    || exists m :: m in s.sent && m.body.UpdateProfile? && m.body.owner == owner
                   && m.body.changes.firstName.Some? && name == Trim(m.body.changes.firstName.value)
  }

  ghost predicate LastNameAskedFor(s: State, owner: UserId, name: string, created: string) {
    name == Trim(created)
    || exists m :: m in s.sent && m.body.UpdateProfile? && m.body.owner == owner
                   && m.body.changes.lastName.Some? && name == Trim(m.body.changes.lastName.value)
  }

  /** Message m asked for profile row i to be created. */
  ghost predicate CreatedBy(s: State, i: ProfileId, m: Message) {
    && m in s.sent && m.body.CreateProfile? && OwnedBy(s.profiles, i, m.body.profile.userId)
    && FirstNameAskedFor(s, s.profiles[i].userId, s.profiles[i].firstName, m.body.profile.firstName)
    && LastNameAskedFor(s, s.profiles[i].userId, s.profiles[i].lastName, m.body.profile.lastName)
  }

  ghost predicate GoodProfile(s: State, i: ProfileId) {
    && i in s.profiles
    && Known(s.auth.db, s.profiles[i].userId, s.profiles[i].email)
    && (s.profiles[i].deleted ==> Gone(s.auth.db, s.profiles[i].userId))
    && exists m :: CreatedBy(s, i, m)
  }

  ghost predicate GoodMessage(s: State, m: Message) {
    m.from in s.asked &&
    var task := s.asked[m.from];
    match m.body
    case RegisterAccount(dto) => task == ToRegister(dto)
    case CreateProfile(profile) =>
      && task.ToRegister?
      && profile.firstName == task.dto.firstName && profile.lastName == task.dto.lastName
      && exists account :: OwnAccount(s, m.from, task.dto, account)
                           && account.id == profile.userId && account.email == profile.email
    case DeactivateAccount(id) =>
      if task.ToRegister? then exists account :: OwnAccount(s, m.from, task.dto, account) && account.id == id
      else task.ToRemove? && OwnedBy(s.profiles, task.profileId, id)
    case FindProfile(profileId) => (task.ToRemove? || task.ToUpdate?) && task.profileId == profileId
    case UpdateProfile(owner, changes) =>
      || task == ToUpdateMe(owner, changes)
      || (task.ToUpdate? && task.changes == changes && OwnedBy(s.profiles, task.profileId, owner))
    case RemoveProfile(removed) =>
      task.ToRemove? && OwnedBy(s.profiles, task.profileId, removed) && Gone(s.auth.db, removed)
  }

  /** The row shows every change that was given. */
  predicate Shows(row: Profile, c: Changes) {
    && (c.firstName.Some? ==> row.firstName == Trim(c.firstName.value))
    && (c.lastName.Some? ==> row.lastName == Trim(c.lastName.value))
    && (c.phone.Some? ==> row.phone == c.phone)
    && (c.bio.Some? ==> row.bio == c.bio)
    && (c.avatar.Some? ==> row.avatar == c.avatar)
    && (c.dateOfBirth.Some? ==> row.dateOfBirth == c.dateOfBirth)
  }

  ghost predicate GoodReply(s: State, d: Delivery) {
    match (d.message.body, d.answer)
    case (RegisterAccount(dto), FromAuth(Session(account, _))) =>
      Known(s.auth.db, account.id, account.email) && account.email == Normalize(dto.email)
    case (CreateProfile(profile), FromUsers(View(row))) => OwnedBy(s.profiles, row.id, profile.userId)
    case (DeactivateAccount(account), FromAuth(Ack)) => Gone(s.auth.db, account)
    case (FindProfile(profileId), FromUsers(View(row))) =>
      row.id == profileId && !row.deleted && OwnedBy(s.profiles, profileId, row.userId)
    case (UpdateProfile(owner, changes), FromUsers(View(row))) =>
      OwnedBy(s.profiles, row.id, owner) && row.userId == owner && Shows(row, changes)
    case (RemoveProfile(removed), FromUsers(Deleted)) =>
      && d.message.from in s.asked && s.asked[d.message.from].ToRemove?
      && var i := s.asked[d.message.from].profileId;
         OwnedBy(s.profiles, i, removed) && s.profiles[i].deleted
    case _ => true
  }

  /** The update that operation p has been told of. */
  ghost predicate HeardUpdate(s: State, p: Pid, owner: UserId, changes: Changes) {
    exists row :: Delivery(Message(p, UpdateProfile(owner, changes)), FromUsers(View(row))) in s.replies
  }

  ghost predicate GoodSaga(s: State, p: Pid)
    requires p in s.sagas
  {
    p in s.asked &&
    var task := s.asked[p];
    match s.sagas[p]
    case Registering(dto) => task == ToRegister(dto)
    case Profiling(dto, account) => task == ToRegister(dto) && OwnAccount(s, p, dto, account)
    case Registered(account) =>
      task.ToRegister? && OwnAccount(s, p, task.dto, account) && exists i :: OwnedBy(s.profiles, i, account.id)
    case Compensating(account) =>
      task.ToRegister? && OwnAccount(s, p, task.dto, account) && CompensationSent(s, p, account)
    case Uncompensated(account) =>
      task.ToRegister? && OwnAccount(s, p, task.dto, account) && CompensationSent(s, p, account)
    case Compensated(account) =>
      && task.ToRegister? && OwnAccount(s, p, task.dto, account) && CompensationSent(s, p, account)
      && Delivery(Message(p, DeactivateAccount(account.id)), FromAuth(Auth.Ack)) in s.replies
      && Gone(s.auth.db, account.id)
    case Finding(profileId) => task == ToRemove(profileId)
    case Deactivating(userId) => task.ToRemove? && OwnedBy(s.profiles, task.profileId, userId)
    case Removing(userId) =>
      task.ToRemove? && OwnedBy(s.profiles, task.profileId, userId) && Gone(s.auth.db, userId)
    case Removed(userId) =>
      && task.ToRemove? && OwnedBy(s.profiles, task.profileId, userId) && Gone(s.auth.db, userId)
      && s.profiles[task.profileId].deleted
    case FindingToUpdate(profileId, changes) => task == ToUpdate(profileId, changes)
    case Updating(owner, changes) =>
      || task == ToUpdateMe(owner, changes)
      || (task.ToUpdate? && task.changes == changes && OwnedBy(s.profiles, task.profileId, owner))
    case Updated =>
      || (task.ToUpdateMe? && HeardUpdate(s, p, task.userId, task.changes))
      || (task.ToUpdate? && task.profileId in s.profiles
          && HeardUpdate(s, p, s.profiles[task.profileId].userId, task.changes))
    case Refused => true
  }

  /** No two registrations are told of the same account. */
  ghost predicate OneSessionPerAccount(s: State) {
    forall d, e, p, q, dto, dto', account, account'
        {:trigger TellsSession(d, p, dto, account), TellsSession(e, q, dto', account')} |
      d in s.replies && e in s.replies && TellsSession(d, p, dto, account) && TellsSession(e, q, dto', account')
      && account.id == account'.id :: d == e
  }

  ghost predicate Inv(cfg: Config, s: State) {
    && cfg.Valid() && DbInv(cfg, s.auth.db) && TableInv(s.profiles)
    && s.asked.Keys == s.sagas.Keys
    && OneSessionPerAccount(s)
    && (forall i {:trigger GoodProfile(s, i)} | i in s.profiles :: GoodProfile(s, i))
    && (forall m {:trigger GoodMessage(s, m)} | m in s.sent :: GoodMessage(s, m))
    && (forall d {:trigger GoodReply(s, d)} | d in s.replies :: GoodReply(s, d))
    && (forall p {:trigger GoodSaga(s, p)} | p in s.sagas :: GoodSaga(s, p))
  }

  /** What every fact above survives. */
  ghost predicate Later(s: State, s': State) {
    && Grows(s.auth.db, s'.auth.db)
    && TableGrows(s.profiles, s'.profiles)
    && (forall id {:trigger Gone(s'.auth.db, id)} | Gone(s.auth.db, id) :: Gone(s'.auth.db, id))
    && s.sent <= s'.sent && s.replies <= s'.replies
    && (forall p | p in s.asked :: p in s'.asked && s'.asked[p] == s.asked[p])
  }

  /** An account that is gone stays gone, whatever the auth service is asked next. */
  lemma GoneStaysGone(cfg: Config, sys: System, call: Call, id: UserId)
    requires cfg.Valid() && DbInv(cfg, sys.db) && Gone(sys.db, id)
    ensures Gone(Serve(cfg, sys, call).db, id)
  {
    ServeKeeps(cfg, sys, call);
    SessionConservation(cfg, sys, call, id);
    DeadGetsNothing(cfg, sys, id, call);
  }

  lemma AuthStepIsLater(cfg: Config, s: State, call: Call)
    requires cfg.Valid() && DbInv(cfg, s.auth.db)
    ensures Later(s, s.(auth := Next(cfg, s.auth, call))) && DbInv(cfg, Next(cfg, s.auth, call).db)
  {
    ServeKeeps(cfg, s.auth, call);
    forall id | Gone(s.auth.db, id) ensures Gone(Next(cfg, s.auth, call).db, id) {
      GoneStaysGone(cfg, s.auth, call, id);
    }
  }

  lemma OwnAccountStays(s: State, s': State, p: Pid, dto: Dto, account: Auth.UserView)
    requires Later(s, s') && OwnAccount(s, p, dto, account)
    ensures OwnAccount(s', p, dto, account)
  {
    var d :| d in s.replies && TellsSession(d, p, dto, account);
    assert d in s'.replies;
  }

  lemma FirstNameStays(s: State, s': State, owner: UserId, name: string, created: string)
    requires Later(s, s') && FirstNameAskedFor(s, owner, name, created)
    ensures FirstNameAskedFor(s', owner, name, created)
  {
  }

  lemma LastNameStays(s: State, s': State, owner: UserId, name: string, created: string)
    requires Later(s, s') && LastNameAskedFor(s, owner, name, created)
    ensures LastNameAskedFor(s', owner, name, created)
  {
  }

  lemma GoodMessageStays(s: State, s': State, m: Message)
    requires Later(s, s') && GoodMessage(s, m)
    ensures GoodMessage(s', m)
  {
    var task := s.asked[m.from];
    match m.body
    case CreateProfile(profile) =>
      var account :| OwnAccount(s, m.from, task.dto, account)
                     && account.id == profile.userId && account.email == profile.email;
      OwnAccountStays(s, s', m.from, task.dto, account);
    case DeactivateAccount(id) =>
      if task.ToRegister? {
        var account :| OwnAccount(s, m.from, task.dto, account) && account.id == id;
        OwnAccountStays(s, s', m.from, task.dto, account);
      }
    case RemoveProfile(removed) => assert Gone(s'.auth.db, removed);
    case _ =>
  }

  lemma GoodReplyStays(s: State, s': State, d: Delivery)
    requires Later(s, s') && GoodReply(s, d)
    ensures GoodReply(s', d)
  {
    match (d.message.body, d.answer)
    case (DeactivateAccount(account), FromAuth(Ack)) => assert Gone(s'.auth.db, account);
    case _ =>
  }

  lemma GoodRegistrationStays(s: State, s': State, p: Pid)
    requires Later(s, s') && p in s.sagas && p in s'.sagas && s'.sagas[p] == s.sagas[p] && GoodSaga(s, p)
    requires s.asked[p].ToRegister? && !s.sagas[p].Registering? && !s.sagas[p].Refused?
    ensures GoodSaga(s', p)
  {
    OwnAccountStays(s, s', p, s.asked[p].dto, s.sagas[p].account);
    match s.sagas[p]
    case Registered(account) =>
      var i :| OwnedBy(s.profiles, i, account.id);
      assert OwnedBy(s'.profiles, i, account.id);
    case Compensated(account) => assert Gone(s'.auth.db, account.id);
    case _ =>
  }

  lemma GoodSagaStays(s: State, s': State, p: Pid)
    requires Later(s, s') && p in s.sagas && p in s'.sagas && s'.sagas[p] == s.sagas[p] && GoodSaga(s, p)
    ensures GoodSaga(s', p)
  {
    match s.sagas[p]
    case Registering(_) =>
    case Refused =>
    case Removing(userId) => assert Gone(s'.auth.db, userId);
    case Removed(userId) => assert Gone(s'.auth.db, userId);
    case Updated =>
      var owner := if s.asked[p].ToUpdateMe? then s.asked[p].userId else s.profiles[s.asked[p].profileId].userId;
      var row :| Delivery(Message(p, UpdateProfile(owner, s.asked[p].changes)), FromUsers(View(row))) in s.replies;
    case _ =>
      if s.asked[p].ToRegister? {
        GoodRegistrationStays(s, s', p);
      }
  }

  /** A profile row is a good one if it was and still bears the same names. */
  lemma GoodProfileStays(s: State, s': State, i: ProfileId)
    requires Later(s, s') && GoodProfile(s, i)
    requires s'.profiles[i].firstName == s.profiles[i].firstName && s'.profiles[i].lastName == s.profiles[i].lastName
    requires s'.profiles[i].deleted ==> Gone(s'.auth.db, s.profiles[i].userId)
    ensures GoodProfile(s', i)
  {
    var m :| CreatedBy(s, i, m);
    FirstNameStays(s, s', s.profiles[i].userId, s.profiles[i].firstName, m.body.profile.firstName);
    LastNameStays(s, s', s.profiles[i].userId, s.profiles[i].lastName, m.body.profile.lastName);
    assert CreatedBy(s', i, m);
  }

  /** A row that a step has left alone. */
  predicate SameRow(t: Table, t': Table, i: ProfileId) {
    i in t && i in t' && t'[i] == t[i]
  }

  /** Old facts survive; only what a step adds has to be shown. */
  lemma LaterKeeps(cfg: Config, s: State, s': State)
    requires Inv(cfg, s) && Later(s, s')
    requires DbInv(cfg, s'.auth.db) && TableInv(s'.profiles) && s'.asked.Keys == s'.sagas.Keys
    requires OneSessionPerAccount(s')
    requires forall i | i in s'.profiles && !SameRow(s.profiles, s'.profiles, i) :: GoodProfile(s', i)
    requires forall m | m in s'.sent && m !in s.sent :: GoodMessage(s', m)
    requires forall d | d in s'.replies && d !in s.replies :: GoodReply(s', d)
    requires forall p | p in s'.sagas && (p !in s.sagas || s'.sagas[p] != s.sagas[p]) :: GoodSaga(s', p)
    ensures Inv(cfg, s')
  {
    forall i | i in s'.profiles ensures GoodProfile(s', i) {
      if SameRow(s.profiles, s'.profiles, i) {
        assert GoodProfile(s, i);
        assert s.profiles[i].deleted ==> Gone(s'.auth.db, s.profiles[i].userId);
        GoodProfileStays(s, s', i);
      }
    }
    forall m | m in s'.sent ensures GoodMessage(s', m) {
      if m in s.sent { GoodMessageStays(s, s', m); }
    }
    forall d | d in s'.replies ensures GoodReply(s', d) {
      if d in s.replies { GoodReplyStays(s, s', d); }
    }
    forall p | p in s'.sagas ensures GoodSaga(s', p) {
      if p in s.sagas && s'.sagas[p] == s.sagas[p] { GoodSagaStays(s, s', p); }
    }
  }

  // ----- the gateway's steps -----

  /** The message an operation waits for, if the operation is a good one, is a good one. */
  lemma AwaitedIsGood(s: State, p: Pid)
    requires p in s.sagas && GoodSaga(s, p) && Awaited(p, s.sagas[p]).Some?
    ensures GoodMessage(s, Awaited(p, s.sagas[p]).value)
  {
    match s.sagas[p]
    case Profiling(dto, account) => assert OwnAccount(s, p, dto, account);
    case Compensating(account) => assert OwnAccount(s, p, s.asked[p].dto, account);
    case _ =>
  }

  /** The gateway has moved on: nothing but its stages, its tasks and the messages it has sent is different. */
  lemma GatewayKeeps(cfg: Config, s: State, s': State)
    requires Inv(cfg, s) && s' == s.(sent := s'.sent, sagas := s'.sagas, asked := s'.asked)
    requires s.sent <= s'.sent && s'.asked.Keys == s'.sagas.Keys
    requires forall p | p in s.asked :: p in s'.asked && s'.asked[p] == s.asked[p]
    requires forall m | m in s'.sent && m !in s.sent :: GoodMessage(s', m)
    requires forall p | p in s'.sagas && (p !in s.sagas || s'.sagas[p] != s.sagas[p]) :: GoodSaga(s', p)
    ensures Inv(cfg, s')
  {
    assert Later(s, s');
    LaterKeeps(cfg, s, s');
  }

  lemma EnterKeeps(cfg: Config, s: State, p: Pid, saga: Saga)
    requires Inv(cfg, s) && p in s.sagas
    requires GoodSaga(Enter(s, p, saga), p)
    ensures Inv(cfg, Enter(s, p, saga))
  {
    var s' := Enter(s, p, saga);
    if Awaited(p, saga).Some? {
      AwaitedIsGood(s', p);
    }
    GatewayKeeps(cfg, s, s');
  }

  lemma BeginKeeps(cfg: Config, s: State, p: Pid, task: Task, saga: Saga)
    requires Inv(cfg, s)
    requires match saga
             case Registering(dto) => task == ToRegister(dto)
             case Finding(profileId) => task == ToRemove(profileId)
             case FindingToUpdate(profileId, changes) => task == ToUpdate(profileId, changes)
             case Updating(userId, changes) => task == ToUpdateMe(userId, changes)
             case _ => false
    ensures Inv(cfg, Begin(s, p, task, saga))
  {
    if p !in s.sagas {
      var s' := Begin(s, p, task, saga);
      AwaitedIsGood(s', p);
      GatewayKeeps(cfg, s, s');
    }
  }

  lemma AfterErrorIsGood(s: State, p: Pid)
    requires p in s.sagas && GoodSaga(s, p) && Awaited(p, s.sagas[p]).Some?
    ensures GoodSaga(Enter(s, p, AfterError(s.sagas[p])), p)
  {
    match s.sagas[p]
    case Profiling(dto, account) => OwnAccountStays(s, Enter(s, p, AfterError(s.sagas[p])), p, dto, account);
    case Compensating(account) => OwnAccountStays(s, Enter(s, p, AfterError(s.sagas[p])), p, s.asked[p].dto, account);
    case _ =>
  }

  lemma AfterRegistering(s: State, p: Pid, answer: Answer)
    requires p in s.sagas && GoodSaga(s, p) && s.sagas[p].Registering?
    requires Delivery(Awaited(p, s.sagas[p]).value, answer) in s.replies
    requires GoodReply(s, Delivery(Awaited(p, s.sagas[p]).value, answer))
    ensures GoodSaga(Enter(s, p, AfterReply(s.sagas[p], answer)), p)
  {
    if answer.FromAuth? && answer.auth.Session? {
      assert TellsSession(Delivery(Awaited(p, s.sagas[p]).value, answer), p, s.sagas[p].dto, answer.auth.user);
    }
  }

  lemma AfterProfiling(s: State, p: Pid, answer: Answer)
    requires p in s.sagas && GoodSaga(s, p) && s.sagas[p].Profiling?
    requires Delivery(Awaited(p, s.sagas[p]).value, answer) in s.replies
    requires GoodReply(s, Delivery(Awaited(p, s.sagas[p]).value, answer))
    ensures GoodSaga(Enter(s, p, AfterReply(s.sagas[p], answer)), p)
  {
    if answer.FromUsers? && answer.users.View? {
      var s' := Enter(s, p, AfterReply(s.sagas[p], answer));
      OwnAccountStays(s, s', p, s.sagas[p].dto, s.sagas[p].account);
      assert OwnedBy(s'.profiles, answer.users.profile.id, s.sagas[p].account.id);
    } else {
      AfterErrorIsGood(s, p);
    }
  }

  lemma AfterCompensating(s: State, p: Pid, answer: Answer)
    requires p in s.sagas && GoodSaga(s, p) && s.sagas[p].Compensating?
    requires Delivery(Awaited(p, s.sagas[p]).value, answer) in s.replies
    requires GoodReply(s, Delivery(Awaited(p, s.sagas[p]).value, answer))
    ensures GoodSaga(Enter(s, p, AfterReply(s.sagas[p], answer)), p)
  {
    if answer == FromAuth(Auth.Ack) {
      OwnAccountStays(s, Enter(s, p, AfterReply(s.sagas[p], answer)), p, s.asked[p].dto, s.sagas[p].account);
    } else {
      AfterErrorIsGood(s, p);
    }
  }

  lemma AfterRemovalReply(s: State, p: Pid, answer: Answer)
    requires p in s.sagas && GoodSaga(s, p)
    requires s.sagas[p].Finding? || s.sagas[p].Deactivating? || s.sagas[p].Removing?
    requires Delivery(Awaited(p, s.sagas[p]).value, answer) in s.replies
    requires GoodReply(s, Delivery(Awaited(p, s.sagas[p]).value, answer))
    ensures GoodSaga(Enter(s, p, AfterReply(s.sagas[p], answer)), p)
  {
  }

  lemma AfterUpdateReply(s: State, p: Pid, answer: Answer)
    requires p in s.sagas && GoodSaga(s, p) && (s.sagas[p].FindingToUpdate? || s.sagas[p].Updating?)
    requires Delivery(Awaited(p, s.sagas[p]).value, answer) in s.replies
    requires GoodReply(s, Delivery(Awaited(p, s.sagas[p]).value, answer))
    ensures GoodSaga(Enter(s, p, AfterReply(s.sagas[p], answer)), p)
  {
  }

  lemma AfterReplyIsGood(s: State, p: Pid, answer: Answer)
    requires p in s.sagas && GoodSaga(s, p) && Awaited(p, s.sagas[p]).Some?
    requires Delivery(Awaited(p, s.sagas[p]).value, answer) in s.replies
    requires GoodReply(s, Delivery(Awaited(p, s.sagas[p]).value, answer))
    ensures GoodSaga(Enter(s, p, AfterReply(s.sagas[p], answer)), p)
  {
    match s.sagas[p]
    case Registering(_) => AfterRegistering(s, p, answer);
    case Profiling(_, _) => AfterProfiling(s, p, answer);
    case Compensating(_) => AfterCompensating(s, p, answer);
    case FindingToUpdate(_, _) => AfterUpdateReply(s, p, answer);
    case Updating(_, _) => AfterUpdateReply(s, p, answer);
    case _ => AfterRemovalReply(s, p, answer);
  }

  // ----- the services' steps -----

  /** What the auth service is asked to do with a message. */
  predicate Carries(body: Body, request: AuthHistory.Request) {
    match body
    case RegisterAccount(dto) => request.DoRegister? && request.email == dto.email
    case DeactivateAccount(account) => request == DoDeactivate(account)
    case _ => false
  }

  lemma AuthHandlesKeeps(cfg: Config, s: State, m: Message, call: Call)
    requires Inv(cfg, s) && Carries(m.body, call.request)
    ensures Inv(cfg, AuthHandles(cfg, s, m, call))
  {
    var s' := AuthHandles(cfg, s, m, call);
    AuthStepIsLater(cfg, s, call);
    assert Later(s, s');
    AuthReplyIsGood(cfg, s, m, call);
    NewSessionIsNew(cfg, s, m, call);
    LaterKeeps(cfg, s, s');
  }

  lemma AuthReplyIsGood(cfg: Config, s: State, m: Message, call: Call)
    requires cfg.Valid() && DbInv(cfg, s.auth.db) && Carries(m.body, call.request)
    ensures GoodReply(AuthHandles(cfg, s, m, call), Delivery(m, FromAuth(Serve(cfg, s.auth, call).reply)))
  {
    if m.body.DeactivateAccount? {
      var id := m.body.account;
      if Serve(cfg, s.auth, call).reply == Auth.Ack {
        MassRevocationRevokes(cfg, s.auth, call, id);
        SessionConservation(cfg, s.auth, call, id);
      }
    } else {
      AnswersDescribeTheRow(cfg, s.auth, call);
    }
  }

  /** A registration that succeeds speaks for an id no earlier one spoke for. */
  lemma NewSessionIsNew(cfg: Config, s: State, m: Message, call: Call)
    requires Inv(cfg, s) && Carries(m.body, call.request)
    ensures OneSessionPerAccount(AuthHandles(cfg, s, m, call))
  {
    var s' := AuthHandles(cfg, s, m, call);
    var new' := Delivery(m, FromAuth(Serve(cfg, s.auth, call).reply));
    forall d, p, dto, account | d in s.replies && TellsSession(d, p, dto, account)
      ensures account.id in s.auth.db.users
    {
      assert GoodReply(s, d);
    }
    if m.body.RegisterAccount? && Serve(cfg, s.auth, call).reply.Session? {
      var r := call.request;
      RegisterExactly(cfg, s.auth.db, r.email, r.hashed, r.id, Reading(s.auth.clock, call.waits));
      SessionOfRegister(cfg, s.auth.db, r.email, r.hashed, r.id, Reading(s.auth.clock, call.waits));
    }
  }

  /** The user service has handled a message: nothing but the profiles and the replies is different. */
  lemma UsersKeep(cfg: Config, s: State, m: Message, o: Users.Outcome)
    requires Inv(cfg, s) && TableInv(o.table) && TableGrows(s.profiles, o.table)
    requires forall i | i in o.table && !SameRow(s.profiles, o.table, i) :: GoodProfile(UsersHandle(s, m, o), i)
    requires GoodReply(UsersHandle(s, m, o), Delivery(m, FromUsers(o.reply)))
    ensures Inv(cfg, UsersHandle(s, m, o))
  {
    assert Later(s, UsersHandle(s, m, o));
    LaterKeeps(cfg, s, UsersHandle(s, m, o));
  }

  lemma CreateHandledKeeps(cfg: Config, s: State, m: Message, id: nat)
    requires Inv(cfg, s) && m in s.sent && m.body.CreateProfile?
    ensures Inv(cfg, UsersHandle(s, m, Users.Create(s.profiles, m.body.profile, id)))
  {
    CreateKeeps(s.profiles, m.body.profile, id);
    CreatedIsGood(cfg, s, m, id);
    UsersKeep(cfg, s, m, Users.Create(s.profiles, m.body.profile, id));
  }

  /** The row a creation adds is a good one, and so is its answer. */
  lemma CreatedIsGood(cfg: Config, s: State, m: Message, id: nat)
    requires Inv(cfg, s) && m in s.sent && m.body.CreateProfile?
    ensures var s' := UsersHandle(s, m, Users.Create(s.profiles, m.body.profile, id));
            && (forall i | i in s'.profiles && !SameRow(s.profiles, s'.profiles, i) :: GoodProfile(s', i))
            && GoodReply(s', Delivery(m, FromUsers(Users.Create(s.profiles, m.body.profile, id).reply)))
  {
    var profile := m.body.profile;
    var s' := UsersHandle(s, m, Users.Create(s.profiles, profile, id));
    assert GoodMessage(s, m);
    CreateExactly(s.profiles, profile, id);
    if i :| LiveFor(s.profiles, i, profile.userId) {
    } else if id !in s.profiles {
      var account :| OwnAccount(s, m.from, s.asked[m.from].dto, account)
                     && account.id == profile.userId && account.email == profile.email;
      NormalizeIdempotent(s.asked[m.from].dto.email);
      assert CreatedBy(s', id, m);
    }
  }

  lemma UpdateHandledKeeps(cfg: Config, s: State, m: Message)
    requires Inv(cfg, s) && m in s.sent && m.body.UpdateProfile?
    ensures Inv(cfg, UsersHandle(s, m, Users.Update(s.profiles, m.body.owner, m.body.changes)))
  {
    var s' := UsersHandle(s, m, Users.Update(s.profiles, m.body.owner, m.body.changes));
    UpdateKeeps(s.profiles, m.body.owner, m.body.changes);
    if row :| LiveFor(s.profiles, row, m.body.owner) {
      UpdatedIsGood(cfg, s, m, row);
    } else {
      UpdateNeedsALiveRow(s.profiles, m.body.owner, m.body.changes);
    }
    assert Later(s, s');
    LaterKeeps(cfg, s, s');
  }

  lemma UpdatedIsGood(cfg: Config, s: State, m: Message, row: ProfileId)
    requires Inv(cfg, s) && m in s.sent && m.body.UpdateProfile? && LiveFor(s.profiles, row, m.body.owner)
    ensures var o := Users.Update(s.profiles, m.body.owner, m.body.changes);
            var s' := UsersHandle(s, m, o);
            && (forall i | i in s'.profiles && i != row :: SameRow(s.profiles, s'.profiles, i))
            && GoodProfile(s', row) && GoodReply(s', Delivery(m, FromUsers(o.reply)))
  {
    var s' := UsersHandle(s, m, Users.Update(s.profiles, m.body.owner, m.body.changes));
    UpdateKeeps(s.profiles, m.body.owner, m.body.changes);
    UpdateChangesWhatIsGiven(s.profiles, m.body.owner, m.body.changes, row);
    assert GoodProfile(s, row);
    var created :| CreatedBy(s, row, created);
    FirstNameUpdated(s, s', m, s.profiles[row].firstName, s'.profiles[row].firstName, created.body.profile.firstName);
    LastNameUpdated(s, s', m, s.profiles[row].lastName, s'.profiles[row].lastName, created.body.profile.lastName);
    assert CreatedBy(s', row, created);
  }

  lemma FirstNameUpdated(s: State, s': State, m: Message, old': string, new': string, created: string)
    requires m in s.sent && s.sent <= s'.sent && m.body.UpdateProfile?
    requires FirstNameAskedFor(s, m.body.owner, old', created)
    requires var given := m.body.changes.firstName; new' == (if given.Some? then Trim(given.value) else old')
    ensures FirstNameAskedFor(s', m.body.owner, new', created)
  {
  }

  lemma LastNameUpdated(s: State, s': State, m: Message, old': string, new': string, created: string)
    requires m in s.sent && s.sent <= s'.sent && m.body.UpdateProfile?
    requires LastNameAskedFor(s, m.body.owner, old', created)
    requires var given := m.body.changes.lastName; new' == (if given.Some? then Trim(given.value) else old')
    ensures LastNameAskedFor(s', m.body.owner, new', created)
  {
  }

  lemma RemoveHandledKeeps(cfg: Config, s: State, m: Message)
    requires Inv(cfg, s) && m in s.sent && m.body.RemoveProfile?
    ensures Inv(cfg, UsersHandle(s, m, Users.Remove(s.profiles, m.body.removed)))
  {
    var userId := m.body.removed;
    var s' := UsersHandle(s, m, Users.Remove(s.profiles, userId));
    RemoveKeeps(s.profiles, userId);
    RemoveExactly(s.profiles, userId);
    assert GoodMessage(s, m);
    assert Later(s, s');
    forall i | i in s'.profiles && !SameRow(s.profiles, s'.profiles, i) ensures GoodProfile(s', i) {
      assert GoodProfile(s, i) && s.profiles[i].userId == userId;
      GoodProfileStays(s, s', i);
    }
    var asked := s.asked[m.from].profileId;
    assert s'.profiles[asked].deleted by {
      assert !LiveFor(s'.profiles, asked, userId);
    }
    LaterKeeps(cfg, s, s');
  }

  lemma HandleKeeps(cfg: Config, s: State, m: Message, id: nat, hashed: string, waits: Waits)
    requires Inv(cfg, s) && m in s.sent
    ensures Inv(cfg, Handle(cfg, s, m, id, hashed, waits))
  {
    match m.body
    case RegisterAccount(dto) => AuthHandlesKeeps(cfg, s, m, Call(DoRegister(dto.email, hashed, id), waits));
    case DeactivateAccount(account) => AuthHandlesKeeps(cfg, s, m, Call(DoDeactivate(account), waits));
    case CreateProfile(_) => CreateHandledKeeps(cfg, s, m, id);
    case FindProfile(profileId) => LaterKeeps(cfg, s, Handle(cfg, s, m, id, hashed, waits));
    case UpdateProfile(_, _) => UpdateHandledKeeps(cfg, s, m);
    case RemoveProfile(_) => RemoveHandledKeeps(cfg, s, m);
  }

  lemma StepKeeps(cfg: Config, s: State, a: Action)
    requires Inv(cfg, s)
    ensures Inv(cfg, Step(cfg, s, a))
  {
    match a
    case StartRegister(p, dto) => BeginKeeps(cfg, s, p, ToRegister(dto), Registering(dto));
    case StartRemove(p, profileId) => BeginKeeps(cfg, s, p, ToRemove(profileId), Finding(profileId));
    case StartUpdateMe(p, userId, changes) =>
      BeginKeeps(cfg, s, p, ToUpdateMe(userId, changes), Updating(userId, changes));
    case StartUpdate(p, profileId, changes) =>
      BeginKeeps(cfg, s, p, ToUpdate(profileId, changes), FindingToUpdate(profileId, changes));
    case Deliver(m, id, hashed, waits) =>
      if m in s.sent {
        HandleKeeps(cfg, s, m, id, hashed, waits);
      }
    case Hear(p, answer) => HearKeeps(cfg, s, p, answer);
    case GiveUp(p) =>
      if p in s.sagas && Awaited(p, s.sagas[p]).Some? {
        assert GoodSaga(s, p);
        AfterErrorIsGood(s, p);
        EnterKeeps(cfg, s, p, AfterError(s.sagas[p]));
      }
    case Elsewhere(call) =>
      AuthStepIsLater(cfg, s, call);
      LaterKeeps(cfg, s, Step(cfg, s, a));
  }

  lemma HearKeeps(cfg: Config, s: State, p: Pid, answer: Answer)
    requires Inv(cfg, s)
    ensures Inv(cfg, Step(cfg, s, Hear(p, answer)))
  {
    if p in s.sagas && Awaited(p, s.sagas[p]).Some? && Delivery(Awaited(p, s.sagas[p]).value, answer) in s.replies {
      assert GoodSaga(s, p) && GoodReply(s, Delivery(Awaited(p, s.sagas[p]).value, answer));
      AfterReplyIsGood(s, p, answer);
      EnterKeeps(cfg, s, p, AfterReply(s.sagas[p], answer));
    }
  }

  lemma {:induction false} ScheduleKeeps(cfg: Config, s: State, schedule: seq<Action>)
    requires Inv(cfg, s)
    ensures Inv(cfg, Exec(cfg, s, schedule))
    decreases |schedule|
  {
    if schedule != [] {
      StepKeeps(cfg, s, schedule[0]);
      ScheduleKeeps(cfg, Step(cfg, s, schedule[0]), schedule[1..]);
    }
  }

  // ----- what the two services agree on -----

  /** Whatever the bus does: every reply a service has ever given, heard early, late or never, is true of both services
      at every later point of the run, and so is what each operation has concluded from the replies it heard. */
  lemma EveryReplyStaysTrue(cfg: Config, schedule: seq<Action>)
    requires cfg.Valid()
    ensures var s := Exec(cfg, INITIAL, schedule);
            && (forall d | d in s.replies :: GoodReply(s, d))
            && (forall p | p in s.sagas :: GoodSaga(s, p))
  {
    ScheduleKeeps(cfg, INITIAL, schedule);
  }

  /** At every point of every run, so also wherever a removal stops half-way, a deleted profile belongs to an
      account already inactive and soft-deleted, without a usable refresh token. */
  lemma RemovalOrder(cfg: Config, schedule: seq<Action>, i: ProfileId)
    requires cfg.Valid() && i in Exec(cfg, INITIAL, schedule).profiles
    requires Exec(cfg, INITIAL, schedule).profiles[i].deleted
    ensures var s := Exec(cfg, INITIAL, schedule);
            Gone(s.auth.db, s.profiles[i].userId)
  {
    ScheduleKeeps(cfg, INITIAL, schedule);
    assert GoodProfile(Exec(cfg, INITIAL, schedule), i);
  }

  /** Whatever is lost, late or delivered twice: every profile row, live or deleted, belongs to an existing
      account and carries its address, and no user has two live profiles. */
  lemma TwoDatabasesAgree(cfg: Config, schedule: seq<Action>, i: ProfileId)
    requires cfg.Valid() && i in Exec(cfg, INITIAL, schedule).profiles
    ensures var s := Exec(cfg, INITIAL, schedule);
            var row := s.profiles[i];
            && row.userId in s.auth.db.users
            && s.auth.db.users[row.userId].email == row.email
            && (forall j | LiveFor(s.profiles, i, row.userId) && LiveFor(s.profiles, j, row.userId) :: i == j)
  {
    ScheduleKeeps(cfg, INITIAL, schedule);
    assert GoodProfile(Exec(cfg, INITIAL, schedule), i);
  }

  /** A profile row of an account that a registration has created bears the names the registration was given, or
      names that an update of the user has asked for since. */
  lemma NamesAreOwn(cfg: Config, s: State, p: Pid, dto: Dto, account: Auth.UserView, i: ProfileId)
    requires Inv(cfg, s) && OwnAccount(s, p, dto, account) && OwnedBy(s.profiles, i, account.id)
    ensures FirstNameAskedFor(s, account.id, s.profiles[i].firstName, dto.firstName)
    ensures LastNameAskedFor(s, account.id, s.profiles[i].lastName, dto.lastName)
  {
    assert GoodProfile(s, i);
    var m :| CreatedBy(s, i, m);
    assert GoodMessage(s, m);
    var dto' := s.asked[m.from].dto;
    var account' :| OwnAccount(s, m.from, dto', account') && account'.id == account.id;
    var d :| d in s.replies && TellsSession(d, p, dto, account);
    var e :| e in s.replies && TellsSession(e, m.from, dto', account');
    assert d == e;
  }

  /** A register call that reported success has an account and a profile row of the same id; both carry the address it
      was asked to register, and the row the names it was given, unless an update has asked for others since. */
  lemma RegisteredMeansBothRows(cfg: Config, schedule: seq<Action>, p: Pid)
    requires cfg.Valid()
    requires p in Exec(cfg, INITIAL, schedule).sagas && Exec(cfg, INITIAL, schedule).sagas[p].Registered?
    ensures var s := Exec(cfg, INITIAL, schedule);
            var account := s.sagas[p].account;
            && p in s.asked && s.asked[p].ToRegister?
            && var dto := s.asked[p].dto;
               && account.id in s.auth.db.users
               && s.auth.db.users[account.id].email == account.email == Normalize(dto.email)
               && exists i ::
                    && i in s.profiles && s.profiles[i].userId == account.id && s.profiles[i].email == account.email
                    && FirstNameAskedFor(s, account.id, s.profiles[i].firstName, dto.firstName)
                    && LastNameAskedFor(s, account.id, s.profiles[i].lastName, dto.lastName)
  {
    ScheduleKeeps(cfg, INITIAL, schedule);
    var s := Exec(cfg, INITIAL, schedule);
    assert GoodSaga(s, p);
    var account := s.sagas[p].account;
    var i :| OwnedBy(s.profiles, i, account.id);
    assert GoodProfile(s, i);
    NamesAreOwn(cfg, s, p, s.asked[p].dto, account, i);
  }

  /** A removal that reported success has removed the profile row it was asked to remove, and deactivated the account
      of that row's owner and no other. */
  lemma RemovedMeansTheRowAsked(cfg: Config, schedule: seq<Action>, p: Pid)
    requires cfg.Valid()
    requires p in Exec(cfg, INITIAL, schedule).sagas && Exec(cfg, INITIAL, schedule).sagas[p].Removed?
    ensures var s := Exec(cfg, INITIAL, schedule);
            && p in s.asked && s.asked[p].ToRemove?
            && var i := s.asked[p].profileId;
               && i in s.profiles && s.profiles[i].deleted
               && s.profiles[i].userId == s.sagas[p].userId && Gone(s.auth.db, s.sagas[p].userId)
  {
    ScheduleKeeps(cfg, INITIAL, schedule);
    assert GoodSaga(Exec(cfg, INITIAL, schedule), p);
  }

  /** An update that reported success has been answered with a row of the user it concerns, the caller or the owner of
      the profile asked for, that showed every change given. */
  lemma UpdatedMeansTheRowAsked(cfg: Config, schedule: seq<Action>, p: Pid)
    requires cfg.Valid()
    requires p in Exec(cfg, INITIAL, schedule).sagas && Exec(cfg, INITIAL, schedule).sagas[p].Updated?
    ensures var s := Exec(cfg, INITIAL, schedule);
            && p in s.asked && (s.asked[p].ToUpdateMe? || s.asked[p].ToUpdate?)
            && (s.asked[p].ToUpdate? ==> s.asked[p].profileId in s.profiles)
            && var owner := if s.asked[p].ToUpdateMe? then s.asked[p].userId
                            else s.profiles[s.asked[p].profileId].userId;
               exists row ::
                 && Delivery(Message(p, UpdateProfile(owner, s.asked[p].changes)), FromUsers(View(row))) in s.replies
                 && row.userId == owner && Shows(row, s.asked[p].changes)
  {
    ScheduleKeeps(cfg, INITIAL, schedule);
    var s := Exec(cfg, INITIAL, schedule);
    assert GoodSaga(s, p);
    var owner := if s.asked[p].ToUpdateMe? then s.asked[p].userId else s.profiles[s.asked[p].profileId].userId;
    var row :| Delivery(Message(p, UpdateProfile(owner, s.asked[p].changes)), FromUsers(View(row))) in s.replies;
    assert GoodReply(s, Delivery(Message(p, UpdateProfile(owner, s.asked[p].changes)), FromUsers(View(row))));
  }

  /** The gateway never has an account deactivated but the one its registration created or the owner of the profile it
      was asked to remove, and never has a profile removed before that owner's account is gone. */
  lemma OnlyTheAccountsConcerned(cfg: Config, schedule: seq<Action>, m: Message)
    requires cfg.Valid() && m in Exec(cfg, INITIAL, schedule).sent
    ensures GoodMessage(Exec(cfg, INITIAL, schedule), m)
  {
    ScheduleKeeps(cfg, INITIAL, schedule);
  }

  // ----- what a registration does when its profile is not created -----

  /** A reply that is there for the message operation p waits for. */
  predicate HearsReply(s: State, p: Pid, a: Action) {
    && a.Hear? && a.pid == p && p in s.sagas && Awaited(p, s.sagas[p]).Some?
    && Delivery(Awaited(p, s.sagas[p]).value, a.answer) in s.replies
  }

  /** Whatever happens next: a registration waiting for its profile succeeds on hearing of the row, starts to compensate
      on any other reply or a time-out, and otherwise goes on waiting; one that compensates has compensated on hearing
      the acknowledgement, gives up on any other reply or a time-out, and otherwise goes on waiting. */
  lemma NextOfRegistration(cfg: Config, s: State, a: Action, p: Pid)
    requires p in s.sagas && (s.sagas[p].Profiling? || s.sagas[p].Compensating?)
    ensures var next := Step(cfg, s, a).sagas;
            var account := s.sagas[p].account;
            && p in next
            && (if s.sagas[p].Profiling? then
                  && (next[p] == Registered(account) <==>
                        HearsReply(s, p, a) && a.answer.FromUsers? && a.answer.users.View?)
                  && (next[p] == Compensating(account) <==>
                        a == GiveUp(p) || (HearsReply(s, p, a) && !(a.answer.FromUsers? && a.answer.users.View?)))
                  && (next[p] == Registered(account) || next[p] == Compensating(account) || next[p] == s.sagas[p])
                else
                  && (next[p] == Compensated(account) <==> HearsReply(s, p, a) && a.answer == FromAuth(Auth.Ack))
                  && (next[p] == Uncompensated(account) <==>
                        a == GiveUp(p) || (HearsReply(s, p, a) && a.answer != FromAuth(Auth.Ack)))
                  && (next[p] == Compensated(account) || next[p] == Uncompensated(account) || next[p] == s.sagas[p]))
  {
  }

  /** The reply is the one its message asks for, and not an error. */
  predicate Succeeds(body: Body, answer: Answer) {
    match body
    case RegisterAccount(_) => answer.FromAuth? && answer.auth.Session?
    case DeactivateAccount(_) => answer == FromAuth(Auth.Ack)
    case RemoveProfile(_) => answer == FromUsers(Deleted)
    case _ => answer.FromUsers? && answer.users.View?
  }

  lemma RepliesMove(p: Pid, saga: Saga, answer: Answer)
    requires Awaited(p, saga).Some?
    ensures if Succeeds(Awaited(p, saga).value.body, answer)
            then AfterReply(saga, answer) != Refused && AfterReply(saga, answer) != saga
            else AfterReply(saga, answer) == AfterError(saga)
  {
  }

  lemma EnteredStage(s: State, p: Pid, saga: Saga)
    ensures p in Enter(s, p, saga).sagas && Enter(s, p, saga).sagas[p] == saga
  {
  }

  lemma UnheardStays(cfg: Config, s: State, a: Action, p: Pid)
    requires p in s.sagas && a != GiveUp(p) && !HearsReply(s, p, a)
    ensures p in Step(cfg, s, a).sagas && Step(cfg, s, a).sagas[p] == s.sagas[p]
  {
  }

  /** An operation that waits goes on exactly on hearing the reply it has asked for; an error or a time-out ends it,
      unless it has an account to take back, and nothing else moves it. */
  lemma ErrorsEndTheOperation(cfg: Config, s: State, a: Action, p: Pid)
    requires p in s.sagas && Awaited(p, s.sagas[p]).Some?
    ensures var next := Step(cfg, s, a).sagas;
            var body := Awaited(p, s.sagas[p]).value.body;
            && p in next
            && (a == GiveUp(p) || (HearsReply(s, p, a) && !Succeeds(body, a.answer)) ==>
                  next[p] == (if s.sagas[p].Profiling? then Compensating(s.sagas[p].account)
                              else if s.sagas[p].Compensating? then Uncompensated(s.sagas[p].account)
                              else Refused))
            && (HearsReply(s, p, a) && Succeeds(body, a.answer) ==>
                  next[p] != Refused && next[p] != s.sagas[p])
            && (a != GiveUp(p) && !HearsReply(s, p, a) ==> next[p] == s.sagas[p])
  {
    if HearsReply(s, p, a) {
      RepliesMove(p, s.sagas[p], a.answer);
      EnteredStage(s, p, AfterReply(s.sagas[p], a.answer));
    } else if a == GiveUp(p) {
      EnteredStage(s, p, AfterError(s.sagas[p]));
    } else {
      UnheardStays(cfg, s, a, p);
    }
  }

  /** Where a registration that had its account can be. */
  ghost predicate PastAccount(s: State, p: Pid, account: Auth.UserView) {
    && p in s.sagas
    && match s.sagas[p]
       case Profiling(_, a) => a == account
       case Registered(a) => a == account
       case Compensating(a) => a == account && CompensationSent(s, p, account)
       case Uncompensated(a) => a == account && CompensationSent(s, p, account)
       case Compensated(a) => a == account && CompensationSent(s, p, account)
       case _ => false
  }

  lemma PastAccountStep(cfg: Config, s: State, a: Action, p: Pid, account: Auth.UserView)
    requires PastAccount(s, p, account)
    ensures PastAccount(Step(cfg, s, a), p, account)
  {
  }

  /** A registration that has its account and no profile for it has the account's deactivation sent: over every run it
      is waiting for the profile, or has succeeded, or has sent the message and is waiting for the acknowledgement, has
      it, or has given up on it. */
  lemma {:induction false} FailedProfileIsCompensated(
      cfg: Config, s: State, schedule: seq<Action>, p: Pid, account: Auth.UserView)
    requires PastAccount(s, p, account)
    ensures PastAccount(Exec(cfg, s, schedule), p, account)
    decreases |schedule|
  {
    if schedule != [] {
      PastAccountStep(cfg, s, schedule[0], p, account);
      FailedProfileIsCompensated(cfg, Step(cfg, s, schedule[0]), schedule[1..], p, account);
    }
  }

  /** Compensated means that the deactivation of the account the registration had created was acknowledged. */
  lemma CompensatedIsAcknowledged(cfg: Config, schedule: seq<Action>, p: Pid)
    requires cfg.Valid()
    requires p in Exec(cfg, INITIAL, schedule).sagas && Exec(cfg, INITIAL, schedule).sagas[p].Compensated?
    ensures var s := Exec(cfg, INITIAL, schedule);
            var account := s.sagas[p].account;
            && Delivery(Message(p, DeactivateAccount(account.id)), FromAuth(Auth.Ack)) in s.replies
            && p in s.asked && s.asked[p].ToRegister? && OwnAccount(s, p, s.asked[p].dto, account)
  {
    ScheduleKeeps(cfg, INITIAL, schedule);
    assert GoodSaga(Exec(cfg, INITIAL, schedule), p);
  }

  /** A compensated registration stays undone, also if its delayed profile message is applied afterwards: the
      account is dead, all its refresh tokens are revoked, and it does not stand in the way of registering the
      address again, which succeeds exactly when no other live account holds it. */
  lemma CompensationRestoresRegistrability(
      cfg: Config, schedule: seq<Action>, p: Pid, email: string, hashed: string, id: UserId, waits: Waits)
    requires cfg.Valid()
    requires p in Exec(cfg, INITIAL, schedule).sagas && Exec(cfg, INITIAL, schedule).sagas[p].Compensated?
    requires Normalize(email) == Exec(cfg, INITIAL, schedule).sagas[p].account.email
    requires id !in Exec(cfg, INITIAL, schedule).auth.db.users
    ensures var s := Exec(cfg, INITIAL, schedule);
            var account := s.sagas[p].account;
            && Auth.Dead(s.auth.db, account.id)
            && Auth.AllRevoked(s.auth.db, account.id)
            && (Serve(cfg, s.auth, Call(DoRegister(email, hashed, id), waits)).reply.Session?
                <==> !exists holder :: holder != account.id && HoldsEmail(s.auth.db, holder, account.email))
  {
    ScheduleKeeps(cfg, INITIAL, schedule);
    var s := Exec(cfg, INITIAL, schedule);
    var account := s.sagas[p].account;
    assert GoodSaga(s, p);
    forall h | h in s.auth.db.tokens && s.auth.db.tokens[h].userId == account.id
      ensures s.auth.db.tokens[h].revoked
    {
      assert h !in UnrevokedOf(s.auth.db, account.id);
    }
    Auth.RegistrableIffFree(cfg, s.auth.db, email, hashed, id, Reading(s.auth.clock, waits));
    if holder :| HoldsEmail(s.auth.db, holder, account.email) {
      assert holder != account.id;
    }
  }
}
