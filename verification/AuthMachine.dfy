/** The auth service at statement grain. Any number of handler invocations run at once; one action is
    one SQL statement, one clock reading or one purely local decision. Row locks are explicit: refresh
    holds the token row and the user row from its SELECT ... FOR UPDATE until it commits or rolls back,
    a single-row UPDATE waits for the row, and a many-row UPDATE fixes its rows when it starts, locks
    them one by one and takes effect when it ends. An action that is not possible changes nothing, so
    every sequence of actions is a schedule. */
module AuthMachine {
  import opened Options
  import opened Emails
  import opened Tokens
  import opened AuthStore
  import opened AuthHandlers

  type Pid = nat

  datatype Request =
    | AskRegister(email: string, hashed: string)
    | AskLogin(email: string, password: string)
    | AskRefresh(token: Token)
    | AskLogout(caller: UserId, presented: Option<Token>)
    | AskDeactivate(target: UserId)
    | AskValidate(subject: UserId)

  /** Whether tokens are being issued inside a refresh transaction, with its earlier clock readings and what it
      has written so far: the rows it has revoked and the rows it has stored. Nobody else sees these writes
      until they are committed; a transaction that ends otherwise loses them. */
  datatype Tx = NoTx | InTx(verify: Millis, check: Millis, revoked: set<TokenHash>, stored: map<TokenHash, TokenRow>)

  /** What a handler does next. */
  datatype Pc =
    | RegisterFind
    | RegisterInsert
    | LoginFind
    | RefreshVerify
    | RefreshLock(verify: Millis)
    | RefreshCheck(verify: Millis, row: TokenRow, user: User)
    | RefreshRevoke(tx: Tx, user: User)
    | IssueAccess(tx: Tx, user: User)
    | IssueRefresh(tx: Tx, user: User, access: Millis)
    | IssueStamp(tx: Tx, user: User, access: Millis, refresh: Millis)
    | IssueInsert(tx: Tx, user: User, access: Millis, refresh: Millis, store: Millis)
    | RefreshCommit(tx: Tx, user: User, at: Times)
    | LogoutOne(token: Token)
    | RevokeStart(id: UserId)
    | RevokeEach(id: UserId, todo: set<TokenHash>, hit: set<TokenHash>)
    | DeactivateFind
    | DeactivateWrite
    | DeactivateDelete
    | ValidateFind
    | Done(reply: Reply)

  datatype Process = Process(request: Request, pc: Pc)

  /** History: each stored refresh token with the token it replaced, and each committed
      `isActive = false`. */
  datatype Event =
    | Issued(pid: Pid, userId: UserId, parent: Option<Token>, tokens: TokenPair)
    | SwitchedOff(id: UserId)

  datatype State = State(
    db: Db,
    tokenLock: map<TokenHash, Pid>,
    userLock: map<UserId, Pid>,
    procs: map<Pid, Process>,
    now: Millis,
    log: seq<Event>,
    births: map<TokenHash, nat>)

  const INITIAL := State(EMPTY_DB, map[], map[], map[], 0, [], map[])

  datatype Action =
    | Start(pid: Pid, request: Request)
    | Move(pid: Pid, id: UserId, hash: TokenHash)
    | Crash(pid: Pid)
    | Tick(delay: nat)

  function FirstPc(request: Request): Pc {
    match request
    case AskRegister(_, _) => RegisterFind
    case AskLogin(_, _) => LoginFind
    case AskRefresh(_) => RefreshVerify
    case AskLogout(caller, presented) =>
      (match presented case Some(t) => LogoutOne(t) case None => RevokeStart(caller))
    case AskDeactivate(_) => DeactivateFind
    case AskValidate(_) => ValidateFind
  }

  function Goto(s: State, p: Pid, pc: Pc): State
    requires p in s.procs
  {
    s.(procs := s.procs[p := s.procs[p].(pc := pc)])
  }

  /** End of a transaction or statement: every lock of the process is released. */
  function Release(s: State, p: Pid): State {
    s.(tokenLock := map h | h in s.tokenLock && s.tokenLock[h] != p :: s.tokenLock[h],
       userLock := map u | u in s.userLock && s.userLock[u] != p :: s.userLock[u])
  }

  function Finish(s: State, p: Pid, reply: Reply): State
    requires p in s.procs
  {
    Goto(Release(s, p), p, Done(reply))
  }

  /** A refresh token becomes visible: history records where it came from. */
  function Record(s: State, p: Pid, user: User, parent: Option<Token>, tokens: TokenPair): State {
    s.(births := s.births[Sha256(tokens.refreshToken) := |s.log|],
       log := s.log + [Issued(p, user.id, parent, tokens)])
  }

  /** The tables as a transaction sees them: the committed rows under its own writes. */
  function OwnView(db: Db, tx: Tx): Db {
    match tx
    case NoTx => db
    case InTx(_, _, revoked, stored) =>
      var db1 := RevokeRows(db, revoked);
      db1.(tokens := db1.tokens + stored)
  }

  ghost function RegisterStep(s: State, p: Pid, email: string, hashed: string, pc: Pc, id: UserId): State
    requires p in s.procs
  {
    var user := NewUser(id, Normalize(email), hashed);
    if pc.RegisterFind? then
      if FindByEmail(s.db, Normalize(email)).Some? then Finish(s, p, Conflict) else Goto(s, p, RegisterInsert)
    else
      match InsertUser(s.db, user)
      case None => Finish(s, p, Conflict)
      case Some(db') => Goto(s.(db := db'), p, IssueAccess(NoTx, user))
  }

  ghost function LoginStep(cfg: Config, s: State, p: Pid, email: string, password: string): State
    requires p in s.procs
  {
    match FindByEmail(s.db, Normalize(email))
    case None => Finish(s, p, Unauthorized)
    case Some(user) =>
      if !cfg.compare(password, user.password) then Finish(s, p, Unauthorized)
      else if !user.isActive then Finish(s, p, Forbidden)
      else Goto(s, p, IssueAccess(NoTx, user))
  }

  function VerifyStep(cfg: Config, s: State, p: Pid, token: Token): State
    requires p in s.procs
  {
    if VerifiesAsRefresh(cfg, token, s.now) then Goto(s, p, RefreshLock(s.now)) else Finish(s, p, Unauthorized)
  }

  /** SELECT ... FOR UPDATE: waits while another transaction holds either row. */
  function LockStep(s: State, p: Pid, token: Token, verify: Millis): State
    requires p in s.procs
  {
    var hash := Sha256(token);
    if !Joined(s.db, hash) then Finish(s, p, Unauthorized)
    else
      var row := s.db.tokens[hash];
      if hash in s.tokenLock || row.userId in s.userLock then s
      else Goto(s.(tokenLock := s.tokenLock[hash := p], userLock := s.userLock[row.userId := p]), p,
                RefreshCheck(verify, row, s.db.users[row.userId]))
  }

  function CheckStep(s: State, p: Pid, verify: Millis, row: TokenRow, user: User): State
    requires p in s.procs
  {
    if row.revoked || row.expiresAt < s.now then Finish(s, p, Unauthorized)
    else if !user.isActive then Finish(s, p, Forbidden)
    else Goto(s, p, RefreshRevoke(InTx(verify, s.now, {}, map[]), user))
  }

  /** UPDATE ... SET revoked = true of the locked row, inside the transaction. */
  function RevokeStep(s: State, p: Pid, token: Token, tx: Tx, user: User): State
    requires p in s.procs
  {
    match tx
    case NoTx => s
    case InTx(_, _, revoked, _) => Goto(s, p, IssueAccess(tx.(revoked := revoked + {Sha256(token)}), user))
  }

  /** INSERT INTO refresh_tokens. Outside a transaction it is visible at once; inside one the index entry
      is held until commit, and another insert of the same digest waits for it. */
  function InsertStep(
      cfg: Config, s: State, p: Pid, tx: Tx, user: User, access: Millis, refresh: Millis, store: Millis): State
    requires p in s.procs
  {
    var hash := Sha256(SignRefresh(cfg, user.Who(), refresh));
    var row := NewRow(cfg, user.id, store);
    var pair := TokenPair(SignAccess(cfg, user.Who(), access), hash.token);
    if hash in OwnView(s.db, tx).tokens then Finish(s, p, if s.procs[p].request.AskRegister? then Conflict else Failed)
    else if hash in s.tokenLock then s
    else match tx
      case NoTx =>
        Finish(Record(s.(db := s.db.(tokens := s.db.tokens[hash := row])), p, user, None, pair),
               p, Session(ToView(user), pair))
      case InTx(verify, check, _, stored) =>
        Goto(s.(tokenLock := s.tokenLock[hash := p]), p,
             RefreshCommit(tx.(stored := stored[hash := row]), user, Times(verify, check, access, refresh, store)))
  }

  /** COMMIT of a refresh: what the transaction has written becomes visible, all at once. */
  function CommitStep(cfg: Config, s: State, p: Pid, token: Token, tx: Tx, user: User, at: Times): State
    requires p in s.procs
  {
    var pair := Pair(cfg, user.Who(), at);
    Finish(Record(s.(db := OwnView(s.db, tx)), p, user, Some(token), pair), p, Session(ToView(user), pair))
  }

  function LogoutStep(s: State, p: Pid, caller: UserId, token: Token): State
    requires p in s.procs
  {
    var hit := OwnedToken(s.db, Sha256(token), caller);
    if hit != {} && Sha256(token) in s.tokenLock then s
    else Finish(s.(db := RevokeRows(s.db, hit)), p, Ack)
  }

  /** One row of a many-row UPDATE: wait for the row, then re-check it. */
  function RevokeRowStep(
      s: State, p: Pid, id: UserId, todo: set<TokenHash>, hit: set<TokenHash>, hash: TokenHash): State
    requires p in s.procs
  {
    if hash !in todo || hash !in s.db.tokens || hash in s.tokenLock then s
    else if s.db.tokens[hash].revoked then Goto(s, p, RevokeEach(id, todo - {hash}, hit))
    else Goto(s.(tokenLock := s.tokenLock[hash := p]), p, RevokeEach(id, todo - {hash}, hit + {hash}))
  }

  function RevokeEndStep(s: State, p: Pid, hit: set<TokenHash>): State
    requires p in s.procs
  {
    Goto(Release(s.(db := RevokeRows(s.db, hit)), p), p,
         if s.procs[p].request.AskDeactivate? then DeactivateDelete else Done(Ack))
  }

  function DeactivateStep(s: State, p: Pid, id: UserId, pc: Pc): State
    requires p in s.procs
  {
    if pc.DeactivateFind? then
      if Live(s.db, id) then Goto(s, p, DeactivateWrite) else Finish(s, p, NotFound)
    else if id in s.userLock || id !in s.db.users then s
    else if pc.DeactivateWrite? then
      Goto(s.(db := PutUser(s.db, s.db.users[id].(isActive := false)), log := s.log + [SwitchedOff(id)]),
           p, RevokeStart(id))
    else
      Finish(s.(db := PutUser(s.db, s.db.users[id].(deleted := true))), p, Ack)
  }

  /** The next statement of process p. `id` is the value of gen_random_uuid() should a user row be
      inserted, `hash` the row a many-row UPDATE visits next. */
  ghost function Advance(cfg: Config, s: State, p: Pid, id: UserId, hash: TokenHash): State
    requires p in s.procs
  {
    var request := s.procs[p].request;
    match s.procs[p].pc
    case RegisterFind =>
      if request.AskRegister? then RegisterStep(s, p, request.email, request.hashed, RegisterFind, id) else s
    case RegisterInsert =>
      if request.AskRegister? then RegisterStep(s, p, request.email, request.hashed, RegisterInsert, id) else s
    case LoginFind => if request.AskLogin? then LoginStep(cfg, s, p, request.email, request.password) else s
    case RefreshVerify => if request.AskRefresh? then VerifyStep(cfg, s, p, request.token) else s
    case RefreshLock(verify) => if request.AskRefresh? then LockStep(s, p, request.token, verify) else s
    case RefreshCheck(verify, row, user) => CheckStep(s, p, verify, row, user)
    case RefreshRevoke(tx, user) => if request.AskRefresh? then RevokeStep(s, p, request.token, tx, user) else s
    case IssueAccess(tx, user) => Goto(s, p, IssueRefresh(tx, user, s.now))
    case IssueRefresh(tx, user, access) => Goto(s, p, IssueStamp(tx, user, access, s.now))
    case IssueStamp(tx, user, access, refresh) => Goto(s, p, IssueInsert(tx, user, access, refresh, s.now))
    case IssueInsert(tx, user, access, refresh, store) => InsertStep(cfg, s, p, tx, user, access, refresh, store)
    case RefreshCommit(tx, user, at) =>
      if request.AskRefresh? then CommitStep(cfg, s, p, request.token, tx, user, at) else s
    case LogoutOne(token) => if request.AskLogout? then LogoutStep(s, p, request.caller, token) else s
    case RevokeStart(owner) => Goto(s, p, RevokeEach(owner, UnrevokedOf(s.db, owner), {}))
    case RevokeEach(owner, todo, hit) =>
      if todo == {} then RevokeEndStep(s, p, hit) else RevokeRowStep(s, p, owner, todo, hit, hash)
    case DeactivateFind => if request.AskDeactivate? then DeactivateStep(s, p, request.target, DeactivateFind) else s
    case DeactivateWrite => if request.AskDeactivate? then DeactivateStep(s, p, request.target, DeactivateWrite) else s
    case DeactivateDelete => if request.AskDeactivate? then DeactivateStep(s, p, request.target, DeactivateDelete) else s
    case ValidateFind => if request.AskValidate? then Finish(s, p, Validate(s.db, request.subject)) else s
    case Done(_) => s
  }

  ghost function Step(cfg: Config, s: State, a: Action): State {
    match a
    case Start(p, request) =>
      if p in s.procs then s else s.(procs := s.procs[p := Process(request, FirstPc(request))])
    case Move(p, id, hash) => if p in s.procs then Advance(cfg, s, p, id, hash) else s
    case Crash(p) => if p in s.procs && !s.procs[p].pc.Done? then Finish(s, p, Failed) else s
    case Tick(delay) => s.(now := s.now + delay)
  }

  ghost function Exec(cfg: Config, s: State, schedule: seq<Action>): State
    decreases |schedule|
  {
    if schedule == [] then s else Exec(cfg, Step(cfg, s, schedule[0]), schedule[1..])
  }

  lemma {:induction false} ExecAppend(cfg: Config, s: State, a: seq<Action>, b: seq<Action>)
    ensures Exec(cfg, s, a + b) == Exec(cfg, Exec(cfg, s, a), b)
    decreases |a|
  {
    if a == [] {
      assert a + b == b;
    } else {
      assert (a + b)[0] == a[0] && (a + b)[1..] == a[1..] + b;
      ExecAppend(cfg, Step(cfg, s, a[0]), a[1..], b);
    }
  }

  /** One more action at the end of a schedule. */
  lemma Extend(cfg: Config, start: State, schedule: seq<Action>, s: State, a: Action)
      returns (schedule': seq<Action>, s': State)
    requires Exec(cfg, start, schedule) == s
    ensures schedule' == schedule + [a]
    ensures s' == Step(cfg, s, a) && Exec(cfg, start, schedule') == s'
  {
    schedule', s' := schedule + [a], Step(cfg, s, a);
    ExecAppend(cfg, start, schedule, [a]);
    assert [a][1..] == [];
  }
}
