/** The HTTP handlers cut at their store calls, and the machine that interleaves them. */
module Session {
  import opened Domain
  import opened Storage
  import opened Text

  const AUTH_CODE_TTL: Time := 5 * MINUTE
  const LOGIN_STATE_TTL: Time := 10 * MINUTE
  const MIN_VERIFIER_LEN := 43
  const MAX_VERIFIER_LEN := 128
  const MAX_REDIRECT_URIS := 10

  const INVALID_REQUEST := "invalid_request"
  const INVALID_CLIENT := "invalid_client"
  const INVALID_GRANT := "invalid_grant"
  const UNAUTHORIZED_CLIENT := "unauthorized_client"
  const INVALID_CLIENT_META := "invalid_client_metadata"
  const SERVER_ERROR := "server_error"
  const ACCESS_DENIED := "access_denied"

  /** What the deployment fixes. `s256` is base64url(SHA-256(.)), for verifiers and refresh tokens alike. */
  datatype Config = Config(
    resource: string,
    s256: string -> string,
    allowed: string -> bool,
    validRedirectURI: string -> bool,
    refreshTokenTTL: Time)

  /** HTTP status and OAuth error code ("" when there is none). */
  datatype Response = Response(status: nat, error: string)

  function BadRequest(error: string): Response { Response(400, error) }

  /** An incoming request, together with the secrets its handler draws before its first store call. */
  datatype Request =
    | Register(redirectURIs: seq<string>, clientName: string, drawnID: string)
    | Authorize(req: OAuthRequest, responseType: string, challengeMethod: string)
    | Callback(state: string)
    | CodeGrant(code: string, verifier: string, redirectURI: string, clientID: string, resource: string)
    | RefreshGrant(token: string, grantClientID: string)
    | DataDeletion(metaUserID: string)
    | Reconnect(drawnState: string)
    | SyncTool(tenantID: string)
    | Sweep(rowOrder: seq<string>, window: Time)

  /** A handler between two store calls, with what it still holds in local variables. */
  datatype Proc =
    | Parking(req: OAuthRequest)
    | LoggingIn(req: OAuthRequest)
    | Upserting(req: OAuthRequest, id: string, row: TenantRow)
    | Syncing(req: OAuthRequest, id: string)
    | Issuing(req: OAuthRequest, id: string)
    | Minting(id: string, clientID: string)
    | Deleting(id: string)
    | SyncingTool(id: string)
    | Sweeping(todo: seq<(string, TenantRow)>)

  /** How Meta and the browser answered the login dialog. */
  datatype LoginAnswer =
    | Declined
    | NoCode
    | MetaFailed
    | User(metaUserID: string, name: string, longLived: LongLivedToken, newID: string)

  /** What a handler learns or draws before its next store call. */
  datatype Input =
    | Nothing
    | Secret(drawn: string)
    | Login(answer: LoginAnswer)
    | Accounts(pages: Option<seq<Page>>)
    | Exchange(renewed: Option<LongLivedToken>)

  datatype Outcome = Done(response: Response) | Then(proc: Proc)

  predicate IsReconnect(req: OAuthRequest) { req.clientID == "" }

  // ----- first store call of each handler -----

  function BeginRegister(cfg: Config, t: Tables, uris: seq<string>, name: string, id: string,
      now: Time): (Tables, Outcome) {
    if uris == [] || |uris| > MAX_REDIRECT_URIS || exists i :: 0 <= i < |uris| && !cfg.validRedirectURI(uris[i]) then
      (t, Done(BadRequest(INVALID_CLIENT_META)))
    else if id in t.clients then
      (t, Done(Response(500, SERVER_ERROR)))
    else
      (t.(clients := t.clients[id := ClientRow(TrimSpace(name), uris, Unix(now))]), Done(Response(201, "")))
  }

  function BeginAuthorize(cfg: Config, t: Tables, req: OAuthRequest, responseType: string,
      challengeMethod: string): Outcome {
    if req.clientID == "" then Done(BadRequest(INVALID_REQUEST))
    else if req.clientID !in t.clients then Done(Response(401, INVALID_CLIENT))
    else if req.redirectURI == ""
        || req.redirectURI !in t.clients[req.clientID].redirectURIs then Done(BadRequest(INVALID_REQUEST))
    else if responseType != "code" || req.codeChallenge == ""
        || challengeMethod != "S256" then Done(Response(302, INVALID_REQUEST))
    else if req.resource != "" && req.resource != cfg.resource then Done(Response(302, INVALID_REQUEST))
    else Then(Parking(req))
  }

  function BeginCallback(t: Tables, state: string, now: Time): (Tables, Outcome) {
    if state == "" then
      (t, Done(BadRequest("")))
    else
      var (t', login) := ConsumeLogin(t, state);
      if login.None? || !(now < Instant(login.value.expiresAt)) then
        (t', Done(BadRequest("")))
      else
        (t', Then(LoggingIn(login.value.request)))
  }

  predicate MalformedCodeGrant(r: Request)
    requires r.CodeGrant?
  {
    || r.code == "" || r.verifier == "" || r.clientID == ""
    || |r.verifier| < MIN_VERIFIER_LEN || |r.verifier| > MAX_VERIFIER_LEN
  }

  /** The checks on a consumed code, in order. */
  function RedeemCode(cfg: Config, row: CodeRow, r: Request, now: Time): Outcome
    requires r.CodeGrant?
  {
    if !(now < Instant(row.expiresAt)) then Done(BadRequest(INVALID_GRANT))
    else if row.clientID != r.clientID || r.redirectURI != row.redirectURI then Done(BadRequest(INVALID_GRANT))
    else if cfg.s256(r.verifier) != row.codeChallenge then Done(BadRequest(INVALID_GRANT))
    else if r.resource != "" && r.resource != cfg.resource then Done(BadRequest(INVALID_REQUEST))
    else Then(Minting(row.tenantID, row.clientID))
  }

  function BeginCodeGrant(cfg: Config, t: Tables, r: Request, now: Time): (Tables, Outcome)
    requires r.CodeGrant?
  {
    if MalformedCodeGrant(r) then
      (t, Done(BadRequest(INVALID_REQUEST)))
    else
      var (t', found) := ConsumeCode(t, r.code);
      (t', if found.None? then Done(BadRequest(INVALID_GRANT)) else RedeemCode(cfg, found.value, r, now))
  }

  function BeginRefreshGrant(cfg: Config, t: Tables, token: string, clientID: string, now: Time): (Tables, Outcome) {
    if token == "" || clientID == "" then
      (t, Done(BadRequest(INVALID_REQUEST)))
    else
      var (t', found) := RotateRefresh(t, cfg.s256(token), now);
      if found.None? then
        (t', Done(BadRequest(INVALID_GRANT)))
      else if found.value.clientID != clientID then
        (t', Done(BadRequest(UNAUTHORIZED_CLIENT)))
      else
        (t', Then(Minting(found.value.tenantID, found.value.clientID)))
  }

  ghost function BeginDataDeletion(t: Tables, metaUserID: string): Outcome {
    if metaUserID == "" then
      Done(BadRequest(""))
    else
      match TenantOf(t.tenants, metaUserID)
      case None => Done(Response(200, ""))
      case Some(id) => Then(Deleting(id))
  }

  function BeginReconnect(t: Tables, drawn: string, now: Time): (Tables, Outcome) {
    if drawn in t.logins then
      (t, Done(Response(500, "")))
    else
      (t.(logins := t.logins[drawn := LoginRow(RECONNECT, Unix(now + LOGIN_STATE_TTL))]), Done(Response(200, "")))
  }

  /** The rows the renewal query returns, in the order the engine lists them. */
  function DueRows(t: Tables, order: seq<string>, expiringBefore: int,
      uncheckedBefore: int): (r: seq<(string, TenantRow)>)
    ensures forall i :: 0 <= i < |r| ==> r[i].0 in t.tenants && t.tenants[r[i].0] == r[i].1
  {
    if order == [] then []
    else
      var rest := DueRows(t, order[1..], expiringBefore, uncheckedBefore);
      if order[0] in t.tenants && Due(t.tenants[order[0]], expiringBefore, uncheckedBefore)
      then [(order[0], t.tenants[order[0]])] + rest
      else rest
  }

  function Continue(todo: seq<(string, TenantRow)>): Outcome {
    if todo == [] then Done(Response(200, "")) else Then(Sweeping(todo))
  }

  ghost function Begin(cfg: Config, t: Tables, r: Request, now: Time): (Tables, Outcome) {
    match r
    case Register(uris, name, id) => BeginRegister(cfg, t, uris, name, id, now)
    case Authorize(req, responseType, kind) => (t, BeginAuthorize(cfg, t, req, responseType, kind))
    case Callback(state) => BeginCallback(t, state, now)
    case CodeGrant(_, _, _, _, _) => BeginCodeGrant(cfg, t, r, now)
    case RefreshGrant(token, clientID) => BeginRefreshGrant(cfg, t, token, clientID, now)
    case DataDeletion(metaUserID) => (t, BeginDataDeletion(t, metaUserID))
    case Reconnect(drawn) => BeginReconnect(t, drawn, now)
    case SyncTool(id) => (t, if id in t.tenants then Then(SyncingTool(id)) else Done(Response(500, "")))
    case Sweep(order, window) => (t, Continue(DueRows(t, order, Unix(now + window), Unix(now - 7 * DAY))))
  }

  // ----- every later store call -----

  function Park(t: Tables, req: OAuthRequest, drawn: string, now: Time): (Tables, Outcome) {
    if drawn in t.logins then
      (t, Done(Response(302, SERVER_ERROR)))
    else
      (t.(logins := t.logins[drawn := LoginRow(req, Unix(now + LOGIN_STATE_TTL))]), Done(Response(302, "")))
  }

  ghost function Identify(cfg: Config, t: Tables, req: OAuthRequest, answer: LoginAnswer, now: Time): Outcome {
    match answer
    case Declined => if IsReconnect(req) then Done(Response(200, "")) else Done(Response(302, ACCESS_DENIED))
    case NoCode => Done(BadRequest(""))
    case MetaFailed => Done(Response(502, ""))
    case User(m, name, longLived, newID) =>
      if m == "" then
        Done(Response(502, ""))
      else if !cfg.allowed(m) then
        Done(Response(403, ""))
      else
        var row := TenantRow(m, name, longLived.token, Unix(now), Unix(now), DeadlineFrom(now, longLived.expiresIn));
        match TenantOf(t.tenants, m)
        case Some(id) => Then(Upserting(req, id, row.(createdAt := t.tenants[id].createdAt)))
        case None => Then(Upserting(req, newID, row))
  }

  ghost function Upsert(t: Tables, req: OAuthRequest, id: string, row: TenantRow): (Tables, Outcome) {
    match UpsertTenant(t.tenants, id, row)
    case None => (t, Done(Response(502, "")))
    case Some(tenants) => (t.(tenants := tenants), Then(Syncing(req, id)))
  }

  /** Accounts answered, then ReplacePages. */
  function StorePages(t: Tables, id: string, pages: Option<seq<Page>>, failed: Outcome,
      stored: Outcome): (Tables, Outcome) {
    if pages.None? then
      (t, failed)
    else
      match ReplacePages(t, id, pages.value)
      case None => (t, failed)
      case Some(rows) => (t.(pages := rows), stored)
  }

  function Issue(t: Tables, req: OAuthRequest, id: string, drawn: string, now: Time): (Tables, Outcome) {
    if drawn in t.codes then
      (t, Done(Response(500, "")))
    else
      var row := CodeRow(req.clientID, id, req.redirectURI, req.codeChallenge, req.resource, Unix(now + AUTH_CODE_TTL));
      (t.(codes := t.codes[drawn := row]), Done(Response(302, "")))
  }

  function Mint(cfg: Config, t: Tables, id: string, clientID: string, drawn: string, now: Time): (Tables, Outcome) {
    var hash := cfg.s256(drawn);
    if hash in t.refresh then
      (t, Done(Response(500, SERVER_ERROR)))
    else
      (t.(refresh := t.refresh[hash := RefreshRow(clientID, id, Unix(now + cfg.refreshTokenTTL), false)]),
          Done(Response(200, "")))
  }

  /** The row refreshOne writes back. */
  function Renewed(row: TenantRow, longLived: LongLivedToken, now: Time): TenantRow {
    row.(userToken := longLived.token, updatedAt := Unix(now), expiresAt := DeadlineFrom(now, longLived.expiresIn))
  }

  /** One tenant of the sweep; a failed exchange or a failed write only moves on to the next. */
  ghost function Renew(t: Tables, id: string, row: TenantRow, renewed: Option<LongLivedToken>, now: Time): Tables {
    if renewed.None? then
      t
    else
      match UpsertTenant(t.tenants, id, Renewed(row, renewed.value, now))
      case None => t
      case Some(tenants) => t.(tenants := tenants)
  }

  /** A handler that is offered an input it does not wait for stays where it is. */
  ghost function Resume(cfg: Config, t: Tables, p: Proc, input: Input, now: Time): (Tables, Outcome) {
    var stay := (t, Then(p));
    match p
    case Parking(req) => if input.Secret? then Park(t, req, input.drawn, now) else stay
    case LoggingIn(req) => if input.Login? then (t, Identify(cfg, t, req, input.answer, now)) else stay
    case Upserting(req, id, row) => if input.Nothing? then Upsert(t, req, id, row) else stay
    case Syncing(req, id) =>
      if input.Accounts? then
        StorePages(t, id, input.pages, Done(Response(502, "")),
                   if IsReconnect(req) then Done(Response(200, "")) else Then(Issuing(req, id)))
      else stay
    case Issuing(req, id) => if input.Secret? then Issue(t, req, id, input.drawn, now) else stay
    case Minting(id, clientID) => if input.Secret? then Mint(cfg, t, id, clientID, input.drawn, now) else stay
    case Deleting(id) => if input.Nothing? then (DeleteTenant(t, id), Done(Response(200, ""))) else stay
    case SyncingTool(id) =>
      if input.Accounts? then StorePages(t, id, input.pages, Done(Response(500, "")), Done(Response(200, ""))) else stay
    case Sweeping(todo) =>
      if !input.Exchange? then stay
      else if todo == [] then (t, Continue([]))
      else (Renew(t, todo[0].0, todo[0].1, input.renewed, now), Continue(todo[1..]))
  }

  // ----- the interleaved machine -----

  /** The database and the handlers in flight, by request number. */
  datatype Sys = Sys(t: Tables, procs: map<nat, Proc>)

  /** One store call of one handler, a handler that dies (database fault, client gone, crash), or one
      statement of PurgeExpired. `now` is the clock reading the call uses. */
  datatype Event =
    | Start(pid: nat, request: Request, now: Time)
    | Step(pid: nat, input: Input, now: Time)
    | Abort(pid: nat)
    | PurgeCodesAt(now: Time)
    | PurgeLoginsAt(now: Time)
    | PurgeRefreshAt(now: Time)

  predicate IsPurge(e: Event) { e.PurgeCodesAt? || e.PurgeLoginsAt? || e.PurgeRefreshAt? }

  function Purge(t: Tables, e: Event): Tables
    requires IsPurge(e)
  {
    match e
    case PurgeCodesAt(now) => PurgeCodes(t, now)
    case PurgeLoginsAt(now) => PurgeLogins(t, now)
    case PurgeRefreshAt(now) => PurgeRefresh(t, now)
  }

  /** A request number names one handler while it is in flight. */
  predicate Enabled(s: Sys, e: Event) {
    match e
    case Start(pid, _, _) => pid !in s.procs
    case Step(pid, _, _) => pid in s.procs
    case _ => true
  }

  /** The store call an enabled Start or Step performs. */
  ghost function Call(cfg: Config, s: Sys, e: Event): (Tables, Outcome)
    requires Enabled(s, e) && (e.Start? || e.Step?)
  {
    match e
    case Start(_, request, now) => Begin(cfg, s.t, request, now)
    case Step(pid, input, now) => Resume(cfg, s.t, s.procs[pid], input, now)
  }

  function Settle(procs: map<nat, Proc>, pid: nat, o: Outcome): map<nat, Proc> {
    match o
    case Done(_) => procs - {pid}
    case Then(p) => procs[pid := p]
  }

  /** One event; None unless a handler answered. Events that are not enabled do nothing. */
  ghost function Next(cfg: Config, s: Sys, e: Event): (Sys, Option<Response>) {
    if !Enabled(s, e) then
      (s, None)
    else
      match e
      case Abort(pid) => (s.(procs := s.procs - {pid}), None)
      case PurgeCodesAt(_) => (s.(t := Purge(s.t, e)), None)
      case PurgeLoginsAt(_) => (s.(t := Purge(s.t, e)), None)
      case PurgeRefreshAt(_) => (s.(t := Purge(s.t, e)), None)
      case Start(pid, _, _) =>
          var (t, o) := Call(cfg, s, e); (Sys(t, Settle(s.procs, pid, o)), if o.Done? then Some(o.response) else None)
      case Step(pid, _, _) =>
          var (t, o) := Call(cfg, s, e); (Sys(t, Settle(s.procs, pid, o)), if o.Done? then Some(o.response) else None)
  }

  ghost function Run(cfg: Config, s: Sys, events: seq<Event>): Sys
    decreases |events|
  {
    if events == [] then s else Run(cfg, Next(cfg, s, events[0]).0, events[1..])
  }

  lemma {:induction false} RunAppend(cfg: Config, s: Sys, a: seq<Event>, b: seq<Event>)
    ensures Run(cfg, s, a + b) == Run(cfg, Run(cfg, s, a), b)
    decreases |a|
  {
    if a == [] {
      assert a + b == b;
    } else {
      assert (a + b)[0] == a[0] && (a + b)[1..] == a[1..] + b;
      RunAppend(cfg, Next(cfg, s, a[0]).0, a[1..], b);
    }
  }

  // ----- the schema constraints hold in every interleaving -----

  /** How one store call changes the tenant and page tables. */
  datatype Edit =
    | NoEdit
    | Upserted(id: string, row: TenantRow)
    | Deleted(id: string)
    | Replaced(id: string, list: seq<Page>)

  ghost predicate Performs(t: Tables, edit: Edit, t': Tables) {
    match edit
    case NoEdit => t'.tenants == t.tenants && t'.pages == t.pages
    case Upserted(id, row) => UpsertTenant(t.tenants, id, row) == Some(t'.tenants) && t'.pages == t.pages
    case Deleted(id) => t' == DeleteTenant(t, id)
    case Replaced(id, list) => ReplacePages(t, id, list) == Some(t'.pages) && t'.tenants == t.tenants
  }

  /** The edit is of the tenant the handler works for. */
  predicate WorksFor(p: Proc, edit: Edit) {
    match edit
    case NoEdit => true
    case Upserted(id, row) =>
      || (p.Upserting? && id == p.id && row == p.row)
      || (p.Sweeping? && p.todo != [] && id == p.todo[0].0 && row.metaUserID == p.todo[0].1.metaUserID)
    case Deleted(id) => p.Deleting? && id == p.id
    case Replaced(id, _) => (p.Syncing? || p.SyncingTool?) && id == p.id
  }

  lemma SyncPerforms(cfg: Config, t: Tables, p: Proc, input: Input, now: Time) returns (edit: Edit)
    requires p.Syncing? || p.SyncingTool?
    ensures Performs(t, edit, Resume(cfg, t, p, input, now).0) && WorksFor(p, edit)
  {
    edit := NoEdit;
    if input.Accounts? && input.pages.Some? && ReplacePages(t, p.id, input.pages.value).Some? {
      edit := Replaced(p.id, input.pages.value);
    }
  }

  lemma SweepPerforms(cfg: Config, t: Tables, p: Proc, input: Input, now: Time) returns (edit: Edit)
    requires p.Sweeping?
    ensures Performs(t, edit, Resume(cfg, t, p, input, now).0) && WorksFor(p, edit)
  {
    edit := NoEdit;
    if p.todo != [] && input.Exchange? && input.renewed.Some? {
      var row := Renewed(p.todo[0].1, input.renewed.value, now);
      if UpsertTenant(t.tenants, p.todo[0].0, row).Some? { edit := Upserted(p.todo[0].0, row); }
    }
  }

  /** Every call performs at most one edit, of the tenant its handler works for. */
  lemma StepPerforms(cfg: Config, t: Tables, p: Proc, input: Input, now: Time) returns (edit: Edit)
    ensures Performs(t, edit, Resume(cfg, t, p, input, now).0) && WorksFor(p, edit)
  {
    edit := NoEdit;
    if p.Syncing? || p.SyncingTool? {
      edit := SyncPerforms(cfg, t, p, input, now);
    } else if p.Sweeping? {
      edit := SweepPerforms(cfg, t, p, input, now);
    } else if p.Upserting? {
      if input.Nothing? && UpsertTenant(t.tenants, p.id, p.row).Some? { edit := Upserted(p.id, p.row); }
    } else if p.Deleting? {
      if input.Nothing? { edit := Deleted(p.id); }
    }
  }

  lemma EditKeepsIdentity(t: Tables, edit: Edit, t': Tables)
    requires Sound(t) && Performs(t, edit, t')
    ensures Sound(t')
    ensures forall i :: i in t.tenants && i in t'.tenants ==> t'.tenants[i].metaUserID == t.tenants[i].metaUserID
    ensures t.tenants.Keys <= t'.tenants.Keys || t'.tenants.Keys <= t.tenants.Keys
  {
    match edit
    case NoEdit =>
    case Upserted(id, row) => UpsertKeepsIdentity(t.tenants, id, row);
    case Deleted(id) => DeleteKeepsSound(t, id);
    case Replaced(id, list) => ReplacePagesExact(t, id, list);
  }

  lemma EventPerforms(cfg: Config, s: Sys, e: Event) returns (edit: Edit)
    ensures Performs(s.t, edit, Next(cfg, s, e).0.t)
  {
    edit := NoEdit;
    if Enabled(s, e) && e.Step? {
      edit := StepPerforms(cfg, s.t, s.procs[e.pid], e.input, e.now);
    }
  }

  /** Users and ids stay in one-to-one correspondence, every page names a stored tenant, and a user who
      is stored before and after an event is stored under the same id, however handlers interleave. */
  lemma IdentityIsStable(cfg: Config, s: Sys, e: Event)
    requires Sound(s.t)
    ensures Sound(Next(cfg, s, e).0.t)
    ensures forall m :: TenantOf(s.t.tenants, m).Some? && TenantOf(Next(cfg, s, e).0.t.tenants, m).Some? ==>
              TenantOf(Next(cfg, s, e).0.t.tenants, m) == TenantOf(s.t.tenants, m)
  {
    var before, after := s.t, Next(cfg, s, e).0.t;
    var edit := EventPerforms(cfg, s, e);
    EditKeepsIdentity(before, edit, after);
    forall m | TenantOf(before.tenants, m).Some? && TenantOf(after.tenants, m).Some?
      ensures TenantOf(after.tenants, m) == TenantOf(before.tenants, m)
    {
      var id, id' := TenantOf(before.tenants, m).value, TenantOf(after.tenants, m).value;
      assert id in after.tenants || id' in before.tenants;
    }
  }

  lemma {:induction false} SoundForever(cfg: Config, s: Sys, events: seq<Event>)
    requires Sound(s.t)
    ensures Sound(Run(cfg, s, events).t)
    decreases |events|
  {
    if events != [] {
      IdentityIsStable(cfg, s, events[0]);
      SoundForever(cfg, Next(cfg, s, events[0]).0, events[1..]);
    }
  }
}
