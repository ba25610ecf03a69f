/**
 The agent credential store: grants, token generations and idempotent mints. Each transaction is one
 step; a step whose row checks or unique keys would be violated fails and changes nothing.
 */
module AgentStore {
  import opened Wrappers
  import opened StringOrder
  import opened Sorting

  // Seconds; the service sets both from the time of the mint.
  const TOKEN_LIFETIME := 600
  const GRANT_LIFETIME := 3600

  const CLIENT_LOGOUT := "client_logout"
  const AUTHORITY_DISABLED := "identity_or_person_disabled"

  // --- The directory ----------------------------------------------------------------------

  datatype Subject = Subject(issuer: string, name: string)
  datatype IdentityRow = IdentityRow(userId: string, enabled: bool)
  datatype PersonRow = PersonRow(userId: string, enabled: bool)

  // `personId`: the user's person in the membership's organisation. `aliases`: the models effective there.
  datatype MembershipRow = MembershipRow(userId: string, personId: string, enabled: bool, aliases: seq<string>)

  // `users` are the enabled ones.
  datatype Directory = Directory(
    subjects: map<Subject, string>, identities: map<string, IdentityRow>, users: set<string>,
    people: map<string, PersonRow>, memberships: map<string, MembershipRow>)

  predicate IdentityOn(d: Directory, id: string) {
    id in d.identities && d.identities[id].enabled
  }

  predicate PersonOn(d: Directory, id: string) {
    id in d.people && d.people[id].enabled
  }

  datatype Context = Context(identityId: string, userId: string, personId: string, aliases: seq<string>)

  // An identity's standing in a membership, when all rows behind it are enabled.
  function LoadContext(d: Directory, subject: Subject, membershipId: string): Option<Context> {
    if subject !in d.subjects || !IdentityOn(d, d.subjects[subject]) || membershipId !in d.memberships then None else
    var identityId, m := d.subjects[subject], d.memberships[membershipId];
    var userId := d.identities[identityId].userId;
    if && userId in d.users && m.enabled && m.userId == userId
       && PersonOn(d, m.personId) && d.people[m.personId].userId == userId
    then Some(Context(identityId, userId, m.personId, m.aliases))
    else None
  }

  // --- The rows ---------------------------------------------------------------------------

  // The columns a grant is unique by.
  datatype Binding = Binding(identityId: string, clientId: string, clientInstance: string, membershipId: string)

  datatype Revocation = Revocation(at: int, reason: string)

  datatype Grant = Grant(
    binding: Binding, userId: string, personId: string, aliases: seq<string>,
    createdAt: int, expiresAt: int, revoked: Option<Revocation>)

  datatype Token = Token(
    grantId: string, prefix: string, hash: string, generation: int,
    issuedAt: int, expiresAt: int, revokedAt: Option<int>, replacedBy: Option<string>)

  datatype MintKey = MintKey(identityId: string, clientId: string, keyDigest: string)

  // `lost`: the response was replayed and its credential cannot be recovered.
  datatype MintRow = MintRow(id: string, requestHash: string, grantId: string, tokenId: string, lost: bool)

  // `bindings` and `hashes` are the unique indexes of grants and tokens. `now` is the database clock.
  datatype Store = Store(
    now: int, directory: Directory, grants: map<string, Grant>, bindings: map<Binding, string>,
    tokens: map<string, Token>, hashes: map<string, string>, mints: map<MintKey, MintRow>)

  function Empty(now: int, directory: Directory): Store {
    Store(now, directory, map[], map[], map[], map[], map[])
  }

  datatype Fault = Forbidden | NotFound | IdempotencyConflict | ResponseUnrecoverable | Unauthenticated | StoreFailure

  function GrantFor(s: Store, binding: Binding): Option<string> {
    if binding in s.bindings && s.bindings[binding] in s.grants then Some(s.bindings[binding]) else None
  }

  function Generations(tokens: map<string, Token>, grantId: string): set<int> {
    set t | t in tokens && tokens[t].grantId == grantId :: tokens[t].generation
  }

  function LastGeneration(tokens: map<string, Token>, grantId: string): int {
    Greatest(Generations(tokens, grantId))
  }

  // --- Revoking tokens --------------------------------------------------------------------

  // A revocation time, once set, stays.
  function Revoked(t: Token, at: int): Token {
    if t.revokedAt.Some? then t else t.(revokedAt := Some(at))
  }

  // No token is revoked before it was issued.
  predicate Revocable(t: Token, at: int) {
    t.revokedAt.Some? || t.issuedAt <= at
  }

  predicate AllRevocable(tokens: map<string, Token>, of: set<string>, at: int) {
    forall t <- tokens | tokens[t].grantId in of :: Revocable(tokens[t], at)
  }

  function RevokeAll(tokens: map<string, Token>, of: set<string>, at: int): map<string, Token> {
    map t | t in tokens :: if tokens[t].grantId in of then Revoked(tokens[t], at) else tokens[t]
  }

  // The tokens of a grant revoked at this very time are marked as replaced.
  function Supersede(tokens: map<string, Token>, grantId: string, successor: string, at: int): map<string, Token> {
    map t | t in tokens ::
      if tokens[t].grantId == grantId && tokens[t].revokedAt == Some(at) && tokens[t].replacedBy.None?
      then tokens[t].(replacedBy := Some(successor)) else tokens[t]
  }

  // --- Minting ----------------------------------------------------------------------------

  datatype MintInput = MintInput(
    subject: Subject, clientId: string, clientInstance: string, keyDigest: string, requestHash: string,
    membershipId: string, aliases: seq<string>, grantId: string, tokenId: string, mintId: string,
    secret: string, prefix: string, hash: string, now: int)

  datatype Credential = Credential(grantId: string, secret: string, expiresAt: int, aliases: seq<string>)

  predicate Subset(wanted: seq<string>, available: seq<string>) {
    wanted != [] && forall a <- wanted :: a in available
  }

  // A key that was used before: the same request loses its credential, another one is refused.
  function Replay(s: Store, key: MintKey, input: MintInput): (Store, Fault)
    requires key in s.mints
  {
    var mint := s.mints[key];
    if mint.requestHash != input.requestHash then (s, IdempotencyConflict)
    else if mint.tokenId in s.tokens && !Revocable(s.tokens[mint.tokenId], input.now) then (s, StoreFailure)
    else
      var tokens := if mint.tokenId in s.tokens then s.tokens[mint.tokenId := Revoked(s.tokens[mint.tokenId], input.now)] else s.tokens;
      (s.(tokens := tokens, mints := s.mints[key := mint.(lost := true)]), ResponseUnrecoverable)
  }

  // The grant a mint goes to: a renewed one or a new one.
  function Enrol(s: Store, binding: Binding, context: Context, input: MintInput): Result<(string, Grant), Fault> {
    match GrantFor(s, binding)
    case Some(id) =>
      var grant := s.grants[id];
      if grant.revoked.Some? && grant.revoked.value.reason != CLIENT_LOGOUT then Err(Forbidden)
      else if input.now + GRANT_LIFETIME <= grant.createdAt then Err(StoreFailure)
      else Ok((id, grant.(aliases := input.aliases, expiresAt := input.now + GRANT_LIFETIME, revoked := None)))
    case None =>
      if input.grantId in s.grants || !Digest(binding.clientInstance) then Err(StoreFailure) else
      Ok((input.grantId,
          Grant(binding, context.userId, context.personId, input.aliases, input.now, input.now + GRANT_LIFETIME, None)))
  }

  // Digests are 32 bytes, and a token's prefix has its marker and sixteen hexadecimal digits.
  predicate Digest(bytes: string) {
    |bytes| == 32
  }

  predicate ValidPrefix(prefix: string) {
    |prefix| == 22 && prefix[..6] == "alz_u_" && forall c <- prefix[6..] :: Hex(c)
  }

  // The checks on the rows of a new token and its mint.
  predicate RowsPass(input: MintInput) {
    ValidPrefix(input.prefix) && Digest(input.hash) && Digest(input.keyDigest) && Digest(input.requestHash)
  }

  // No unique key of the new rows is taken.
  predicate Unused(s: Store, input: MintInput) {
    && input.tokenId !in s.tokens && input.hash !in s.hashes
    && (forall t <- s.tokens :: s.tokens[t].prefix != input.prefix)
    && (forall k <- s.mints :: s.mints[k].id != input.mintId)
  }

  function NewToken(s: Store, grantId: string, input: MintInput): Token {
    Token(grantId, input.prefix, input.hash, LastGeneration(s.tokens, grantId) + 1,
          input.now, input.now + TOKEN_LIFETIME, None, None)
  }

  // The next generation of a grant replaces every earlier one.
  function Issue(s: Store, key: MintKey, grantId: string, grant: Grant, input: MintInput): Option<Store> {
    if !AllRevocable(s.tokens, {grantId}, input.now) || !Unused(s, input) || !RowsPass(input) then None else
    var older := Supersede(RevokeAll(s.tokens, {grantId}, input.now), grantId, input.tokenId, input.now);
    Some(s.(
      grants := s.grants[grantId := grant], bindings := s.bindings[grant.binding := grantId],
      tokens := older[input.tokenId := NewToken(s, grantId, input)], hashes := s.hashes[input.hash := input.tokenId],
      mints := s.mints[key := MintRow(input.mintId, input.requestHash, grantId, input.tokenId, false)]))
  }

  function KeyOf(context: Context, input: MintInput): MintKey {
    MintKey(context.identityId, input.clientId, input.keyDigest)
  }

  function BindingOf(context: Context, input: MintInput): Binding {
    Binding(context.identityId, input.clientId, input.clientInstance, input.membershipId)
  }

  function MintStep(s: Store, input: MintInput): (Store, Result<Credential, Fault>) {
    match LoadContext(s.directory, input.subject, input.membershipId)
    case None => (s, Err(Forbidden))
    case Some(context) =>
      var key := KeyOf(context, input);
      if key in s.mints then
        var replay := Replay(s, key, input);
        (replay.0, Err(replay.1))
      else if !Subset(input.aliases, context.aliases) then (s, Err(Forbidden))
      else
        match Enrol(s, BindingOf(context, input), context, input)
        case Err(e) => (s, Err(e))
        case Ok((grantId, grant)) =>
          match Issue(s, key, grantId, grant, input)
          case None => (s, Err(StoreFailure))
          case Some(next) => (next, Ok(Credential(grantId, input.secret, input.now + TOKEN_LIFETIME, input.aliases)))
  }

  // --- Logging out ------------------------------------------------------------------------

  datatype LogoutInput = LogoutInput(subject: Subject, clientId: string, membershipId: string, clientInstance: string, now: int)

  // The live grant a logout names.
  function LogoutTarget(s: Store, input: LogoutInput): Option<string> {
    if input.subject !in s.directory.subjects || !IdentityOn(s.directory, s.directory.subjects[input.subject]) then None else
    var binding := Binding(s.directory.subjects[input.subject], input.clientId, input.clientInstance, input.membershipId);
    match GrantFor(s, binding)
    case Some(id) => if s.grants[id].revoked.None? then Some(id) else None
    case None => None
  }

  function LogoutStep(s: Store, input: LogoutInput): (Store, Option<Fault>) {
    match LogoutTarget(s, input)
    case None => (s, Some(NotFound))
    case Some(id) =>
      if input.now < s.grants[id].createdAt || !AllRevocable(s.tokens, {id}, input.now) then (s, Some(StoreFailure)) else
      (s.(grants := s.grants[id := s.grants[id].(revoked := Some(Revocation(input.now, CLIENT_LOGOUT)))],
          tokens := RevokeAll(s.tokens, {id}, input.now)), None)
  }

  // --- The environment --------------------------------------------------------------------

  // Whether a change of the directory disables the user, the person or the identity of a grant.
  predicate Affected(before: Directory, after: Directory, g: Grant) {
    || (g.userId in before.users && g.userId !in after.users)
    || (PersonOn(before, g.personId) && !PersonOn(after, g.personId))
    || (IdentityOn(before, g.binding.identityId) && !IdentityOn(after, g.binding.identityId))
  }

  function AffectedGrants(s: Store, after: Directory): set<string> {
    set id | id in s.grants && Affected(s.directory, after, s.grants[id])
  }

  // A revocation that is already there keeps its time and its reason.
  function DisableAll(grants: map<string, Grant>, affected: set<string>, at: int): map<string, Grant> {
    map id | id in grants ::
      if id in affected && grants[id].revoked.None? then grants[id].(revoked := Some(Revocation(at, AUTHORITY_DISABLED)))
      else grants[id]
  }

  // A change of the directory, with the trigger that revokes what it disables.
  function DirectoryStep(s: Store, after: Directory): (Store, bool) {
    var affected := AffectedGrants(s, after);
    if || (exists id <- affected :: s.grants[id].revoked.None? && s.now < s.grants[id].createdAt)
       || !AllRevocable(s.tokens, affected, s.now)
    then (s, false)
    else (s.(directory := after, grants := DisableAll(s.grants, affected, s.now), tokens := RevokeAll(s.tokens, affected, s.now)), true)
  }

  // --- Authenticating ---------------------------------------------------------------------

  datatype Principal = Principal(grantId: string, tokenId: string, userId: string, membershipId: string, aliases: seq<string>)

  // The rows behind a grant are enabled and still belong together.
  predicate Standing(d: Directory, g: Grant) {
    && IdentityOn(d, g.binding.identityId) && d.identities[g.binding.identityId].userId == g.userId
    && g.userId in d.users
    && PersonOn(d, g.personId) && d.people[g.personId].userId == g.userId
    && g.binding.membershipId in d.memberships
    && var m := d.memberships[g.binding.membershipId]; m.enabled && m.userId == g.userId && m.personId == g.personId
  }

  predicate Live(s: Store, t: Token) {
    && t.revokedAt.None? && t.expiresAt > s.now
    && t.grantId in s.grants && s.grants[t.grantId].revoked.None? && s.grants[t.grantId].expiresAt > s.now
  }

  function Intersection(granted: seq<string>, current: seq<string>): seq<string> {
    if granted == [] then []
    else (if granted[0] in current then [granted[0]] else []) + Intersection(granted[1..], current)
  }

  function Authenticate(s: Store, hash: string): Result<Principal, Fault> {
    if hash !in s.hashes || s.hashes[hash] !in s.tokens then Err(Unauthenticated) else
    var tokenId := s.hashes[hash];
    var t := s.tokens[tokenId];
    if !Live(s, t) || !Standing(s.directory, s.grants[t.grantId]) then Err(Unauthenticated) else
    var g := s.grants[t.grantId];
    var aliases := Intersection(g.aliases, s.directory.memberships[g.binding.membershipId].aliases);
    if aliases == [] then Err(Unauthenticated)
    else Ok(Principal(t.grantId, tokenId, g.userId, g.binding.membershipId, Sort(aliases)))
  }

  // --- Runs -------------------------------------------------------------------------------

  datatype Event = Minting(input: MintInput) | LoggingOut(logout: LogoutInput) | Reorganising(after: Directory) | Passing(seconds: nat)

  function Apply(s: Store, e: Event): Store {
    match e
    case Minting(input) => MintStep(s, input).0
    case LoggingOut(input) => LogoutStep(s, input).0
    case Reorganising(after) => DirectoryStep(s, after).0
    case Passing(seconds) => s.(now := s.now + seconds)
  }

  function Run(s: Store, events: seq<Event>): Store {
    if events == [] then s else Apply(Run(s, events[..|events| - 1]), events[|events| - 1])
  }
}
