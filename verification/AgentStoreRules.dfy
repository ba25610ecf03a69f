/**
 What each transaction of the agent credential store does and when it is refused, row by row: who is
 admitted, which token authenticates, and what a mint, a logout and a change of the directory leave.
 */
module AgentStoreRules {
  import opened Wrappers
  import opened StringOrder
  import opened Sorting
  import opened AgentStore
  import opened AgentStoreSafety
  import opened AgentStoreRuns

  // --- Who is admitted --------------------------------------------------------------------

  // The rows behind an identity, a user, a person and a membership are enabled and belong together.
  predicate Backed(d: Directory, identityId: string, userId: string, personId: string, membershipId: string) {
    && identityId in d.identities && d.identities[identityId].enabled && d.identities[identityId].userId == userId
    && userId in d.users
    && personId in d.people && d.people[personId].enabled && d.people[personId].userId == userId
    && membershipId in d.memberships
    && d.memberships[membershipId].enabled
    && d.memberships[membershipId].userId == userId && d.memberships[membershipId].personId == personId
  }

  // A subject is admitted to a membership exactly when the rows behind both are backed, as their user and
  // person and with the membership's models.
  lemma AdmittedExactly(d: Directory, subject: Subject, membershipId: string, identityId: string, userId: string, personId: string)
    ensures LoadContext(d, subject, membershipId).Some?
            && LoadContext(d, subject, membershipId).value.(aliases := []) == Context(identityId, userId, personId, [])
            <==> subject in d.subjects && d.subjects[subject] == identityId && Backed(d, identityId, userId, personId, membershipId)
    ensures LoadContext(d, subject, membershipId).Some? ==>
              && membershipId in d.memberships
              && LoadContext(d, subject, membershipId).value.aliases == d.memberships[membershipId].aliases
  {
  }

  // --- Which token authenticates ----------------------------------------------------------

  // A grant stands exactly while its own identity would be admitted to its membership as its user and person.
  lemma StandingIsAdmission(d: Directory, subject: Subject, g: Grant)
    requires subject in d.subjects && d.subjects[subject] == g.binding.identityId
    ensures Standing(d, g)
            <==> && LoadContext(d, subject, g.binding.membershipId).Some?
                 && LoadContext(d, subject, g.binding.membershipId).value.userId == g.userId
                 && LoadContext(d, subject, g.binding.membershipId).value.personId == g.personId
    ensures Standing(d, g) <==> Backed(d, g.binding.identityId, g.userId, g.personId, g.binding.membershipId)
  {
  }

  lemma StandingIsBacked(d: Directory, g: Grant)
    ensures Standing(d, g) <==> Backed(d, g.binding.identityId, g.userId, g.personId, g.binding.membershipId)
  {
  }

  // The token of a hash is known, neither it nor its grant is revoked or expired, the grant is backed, and
  // one of its models is effective.
  predicate Authentic(s: Store, hash: string) {
    && hash in s.hashes && s.hashes[hash] in s.tokens
    && var t := s.tokens[s.hashes[hash]];
       && t.revokedAt == None && s.now < t.expiresAt
       && t.grantId in s.grants
       && var g := s.grants[t.grantId];
          && g.revoked == None && s.now < g.expiresAt
          && Backed(s.directory, g.binding.identityId, g.userId, g.personId, g.binding.membershipId)
          && exists a <- g.aliases :: a in s.directory.memberships[g.binding.membershipId].aliases
  }

  lemma AuthenticatesExactly(s: Store, hash: string)
    ensures Authenticate(s, hash).Ok? <==> Authentic(s, hash)
    ensures Authenticate(s, hash).Err? ==> Authenticate(s, hash) == Err(Unauthenticated)
    ensures Authenticate(s, hash).Ok? ==>
              var t := s.tokens[s.hashes[hash]];
              var g := s.grants[t.grantId];
              var aliases := Authenticate(s, hash).value.aliases;
              && Authenticate(s, hash).value == Principal(t.grantId, s.hashes[hash], g.userId, g.binding.membershipId, aliases)
              && Ascending(aliases)
              && forall a :: a in aliases <==> a in g.aliases && a in s.directory.memberships[g.binding.membershipId].aliases
  {
    hide Sort, Ascending, Intersection, Backed, Standing;
    if hash in s.hashes && s.hashes[hash] in s.tokens && s.tokens[s.hashes[hash]].grantId in s.grants {
      var g := s.grants[s.tokens[s.hashes[hash]].grantId];
      StandingIsBacked(s.directory, g);
      if Standing(s.directory, g) {
        BackedMember(s.directory, g);
        var current := s.directory.memberships[g.binding.membershipId].aliases;
        forall a
          ensures a in Intersection(g.aliases, current) <==> a in g.aliases && a in current
        {
          IntersectionMembers(g.aliases, current, a);
        }
        assert Intersection(g.aliases, current) != [] ==> Intersection(g.aliases, current)[0] in g.aliases;
        if Authenticate(s, hash).Ok? {
          forall a {
            AuthenticatedAliases(s, hash, a);
          }
        }
      }
    }
  }

  lemma BackedMember(d: Directory, g: Grant)
    requires Standing(d, g)
    ensures g.binding.membershipId in d.memberships
  {
  }

  // --- While a row is off -----------------------------------------------------------------

  // The owner of a grant is fixed once and for all.
  predicate SameOwners(before: map<string, Grant>, after: map<string, Grant>) {
    forall id <- before :: id in after && after[id].binding == before[id].binding && after[id].userId == before[id].userId
      && after[id].personId == before[id].personId && after[id].createdAt == before[id].createdAt
  }

  lemma MintKeepsOwners(s: Store, input: MintInput)
    ensures SameOwners(s.grants, MintStep(s, input).0.grants)
  {
    hide LoadContext, Unused, AllRevocable, RevokeAll, Supersede, Subset, Revocable, LastGeneration, RowsPass;
  }

  lemma ApplyKeepsOwners(s: Store, e: Event)
    ensures SameOwners(s.grants, Apply(s, e).grants)
  {
    hide MintStep, AllRevocable, RevokeAll, AffectedGrants, LogoutTarget;
    if e.Minting? {
      MintKeepsOwners(s, e.input);
    }
  }

  lemma {:induction false} RunKeepsOwners(s: Store, events: seq<Event>)
    ensures SameOwners(s.grants, Run(s, events).grants)
  {
    hide Apply;
    if events != [] {
      RunKeepsOwners(s, events[..|events| - 1]);
      ApplyKeepsOwners(Run(s, events[..|events| - 1]), events[|events| - 1]);
    }
  }

  // Whatever ran since a grant was made: as long as its membership, its user, its person or its identity is
  // off, or they no longer belong together, no token of it authenticates.
  lemma OffMeansRejected(s: Store, events: seq<Event>, id: string, hash: string)
    requires id in s.grants
    ensures var later := Run(s, events);
            var g := s.grants[id];
            && !Backed(later.directory, g.binding.identityId, g.userId, g.personId, g.binding.membershipId)
            && hash in later.hashes && later.hashes[hash] in later.tokens && later.tokens[later.hashes[hash]].grantId == id
            ==> Authenticate(later, hash) == Err(Unauthenticated)
  {
    hide Run, Backed, Authenticate, Standing;
    RunKeepsOwners(s, events);
    AuthenticatesExactly(Run(s, events), hash);
  }

  // --- Revoked tokens ---------------------------------------------------------------------

  // Every token of these grants is revoked, at this time unless it was before; all others are as they were.
  predicate TokensRevoked(before: map<string, Token>, after: map<string, Token>, of: set<string>, at: int) {
    && after.Keys == before.Keys
    && forall t <- before ::
         after[t] == if before[t].grantId in of && before[t].revokedAt == None
                     then Token(before[t].grantId, before[t].prefix, before[t].hash, before[t].generation, before[t].issuedAt,
                                before[t].expiresAt, Some(at), before[t].replacedBy)
                     else before[t]
  }

  // No unrevoked token of these grants was issued later than this.
  predicate NoneLater(tokens: map<string, Token>, of: set<string>, at: int) {
    forall t <- tokens :: tokens[t].grantId in of && tokens[t].revokedAt == None ==> tokens[t].issuedAt <= at
  }

  lemma RevokingIs(tokens: map<string, Token>, of: set<string>, at: int)
    ensures TokensRevoked(tokens, RevokeAll(tokens, of, at), of, at)
    ensures AllRevocable(tokens, of, at) <==> NoneLater(tokens, of, at)
  {
  }

  // --- Logging out ------------------------------------------------------------------------

  // The grant a logout names: that of an enabled identity under this client, instance and membership,
  // while it is not revoked.
  predicate Named(s: Store, input: LogoutInput, id: string) {
    && input.subject in s.directory.subjects
    && var identityId := s.directory.subjects[input.subject];
       && identityId in s.directory.identities && s.directory.identities[identityId].enabled
       && var binding := Binding(identityId, input.clientId, input.clientInstance, input.membershipId);
          binding in s.bindings && s.bindings[binding] == id && id in s.grants && s.grants[id].revoked == None
  }

  // A logout revokes just the grant it names, as a logout, and that grant's tokens.
  lemma LogoutExactly(s: Store, input: LogoutInput, id: string)
    ensures LogoutStep(s, input).1 == Some(NotFound) <==> !exists named <- s.grants :: Named(s, input, named)
    ensures LogoutStep(s, input).1.Some? ==> LogoutStep(s, input).0 == s
    ensures Named(s, input, id) ==>
              var (next, fault) := LogoutStep(s, input);
              && (fault == None || fault == Some(StoreFailure))
              && (fault == None <==> s.grants[id].createdAt <= input.now && NoneLater(s.tokens, {id}, input.now))
              && (fault == None ==>
                    && next.now == s.now && next.directory == s.directory && next.bindings == s.bindings
                    && next.hashes == s.hashes && next.mints == s.mints
                    && next.grants == s.grants[id := s.grants[id].(revoked := Some(Revocation(input.now, "client_logout")))]
                    && TokensRevoked(s.tokens, next.tokens, {id}, input.now))
  {
    hide AllRevocable, RevokeAll, NoneLater, TokensRevoked;
    RevokingIs(s.tokens, {id}, input.now);
    if LogoutTarget(s, input).Some? {
      assert Named(s, input, LogoutTarget(s, input).value);
    }
  }

  // --- Changing the directory -------------------------------------------------------------

  // The change switches off or removes a row a grant was made under: its user, its person or its identity.
  predicate SwitchedOff(before: Directory, after: Directory, g: Grant) {
    || (g.userId in before.users && g.userId !in after.users)
    || (&& g.personId in before.people && before.people[g.personId].enabled
        && !(g.personId in after.people && after.people[g.personId].enabled))
    || (&& g.binding.identityId in before.identities && before.identities[g.binding.identityId].enabled
        && !(g.binding.identityId in after.identities && after.identities[g.binding.identityId].enabled))
  }

  function SwitchedOffGrants(s: Store, after: Directory): set<string> {
    set id | id in s.grants && SwitchedOff(s.directory, after, s.grants[id])
  }

  // A change revokes just the grants it switches off, by policy, and their tokens; a revocation that was
  // there before keeps its time and its reason.
  lemma DirectoryExactly(s: Store, after: Directory)
    ensures var (next, ok) := DirectoryStep(s, after);
            var off := SwitchedOffGrants(s, after);
            && (ok <==> NoneLater(s.tokens, off, s.now) && forall id <- off :: s.grants[id].revoked == None ==> s.grants[id].createdAt <= s.now)
            && (!ok ==> next == s)
            && (ok ==>
                  && next.now == s.now && next.directory == after && next.bindings == s.bindings
                  && next.hashes == s.hashes && next.mints == s.mints
                  && next.grants.Keys == s.grants.Keys
                  && (forall id <- s.grants ::
                        next.grants[id] == if id in off && s.grants[id].revoked == None
                                           then s.grants[id].(revoked := Some(Revocation(s.now, "identity_or_person_disabled")))
                                           else s.grants[id])
                  && TokensRevoked(s.tokens, next.tokens, off, s.now))
  {
    hide AllRevocable, RevokeAll, NoneLater, TokensRevoked;
    RevokingIs(s.tokens, SwitchedOffGrants(s, after), s.now);
    assert AffectedGrants(s, after) == SwitchedOffGrants(s, after);
  }

  // --- Minting ----------------------------------------------------------------------------

  predicate Admitted(d: Directory, subject: Subject, membershipId: string) {
    && subject in d.subjects && d.subjects[subject] in d.identities && membershipId in d.memberships
    && Backed(d, d.subjects[subject], d.identities[d.subjects[subject]].userId, d.memberships[membershipId].personId, membershipId)
  }

  // Where a mint finds or puts its key and its grant.
  function MintsUnder(s: Store, input: MintInput): MintKey
    requires Admitted(s.directory, input.subject, input.membershipId)
  {
    MintKey(s.directory.subjects[input.subject], input.clientId, input.keyDigest)
  }

  function BindsUnder(s: Store, input: MintInput): Binding
    requires Admitted(s.directory, input.subject, input.membershipId)
  {
    Binding(s.directory.subjects[input.subject], input.clientId, input.clientInstance, input.membershipId)
  }

  predicate Bound(s: Store, binding: Binding) {
    binding in s.bindings && s.bindings[binding] in s.grants
  }

  // Aliases are asked for, and all of them are effective.
  predicate Entitled(s: Store, input: MintInput)
    requires input.membershipId in s.directory.memberships
  {
    |input.aliases| > 0 && forall a <- input.aliases :: a in s.directory.memberships[input.membershipId].aliases
  }

  // The grant exists and was revoked for another reason than a logout.
  predicate Terminated(s: Store, binding: Binding) {
    Bound(s, binding) && s.grants[s.bindings[binding]].revoked.Some? && s.grants[s.bindings[binding]].revoked.value.reason != "client_logout"
  }

  // The new rows pass the table's checks and take no unique key.
  predicate RowsFit(s: Store, input: MintInput) {
    && |input.prefix| == 22 && input.prefix[..6] == "alz_u_"
    && (forall c <- input.prefix[6..] :: '0' <= c <= '9' || 'a' <= c <= 'f')
    && |input.hash| == 32 && |input.keyDigest| == 32 && |input.requestHash| == 32
    && input.tokenId !in s.tokens && input.hash !in s.hashes
    && (forall t <- s.tokens :: s.tokens[t].prefix != input.prefix)
    && (forall k <- s.mints :: s.mints[k].id != input.mintId)
  }

  // The grant's row passes its checks: a renewed one must not end before it began, a new one is new.
  predicate GrantFits(s: Store, binding: Binding, input: MintInput) {
    if Bound(s, binding) then s.grants[s.bindings[binding]].createdAt < input.now + 3600
    else input.grantId !in s.grants && |binding.clientInstance| == 32
  }

  function MintsInto(s: Store, binding: Binding, input: MintInput): string {
    if Bound(s, binding) then s.bindings[binding] else input.grantId
  }

  predicate Mintable(s: Store, input: MintInput)
    requires Admitted(s.directory, input.subject, input.membershipId)
  {
    var binding := BindsUnder(s, input);
    && GrantFits(s, binding, input) && RowsFit(s, input)
    && NoneLater(s.tokens, {MintsInto(s, binding, input)}, input.now)
  }

  lemma AdmittedIs(s: Store, input: MintInput)
    ensures LoadContext(s.directory, input.subject, input.membershipId).Some? <==> Admitted(s.directory, input.subject, input.membershipId)
    ensures Admitted(s.directory, input.subject, input.membershipId) ==>
              && LoadContext(s.directory, input.subject, input.membershipId)
                 == Some(Context(s.directory.subjects[input.subject], s.directory.identities[s.directory.subjects[input.subject]].userId,
                                 s.directory.memberships[input.membershipId].personId, s.directory.memberships[input.membershipId].aliases))
              && KeyOf(LoadContext(s.directory, input.subject, input.membershipId).value, input) == MintsUnder(s, input)
              && BindingOf(LoadContext(s.directory, input.subject, input.membershipId).value, input) == BindsUnder(s, input)
  {
  }

  lemma RowsFitIs(s: Store, input: MintInput)
    ensures RowsFit(s, input) <==> RowsPass(input) && Unused(s, input)
  {
  }

  lemma EnrolIs(s: Store, binding: Binding, context: Context, input: MintInput)
    ensures Enrol(s, binding, context, input).Ok? <==> !Terminated(s, binding) && GrantFits(s, binding, input)
    ensures Terminated(s, binding) ==> Enrol(s, binding, context, input) == Err(Forbidden)
    ensures !Terminated(s, binding) && !GrantFits(s, binding, input) ==> Enrol(s, binding, context, input) == Err(StoreFailure)
    ensures Enrol(s, binding, context, input).Ok? ==>
              Enrol(s, binding, context, input).value
              == (MintsInto(s, binding, input),
                  if Bound(s, binding) then s.grants[s.bindings[binding]].(aliases := input.aliases, expiresAt := input.now + 3600, revoked := None)
                  else Grant(binding, context.userId, context.personId, input.aliases, input.now, input.now + 3600, None))
  {
  }

  // A mint under an unused key: who is refused, what fails, and what succeeds.
  lemma MintExactly(s: Store, input: MintInput)
    ensures !Admitted(s.directory, input.subject, input.membershipId) ==> MintStep(s, input) == (s, Err(Forbidden))
    ensures Admitted(s.directory, input.subject, input.membershipId) && MintsUnder(s, input) !in s.mints ==>
              && (MintStep(s, input).1 == Err(Forbidden) <==> !Entitled(s, input) || Terminated(s, BindsUnder(s, input)))
              && (MintStep(s, input).1 == Err(StoreFailure)
                  <==> Entitled(s, input) && !Terminated(s, BindsUnder(s, input)) && !Mintable(s, input))
              && (MintStep(s, input).1.Ok?
                  <==> Entitled(s, input) && !Terminated(s, BindsUnder(s, input)) && Mintable(s, input))
              && (MintStep(s, input).1.Err? ==> MintStep(s, input).0 == s)
              && (MintStep(s, input).1.Ok? ==>
                    MintStep(s, input).1
                    == Ok(Credential(MintsInto(s, BindsUnder(s, input), input), input.secret, input.now + 600, input.aliases)))
  {
    hide LoadContext, RevokeAll, Supersede, RowsPass, Unused, AllRevocable, NoneLater, RowsFit, Admitted, Enrol, GrantFits, Bound, Terminated, MintsInto,
      NewToken, TokensRevoked, KeyOf, BindingOf, MintsUnder, BindsUnder;
    AdmittedIs(s, input);
    if Admitted(s.directory, input.subject, input.membershipId) {
      AdmittedHas(s, input);
      var context := LoadContext(s.directory, input.subject, input.membershipId).value;
      var binding := BindsUnder(s, input);
      EnrolIs(s, binding, context, input);
      RowsFitIs(s, input);
      RevokingIs(s.tokens, {MintsInto(s, binding, input)}, input.now);
    }
  }

  lemma AdmittedHas(s: Store, input: MintInput)
    requires Admitted(s.directory, input.subject, input.membershipId)
    ensures input.membershipId in s.directory.memberships
    ensures s.directory.subjects[input.subject] in s.directory.identities
  {
  }

  // What a successful mint leaves: the grant renewed or made, the next generation in it, all earlier tokens
  // of the grant revoked, those revoked now naming their successor, and the key taken.
  lemma MintLeaves(s: Store, input: MintInput)
    requires MintStep(s, input).1.Ok?
    ensures Admitted(s.directory, input.subject, input.membershipId)
    ensures input.membershipId in s.directory.memberships && s.directory.subjects[input.subject] in s.directory.identities
    ensures var next := MintStep(s, input).0;
            var binding := BindsUnder(s, input);
            var id := MintsInto(s, binding, input);
            && next.now == s.now && next.directory == s.directory
            && next.grants
               == s.grants[id := if Bound(s, binding) then s.grants[s.bindings[binding]].(aliases := input.aliases, expiresAt := input.now + 3600, revoked := None)
                                 else Grant(binding, s.directory.identities[s.directory.subjects[input.subject]].userId,
                                            s.directory.memberships[input.membershipId].personId, input.aliases, input.now, input.now + 3600, None)]
            && next.bindings == s.bindings[next.grants[id].binding := id]
            && next.hashes == s.hashes[input.hash := input.tokenId]
            && next.mints == s.mints[MintsUnder(s, input) := MintRow(input.mintId, input.requestHash, id, input.tokenId, false)]
            && TokensReplaced(s.tokens, next.tokens, id, input)
  {
    hide LoadContext, RevokeAll, Supersede, RowsPass, Unused, AllRevocable, Enrol, NewToken, TokensReplaced, Admitted;
    AdmittedIs(s, input);
    AdmittedHas(s, input);
    var context := LoadContext(s.directory, input.subject, input.membershipId).value;
    var binding := BindsUnder(s, input);
    EnrolIs(s, binding, context, input);
    UnusedToken(s, input);
    TokensReplacedBy(s, MintsInto(s, binding, input), input);
  }

  lemma UnusedToken(s: Store, input: MintInput)
    ensures Unused(s, input) ==> input.tokenId !in s.tokens
  {
  }

  predicate TokensReplaced(before: map<string, Token>, after: map<string, Token>, id: string, input: MintInput) {
    && after.Keys == before.Keys + {input.tokenId}
    && (var t := after[input.tokenId];
        && t == Token(id, input.prefix, input.hash, t.generation, input.now, input.now + 600, None, None)
        && (forall u <- before | before[u].grantId == id :: before[u].generation < t.generation)
        && ((forall u <- before :: before[u].grantId != id) ==> t.generation == 1)
        && ((exists u <- before :: before[u].grantId == id) ==> exists u <- before :: before[u].grantId == id && before[u].generation == t.generation - 1))
    && forall u <- before ::
         if before[u].grantId != id then after[u] == before[u]
         else
           && after[u].revokedAt == Some(if before[u].revokedAt == None then input.now else before[u].revokedAt.value)
           && after[u].replacedBy == (if before[u].replacedBy == None && after[u].revokedAt == Some(input.now) then Some(input.tokenId) else before[u].replacedBy)
           && after[u].(revokedAt := None, replacedBy := None) == before[u].(revokedAt := None, replacedBy := None)
  }

  lemma TokensReplacedBy(s: Store, id: string, input: MintInput)
    requires input.tokenId !in s.tokens
    ensures TokensReplaced(s.tokens, Supersede(RevokeAll(s.tokens, {id}, input.now), id, input.tokenId, input.now)[input.tokenId := NewToken(s, id, input)], id, input)
  {
    hide LastGeneration;
    var older := Supersede(RevokeAll(s.tokens, {id}, input.now), id, input.tokenId, input.now);
    var after := older[input.tokenId := NewToken(s, id, input)];
    NextIsHighest(s.tokens, id);
    assert after.Keys == s.tokens.Keys + {input.tokenId};
    forall u <- s.tokens
      ensures after[u] == older[u]
    {
    }
    OlderTokens(s.tokens, id, input);
    hide Supersede, RevokeAll;
  }

  // The tokens there were, after the grant's were revoked and superseded.
  lemma OlderTokens(tokens: map<string, Token>, id: string, input: MintInput)
    ensures var older := Supersede(RevokeAll(tokens, {id}, input.now), id, input.tokenId, input.now);
            && older.Keys == tokens.Keys
            && forall u <- tokens ::
                 if tokens[u].grantId != id then older[u] == tokens[u]
                 else
                   && older[u].revokedAt == Some(if tokens[u].revokedAt == None then input.now else tokens[u].revokedAt.value)
                   && older[u].replacedBy == (if tokens[u].replacedBy == None && older[u].revokedAt == Some(input.now) then Some(input.tokenId) else tokens[u].replacedBy)
                   && older[u].(revokedAt := None, replacedBy := None) == tokens[u].(revokedAt := None, replacedBy := None)
  {
  }

  lemma NextIsHighest(tokens: map<string, Token>, id: string)
    ensures forall u <- tokens | tokens[u].grantId == id :: tokens[u].generation < LastGeneration(tokens, id) + 1
    ensures (forall u <- tokens :: tokens[u].grantId != id) ==> LastGeneration(tokens, id) == 0
    ensures (exists u <- tokens :: tokens[u].grantId == id) ==>
              exists u <- tokens :: tokens[u].grantId == id && tokens[u].generation == LastGeneration(tokens, id) + 1 - 1
  {
    var numbers := Generations(tokens, id);
    forall u <- tokens | tokens[u].grantId == id
      ensures tokens[u].generation in numbers
    {
    }
  }

  // A used key: another request is a conflict, and the same one revokes the key's token and loses its
  // credential for good.
  lemma ReplayExactly(s: Store, input: MintInput)
    requires Admitted(s.directory, input.subject, input.membershipId) && MintsUnder(s, input) in s.mints
    ensures var mint := s.mints[MintsUnder(s, input)];
            var (next, result) := MintStep(s, input);
            if mint.requestHash != input.requestHash then next == s && result == Err(IdempotencyConflict)
            else if mint.tokenId in s.tokens && s.tokens[mint.tokenId].revokedAt == None && input.now < s.tokens[mint.tokenId].issuedAt then
              next == s && result == Err(StoreFailure)
            else
              && result == Err(ResponseUnrecoverable)
              && next.now == s.now && next.directory == s.directory && next.grants == s.grants && next.bindings == s.bindings
              && next.hashes == s.hashes
              && next.mints == s.mints[MintsUnder(s, input) := MintRow(mint.id, mint.requestHash, mint.grantId, mint.tokenId, true)]
              && next.tokens.Keys == s.tokens.Keys
              && forall t <- s.tokens ::
                   next.tokens[t] == if t == mint.tokenId && s.tokens[t].revokedAt == None then s.tokens[t].(revokedAt := Some(input.now)) else s.tokens[t]
  {
    hide LoadContext, Admitted, MintsUnder, KeyOf;
    AdmittedIs(s, input);
  }
}
