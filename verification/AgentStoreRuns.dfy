/** Safety of the agent credential store over whole runs: rejection, revocation and idempotent mints. */
module AgentStoreRuns {
  import opened Wrappers
  import opened StringOrder
  import opened AgentStore
  import opened AgentStoreSafety

  lemma EmptyConsistent(now: int, directory: Directory)
    ensures Consistent(Empty(now, directory))
  {
  }

  lemma {:induction false} RunConsistent(s: Store, events: seq<Event>)
    requires Consistent(s)
    ensures Consistent(Run(s, events)) && AllAged(s.tokens, Run(s, events).tokens)
    ensures s.now <= Run(s, events).now
  {
    hide Consistent, AllAged, MintStep, LogoutStep, DirectoryStep;
    AgedReflexive(s.tokens);
    if events != [] {
      var before := Run(s, events[..|events| - 1]);
      RunConsistent(s, events[..|events| - 1]);
      ApplyConsistent(before, events[|events| - 1]);
      AgedTransitive(s.tokens, before.tokens, Run(s, events).tokens);
      ClockMoves(before, events[|events| - 1]);
    }
  }

  lemma ClockMoves(s: Store, e: Event)
    ensures s.now <= Apply(s, e).now
  {
  }

  function UpTo(k: int): (numbers: set<int>)
    ensures forall n :: n in numbers <==> 1 <= n <= k
  {
    if k <= 0 then {} else UpTo(k - 1) + {k}
  }

  predicate ActiveTokenOf(s: Store, grantId: string, t: string) {
    t in s.tokens && s.tokens[t].grantId == grantId && s.tokens[t].revokedAt.None?
  }

  lemma ConsistentGenerations(s: Store, grantId: string)
    requires Numbered(s.tokens)
    ensures Generations(s.tokens, grantId) == UpTo(LastGeneration(s.tokens, grantId))
  {
    hide Generations, LastGeneration, Numbered, Prefixed;
    forall n
      ensures n in Generations(s.tokens, grantId) <==> n in UpTo(LastGeneration(s.tokens, grantId))
    {
      GenerationsExact(s.tokens, grantId, n);
    }
  }

  lemma ConsistentActive(s: Store, grantId: string, t: string)
    requires Fenced(s) && ActiveTokenOf(s, grantId, t)
    ensures grantId in s.grants && s.grants[grantId].revoked.None? && s.tokens[t].expiresAt <= s.grants[grantId].expiresAt
    ensures s.tokens[t].generation == LastGeneration(s.tokens, grantId)
  {
    hide LastGeneration;
  }

  // In every reachable state a grant's generations are exactly 1 to k, at most one of its tokens is
  // unrevoked, and that one is the newest, expires no later than the grant, and is not under a
  // revoked grant.
  lemma GrantDiscipline(now: int, directory: Directory, events: seq<Event>, grantId: string, t: string, u: string)
    ensures var s := Run(Empty(now, directory), events);
            Generations(s.tokens, grantId) == UpTo(LastGeneration(s.tokens, grantId))
    ensures var s := Run(Empty(now, directory), events);
            ActiveTokenOf(s, grantId, t) && ActiveTokenOf(s, grantId, u) ==> t == u
    ensures var s := Run(Empty(now, directory), events);
            ActiveTokenOf(s, grantId, t) ==>
              && grantId in s.grants && s.grants[grantId].revoked.None?
              && s.tokens[t].expiresAt <= s.grants[grantId].expiresAt
              && s.tokens[t].generation == LastGeneration(s.tokens, grantId)
  {
    hide Run, Generations, LastGeneration, Indexed, Recorded, TokensDated, GrantsDated, Fenced, Prefixed;
    EmptyConsistent(now, directory);
    RunConsistent(Empty(now, directory), events);
    var s := Run(Empty(now, directory), events);
    ConsistentGenerations(s, grantId);
    if ActiveTokenOf(s, grantId, t) {
      ConsistentActive(s, grantId, t);
    }
    if ActiveTokenOf(s, grantId, u) {
      ConsistentActive(s, grantId, u);
    }
  }

  // --- Rejection is for good --------------------------------------------------------------

  // The token of this hash, or its grant, is revoked or expired.
  predicate Dead(s: Store, hash: string) {
    hash in s.hashes && s.hashes[hash] in s.tokens && !Live(s, s.tokens[s.hashes[hash]])
  }

  lemma LiveIsUnrevoked(s: Store, t: string)
    requires Fenced(s) && t in s.tokens
    ensures Live(s, s.tokens[t]) <==> s.tokens[t].revokedAt.None? && s.tokens[t].expiresAt > s.now
  {
  }

  // A token once rejected because it or its grant was revoked or expired is rejected in every later
  // state of every run, also when the same grant is renewed.
  lemma RejectedForever(s: Store, events: seq<Event>, hash: string)
    requires Consistent(s) && Dead(s, hash)
    ensures Dead(Run(s, events), hash)
    ensures Authenticate(Run(s, events), hash) == Err(Unauthenticated)
  {
    hide Run, Numbered, Recorded, TokensDated, GrantsDated, Fenced, Live, Standing, Prefixed;
    RunConsistent(s, events);
    var later := Run(s, events);
    var t := s.hashes[hash];
    LiveIsUnrevoked(s, t);
    assert Aged(s.tokens[t], later.tokens[t]);
    LiveIsUnrevoked(later, t);
  }

  lemma RevocationTimeNeverChanges(s: Store, events: seq<Event>, t: string)
    requires Consistent(s) && t in s.tokens && s.tokens[t].revokedAt.Some?
    ensures t in Run(s, events).tokens && Run(s, events).tokens[t].revokedAt == s.tokens[t].revokedAt
  {
    hide Run, Consistent;
    RunConsistent(s, events);
    assert Aged(s.tokens[t], Run(s, events).tokens[t]);
  }

  // --- Grants revoked by policy -----------------------------------------------------------

  // Revoked for any reason but a logout.
  predicate Banned(s: Store, id: string) {
    id in s.grants && s.grants[id].revoked.Some? && s.grants[id].revoked.value.reason != CLIENT_LOGOUT
  }

  lemma EnrolSparesBanned(s: Store, binding: Binding, context: Context, input: MintInput, id: string)
    requires Banned(s, id) && Enrol(s, binding, context, input).Ok?
    ensures Enrol(s, binding, context, input).value.0 != id
  {
  }

  lemma MintSparesBanned(s: Store, input: MintInput, id: string)
    requires Banned(s, id)
    ensures id in MintStep(s, input).0.grants && MintStep(s, input).0.grants[id] == s.grants[id]
  {
    hide LoadContext, Enrol, Unused, AllRevocable, RevokeAll, Supersede, Subset, Banned;
    assert id in s.grants by { BannedKnown(s, id); }
    match LoadContext(s.directory, input.subject, input.membershipId)
    case None =>
    case Some(context) =>
      var binding := BindingOf(context, input);
      if Enrol(s, binding, context, input).Ok? {
        EnrolSparesBanned(s, binding, context, input, id);
      }
  }

  lemma BannedKnown(s: Store, id: string)
    requires Banned(s, id)
    ensures id in s.grants
  {
  }

  lemma LogoutSparesRevoked(s: Store, input: LogoutInput, id: string)
    requires id in s.grants && s.grants[id].revoked.Some?
    ensures id in LogoutStep(s, input).0.grants && LogoutStep(s, input).0.grants[id] == s.grants[id]
  {
    hide RevokeAll, AllRevocable;
  }

  lemma DirectorySparesRevoked(s: Store, after: Directory, id: string)
    requires id in s.grants && s.grants[id].revoked.Some?
    ensures id in DirectoryStep(s, after).0.grants && DirectoryStep(s, after).0.grants[id] == s.grants[id]
  {
    hide RevokeAll, AllRevocable, Affected;
  }

  // A grant revoked for any reason but a logout stays exactly as it is, and revoked, for good.
  lemma {:induction false} BannedForever(s: Store, events: seq<Event>, id: string)
    requires Banned(s, id)
    ensures id in Run(s, events).grants && Run(s, events).grants[id] == s.grants[id]
  {
    hide MintStep, LogoutStep, DirectoryStep;
    if events != [] {
      var before := Run(s, events[..|events| - 1]);
      BannedForever(s, events[..|events| - 1], id);
      match events[|events| - 1]
      case Minting(input) => MintSparesBanned(before, input, id);
      case LoggingOut(input) => LogoutSparesRevoked(before, input, id);
      case Reorganising(after) => DirectorySparesRevoked(before, after, id);
      case Passing(_) =>
    }
  }

  // --- Idempotent mints -------------------------------------------------------------------

  // The key a mint goes under, when its caller is admitted.
  function KeyAt(s: Store, input: MintInput): Option<MintKey> {
    match LoadContext(s.directory, input.subject, input.membershipId)
    case None => None
    case Some(context) => Some(KeyOf(context, input))
  }

  predicate Yields(s: Store, e: Event, key: MintKey) {
    e.Minting? && KeyAt(s, e.input) == Some(key) && MintStep(s, e.input).1.Ok?
  }

  // How many credentials a run yields under a key.
  function Yielded(s: Store, events: seq<Event>, key: MintKey): nat {
    if events == [] then 0 else
    var before := events[..|events| - 1];
    Yielded(s, before, key) + if Yields(Run(s, before), events[|events| - 1], key) then 1 else 0
  }

  // A used key keeps the request and the token it was used for.
  predicate MintsKept(before: map<MintKey, MintRow>, after: map<MintKey, MintRow>) {
    forall k <- before :: k in after && after[k] == before[k].(lost := after[k].lost) && (before[k].lost ==> after[k].lost)
  }

  lemma MintStepKeepsMints(s: Store, input: MintInput)
    ensures MintsKept(s.mints, MintStep(s, input).0.mints)
    ensures forall key :: Yields(s, Minting(input), key) ==> key !in s.mints && key in MintStep(s, input).0.mints
  {
    hide LoadContext, Enrol, Unused, AllRevocable, RevokeAll, Supersede, Subset, Revocable;
  }

  lemma ApplyKeepsMints(s: Store, e: Event, key: MintKey)
    ensures MintsKept(s.mints, Apply(s, e).mints)
    ensures Yields(s, e, key) ==> key !in s.mints && key in Apply(s, e).mints
  {
    hide MintStep, AllRevocable, RevokeAll, Affected, DisableAll;
    if e.Minting? {
      MintStepKeepsMints(s, e.input);
    }
  }

  lemma {:induction false} RunKeepsMints(s: Store, events: seq<Event>, key: MintKey)
    requires key in s.mints
    ensures key in Run(s, events).mints && Run(s, events).mints[key].requestHash == s.mints[key].requestHash
  {
    hide Apply, Yields;
    if events != [] {
      RunKeepsMints(s, events[..|events| - 1], key);
      ApplyKeepsMints(Run(s, events[..|events| - 1]), events[|events| - 1], key);
    }
  }

  // An idempotency key of one identity and client yields a credential at most once in any run, and
  // never again once it was used.
  lemma {:induction false} AtMostOneCredential(s: Store, events: seq<Event>, key: MintKey)
    ensures Yielded(s, events, key) <= 1
    ensures key in s.mints ==> Yielded(s, events, key) == 0 && key in Run(s, events).mints
    ensures Yielded(s, events, key) == 1 ==> key in Run(s, events).mints
  {
    hide Apply, Yields;
    if events != [] {
      var before := Run(s, events[..|events| - 1]);
      AtMostOneCredential(s, events[..|events| - 1], key);
      ApplyKeepsMints(before, events[|events| - 1], key);
    }
  }

  // The same request again yields no credential: it revokes that key's token and touches nothing
  // else of grants and tokens. A different request under the key changes nothing at all.
  lemma RepeatedMint(s: Store, input: MintInput)
    requires Consistent(s) && KeyAt(s, input).Some? && KeyAt(s, input).value in s.mints
    ensures var mint := s.mints[KeyAt(s, input).value];
            var (next, result) := MintStep(s, input);
            && (mint.requestHash != input.requestHash ==> next == s && result == Err(IdempotencyConflict))
            && (mint.requestHash == input.requestHash ==>
                  && result == Err(if Revocable(s.tokens[mint.tokenId], input.now) then ResponseUnrecoverable else StoreFailure)
                  && (result == Err(StoreFailure) ==> next == s)
                  && (result == Err(ResponseUnrecoverable) ==> next.tokens[mint.tokenId].revokedAt.Some?)
                  && next.grants == s.grants && next.tokens.Keys == s.tokens.Keys
                  && (forall t <- s.tokens | t != mint.tokenId :: next.tokens[t] == s.tokens[t]))
  {
    hide Numbered, Fenced, Indexed, TokensDated, GrantsDated, LoadContext, Prefixed;
  }

  // A mint issues the next generation: the token that was active before is revoked at that very time
  // and names its successor, and tokens of other grants stay as they are.
  lemma MintReplacesActive(s: Store, input: MintInput, t: string)
    requires MintStep(s, input).1.Ok? && t in s.tokens
    ensures var (next, credential) := MintStep(s, input);
            var grantId := credential.value.grantId;
            && input.tokenId !in s.tokens && input.tokenId in next.tokens
            && next.tokens[input.tokenId].grantId == grantId && next.tokens[input.tokenId].revokedAt.None?
            && next.tokens[input.tokenId].generation == LastGeneration(s.tokens, grantId) + 1
            && t in next.tokens
            && (if s.tokens[t].grantId != grantId then next.tokens[t] == s.tokens[t]
                else next.tokens[t].revokedAt == Some(s.tokens[t].revokedAt.GetOr(input.now)))
            && (ActiveTokenOf(s, grantId, t) && s.tokens[t].replacedBy.None? ==> next.tokens[t].replacedBy == Some(input.tokenId))
  {
    hide LoadContext, Enrol, LastGeneration, Subset, AllRevocable;
    var context := LoadContext(s.directory, input.subject, input.membershipId).value;
    var key := KeyOf(context, input);
    var (grantId, grant) := Enrol(s, BindingOf(context, input), context, input).value;
    IssueReplaces(s, key, grantId, grant, input, t);
  }

  lemma IssueReplaces(s: Store, key: MintKey, grantId: string, grant: Grant, input: MintInput, t: string)
    requires Issue(s, key, grantId, grant, input).Some? && t in s.tokens
    ensures var next := Issue(s, key, grantId, grant, input).value;
            && t != input.tokenId && t in next.tokens && next.tokens[input.tokenId] == NewToken(s, grantId, input)
            && (if s.tokens[t].grantId != grantId then next.tokens[t] == s.tokens[t]
                else next.tokens[t].revokedAt == Some(s.tokens[t].revokedAt.GetOr(input.now)))
            && (ActiveTokenOf(s, grantId, t) && s.tokens[t].replacedBy.None? ==> next.tokens[t].replacedBy == Some(input.tokenId))
  {
    hide LastGeneration;
  }

  // --- A minted credential works ----------------------------------------------------------

  lemma {:induction false} IntersectionOfSubset(granted: seq<string>, current: seq<string>)
    requires forall a <- granted :: a in current
    ensures Intersection(granted, current) == granted
  {
    if granted != [] {
      IntersectionOfSubset(granted[1..], current);
      assert granted == [granted[0]] + granted[1..];
    }
  }

  lemma {:induction false} IntersectionMembers(granted: seq<string>, current: seq<string>, a: string)
    ensures a in Intersection(granted, current) <==> a in granted && a in current
  {
    if granted != [] {
      IntersectionMembers(granted[1..], current, a);
      assert granted == [granted[0]] + granted[1..];
    }
  }

  // Authentication grants exactly the granted aliases that are effective now, in ascending order.
  lemma AuthenticatedAliases(s: Store, hash: string, a: string)
    requires Authenticate(s, hash).Ok?
    ensures var principal := Authenticate(s, hash).value;
            && Ascending(principal.aliases)
            && principal.grantId in s.grants && principal.membershipId in s.directory.memberships
            && (a in principal.aliases <==>
                  a in s.grants[principal.grantId].aliases && a in s.directory.memberships[principal.membershipId].aliases)
  {
    var g := s.grants[s.tokens[s.hashes[hash]].grantId];
    var current := s.directory.memberships[g.binding.membershipId].aliases;
    hide Sort, Ascending, Intersection, Live;
    SortSorts(Intersection(g.aliases, current));
    SortMembers(Intersection(g.aliases, current), a);
    IntersectionMembers(g.aliases, current, a);
  }

  // The rows of a renewed grant's directory entries must still be those of its first mint.
  predicate SameOwner(s: Store, input: MintInput) {
    match LoadContext(s.directory, input.subject, input.membershipId)
    case None => false
    case Some(context) =>
      match GrantFor(s, BindingOf(context, input))
      case None => true
      case Some(id) => s.grants[id].userId == context.userId && s.grants[id].personId == context.personId
  }

  // A credential that was minted authenticates as its own grant, with the requested aliases, for as
  // long as it has not expired and nothing else happened.
  lemma MintedCredentialAuthenticates(s: Store, input: MintInput)
    requires Consistent(s) && MintStep(s, input).1.Ok? && SameOwner(s, input)
    requires s.now < input.now + TOKEN_LIFETIME
    ensures var (next, credential) := MintStep(s, input);
            && Authenticate(next, input.hash)
               == Ok(Principal(credential.value.grantId, input.tokenId, LoadContext(s.directory, input.subject, input.membershipId).value.userId,
                               input.membershipId, Sort(input.aliases)))
            && credential.value.aliases == input.aliases && credential.value.expiresAt == next.tokens[input.tokenId].expiresAt
  {
    hide Consistent, AllRevocable, RevokeAll, Supersede, Sort, Unused, LastGeneration;
    var context := LoadContext(s.directory, input.subject, input.membershipId).value;
    IntersectionOfSubset(input.aliases, context.aliases);
    SortNonEmpty(input.aliases);
    hide Intersection;
    if GrantFor(s, BindingOf(context, input)).Some? {
      assert s.grants[GrantFor(s, BindingOf(context, input)).value].binding == BindingOf(context, input) by {
        IndexedBinding(s, BindingOf(context, input));
      }
    }
  }

  lemma IndexedBinding(s: Store, binding: Binding)
    requires Consistent(s) && GrantFor(s, binding).Some?
    ensures s.grants[GrantFor(s, binding).value].binding == binding
  {
    hide Numbered, Fenced, Recorded, TokensDated, GrantsDated, Prefixed;
  }

  lemma SortNonEmpty(xs: seq<string>)
    ensures Sort(xs) == [] <==> xs == []
  {
    SortSorts(xs);
  }
}
