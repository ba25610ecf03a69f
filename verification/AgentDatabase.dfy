/** The agent credential store as an object whose methods run one transaction each. */
module AgentDatabase {
  import opened Wrappers
  import opened StringOrder
  import opened AgentStore
  import opened AgentStoreSafety
  import opened AgentStoreRuns

  method AliasSubset(wanted: seq<string>, available: seq<string>) returns (ok: bool)
    ensures ok <==> Subset(wanted, available)
  {
    var known: set<string> := {};
    for i := 0 to |available|
      invariant forall a :: a in known <==> a in available[..i]
    {
      known := known + {available[i]};
    }
    assert available[..|available|] == available;
    for i := 0 to |wanted|
      invariant forall k | 0 <= k < i :: wanted[k] in available
    {
      if wanted[i] !in known {
        assert wanted[i] !in available;
        return false;
      }
    }
    ok := |wanted| > 0;
  }

  // The granted aliases that are in effect now, in the order they were granted.
  method CurrentAliases(granted: seq<string>, current: seq<string>) returns (allowed: seq<string>)
    ensures allowed == Intersection(granted, current)
  {
    var known: set<string> := {};
    for i := 0 to |current|
      invariant forall a :: a in known <==> a in current[..i]
    {
      known := known + {current[i]};
    }
    assert current[..|current|] == current;
    allowed := [];
    assert granted[0..] == granted;
    for i := 0 to |granted|
      invariant allowed + Intersection(granted[i..], current) == Intersection(granted, current)
    {
      assert granted[i..][0] == granted[i] && granted[i..][1..] == granted[i + 1..];
      var rest := Intersection(granted[i + 1..], current);
      if granted[i] in known {
        assert allowed + ([granted[i]] + rest) == (allowed + [granted[i]]) + rest;
        allowed := allowed + [granted[i]];
      } else {
        assert [] + rest == rest;
      }
    }
    assert granted[|granted|..] == [] && allowed + [] == allowed;
  }

  lemma AffectedKeys(s: Store, after: Directory)
    ensures AffectedGrants(s, after) <= s.grants.Keys
  {
  }

  lemma LiveHasGrant(s: Store, t: Token)
    ensures Live(s, t) ==> t.grantId in s.grants
  {
  }

  lemma StandingHasMembership(d: Directory, g: Grant)
    ensures Standing(d, g) ==> g.binding.membershipId in d.memberships
  {
  }

  class AgentDatabase {
    var now: int
    var directory: Directory
    var grants: map<string, Grant>
    var bindings: map<Binding, string>
    var tokens: map<string, Token>
    var hashes: map<string, string>
    var mints: map<MintKey, MintRow>

    function Model(): Store
      reads this
    {
      Store(now, directory, grants, bindings, tokens, hashes, mints)
    }

    predicate Valid()
      reads this
    {
      Consistent(Model())
    }

    constructor (now: int, directory: Directory)
      ensures Model() == Empty(now, directory) && Valid()
    {
      this.now, this.directory := now, directory;
      grants, bindings, tokens, hashes, mints := map[], map[], map[], map[], map[];
      new;
      EmptyConsistent(now, directory);
    }

    // Leaving a transaction early rolls it back: nothing is assigned before its last check.
    method MintAgentCredential(input: MintInput) returns (result: Result<Credential, Fault>)
      requires Valid()
      modifies this
      ensures Valid() && (Model(), result) == MintStep(old(Model()), input)
    {
      hide Consistent, LoadContext, Subset, Replay, Enrol, Issue;
      MintConsistent(Model(), input);
      var loaded := LoadContext(directory, input.subject, input.membershipId);
      if loaded.None? {
        return Err(Forbidden);
      }
      var key := KeyOf(loaded.value, input);
      if key in mints {
        result := ReplayMint(key, input);
        return;
      }
      var allowed := AliasSubset(input.aliases, loaded.value.aliases);
      if !allowed {
        return Err(Forbidden);
      }
      var enrolled := EnrolGrant(BindingOf(loaded.value, input), loaded.value, input);
      if enrolled.Err? {
        return Err(enrolled.error);
      }
      var issued := IssueToken(key, enrolled.value.0, enrolled.value.1, input);
      result := if issued then Ok(Credential(enrolled.value.0, input.secret, input.now + TOKEN_LIFETIME, input.aliases))
                else Err(StoreFailure);
    }

    // The grant a mint goes to: the one its binding names, renewed, or a new one.
    method EnrolGrant(binding: Binding, context: Context, input: MintInput) returns (result: Result<(string, Grant), Fault>)
      ensures result == Enrol(Model(), binding, context, input)
    {
      if binding in bindings && bindings[binding] in grants {
        var id := bindings[binding];
        var grant := grants[id];
        if grant.revoked.Some? && grant.revoked.value.reason != CLIENT_LOGOUT {
          return Err(Forbidden);
        }
        if input.now + GRANT_LIFETIME <= grant.createdAt {
          return Err(StoreFailure);
        }
        return Ok((id, grant.(aliases := input.aliases, expiresAt := input.now + GRANT_LIFETIME, revoked := None)));
      }
      if input.grantId in grants || !Digest(binding.clientInstance) {
        return Err(StoreFailure);
      }
      result := Ok((input.grantId, Grant(binding, context.userId, context.personId, input.aliases, input.now,
                                         input.now + GRANT_LIFETIME, None)));
    }

    // Revokes the grant's tokens and puts the next generation in their place.
    method IssueToken(key: MintKey, grantId: string, grant: Grant, input: MintInput) returns (ok: bool)
      modifies this
      ensures var issued := Issue(old(Model()), key, grantId, grant, input);
              ok == issued.Some? && Model() == if ok then issued.value else old(Model())
    {
      hide AllRevocable, RevokeAll, Supersede, LastGeneration;
      var generation := LastGeneration(tokens, grantId) + 1;
      if !AllRevocable(tokens, {grantId}, input.now) {
        return false;
      }
      var staged := RevokeAll(tokens, {grantId}, input.now);
      if !ValidPrefix(input.prefix) || !Digest(input.hash) {
        return false;
      }
      if input.tokenId in tokens || input.hash in hashes || exists t <- tokens :: tokens[t].prefix == input.prefix {
        return false;
      }
      staged := Supersede(staged, grantId, input.tokenId, input.now);
      staged := staged[input.tokenId := Token(grantId, input.prefix, input.hash, generation, input.now, input.now + TOKEN_LIFETIME, None, None)];
      if !Digest(input.keyDigest) || !Digest(input.requestHash) {
        return false;
      }
      if exists k <- mints :: mints[k].id == input.mintId {
        return false;
      }
      grants := grants[grantId := grant];
      bindings := bindings[grant.binding := grantId];
      tokens := staged;
      hashes := hashes[input.hash := input.tokenId];
      mints := mints[key := MintRow(input.mintId, input.requestHash, grantId, input.tokenId, false)];
      ok := true;
    }

    method ReplayMint(key: MintKey, input: MintInput) returns (result: Result<Credential, Fault>)
      requires key in mints
      modifies this
      ensures Model() == Replay(old(Model()), key, input).0 && result == Err(Replay(old(Model()), key, input).1)
    {
      var mint := mints[key];
      if mint.requestHash != input.requestHash {
        return Err(IdempotencyConflict);
      }
      if mint.tokenId in tokens {
        if tokens[mint.tokenId].revokedAt.None? {
          if input.now < tokens[mint.tokenId].issuedAt {
            return Err(StoreFailure);
          }
          tokens := tokens[mint.tokenId := tokens[mint.tokenId].(revokedAt := Some(input.now))];
        } else {
          assert tokens[mint.tokenId := tokens[mint.tokenId]] == tokens;
        }
      }
      mints := mints[key := mint.(lost := true)];
      result := Err(ResponseUnrecoverable);
    }

    method RevokeAgentGrant(input: LogoutInput) returns (fault: Option<Fault>)
      requires Valid()
      modifies this
      ensures Valid() && (Model(), fault) == LogoutStep(old(Model()), input)
    {
      hide Consistent, AllRevocable, RevokeAll;
      LogoutConsistent(Model(), input);
      if input.subject !in directory.subjects || !IdentityOn(directory, directory.subjects[input.subject]) {
        return Some(NotFound);
      }
      var binding := Binding(directory.subjects[input.subject], input.clientId, input.clientInstance, input.membershipId);
      if binding !in bindings || bindings[binding] !in grants || grants[bindings[binding]].revoked.Some? {
        return Some(NotFound);
      }
      var id := bindings[binding];
      if input.now < grants[id].createdAt || !AllRevocable(tokens, {id}, input.now) {
        return Some(StoreFailure);
      }
      grants := grants[id := grants[id].(revoked := Some(Revocation(input.now, CLIENT_LOGOUT)))];
      tokens := RevokeAll(tokens, {id}, input.now);
      fault := None;
    }

    // Any change of the directory, with the trigger on what it disables.
    method ChangeDirectory(after: Directory) returns (ok: bool)
      requires Valid()
      modifies this
      ensures Valid() && (Model(), ok) == DirectoryStep(old(Model()), after)
    {
      hide Consistent, AllRevocable, RevokeAll, Affected, DisableAll, AffectedGrants;
      DirectoryConsistent(Model(), after);
      var affected := AffectedGrants(Model(), after);
      assert affected <= grants.Keys by {
        AffectedKeys(Model(), after);
      }
      if (exists id <- affected :: grants[id].revoked.None? && now < grants[id].createdAt) || !AllRevocable(tokens, affected, now) {
        return false;
      }
      directory := after;
      grants := DisableAll(grants, affected, now);
      tokens := RevokeAll(tokens, affected, now);
      ok := true;
    }

    method Pass(seconds: nat)
      requires Valid()
      modifies this
      ensures Valid() && Model() == Apply(old(Model()), Passing(seconds))
    {
      hide Consistent, MintStep, LogoutStep, DirectoryStep;
      ApplyConsistent(Model(), Passing(seconds));
      now := now + seconds;
    }

    method AuthenticateHuman(hash: string) returns (result: Result<Principal, Fault>)
      requires Valid()
      ensures result == Authenticate(Model(), hash)
    {
      hide Consistent, Intersection, Sort, Live, Standing;
      if hash !in hashes || hashes[hash] !in tokens {
        return Err(Unauthenticated);
      }
      var tokenId := hashes[hash];
      var t := tokens[tokenId];
      LiveHasGrant(Model(), t);
      if !Live(Model(), t) || !Standing(directory, grants[t.grantId]) {
        return Err(Unauthenticated);
      }
      var g := grants[t.grantId];
      StandingHasMembership(directory, g);
      var allowed := CurrentAliases(g.aliases, directory.memberships[g.binding.membershipId].aliases);
      if |allowed| == 0 {
        return Err(Unauthenticated);
      }
      result := Ok(Principal(t.grantId, tokenId, g.userId, g.binding.membershipId, Sort(allowed)));
    }
  }
}
