/** What holds in every state the agent credential store can reach, and what no later step undoes. */
module AgentStoreSafety {
  import opened AgentStore

  // --- Consistency ------------------------------------------------------------------------

  // The unique indexes name exactly the rows they index.
  predicate Indexed(s: Store) {
    && (forall b <- s.bindings :: s.bindings[b] in s.grants && s.grants[s.bindings[b]].binding == b)
    && (forall id <- s.grants :: s.grants[id].binding in s.bindings && s.bindings[s.grants[id].binding] == id)
    && (forall h <- s.hashes :: s.hashes[h] in s.tokens && s.tokens[s.hashes[h]].hash == h)
    && (forall t <- s.tokens :: s.tokens[t].hash in s.hashes && s.hashes[s.tokens[t].hash] == t)
  }

  // Within a grant, generations are distinct and leave no gap above zero.
  predicate Numbered(tokens: map<string, Token>) {
    && (forall t <- tokens :: tokens[t].generation >= 1)
    && (forall t, u | t in tokens && u in tokens && tokens[t].grantId == tokens[u].grantId
                      && tokens[t].generation == tokens[u].generation :: t == u)
    && (forall t, k | t in tokens && 1 <= k <= tokens[t].generation :: k in Generations(tokens, tokens[t].grantId))
  }

  // An unrevoked token belongs to an unrevoked grant, expires no later, and is its newest.
  predicate Fenced(s: Store) {
    forall t <- s.tokens ::
      && s.tokens[t].grantId in s.grants
      && (s.tokens[t].revokedAt.None? ==>
            var g := s.grants[s.tokens[t].grantId];
            && g.revoked.None? && s.tokens[t].expiresAt <= g.expiresAt
            && s.tokens[t].generation == LastGeneration(s.tokens, s.tokens[t].grantId))
  }

  // Every mint has its own token, and a lost one is revoked.
  predicate Recorded(s: Store) {
    && (forall k <- s.mints ::
          && s.mints[k].tokenId in s.tokens && s.tokens[s.mints[k].tokenId].grantId == s.mints[k].grantId
          && (s.mints[k].lost ==> s.tokens[s.mints[k].tokenId].revokedAt.Some?))
    && (forall j, k | j in s.mints && k in s.mints && s.mints[j].tokenId == s.mints[k].tokenId :: j == k)
  }

  // Nothing ends before it begins.
  predicate TokensDated(tokens: map<string, Token>) {
    forall t <- tokens ::
      && tokens[t].expiresAt == tokens[t].issuedAt + TOKEN_LIFETIME
      && (tokens[t].revokedAt.Some? ==> tokens[t].issuedAt <= tokens[t].revokedAt.value)
  }

  predicate GrantsDated(grants: map<string, Grant>) {
    forall id <- grants ::
      && grants[id].createdAt < grants[id].expiresAt
      && (grants[id].revoked.Some? ==> grants[id].createdAt <= grants[id].revoked.value.at)
  }

  // Every token has its own valid prefix.
  predicate Prefixed(tokens: map<string, Token>) {
    && (forall t <- tokens :: ValidPrefix(tokens[t].prefix))
    && (forall t, u | t in tokens && u in tokens && tokens[t].prefix == tokens[u].prefix :: t == u)
  }

  predicate Consistent(s: Store) {
    && Indexed(s) && Numbered(s.tokens) && Fenced(s) && Recorded(s) && TokensDated(s.tokens) && GrantsDated(s.grants)
    && Prefixed(s.tokens)
  }

  // --- Tokens only ever get revoked -------------------------------------------------------

  predicate Aged(older: Token, newer: Token) {
    && newer == older.(revokedAt := newer.revokedAt, replacedBy := newer.replacedBy)
    && (older.revokedAt.Some? ==> newer.revokedAt == older.revokedAt)
    && (older.replacedBy.Some? ==> newer.replacedBy == older.replacedBy)
  }

  predicate AllAged(before: map<string, Token>, after: map<string, Token>) {
    forall t <- before :: t in after && Aged(before[t], after[t])
  }

  lemma GenerationsKept(before: map<string, Token>, after: map<string, Token>, grantId: string)
    requires AllAged(before, after) && before.Keys == after.Keys
    ensures Generations(after, grantId) == Generations(before, grantId)
  {
    forall k
      ensures k in Generations(after, grantId) <==> k in Generations(before, grantId)
    {
      if k in Generations(before, grantId) {
        var t :| t in before && before[t].grantId == grantId && before[t].generation == k;
        assert after[t].generation == k;
      }
      if k in Generations(after, grantId) {
        var t :| t in after && after[t].grantId == grantId && after[t].generation == k;
        assert before[t].generation == k;
      }
    }
  }

  lemma NumberedKept(before: map<string, Token>, after: map<string, Token>)
    requires AllAged(before, after) && before.Keys == after.Keys && Numbered(before)
    ensures Numbered(after)
  {
    forall t, k | t in after && 1 <= k <= after[t].generation
      ensures k in Generations(after, after[t].grantId)
    {
      assert k in Generations(before, before[t].grantId);
      GenerationsKept(before, after, before[t].grantId);
    }
  }

  lemma PrefixedKept(before: map<string, Token>, after: map<string, Token>)
    requires AllAged(before, after) && before.Keys == after.Keys && Prefixed(before)
    ensures Prefixed(after)
  {
    hide ValidPrefix;
    assert forall t <- after :: Aged(before[t], after[t]);
  }

  lemma FencedKept(s: Store, tokens: map<string, Token>)
    requires AllAged(s.tokens, tokens) && s.tokens.Keys == tokens.Keys && Fenced(s)
    ensures Fenced(s.(tokens := tokens))
  {
    hide LastGeneration, Generations;
    forall t | t in tokens && tokens[t].revokedAt.None?
      ensures tokens[t].generation == LastGeneration(tokens, tokens[t].grantId)
    {
      assert Aged(s.tokens[t], tokens[t]);
      SameLast(s.tokens, tokens, s.tokens[t].grantId);
    }
  }

  lemma SameLast(before: map<string, Token>, after: map<string, Token>, grantId: string)
    requires AllAged(before, after) && before.Keys == after.Keys
    ensures LastGeneration(after, grantId) == LastGeneration(before, grantId)
  {
    GenerationsKept(before, after, grantId);
  }

  lemma IndexedKept(s: Store, tokens: map<string, Token>)
    requires AllAged(s.tokens, tokens) && s.tokens.Keys == tokens.Keys && Indexed(s)
    ensures Indexed(s.(tokens := tokens))
  {
    assert forall t <- tokens :: Aged(s.tokens[t], tokens[t]);
  }

  lemma RecordedKept(s: Store, tokens: map<string, Token>)
    requires AllAged(s.tokens, tokens) && s.tokens.Keys == tokens.Keys && Recorded(s)
    ensures Recorded(s.(tokens := tokens))
  {
    assert forall t <- tokens :: Aged(s.tokens[t], tokens[t]);
  }

  // Revoking tokens keeps the store consistent.
  lemma RevokingKeeps(s: Store, tokens: map<string, Token>)
    requires Consistent(s) && AllAged(s.tokens, tokens) && s.tokens.Keys == tokens.Keys && TokensDated(tokens)
    ensures Consistent(s.(tokens := tokens))
  {
    hide Numbered, Fenced, Indexed, Recorded, TokensDated, GrantsDated, AllAged, Prefixed;
    NumberedKept(s.tokens, tokens);
    PrefixedKept(s.tokens, tokens);
    FencedKept(s, tokens);
    IndexedKept(s, tokens);
    RecordedKept(s, tokens);
  }

  lemma RevokeAllAges(tokens: map<string, Token>, of: set<string>, at: int)
    requires TokensDated(tokens) && AllRevocable(tokens, of, at)
    ensures AllAged(tokens, RevokeAll(tokens, of, at)) && TokensDated(RevokeAll(tokens, of, at))
    ensures RevokeAll(tokens, of, at).Keys == tokens.Keys
    ensures forall t <- tokens | tokens[t].grantId in of :: RevokeAll(tokens, of, at)[t].revokedAt.Some?
    ensures forall t <- tokens | tokens[t].grantId !in of :: RevokeAll(tokens, of, at)[t] == tokens[t]
  {
  }

  lemma AgedReflexive(tokens: map<string, Token>)
    ensures AllAged(tokens, tokens)
  {
  }

  // --- Each step --------------------------------------------------------------------------

  lemma RevokeOneAges(tokens: map<string, Token>, t: string, at: int)
    requires t in tokens && Revocable(tokens[t], at) && TokensDated(tokens)
    ensures var after := tokens[t := Revoked(tokens[t], at)];
            after.Keys == tokens.Keys && AllAged(tokens, after) && TokensDated(after) && after[t].revokedAt.Some?
  {
  }

  lemma LosingKeepsRecords(s: Store, key: MintKey)
    requires key in s.mints && Recorded(s)
    requires s.tokens[s.mints[key].tokenId].revokedAt.Some?
    ensures Recorded(s.(mints := s.mints[key := s.mints[key].(lost := true)]))
  {
  }

  lemma ReplayConsistent(s: Store, key: MintKey, input: MintInput)
    requires Consistent(s) && key in s.mints
    ensures Consistent(Replay(s, key, input).0)
    ensures AllAged(s.tokens, Replay(s, key, input).0.tokens)
  {
    hide Numbered, Fenced, Indexed, TokensDated, GrantsDated, AllAged, Revocable, Revoked, Prefixed;
    AgedReflexive(s.tokens);
    var next := Replay(s, key, input).0;
    var t := s.mints[key].tokenId;
    if Replay(s, key, input).1 == ResponseUnrecoverable {
      RevokeOneAges(s.tokens, t, input.now);
      RevokingKeeps(s, next.tokens);
      LosingKeepsRecords(s.(tokens := next.tokens), key);
      FieldsConsistent(s.(tokens := next.tokens), next);
    }
  }

  // Consistency, but for the mints, does not depend on the mints, the clock or the directory.
  lemma FieldsConsistent(s: Store, next: Store)
    requires Consistent(s) && next == s.(mints := next.mints, now := next.now, directory := next.directory) && Recorded(next)
    ensures Consistent(next)
  {
    hide Numbered, TokensDated, GrantsDated, LastGeneration, Prefixed;
  }

  // Grants may be revoked once their tokens are.
  lemma GrantsConsistent(s: Store, grants: map<string, Grant>)
    requires Consistent(s) && s.grants.Keys == grants.Keys
    requires forall id <- grants :: grants[id] == s.grants[id].(revoked := grants[id].revoked)
    requires GrantsDated(grants)
    requires forall t <- s.tokens | s.tokens[t].revokedAt.None? && s.tokens[t].grantId in grants ::
               grants[s.tokens[t].grantId].revoked == s.grants[s.tokens[t].grantId].revoked
    ensures Consistent(s.(grants := grants))
  {
    hide Numbered, LastGeneration, TokensDated, Prefixed;
  }

  lemma LogoutConsistent(s: Store, input: LogoutInput)
    requires Consistent(s)
    ensures Consistent(LogoutStep(s, input).0)
    ensures AllAged(s.tokens, LogoutStep(s, input).0.tokens)
  {
    hide Numbered, Fenced, Indexed, TokensDated, AllAged, AllRevocable, RevokeAll, Recorded, Prefixed;
    AgedReflexive(s.tokens);
    var next := LogoutStep(s, input).0;
    if LogoutStep(s, input).1.None? {
      var id := LogoutTarget(s, input).value;
      RevokeAllAges(s.tokens, {id}, input.now);
      RevokingKeeps(s, next.tokens);
      GrantsConsistent(s.(tokens := next.tokens), next.grants);
    }
  }

  lemma DisabledDated(grants: map<string, Grant>, affected: set<string>, at: int)
    requires GrantsDated(grants) && affected <= grants.Keys
    requires forall id <- affected | grants[id].revoked.None? :: grants[id].createdAt <= at
    ensures GrantsDated(DisableAll(grants, affected, at))
  {
  }

  lemma DirectoryConsistent(s: Store, after: Directory)
    requires Consistent(s)
    ensures Consistent(DirectoryStep(s, after).0)
    ensures AllAged(s.tokens, DirectoryStep(s, after).0.tokens)
  {
    hide Numbered, Fenced, Indexed, TokensDated, GrantsDated, AllAged, AllRevocable, RevokeAll, Recorded, Affected, Prefixed;
    AgedReflexive(s.tokens);
    var next := DirectoryStep(s, after).0;
    if DirectoryStep(s, after).1 {
      var affected := AffectedGrants(s, after);
      RevokeAllAges(s.tokens, affected, s.now);
      RevokingKeeps(s, next.tokens);
      DisabledDated(s.grants, affected, s.now);
      var revoked := s.(tokens := next.tokens);
      RevokedOutside(revoked, affected);
      GrantsConsistent(revoked, next.grants);
      RecordedElsewhere(revoked.(grants := next.grants), next);
      FieldsConsistent(revoked.(grants := next.grants), next);
    }
  }

  lemma RecordedElsewhere(s: Store, next: Store)
    requires Recorded(s) && next.tokens == s.tokens && next.mints == s.mints
    ensures Recorded(next)
  {
  }

  lemma RevokedOutside(s: Store, affected: set<string>)
    requires forall t <- s.tokens | s.tokens[t].grantId in affected :: s.tokens[t].revokedAt.Some?
    ensures forall t <- s.tokens | s.tokens[t].revokedAt.None? :: s.tokens[t].grantId !in affected
  {
  }

  lemma SupersedeAges(tokens: map<string, Token>, grantId: string, successor: string, at: int)
    requires TokensDated(tokens)
    ensures var after := Supersede(tokens, grantId, successor, at);
            && AllAged(tokens, after) && TokensDated(after) && after.Keys == tokens.Keys
            && forall t <- tokens :: after[t].revokedAt == tokens[t].revokedAt && after[t].grantId == tokens[t].grantId
  {
  }

  lemma AgedTransitive(a: map<string, Token>, b: map<string, Token>, c: map<string, Token>)
    requires AllAged(a, b) && AllAged(b, c)
    ensures AllAged(a, c)
  {
    forall t | t in a
      ensures t in c && Aged(a[t], c[t])
    {
      assert Aged(a[t], b[t]) && Aged(b[t], c[t]);
    }
  }

  function Older(s: Store, grantId: string, input: MintInput): map<string, Token> {
    Supersede(RevokeAll(s.tokens, {grantId}, input.now), grantId, input.tokenId, input.now)
  }

  lemma OlderAges(s: Store, grantId: string, input: MintInput)
    requires TokensDated(s.tokens) && AllRevocable(s.tokens, {grantId}, input.now)
    ensures var older := Older(s, grantId, input);
            && AllAged(s.tokens, older) && TokensDated(older) && older.Keys == s.tokens.Keys
            && forall t <- older | older[t].grantId == grantId :: older[t].revokedAt.Some?
  {
    hide AllAged, TokensDated, AllRevocable, RevokeAll, Supersede;
    var revoked := RevokeAll(s.tokens, {grantId}, input.now);
    RevokeAllAges(s.tokens, {grantId}, input.now);
    SupersedeAges(revoked, grantId, input.tokenId, input.now);
    AgedTransitive(s.tokens, revoked, Older(s, grantId, input));
    SameGrants(s.tokens, revoked);
  }

  lemma SameGrants(before: map<string, Token>, after: map<string, Token>)
    requires AllAged(before, after)
    ensures forall t <- before :: t in after && after[t].grantId == before[t].grantId && after[t].hash == before[t].hash
    ensures forall t <- before | before[t].revokedAt.Some? :: after[t].revokedAt == before[t].revokedAt
  {
    assert forall t <- before :: Aged(before[t], after[t]);
  }

  lemma GenerationsGrow(tokens: map<string, Token>, id: string, t: Token, grantId: string)
    requires id !in tokens
    ensures Generations(tokens[id := t], grantId) == Generations(tokens, grantId) + if t.grantId == grantId then {t.generation} else {}
  {
    var after := tokens[id := t];
    forall k
      ensures k in Generations(after, grantId)
          <==> k in Generations(tokens, grantId) || (t.grantId == grantId && k == t.generation)
    {
      if k in Generations(tokens, grantId) {
        var u :| u in tokens && tokens[u].grantId == grantId && tokens[u].generation == k;
        assert after[u] == tokens[u];
      }
      if t.grantId == grantId && k == t.generation {
        assert after[id].generation == k;
      }
    }
  }

  // The generations of a grant are exactly 1 to its last.
  lemma GenerationsExact(tokens: map<string, Token>, grantId: string, k: int)
    requires Numbered(tokens)
    ensures LastGeneration(tokens, grantId) >= 0
    ensures k in Generations(tokens, grantId) <==> 1 <= k <= LastGeneration(tokens, grantId)
  {
    var last := LastGeneration(tokens, grantId);
    var all := Generations(tokens, grantId);
    if all != {} {
      var t :| t in tokens && tokens[t].grantId == grantId && tokens[t].generation == last;
      assert 1 <= k <= tokens[t].generation ==> k in Generations(tokens, tokens[t].grantId);
    }
  }

  lemma NextGeneration(tokens: map<string, Token>, id: string, t: Token)
    requires Numbered(tokens) && id !in tokens && t.generation == LastGeneration(tokens, t.grantId) + 1
    ensures LastGeneration(tokens[id := t], t.grantId) == t.generation
    ensures forall g | g != t.grantId :: LastGeneration(tokens[id := t], g) == LastGeneration(tokens, g)
    ensures Numbered(tokens[id := t])
  {
    hide Numbered, Generations, LastGeneration, Prefixed;
    var after := tokens[id := t];
    LastGrows(tokens, id, t);
    forall g | g != t.grantId
      ensures LastGeneration(after, g) == LastGeneration(tokens, g)
    {
      SameLastElsewhere(tokens, id, t, g);
    }
    NumberedGrows(tokens, id, t);
  }

  lemma SameLastElsewhere(tokens: map<string, Token>, id: string, t: Token, g: string)
    requires id !in tokens && g != t.grantId
    ensures LastGeneration(tokens[id := t], g) == LastGeneration(tokens, g)
  {
    GenerationsGrow(tokens, id, t, g);
    assert Generations(tokens, g) + {} == Generations(tokens, g);
  }

  lemma LastGrows(tokens: map<string, Token>, id: string, t: Token)
    requires Numbered(tokens) && id !in tokens && t.generation == LastGeneration(tokens, t.grantId) + 1
    ensures LastGeneration(tokens[id := t], t.grantId) == t.generation
  {
    hide Numbered, Prefixed;
    GenerationsGrow(tokens, id, t, t.grantId);
    assert t.generation in Generations(tokens[id := t], t.grantId);
  }

  lemma NumberedGrows(tokens: map<string, Token>, id: string, t: Token)
    requires Numbered(tokens) && id !in tokens && t.generation == LastGeneration(tokens, t.grantId) + 1
    ensures Numbered(tokens[id := t])
  {
    hide LastGeneration;
    var after := tokens[id := t];
    GenerationsExact(tokens, t.grantId, t.generation);
    forall u | u in tokens && tokens[u].grantId == t.grantId
      ensures tokens[u].generation < t.generation
    {
      GenerationsExact(tokens, t.grantId, tokens[u].generation);
      assert tokens[u].generation in Generations(tokens, t.grantId);
    }
    forall u, k | u in after && 1 <= k <= after[u].generation
      ensures k in Generations(after, after[u].grantId)
    {
      GenerationsGrow(tokens, id, t, after[u].grantId);
      GenerationsExact(tokens, after[u].grantId, k);
      if u != id {
        assert k in Generations(tokens, tokens[u].grantId);
      }
    }
  }

  // What Enrol hands to Issue.
  predicate Enrolled(s: Store, grantId: string, grant: Grant, now: int) {
    && grant.revoked.None? && grant.expiresAt == now + GRANT_LIFETIME && grant.createdAt < grant.expiresAt
    && (if grantId in s.grants then s.grants[grantId].binding == grant.binding else grant.binding !in s.bindings)
  }

  lemma EnrolEnrols(s: Store, binding: Binding, context: Context, input: MintInput)
    requires Consistent(s) && Enrol(s, binding, context, input).Ok?
    ensures var (id, grant) := Enrol(s, binding, context, input).value;
            Enrolled(s, id, grant, input.now) && grant.binding == binding
  {
    hide Numbered, Fenced, Recorded, TokensDated, Prefixed;
  }

  lemma IssueIndexed(s: Store, key: MintKey, grantId: string, grant: Grant, input: MintInput)
    requires Indexed(s) && Enrolled(s, grantId, grant, input.now) && Issue(s, key, grantId, grant, input).Some?
    requires TokensDated(s.tokens)
    ensures Indexed(Issue(s, key, grantId, grant, input).value)
  {
    hide Supersede, RevokeAll, AllRevocable, TokensDated, AllAged, LastGeneration, Indexed, Prefixed;
    OlderAges(s, grantId, input);
    var older := Older(s, grantId, input);
    SameGrants(s.tokens, older);
    var next := Issue(s, key, grantId, grant, input).value;
    var t := NewToken(s, grantId, input);
    assert next.tokens == older[input.tokenId := t];
    IndexGrows(s, next, older, grantId, grant, input.tokenId, t);
  }

  lemma IndexGrows(s: Store, next: Store, older: map<string, Token>, grantId: string, grant: Grant, id: string, t: Token)
    requires Indexed(s) && older.Keys == s.tokens.Keys && forall u <- older :: older[u].hash == s.tokens[u].hash
    requires if grantId in s.grants then s.grants[grantId].binding == grant.binding else grant.binding !in s.bindings
    requires id !in s.tokens && t.hash !in s.hashes
    requires next.grants == s.grants[grantId := grant] && next.bindings == s.bindings[grant.binding := grantId]
    requires next.tokens == older[id := t] && next.hashes == s.hashes[t.hash := id]
    ensures Indexed(next)
  {
  }

  lemma IssueRecorded(s: Store, key: MintKey, grantId: string, grant: Grant, input: MintInput)
    requires Recorded(s) && key !in s.mints && Issue(s, key, grantId, grant, input).Some? && TokensDated(s.tokens)
    ensures Recorded(Issue(s, key, grantId, grant, input).value)
  {
    hide Supersede, RevokeAll, AllRevocable, TokensDated, AllAged, LastGeneration;
    OlderAges(s, grantId, input);
    SameGrants(s.tokens, Older(s, grantId, input));
  }

  lemma IssueFenced(s: Store, key: MintKey, grantId: string, grant: Grant, input: MintInput)
    requires Fenced(s) && Numbered(s.tokens) && TokensDated(s.tokens) && Enrolled(s, grantId, grant, input.now)
    requires Issue(s, key, grantId, grant, input).Some?
    ensures Fenced(Issue(s, key, grantId, grant, input).value) && Numbered(Issue(s, key, grantId, grant, input).value.tokens)
  {
    hide Supersede, RevokeAll, AllRevocable, TokensDated, AllAged, LastGeneration, Numbered, Fenced, Prefixed;
    OlderAges(s, grantId, input);
    var older := Older(s, grantId, input);
    var t := NewToken(s, grantId, input);
    var aged := s.(tokens := older);
    NumberedKept(s.tokens, older);
    FencedKept(s, older);
    SameLast(s.tokens, older, grantId);
    NextGeneration(older, input.tokenId, t);
    var next := Issue(s, key, grantId, grant, input).value;
    assert next.tokens == older[input.tokenId := t];
    FenceGrows(aged, next, grantId, grant, input.tokenId, t);
  }

  lemma FenceGrows(s: Store, next: Store, grantId: string, grant: Grant, id: string, t: Token)
    requires Fenced(s) && id !in s.tokens && next.tokens == s.tokens[id := t] && next.grants == s.grants[grantId := grant]
    requires forall u <- s.tokens | s.tokens[u].grantId == grantId :: s.tokens[u].revokedAt.Some?
    requires t.grantId == grantId && grant.revoked.None? && t.expiresAt <= grant.expiresAt
    requires t.generation == LastGeneration(next.tokens, grantId)
    requires forall g | g != grantId :: LastGeneration(next.tokens, g) == LastGeneration(s.tokens, g)
    ensures Fenced(next)
  {
    hide LastGeneration;
  }

  lemma IssuePrefixed(s: Store, key: MintKey, grantId: string, grant: Grant, input: MintInput)
    requires Prefixed(s.tokens) && TokensDated(s.tokens) && Issue(s, key, grantId, grant, input).Some?
    ensures Prefixed(Issue(s, key, grantId, grant, input).value.tokens)
  {
    hide Supersede, RevokeAll, AllRevocable, TokensDated, AllAged, LastGeneration, Prefixed, ValidPrefix;
    OlderAges(s, grantId, input);
    var older := Older(s, grantId, input);
    PrefixedKept(s.tokens, older);
    SamePrefixes(s.tokens, older);
    PrefixGrows(older, input.tokenId, NewToken(s, grantId, input));
  }

  lemma SamePrefixes(before: map<string, Token>, after: map<string, Token>)
    requires AllAged(before, after) && before.Keys == after.Keys
    ensures forall t <- after :: after[t].prefix == before[t].prefix
  {
    assert forall t <- after :: Aged(before[t], after[t]);
  }

  lemma PrefixGrows(tokens: map<string, Token>, id: string, t: Token)
    requires Prefixed(tokens) && id !in tokens && ValidPrefix(t.prefix) && forall u <- tokens :: tokens[u].prefix != t.prefix
    ensures Prefixed(tokens[id := t])
  {
    hide ValidPrefix;
  }

  lemma IssueDated(s: Store, key: MintKey, grantId: string, grant: Grant, input: MintInput)
    requires TokensDated(s.tokens) && GrantsDated(s.grants) && Enrolled(s, grantId, grant, input.now)
    requires Issue(s, key, grantId, grant, input).Some?
    ensures TokensDated(Issue(s, key, grantId, grant, input).value.tokens)
    ensures GrantsDated(Issue(s, key, grantId, grant, input).value.grants)
    ensures AllAged(s.tokens, Issue(s, key, grantId, grant, input).value.tokens)
  {
    hide Supersede, RevokeAll, AllRevocable, LastGeneration;
    OlderAges(s, grantId, input);
  }

  lemma MintConsistent(s: Store, input: MintInput)
    requires Consistent(s)
    ensures Consistent(MintStep(s, input).0)
    ensures AllAged(s.tokens, MintStep(s, input).0.tokens)
  {
    hide Numbered, Fenced, Indexed, Recorded, TokensDated, GrantsDated, AllAged, Replay, Issue, Enrol, LoadContext, Subset, Enrolled, Prefixed;
    AgedReflexive(s.tokens);
    match LoadContext(s.directory, input.subject, input.membershipId)
    case None =>
    case Some(context) =>
      var key, binding := KeyOf(context, input), BindingOf(context, input);
      if key in s.mints {
        ReplayConsistent(s, key, input);
      } else if Enrol(s, binding, context, input).Ok? {
        EnrolEnrols(s, binding, context, input);
        var (grantId, grant) := Enrol(s, binding, context, input).value;
        if Issue(s, key, grantId, grant, input).Some? {
          IssueIndexed(s, key, grantId, grant, input);
          IssueRecorded(s, key, grantId, grant, input);
          IssueFenced(s, key, grantId, grant, input);
          IssueDated(s, key, grantId, grant, input);
          IssuePrefixed(s, key, grantId, grant, input);
        }
      }
  }

  lemma ApplyConsistent(s: Store, e: Event)
    requires Consistent(s)
    ensures Consistent(Apply(s, e)) && AllAged(s.tokens, Apply(s, e).tokens)
  {
    hide Numbered, Fenced, Indexed, Recorded, TokensDated, GrantsDated, AllAged, MintStep, LogoutStep, DirectoryStep, Prefixed;
    match e
    case Minting(input) => MintConsistent(s, input);
    case LoggingOut(input) => LogoutConsistent(s, input);
    case Reorganising(after) => DirectoryConsistent(s, after);
    case Passing(_) =>
      AgedReflexive(s.tokens);
      RecordedElsewhere(s, Apply(s, e));
      FieldsConsistent(s, Apply(s, e));
  }
}
