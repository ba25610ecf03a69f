/**
 Which disabled grants stay dead. Disabling an identity, a person or a user keeps a revocation that is
 already there, reason included, so a grant that was logged out before can be renewed afterwards.
 */
module AgentStoreRevival {
  import opened Wrappers
  import opened StringOrder
  import opened AgentStore
  import opened AgentStoreSafety
  import opened AgentStoreRuns

  predicate LoggedOut(g: Grant) {
    g.revoked.Some? && g.revoked.value.reason == CLIENT_LOGOUT
  }

  // Some token of the grant is accepted.
  ghost predicate Lives(s: Store, id: string) {
    exists hash :: Authenticate(s, hash).Ok? && Authenticate(s, hash).value.grantId == id
  }

  // No run ever brings the grant back to life.
  ghost predicate GoneForGood(s: Store, id: string) {
    forall events :: !Lives(Run(s, events), id)
  }

  // --- Strings no row uses yet ------------------------------------------------------------

  lemma {:induction false} FreshString(taken: set<string>) returns (s: string)
    ensures s !in taken && forall t <- taken :: |t| < |s|
    decreases |taken|
  {
    if taken == {} {
      return "";
    }
    if forall t :: t !in taken {
      assert false;
    }
    var t :| t in taken;
    var shorter := FreshString(taken - {t});
    s := seq(if |t| < |shorter| then |shorter| else |t| + 1, _ => 'x');
    assert forall u <- taken :: u == t || u in taken - {t};
  }

  function HexDigit(n: nat): (c: char)
    requires n < 16
    ensures Hex(c)
  {
    if n < 10 then '0' + n as char else 'a' + (n - 10) as char
  }

  // A number in hexadecimal, with leading zeros.
  function HexDigits(n: nat, width: nat): (digits: string)
    ensures |digits| == width && forall c <- digits :: Hex(c)
  {
    if width == 0 then "" else HexDigits(n / 16, width - 1) + [HexDigit(n % 16)]
  }

  function Pow16(width: nat): (p: nat)
    ensures p > 0
  {
    if width == 0 then 1 else 16 * Pow16(width - 1)
  }

  lemma {:induction false} DigitsDiffer(m: nat, n: nat, width: nat)
    requires m < Pow16(width) && n < Pow16(width) && HexDigits(m, width) == HexDigits(n, width)
    ensures m == n
  {
    if width > 0 {
      var a, b := HexDigits(m, width), HexDigits(n, width);
      assert a[|a| - 1] == HexDigit(m % 16) && b[|b| - 1] == HexDigit(n % 16);
      assert a[..|a| - 1] == HexDigits(m / 16, width - 1) && b[..|b| - 1] == HexDigits(n / 16, width - 1);
      DigitsDiffer(m / 16, n / 16, width - 1);
    }
  }

  predicate Written(s: string, n: nat, width: nat) {
    exists i: nat | i < n :: HexDigits(i, width) == s
  }

  lemma WrittenMore(s: string, n: nat, width: nat)
    ensures Written(s, n, width) ==> Written(s, n + 1, width)
    ensures Written(HexDigits(n, width), n + 1, width)
  {
    if Written(s, n, width) {
      var i: nat :| i < n && HexDigits(i, width) == s;
      assert i < n + 1;
    }
    assert n < n + 1;
  }

  lemma NotYetWritten(n: nat, width: nat)
    requires n < Pow16(width)
    ensures !Written(HexDigits(n, width), n, width)
  {
    if Written(HexDigits(n, width), n, width) {
      var i: nat :| i < n && HexDigits(i, width) == HexDigits(n, width);
      DigitsDiffer(i, n, width);
    }
  }

  // Fewer strings than numbers leave a number of that width unused.
  lemma FreshDigits(taken: set<string>, width: nat, n: nat, images: set<string>) returns (digits: string)
    requires |taken| < Pow16(width) && n <= |taken| && images <= taken && |images| == n
    requires forall s <- images :: Written(s, n, width)
    ensures |digits| == width && (forall c <- digits :: Hex(c)) && digits !in taken
    decreases |taken| - n
  {
    hide Written, Pow16;
    digits := HexDigits(n, width);
    NotYetWritten(n, width);
    if digits in taken {
      var more := images + {digits};
      SubsetSize(more, taken);
      forall s | s in more
        ensures Written(s, n + 1, width)
      {
        WrittenMore(s, n, width);
      }
      digits := FreshDigits(taken, width, n + 1, more);
    }
  }

  lemma {:induction false} SubsetSize(a: set<string>, b: set<string>)
    requires a <= b
    ensures |a| <= |b|
    decreases |a|
  {
    if a != {} {
      if forall x :: x !in a {
        assert false;
      }
      var x :| x in a;
      SubsetSize(a - {x}, b - {x});
    }
  }

  lemma {:induction false} ImageSize<K>(keys: set<K>, of: K -> string, image: set<string>)
    requires forall x <- image :: exists k <- keys :: of(k) == x
    ensures |image| <= |keys|
    decreases |image|
  {
    if image != {} {
      if forall x :: x !in image {
        assert false;
      }
      var x :| x in image;
      var k :| k in keys && of(k) == x;
      forall y | y in image - {x}
        ensures exists l <- keys - {k} :: of(l) == y
      {
        var l :| l in keys && of(l) == y;
        assert l in keys - {k};
      }
      ImageSize(keys - {k}, of, image - {x});
    }
  }

  // The prefixes there can be; one is left as long as there are fewer tokens.
  const PREFIXES := Pow16(16)

  predicate Room(s: Store) {
    |s.tokens| < PREFIXES
  }

  lemma {:induction false} FewerMints(mints: map<MintKey, MintRow>, keys: set<MintKey>, tokens: set<string>)
    requires keys <= mints.Keys && (forall k <- keys :: mints[k].tokenId in tokens)
    requires forall j, k | j in keys && k in keys && mints[j].tokenId == mints[k].tokenId :: j == k
    ensures |keys| <= |tokens|
    decreases |keys|
  {
    if keys != {} {
      if forall k :: k !in keys {
        assert false;
      }
      var k :| k in keys;
      FewerMints(mints, keys - {k}, tokens - {mints[k].tokenId});
    }
  }

  lemma FewMints(s: Store)
    requires Recorded(s)
    ensures |s.mints| <= |s.tokens|
  {
    FewerMints(s.mints, s.mints.Keys, s.tokens.Keys);
    assert |s.mints.Keys| == |s.mints| && |s.tokens.Keys| == |s.tokens|;
  }

  lemma FreshPrefix(s: Store) returns (prefix: string)
    requires Room(s)
    ensures ValidPrefix(prefix) && forall t <- s.tokens :: s.tokens[t].prefix != prefix
  {
    var of := (t: string) => if t in s.tokens && |s.tokens[t].prefix| >= 6 then s.tokens[t].prefix[6..] else "";
    var taken := set t | t in s.tokens.Keys :: of(t);
    ImageSize(s.tokens.Keys, of, taken);
    assert |s.tokens.Keys| == |s.tokens|;
    var digits := FreshDigits(taken, 16, 0, {});
    prefix := "alz_u_" + digits;
    assert prefix[6..] == digits && prefix[..6] == "alz_u_";
    forall t | t in s.tokens
      ensures s.tokens[t].prefix != prefix
    {
      assert of(t) in taken;
    }
  }

  lemma FreshDigest(s: Store, taken: set<string>) returns (digest: string)
    requires Room(s) && |taken| <= |s.tokens|
    ensures Digest(digest) && digest !in taken
  {
    MorePowers();
    digest := FreshDigits(taken, 32, 0, {});
  }

  lemma {:induction false} PowGrows(width: nat, more: nat)
    ensures Pow16(width) <= Pow16(width + more)
  {
    if more > 0 {
      PowGrows(width, more - 1);
      assert Pow16(width + more) == 16 * Pow16(width + more - 1);
    }
  }

  lemma MorePowers()
    ensures Pow16(16) <= Pow16(32)
  {
    PowGrows(16, 16);
  }

  // --- Bringing a logged-out grant back ---------------------------------------------------

  // The directory with the rows behind a grant enabled.
  function Restored(d: Directory, g: Grant, subject: Subject): Directory {
    Directory(
      d.subjects[subject := g.binding.identityId],
      d.identities[g.binding.identityId := IdentityRow(g.userId, true)],
      d.users + {g.userId},
      d.people[g.personId := PersonRow(g.userId, true)],
      d.memberships[g.binding.membershipId := MembershipRow(g.userId, g.personId, true, ["model"])])
  }

  lemma RestoringDisablesNothing(s: Store, g: Grant, subject: Subject)
    ensures DirectoryStep(s, Restored(s.directory, g, subject)) == (s.(directory := Restored(s.directory, g, subject)), true)
  {
    var after := Restored(s.directory, g, subject);
    forall id | id in s.grants
      ensures !Affected(s.directory, after, s.grants[id])
    {
    }
    assert AffectedGrants(s, after) == {};
    assert DisableAll(s.grants, {}, s.now) == s.grants;
    assert RevokeAll(s.tokens, {}, s.now) == s.tokens;
  }

  lemma RestoredContext(d: Directory, g: Grant, subject: Subject)
    ensures LoadContext(Restored(d, g, subject), subject, g.binding.membershipId)
         == Some(Context(g.binding.identityId, g.userId, g.personId, ["model"]))
  {
  }

  lemma FreshKeyDigest(s: Store) returns (keyDigest: string)
    requires Recorded(s) && Room(s)
    ensures Digest(keyDigest) && forall k <- s.mints :: k.keyDigest != keyDigest
  {
    hide Room, Recorded;
    FewMints(s);
    var digests := set k | k in s.mints.Keys :: k.keyDigest;
    ImageSize(s.mints.Keys, (k: MintKey) => k.keyDigest, digests);
    assert |s.mints.Keys| == |s.mints|;
    keyDigest := FreshDigest(s, digests);
    assert forall k <- s.mints :: k in s.mints.Keys && k.keyDigest in digests;
  }

  lemma FreshMintId(s: Store) returns (mintId: string)
    ensures forall k <- s.mints :: s.mints[k].id != mintId
  {
    var ids := set k | k in s.mints :: s.mints[k].id;
    mintId := FreshString(ids);
    assert forall k <- s.mints :: s.mints[k].id in ids;
  }

  // A mint for the grant, at the later of the database's time and the grant's creation.
  lemma FreshInput(s: Store, subject: Subject, g: Grant) returns (input: MintInput)
    requires Consistent(s) && Room(s)
    ensures Unused(s, input) && RowsPass(input) && input.aliases == ["model"] && input.subject == subject
    ensures input.now == if s.now < g.createdAt then g.createdAt else s.now
    ensures BindingOf(Context(g.binding.identityId, g.userId, g.personId, ["model"]), input) == g.binding
    ensures KeyOf(Context(g.binding.identityId, g.userId, g.personId, ["model"]), input) !in s.mints
  {
    hide Numbered, Fenced, TokensDated, GrantsDated, Indexed, Recorded, Room, ValidPrefix, Digest, Prefixed;
    var keyDigest := FreshKeyDigest(s);
    var hash := FreshHash(s);
    var prefix := FreshPrefix(s);
    var tokenId := FreshString(s.tokens.Keys);
    var mintId := FreshMintId(s);
    input := MintInput(subject, g.binding.clientId, g.binding.clientInstance, keyDigest, keyDigest, g.binding.membershipId,
                       ["model"], "", tokenId, mintId, "", prefix, hash, if s.now < g.createdAt then g.createdAt else s.now);
  }

  lemma FreshHash(s: Store) returns (hash: string)
    requires Indexed(s) && Room(s)
    ensures Digest(hash) && hash !in s.hashes
  {
    hide Room, Pow16, HexDigits;
    var of := (t: string) => if t in s.tokens then s.tokens[t].hash else "";
    var taken := set t | t in s.tokens.Keys :: of(t);
    ImageSize(s.tokens.Keys, of, taken);
    assert |s.tokens.Keys| == |s.tokens|;
    hash := FreshDigest(s, taken);
    forall h | h in s.hashes
      ensures h in taken
    {
      assert of(s.hashes[h]) == h && s.hashes[h] in s.tokens.Keys;
    }
  }

  lemma RevokedTokens(s: Store, id: string, at: int)
    requires Fenced(s) && id in s.grants && s.grants[id].revoked.Some?
    ensures AllRevocable(s.tokens, {id}, at)
  {
  }

  // A grant that was logged out can always come back to life, as long as a token prefix is left:
  // enable the rows behind it and mint.
  lemma LoggedOutReturns(s: Store, id: string) returns (events: seq<Event>)
    requires Consistent(s) && id in s.grants && LoggedOut(s.grants[id]) && Room(s)
    ensures Lives(Run(s, events), id)
  {
    hide Numbered, Recorded, TokensDated, GrantsDated, Fenced, Restored, DirectoryStep, Unused, RowsPass, Supersede, RevokeAll, AllRevocable,
      LastGeneration, Room, Authenticate, Lives, Indexed, Consistent, Prefixed;
    var g := s.grants[id];
    var subject := Subject("", "");
    var after := Restored(s.directory, g, subject);
    var restored := s.(directory := after);
    RestoringDisablesNothing(s, g, subject);
    RestoredContext(s.directory, g, subject);
    DirectoryConsistent(s, after);
    assert Room(restored) by { RoomStays(s, restored); }
    var input := FreshInput(restored, subject, g);
    Mintable(s, id, input);
    var minted := MintStep(restored, input);
    BindingKnown(s, id);
    assert minted.1.Ok? && minted.1.value.grantId == id;
    MintedCredentialAuthenticates(restored, input);
    events := [Reorganising(after), Minting(input)];
    RunTwo(s, Reorganising(after), Minting(input));
    assert Run(s, events) == minted.0;
    ShownAlive(minted.0, input.hash, id);
  }

  lemma ShownAlive(s: Store, hash: string, id: string)
    requires Authenticate(s, hash).Ok? && Authenticate(s, hash).value.grantId == id
    ensures Lives(s, id)
  {
  }

  lemma RoomStays(s: Store, t: Store)
    requires t.tokens.Keys == s.tokens.Keys
    ensures Room(t) <==> Room(s)
  {
    assert |s.tokens.Keys| == |s.tokens| && |t.tokens.Keys| == |t.tokens|;
  }

  lemma Mintable(s: Store, id: string, input: MintInput)
    requires Consistent(s) && id in s.grants && s.grants[id].revoked.Some?
    ensures AllRevocable(s.tokens, {id}, input.now)
  {
    RevokedTokens(s, id, input.now);
  }

  lemma BindingKnown(s: Store, id: string)
    requires Consistent(s) && id in s.grants
    ensures GrantFor(s, s.grants[id].binding) == Some(id)
  {
    hide Numbered, Fenced, Recorded, TokensDated, GrantsDated, Prefixed;
  }

  lemma RunTwo(s: Store, first: Event, second: Event)
    ensures Run(s, [first, second]) == Apply(Apply(s, first), second)
  {
    hide Apply;
    assert [first, second][..1] == [first] && [first][..0] == [];
    assert Run(s, [first]) == Apply(Run(s, []), first);
  }

  // --- When no prefix is left -------------------------------------------------------------

  lemma LastDigit(c: char) returns (d: nat)
    requires Hex(c)
    ensures d < 16 && HexDigit(d) == c
  {
    d := if c <= '9' then (c - '0') as nat else (c - 'a') as nat + 10;
  }

  lemma {:induction false} HexWritten(digits: string, width: nat)
    requires |digits| == width && forall c <- digits :: Hex(c)
    ensures Written(digits, Pow16(width), width)
  {
    if width == 0 {
      assert HexDigits(0, 0) == digits;
    } else {
      var front := digits[..width - 1];
      HexWritten(front, width - 1);
      var i: nat :| i < Pow16(width - 1) && HexDigits(i, width - 1) == front;
      var d := LastDigit(digits[width - 1]);
      assert (16 * i + d) / 16 == i && (16 * i + d) % 16 == d;
      assert HexDigits(16 * i + d, width) == front + [digits[width - 1]] == digits;
    }
  }

  lemma {:induction false} WrittenSize(images: set<string>, n: nat, width: nat)
    requires forall s <- images :: Written(s, n, width)
    ensures |images| <= n
  {
    if n == 0 {
      assert forall s :: s !in images;
      assert images == {};
    } else {
      var last := HexDigits(n - 1, width);
      var rest := images - {last};
      forall s | s in rest
        ensures Written(s, n - 1, width)
      {
        var i: nat :| i < n && HexDigits(i, width) == s;
        assert i != n - 1;
      }
      WrittenSize(rest, n - 1, width);
      assert images <= rest + {last};
      SubsetSize(images, rest + {last});
    }
  }

  lemma PrefixesTaken(s: Store, prefix: string)
    requires Prefixed(s.tokens) && !Room(s) && ValidPrefix(prefix)
    ensures exists t :: t in s.tokens && s.tokens[t].prefix == prefix
  {
    hide Pow16, HexDigits, Written;
    if forall t <- s.tokens :: s.tokens[t].prefix != prefix {
      TooManyPrefixes(s, prefix);
    }
  }

  function DigitsOf(prefix: string): string {
    if |prefix| >= 6 then prefix[6..] else ""
  }

  lemma SamePrefix(a: string, b: string)
    requires ValidPrefix(a) && ValidPrefix(b)
    ensures DigitsOf(a) == DigitsOf(b) ==> a == b
  {
    assert a == a[..6] + a[6..] && b == b[..6] + b[6..];
  }

  lemma DigitsWritten(prefix: string)
    requires ValidPrefix(prefix)
    ensures Written(DigitsOf(prefix), PREFIXES, 16)
  {
    hide Pow16, HexDigits, Written;
    HexWritten(DigitsOf(prefix), 16);
  }

  function TokenDigits(tokens: map<string, Token>): set<string> {
    set t | t in tokens :: DigitsOf(tokens[t].prefix)
  }

  lemma {:induction false} TokenDigitsSize(tokens: map<string, Token>)
    requires Prefixed(tokens)
    ensures |TokenDigits(tokens)| == |tokens|
    decreases |tokens|
  {
    hide ValidPrefix, DigitsOf;
    if tokens == map[] {
      assert TokenDigits(tokens) == {};
    } else {
      var t := SomeToken(tokens);
      var rest := tokens - {t};
      assert rest.Keys == tokens.Keys - {t} && |rest| == |tokens| - 1;
      TokenDigitsSize(rest);
      forall u | u in rest
        ensures DigitsOf(tokens[u].prefix) != DigitsOf(tokens[t].prefix)
      {
        SamePrefix(tokens[u].prefix, tokens[t].prefix);
      }
      assert TokenDigits(tokens) == TokenDigits(rest) + {DigitsOf(tokens[t].prefix)};
    }
  }

  lemma SomeToken(tokens: map<string, Token>) returns (t: string)
    requires tokens != map[]
    ensures t in tokens
  {
    if forall t :: t !in tokens {
      assert false;
    }
    t :| t in tokens;
  }

  lemma TooManyPrefixes(s: Store, prefix: string)
    requires Prefixed(s.tokens) && ValidPrefix(prefix) && forall t <- s.tokens :: s.tokens[t].prefix != prefix
    ensures Room(s)
  {
    hide Pow16, HexDigits, Written, ValidPrefix, DigitsOf;
    TokenDigitsSize(s.tokens);
    var digits := TokenDigits(s.tokens);
    forall t | t in s.tokens
      ensures DigitsOf(s.tokens[t].prefix) != DigitsOf(prefix) && Written(DigitsOf(s.tokens[t].prefix), PREFIXES, 16)
    {
      SamePrefix(s.tokens[t].prefix, prefix);
      DigitsWritten(s.tokens[t].prefix);
    }
    DigitsWritten(prefix);
    assert DigitsOf(prefix) !in digits;
    WrittenSize(digits + {DigitsOf(prefix)}, PREFIXES, 16);
  }

  // Once every prefix is taken no mint succeeds, so no run adds a token.
  lemma FullMint(s: Store, input: MintInput)
    requires Prefixed(s.tokens) && !Room(s)
    ensures MintStep(s, input).1.Err?
    ensures MintStep(s, input).0.tokens.Keys == s.tokens.Keys && MintStep(s, input).0.hashes == s.hashes
  {
    hide LoadContext, Enrol, Supersede, RevokeAll, AllRevocable, Revocable, Prefixed, Room, ValidPrefix, Subset, LastGeneration;
    if ValidPrefix(input.prefix) {
      PrefixesTaken(s, input.prefix);
    }
  }

  lemma FullStep(s: Store, e: Event)
    requires Prefixed(s.tokens) && !Room(s)
    ensures Apply(s, e).tokens.Keys == s.tokens.Keys && Apply(s, e).hashes == s.hashes
  {
    hide MintStep, Prefixed, Room, AllRevocable, Affected;
    if e.Minting? {
      FullMint(s, e.input);
    }
  }

  lemma {:induction false} FullRun(s: Store, events: seq<Event>)
    requires Consistent(s) && !Room(s)
    ensures Run(s, events).tokens.Keys == s.tokens.Keys && Run(s, events).hashes == s.hashes
  {
    hide Apply, Room, Consistent, Prefixed;
    if events != [] {
      var before := Run(s, events[..|events| - 1]);
      FullRun(s, events[..|events| - 1]);
      RunConsistent(s, events[..|events| - 1]);
      RoomStays(s, before);
      assert Prefixed(before.tokens) by { ConsistentPrefixes(before); }
      FullStep(before, events[|events| - 1]);
    }
  }

  lemma ConsistentPrefixes(s: Store)
    requires Consistent(s)
    ensures Prefixed(s.tokens)
  {
  }

  lemma RevokedIsDead(s: Store, id: string, hash: string)
    requires Consistent(s) && id in s.grants && s.grants[id].revoked.Some?
    requires hash in s.hashes && s.tokens[s.hashes[hash]].grantId == id
    ensures Dead(s, hash)
  {
    hide Numbered, Prefixed, Recorded, TokensDated, GrantsDated, LastGeneration;
  }

  // Then a revoked grant never comes back.
  lemma NoneReturns(s: Store, events: seq<Event>, id: string)
    requires Consistent(s) && !Room(s) && id in s.grants && s.grants[id].revoked.Some?
    ensures !Lives(Run(s, events), id)
  {
    hide Run, Room, Consistent, Dead, Authenticate, Indexed;
    var later := Run(s, events);
    FullRun(s, events);
    RunConsistent(s, events);
    forall hash
      ensures !(Authenticate(later, hash).Ok? && Authenticate(later, hash).value.grantId == id)
    {
      if Authenticate(later, hash).Ok? {
        AuthenticatedToken(later, hash);
        KnownHash(s, hash);
        var t := s.hashes[hash];
        assert Aged(s.tokens[t], later.tokens[t]);
        if s.tokens[t].grantId == id {
          RevokedIsDead(s, id, hash);
          RejectedForever(s, events, hash);
        }
      }
    }
  }

  lemma AuthenticatedToken(s: Store, hash: string)
    requires Authenticate(s, hash).Ok?
    ensures hash in s.hashes && s.hashes[hash] in s.tokens
    ensures Authenticate(s, hash).value.grantId == s.tokens[s.hashes[hash]].grantId
  {
    hide Standing, Intersection, Sort, Live;
  }

  lemma KnownHash(s: Store, hash: string)
    requires Consistent(s) && hash in s.hashes
    ensures s.hashes[hash] in s.tokens
  {
    hide Numbered, Fenced, Prefixed, Recorded, TokensDated, GrantsDated;
  }

  // --- When disabling is final ------------------------------------------------------------

  lemma DisabledReason(s: Store, after: Directory, id: string)
    requires DirectoryStep(s, after).1 && id in AffectedGrants(s, after)
    ensures var next := DirectoryStep(s, after).0;
            && id in next.grants && next.grants[id].revoked.Some?
            && (LoggedOut(next.grants[id]) <==> LoggedOut(s.grants[id]))
  {
    hide Affected, RevokeAll, AllRevocable;
  }

  lemma BannedIsDead(s: Store, id: string)
    requires Banned(s, id)
    ensures !Lives(s, id)
  {
    hide Standing, Intersection, Sort;
  }

  // A grant whose identity, person or user is disabled never lives again in any later run if and
  // only if it had not been logged out before, or no token prefix is left to come back with.
  lemma DisabledForGood(s: Store, after: Directory, id: string)
    requires Consistent(s) && DirectoryStep(s, after).1 && id in AffectedGrants(s, after)
    ensures id in s.grants
    ensures GoneForGood(DirectoryStep(s, after).0, id) <==> !LoggedOut(s.grants[id]) || !Room(s)
  {
    hide AffectedGrants, Consistent, Run, Lives, Room;
    var next := DirectoryStep(s, after).0;
    DisabledReason(s, after, id);
    DirectoryConsistent(s, after);
    assert id in s.grants by { AffectedKnown(s, after, id); }
    assert next.tokens.Keys == s.tokens.Keys;
    RoomStays(s, next);
    hide DirectoryStep;
    if LoggedOut(s.grants[id]) && Room(s) {
      var events := LoggedOutReturns(next, id);
      assert Lives(Run(next, events), id);
    } else {
      forall events
        ensures !Lives(Run(next, events), id)
      {
        if LoggedOut(s.grants[id]) {
          NoneReturns(next, events, id);
        } else {
          BannedForever(next, events, id);
          BannedIsDead(Run(next, events), id);
        }
      }
    }
  }

  lemma AffectedKnown(s: Store, after: Directory, id: string)
    requires id in AffectedGrants(s, after)
    ensures id in s.grants
  {
  }

  // --- A run in which disabling is not final ----------------------------------------------

  const DIRECTORY := Directory(
    map[Subject("issuer", "ann") := "identity"], map["identity" := IdentityRow("user", true)], {"user"},
    map["person" := PersonRow("user", true)], map["membership" := MembershipRow("user", "person", true, ["model"])])

  const INSTANCE := HexDigits(0, 32)

  const FIRST_MINT := MintInput(
    Subject("issuer", "ann"), "client", INSTANCE, HexDigits(0, 32), HexDigits(0, 32), "membership", ["model"],
    "grant", "token", "mint", "secret", "alz_u_" + HexDigits(0, 16), HexDigits(0, 32), 0)

  const LOGOUT := LogoutInput(Subject("issuer", "ann"), "client", "membership", INSTANCE, 1)

  lemma FirstRows()
    ensures RowsPass(FIRST_MINT) && Unused(Empty(0, DIRECTORY), FIRST_MINT) && Digest(INSTANCE)
  {
    var digits := HexDigits(0, 16);
    hide HexDigits;
    assert ("alz_u_" + digits)[6..] == digits && ("alz_u_" + digits)[..6] == "alz_u_";
  }

  lemma FirstMint()
    ensures var s := MintStep(Empty(0, DIRECTORY), FIRST_MINT).0;
            && s.grants.Keys == {"grant"} && s.bindings.Keys == {s.grants["grant"].binding}
            && s.bindings[s.grants["grant"].binding] == "grant" && s.tokens.Keys == {"token"}
            && s.grants["grant"] == Grant(Binding("identity", "client", INSTANCE, "membership"), "user", "person", ["model"], 0, GRANT_LIFETIME, None)
            && s.tokens["token"].grantId == "grant" && s.tokens["token"].issuedAt == 0 && s.directory == DIRECTORY && s.now == 0
  {
    FirstRows();
    hide LastGeneration, LoadContext, RowsPass, Unused, HexDigits, Digest;
    assert LoadContext(DIRECTORY, Subject("issuer", "ann"), "membership") == Some(Context("identity", "user", "person", ["model"])) by {
      FirstContext();
    }
  }

  lemma FirstContext()
    ensures LoadContext(DIRECTORY, Subject("issuer", "ann"), "membership") == Some(Context("identity", "user", "person", ["model"]))
  {
  }

  lemma ThenLogout()
    ensures var s := LogoutStep(MintStep(Empty(0, DIRECTORY), FIRST_MINT).0, LOGOUT).0;
            && s.grants.Keys == {"grant"} && s.tokens.Keys == {"token"} && s.directory == DIRECTORY && s.now == 0
            && LoggedOut(s.grants["grant"]) && s.grants["grant"].userId == "user"
            && (forall t <- s.tokens :: s.tokens[t].revokedAt.Some?)
  {
    FirstMint();
    hide MintStep, LoadContext;
    var minted := MintStep(Empty(0, DIRECTORY), FIRST_MINT).0;
    assert LogoutTarget(minted, LOGOUT) == Some("grant");
  }

  // Minted, logged out, and then disabled with the user: the grant is still not gone for good.
  lemma LogoutOutlivesDisabling()
    ensures var s := Run(Empty(0, DIRECTORY), [Minting(FIRST_MINT), LoggingOut(LOGOUT)]);
            var off := DIRECTORY.(users := {});
            DirectoryStep(s, off).1 && "grant" in AffectedGrants(s, off) && !GoneForGood(DirectoryStep(s, off).0, "grant")
  {
    hide Run, Consistent, MintStep, LogoutStep, GoneForGood, RevokeAll;
    var events := [Minting(FIRST_MINT), LoggingOut(LOGOUT)];
    RunTwo(Empty(0, DIRECTORY), Minting(FIRST_MINT), LoggingOut(LOGOUT));
    ThenLogout();
    var s := Run(Empty(0, DIRECTORY), events);
    EmptyConsistent(0, DIRECTORY);
    RunConsistent(Empty(0, DIRECTORY), events);
    DisabledForGood(s, DIRECTORY.(users := {}), "grant");
  }
}
