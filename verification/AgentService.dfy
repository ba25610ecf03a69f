/** The mint request as the service canonicalises it: one form for every spelling of the same request. */
module AgentService {
  import opened Wrappers
  import opened StringOrder
  import opened AgentStore
  import opened AgentStoreRuns

  const MAX_ALIASES := 64
  const MAX_ALIAS_LENGTH := 128

  predicate ValidAlias(alias: string) {
    1 <= |alias| <= MAX_ALIAS_LENGTH && forall c <- alias :: c !in " \t\r\n/\\"
  }

  function Trimmed(trim: string -> string, values: seq<string>): (trimmed: seq<string>)
    ensures |trimmed| == |values|
    ensures forall i | 0 <= i < |values| :: trimmed[i] == trim(values[i])
  {
    seq(|values|, i requires 0 <= i < |values| => trim(values[i]))
  }

  function Members(xs: seq<string>): (members: set<string>)
    ensures forall x :: x in members <==> x in xs
  {
    set x | x in xs
  }

  // First occurrences, in order.
  function Firsts(xs: seq<string>): seq<string> {
    if xs == [] then [] else
    var before := Firsts(xs[..|xs| - 1]);
    if xs[|xs| - 1] in before then before else before + [xs[|xs| - 1]]
  }

  lemma {:induction false} FirstsMembers(xs: seq<string>, x: string)
    ensures x in Firsts(xs) <==> x in xs
  {
    if xs != [] {
      FirstsMembers(xs[..|xs| - 1], x);
      assert xs == xs[..|xs| - 1] + [xs[|xs| - 1]];
    }
  }

  lemma {:induction false} FirstsDistinct(xs: seq<string>)
    ensures Distinct(Firsts(xs))
  {
    if xs != [] {
      FirstsDistinct(xs[..|xs| - 1]);
    }
  }

  // `trim` is the platform's trimming of white space.
  function Normalise(trim: string -> string, values: seq<string>): Option<seq<string>> {
    if 0 < |values| <= MAX_ALIASES && forall v <- Trimmed(trim, values) :: ValidAlias(v)
    then Some(Sort(Firsts(Trimmed(trim, values)))) else None
  }

  method NormaliseAliases(trim: string -> string, values: seq<string>) returns (result: Option<seq<string>>)
    ensures result == Normalise(trim, values)
  {
    if |values| == 0 || |values| > MAX_ALIASES {
      return None;
    }
    ghost var trimmed := Trimmed(trim, values);
    var seen: set<string> := {};
    var aliases: seq<string> := [];
    for i := 0 to |values|
      invariant aliases == Firsts(trimmed[..i])
      invariant forall a :: a in seen <==> a in aliases
      invariant forall k | 0 <= k < i :: ValidAlias(trimmed[k])
    {
      var value := trim(values[i]);
      assert value == trimmed[i] && trimmed[..i + 1][..i] == trimmed[..i];
      if |value| < 1 || |value| > MAX_ALIAS_LENGTH || exists c <- value :: c in " \t\r\n/\\" {
        assert !ValidAlias(value) && value in trimmed;
        return None;
      }
      if value !in seen {
        seen := seen + {value};
        aliases := aliases + [value];
      }
    }
    assert trimmed[..|values|] == trimmed;
    result := Some(Sort(aliases));
  }

  // A normalised list is ascending, without repetition, and holds exactly the trimmed aliases.
  lemma NormalisedList(trim: string -> string, values: seq<string>, a: string)
    requires Normalise(trim, values).Some?
    ensures var aliases := Normalise(trim, values).value;
            && Ascending(aliases) && Distinct(aliases)
            && (a in aliases <==> a in Trimmed(trim, values))
  {
    var firsts := Firsts(Trimmed(trim, values));
    FirstsMembers(Trimmed(trim, values), a);
    FirstsDistinct(Trimmed(trim, values));
    SortSorts(firsts);
    SortDistinct(firsts);
    SortMembers(firsts, a);
  }

  // Two lists canonicalise identically exactly when they have the same trimmed aliases.
  lemma SameAliasesSameList(trim: string -> string, xs: seq<string>, ys: seq<string>)
    requires Normalise(trim, xs).Some? && Normalise(trim, ys).Some?
    ensures Normalise(trim, xs) == Normalise(trim, ys)
            <==> Members(Trimmed(trim, xs)) == Members(Trimmed(trim, ys))
  {
    hide Normalise, Ascending, Distinct, Trimmed, Members;
    var a, b := Normalise(trim, xs).value, Normalise(trim, ys).value;
    forall x
      ensures x in a <==> x in Trimmed(trim, xs)
      ensures x in b <==> x in Trimmed(trim, ys)
    {
      NormalisedList(trim, xs, x);
      NormalisedList(trim, ys, x);
    }
    NormalisedList(trim, xs, "");
    NormalisedList(trim, ys, "");
    if Members(Trimmed(trim, xs)) == Members(Trimmed(trim, ys)) {
      forall x
        ensures x in a <==> x in b
      {
        assert x in Trimmed(trim, xs) <==> x in Members(Trimmed(trim, xs));
        assert x in Trimmed(trim, ys) <==> x in Members(Trimmed(trim, ys));
      }
      SameMembersSameList(a, b);
    }
    assert a == b ==> Members(Trimmed(trim, xs)) == Members(Trimmed(trim, ys));
  }

  // --- The request ------------------------------------------------------------------------

  datatype MintRequest = MintRequest(clientInstanceId: string, membershipId: string, aliases: seq<string>)

  datatype CanonicalRequest = CanonicalRequest(
    subject: Subject, clientId: string, clientInstanceId: string, membershipId: string, aliases: seq<string>)

  // The parts of the platform the service builds on: trimming, digests and the check of a marked id.
  datatype Platform = Platform(
    trim: string -> string, digest: string -> string, requestDigest: CanonicalRequest -> string,
    validMarked: (string, string) -> bool)

  predicate ValidSimpleId(id: string) {
    && 3 <= |id| <= 128
    && forall c <- id :: 'a' <= c <= 'z' || 'A' <= c <= 'Z' || '0' <= c <= '9' || c == '_' || c == '-'
  }

  // What the service draws for each mint.
  datatype Draw = Draw(grantId: string, tokenId: string, mintId: string, secret: string, prefix: string, hash: string, now: int)

  function StoreInput(p: Platform, subject: Subject, clientId: string, request: MintRequest, key: string, draw: Draw): Option<MintInput> {
    var clientInstance, membershipId := p.trim(request.clientInstanceId), p.trim(request.membershipId);
    match Normalise(p.trim, request.aliases)
    case None => None
    case Some(aliases) =>
      if !p.validMarked(clientInstance, "aci_") || !ValidSimpleId(membershipId) || !p.validMarked(key, "agm_") then None else
      var canonical := CanonicalRequest(subject, clientId, clientInstance, membershipId, aliases);
      Some(MintInput(subject, clientId, p.digest(clientInstance), p.digest(key), p.requestDigest(canonical), membershipId, aliases,
                     draw.grantId, draw.tokenId, draw.mintId, draw.secret, draw.prefix, draw.hash, draw.now))
  }

  // An alias as the service takes it: one to 128 characters, none of them blank or a slash.
  predicate AliasTaken(alias: string) {
    1 <= |alias| <= 128 && forall c <- alias :: c != ' ' && c != '\t' && c != '\r' && c != '\n' && c != '/' && c != '\\'
  }

  predicate MembershipTaken(id: string) {
    3 <= |id| <= 128 && forall c <- id :: 'a' <= c <= 'z' || 'A' <= c <= 'Z' || '0' <= c <= '9' || c == '_' || c == '-'
  }

  lemma NormalisedExactly(trim: string -> string, values: seq<string>)
    ensures Normalise(trim, values).Some? <==> 1 <= |values| <= 64 && forall value <- values :: AliasTaken(trim(value))
  {
    hide ValidAlias, AliasTaken, Firsts, Sort;
    forall i | 0 <= i < |values|
      ensures ValidAlias(Trimmed(trim, values)[i]) <==> AliasTaken(trim(values[i]))
    {
      AliasIs(trim(values[i]));
    }
    if forall value <- values :: AliasTaken(trim(value)) {
      forall v <- Trimmed(trim, values)
        ensures ValidAlias(v)
      {
        var i :| 0 <= i < |values| && Trimmed(trim, values)[i] == v;
        assert values[i] in values;
      }
    }
  }

  lemma AliasIs(alias: string)
    ensures ValidAlias(alias) <==> AliasTaken(alias)
  {
  }

  // Which requests reach the store, and as what.
  lemma StoreInputExactly(p: Platform, subject: Subject, clientId: string, request: MintRequest, key: string, draw: Draw)
    ensures var stored := StoreInput(p, subject, clientId, request, key, draw);
            && (stored.Some?
                <==> && 1 <= |request.aliases| <= 64 && (forall alias <- request.aliases :: AliasTaken(p.trim(alias)))
                     && p.validMarked(p.trim(request.clientInstanceId), "aci_") && p.validMarked(key, "agm_")
                     && MembershipTaken(p.trim(request.membershipId)))
            && (stored.Some? ==>
                  && stored.value.subject == subject && stored.value.clientId == clientId
                  && stored.value.clientInstance == p.digest(p.trim(request.clientInstanceId)) && stored.value.keyDigest == p.digest(key)
                  && stored.value.membershipId == p.trim(request.membershipId)
                  && Normalise(p.trim, request.aliases) == Some(stored.value.aliases)
                  && stored.value.requestHash
                     == p.requestDigest(CanonicalRequest(subject, clientId, p.trim(request.clientInstanceId), p.trim(request.membershipId),
                                                         stored.value.aliases))
                  && draw == Draw(stored.value.grantId, stored.value.tokenId, stored.value.mintId, stored.value.secret, stored.value.prefix,
                                  stored.value.hash, stored.value.now))
  {
    hide Normalise, AliasTaken;
    NormalisedExactly(p.trim, request.aliases);
  }

  // The subject stands for one identity, as long as it is known to both directories.
  predicate SameIdentity(d: Directory, e: Directory, subject: Subject) {
    subject in d.subjects && subject in e.subjects ==> d.subjects[subject] == e.subjects[subject]
  }

  // However a caller spells the same request, it reaches the store under the same request hash: whatever
  // ran since the first mint, repeating it under its key is never taken for a different request.
  lemma SameRequestNeverConflicts(
    p: Platform, subject: Subject, clientId: string, first: MintRequest, again: MintRequest, key: string,
    draw: Draw, other: Draw, s: Store, events: seq<Event>)
    requires StoreInput(p, subject, clientId, first, key, draw).Some? && StoreInput(p, subject, clientId, again, key, other).Some?
    requires p.trim(first.clientInstanceId) == p.trim(again.clientInstanceId)
    requires p.trim(first.membershipId) == p.trim(again.membershipId)
    requires Members(Trimmed(p.trim, first.aliases)) == Members(Trimmed(p.trim, again.aliases))
    requires var (minted, result) := MintStep(s, StoreInput(p, subject, clientId, first, key, draw).value);
             result.Ok? && SameIdentity(s.directory, Run(minted, events).directory, subject)
    ensures var minted := MintStep(s, StoreInput(p, subject, clientId, first, key, draw).value).0;
            MintStep(Run(minted, events), StoreInput(p, subject, clientId, again, key, other).value).1
            in {Err(ResponseUnrecoverable), Err(StoreFailure), Err(Forbidden)}
  {
    hide Normalise, Run, MintStep, ValidSimpleId;
    SameAliasesSameList(p.trim, first.aliases, again.aliases);
    var input, repeated := StoreInput(p, subject, clientId, first, key, draw).value, StoreInput(p, subject, clientId, again, key, other).value;
    var minted := MintStep(s, input).0;
    MintRecordsRequest(s, input);
    RunKeepsMints(minted, events, KeyAt(s, input).value);
    RepeatedHash(s, Run(minted, events), input, repeated);
  }

  lemma MintRecordsRequest(s: Store, input: MintInput)
    requires MintStep(s, input).1.Ok?
    ensures KeyAt(s, input).Some? && KeyAt(s, input).value in MintStep(s, input).0.mints
    ensures MintStep(s, input).0.mints[KeyAt(s, input).value].requestHash == input.requestHash
  {
    hide LoadContext, Enrol, Unused, AllRevocable, RevokeAll, Supersede, Subset, Revocable, LastGeneration;
  }

  lemma RepeatedHash(s: Store, t: Store, input: MintInput, repeated: MintInput)
    requires KeyAt(s, input).Some? && KeyAt(s, input).value in t.mints
    requires t.mints[KeyAt(s, input).value].requestHash == repeated.requestHash
    requires repeated.subject == input.subject && repeated.clientId == input.clientId
    requires repeated.keyDigest == input.keyDigest && repeated.membershipId == input.membershipId
    requires SameIdentity(s.directory, t.directory, input.subject)
    ensures MintStep(t, repeated).1 in {Err(ResponseUnrecoverable), Err(StoreFailure), Err(Forbidden)}
  {
    hide LoadContext, Enrol, Unused, AllRevocable, RevokeAll, Supersede, Subset, Revocable, LastGeneration, SameIdentity;
    ContextIdentity(s.directory, t.directory, input.subject, input.membershipId);
  }

  lemma ContextIdentity(d: Directory, e: Directory, subject: Subject, membershipId: string)
    requires SameIdentity(d, e, subject) && LoadContext(d, subject, membershipId).Some?
    ensures LoadContext(e, subject, membershipId).Some? ==>
              LoadContext(e, subject, membershipId).value.identityId == LoadContext(d, subject, membershipId).value.identityId
  {
  }
}
