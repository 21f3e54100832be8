/**
 * `UserService`: signing a user in through an external identity provider, and
 * unlinking a provider. The two JPA repositories are in-memory tables held by
 * the service: the saved users and the saved provider links, each with the next
 * identity value the database would hand out.
 */
module UserService {
  import opened Wrappers
  import opened Decimal
  import opened Accounts

  /** The Java exceptions the operations can raise. */
  datatype Failure =
    | ArrayIndexOutOfBounds  // `email.split("@")[0]` on an address made only of '@'
    | IncorrectResultSize    // a single-result repository query that finds more than one row

  /** A returned value or a thrown exception. */
  datatype Outcome<T> = Done(value: T) | Thrown(failure: Failure)

  // ---------------------------------------------------------------------------
  // The text before the '@'
  // ---------------------------------------------------------------------------

  /** Everything before the first '@' (all of `s` when there is none). */
  function BeforeAt(s: string): (r: string)
    ensures '@' !in r && |r| <= |s| && s[..|r|] == r
    ensures |r| < |s| ==> s[|r|] == '@'
  {
    if s == [] || s[0] == '@' then "" else [s[0]] + BeforeAt(s[1..])
  }

  /** Only '@' characters. */
  predicate AllAt(s: string) {
    forall i :: 0 <= i < |s| ==> s[i] == '@'
  }

  /**
   * `email.split("@")[0]`. Java's `split` drops trailing empty pieces, so a
   * non-empty address made only of '@' splits into no pieces at all and piece 0
   * does not exist; every other address gives the text before its first '@'.
   */
  function LocalPart(email: string): (r: Outcome<string>)
    ensures r.Thrown? <==> |email| > 0 && AllAt(email)
    ensures r.Done? ==> r.value == BeforeAt(email) && '@' !in r.value
  {
    if |email| > 0 && AllAt(email) then Thrown(ArrayIndexOutOfBounds) else Done(BeforeAt(email))
  }

  // ---------------------------------------------------------------------------
  // Table lookups
  // ---------------------------------------------------------------------------

  /** The position of the saved user with id `id`, or -1. */
  function UserIndex(users: seq<User>, id: int): (r: int)
    ensures -1 <= r < |users|
    ensures r == -1 <==> forall i :: 0 <= i < |users| ==> users[i].id != Some(id)
    ensures r >= 0 ==> users[r].id == Some(id)
  {
    if users == [] then -1
    else if users[0].id == Some(id) then 0
    else
      var r := UserIndex(users[1..], id);
      if r == -1 then -1 else r + 1
  }

  /** `userRepository.findByEmail`: the position of the user with that e-mail address, or -1. */
  function EmailIndex(users: seq<User>, email: string): (r: int)
    ensures -1 <= r < |users|
    ensures r == -1 <==> forall i :: 0 <= i < |users| ==> users[i].email != Some(email)
    ensures r >= 0 ==> users[r].email == Some(email)
  {
    if users == [] then -1
    else if users[0].email == Some(email) then 0
    else
      var r := EmailIndex(users[1..], email);
      if r == -1 then -1 else r + 1
  }

  /** `findByProviderNameAndProviderUserId`: the position of the link for that external identity, or -1. */
  function LinkIndex(links: seq<ProviderLink>, providerName: string, providerUserId: string): (r: int)
    ensures -1 <= r < |links|
    ensures r == -1 <==> forall i :: 0 <= i < |links| ==> !Identifies(links[i], providerName, providerUserId)
    ensures r >= 0 ==> Identifies(links[r], providerName, providerUserId)
  {
    if links == [] then -1
    else if Identifies(links[0], providerName, providerUserId) then 0
    else
      var r := LinkIndex(links[1..], providerName, providerUserId);
      if r == -1 then -1 else r + 1
  }

  /** The link is for that external identity. */
  predicate Identifies(link: ProviderLink, providerName: string, providerUserId: string) {
    link.providerName == providerName && link.providerUserId == providerUserId
  }

  /** The link belongs to user `userId` and provider `providerName`. */
  predicate BelongsTo(link: ProviderLink, userId: int, providerName: string) {
    link.userId == userId && link.providerName == providerName
  }

  /** How many links `findByUserAndProviderName` matches. */
  function MatchCount(links: seq<ProviderLink>, userId: int, providerName: string): nat {
    if links == [] then 0
    else (if BelongsTo(links[0], userId, providerName) then 1 else 0) + MatchCount(links[1..], userId, providerName)
  }

  /** The position of the first link matching user and provider, or -1. */
  function MatchIndex(links: seq<ProviderLink>, userId: int, providerName: string): (r: int)
    ensures -1 <= r < |links|
    ensures r == -1 <==> MatchCount(links, userId, providerName) == 0
    ensures r >= 0 ==> BelongsTo(links[r], userId, providerName)
  {
    if links == [] then -1
    else if BelongsTo(links[0], userId, providerName) then 0
    else
      var r := MatchIndex(links[1..], userId, providerName);
      if r == -1 then -1 else r + 1
  }

  /** Counting over two lists one after the other adds the counts. */
  lemma {:induction false} MatchCountConcat(a: seq<ProviderLink>, b: seq<ProviderLink>, userId: int, providerName: string)
    ensures MatchCount(a + b, userId, providerName) == MatchCount(a, userId, providerName) + MatchCount(b, userId, providerName)
  {
    if a != [] {
      assert (a + b)[0] == a[0] && (a + b)[1..] == a[1..] + b;
      MatchCountConcat(a[1..], b, userId, providerName);
    } else {
      assert a + b == b;
    }
  }

  /** When exactly one link matches, removing it leaves none. */
  lemma RemoveOnlyMatch(links: seq<ProviderLink>, userId: int, providerName: string)
    requires MatchCount(links, userId, providerName) == 1
    ensures var i := MatchIndex(links, userId, providerName);
      MatchCount(links[..i] + links[i + 1..], userId, providerName) == 0
  {
    var i := MatchIndex(links, userId, providerName);
    var rest := [links[i]] + links[i + 1..];
    assert links == links[..i] + rest;
    MatchCountConcat(links[..i], rest, userId, providerName);
    MatchCountConcat([links[i]], links[i + 1..], userId, providerName);
    MatchCountConcat(links[..i], links[i + 1..], userId, providerName);
  }

  // ---------------------------------------------------------------------------
  // Unique user names
  // ---------------------------------------------------------------------------

  /** `userRepository.existsByUsername`. */
  predicate Taken(users: seq<User>, name: string) {
    exists i :: 0 <= i < |users| && users[i].username == Some(name)
  }

  /** The k-th name `makeUsernameUnique` tries: the base itself, then base + "1", base + "2", ... */
  function Candidate(base: string, k: nat): string {
    if k == 0 then base else base + NatToString(k)
  }

  /** Different tries are different names. */
  lemma CandidateInjective(base: string, a: nat, b: nat)
    requires a != b
    ensures Candidate(base, a) != Candidate(base, b)
  {
    if a > 0 && b > 0 && Candidate(base, a) == Candidate(base, b) {
      assert Candidate(base, a)[|base|..] == NatToString(a);
      assert Candidate(base, b)[|base|..] == NatToString(b);
      NatToStringInjective(a, b);
    } else if a == 0 || b == 0 {
      var k := if a == 0 then b else a;
      assert |Candidate(base, k)| > |base|;
    }
  }

  /** The names the users have. */
  function Usernames(users: seq<User>): set<string> {
    set i | 0 <= i < |users| && users[i].username.Some? :: users[i].username.value
  }

  /** There are no more names than users. */
  lemma {:induction false} UsernamesBound(users: seq<User>)
    ensures |Usernames(users)| <= |users|
  {
    if users != [] {
      var init := users[..|users| - 1];
      UsernamesBound(init);
      var last := users[|users| - 1];
      var extra := if last.username.Some? then {last.username.value} else {};
      assert Usernames(users) <= Usernames(init) + extra by {
        forall n | n in Usernames(users)
          ensures n in Usernames(init) + extra
        {
          var i :| 0 <= i < |users| && users[i].username.Some? && users[i].username.value == n;
          if i < |users| - 1 {
            assert init[i] == users[i];
          }
        }
      }
      SubsetCard(Usernames(users), Usernames(init) + extra);
    }
  }

  /** A subset is no larger. */
  lemma SubsetCard(a: set<string>, b: set<string>)
    requires a <= b
    ensures |a| <= |b|
  {
    assert b == a + (b - a);
  }

  /** The first n tries. */
  function Tries(base: string, n: nat): set<string> {
    set k | 0 <= k < n :: Candidate(base, k)
  }

  /** The first n tries are n different names. */
  lemma {:induction false} TriesCard(base: string, n: nat)
    ensures |Tries(base, n)| == n
  {
    if n > 0 {
      TriesCard(base, n - 1);
      assert Tries(base, n) == Tries(base, n - 1) + {Candidate(base, n - 1)};
      forall k | 0 <= k < n - 1
        ensures Candidate(base, k) != Candidate(base, n - 1)
      {
        CandidateInjective(base, k, n - 1);
      }
    }
  }

  /** `name` is the first try that is free: every earlier try is taken. */
  ghost predicate FirstFree(users: seq<User>, base: string, name: string) {
    !Taken(users, name) &&
    exists k: nat :: name == Candidate(base, k) && forall j :: 0 <= j < k ==> Taken(users, Candidate(base, j))
  }

  // ---------------------------------------------------------------------------
  // Table invariants
  // ---------------------------------------------------------------------------

  /** Saved users have ids below `nextId` and e-mail addresses; no two share either. */
  ghost predicate UsersValid(users: seq<User>, nextId: int) {
    && (forall i :: 0 <= i < |users| ==> users[i].id.Some? && users[i].id.value < nextId && users[i].email.Some?)
    && (forall i, j :: 0 <= i < j < |users| ==> users[i].id != users[j].id && users[i].email != users[j].email)
  }

  /** Links have ids below `nextId` and point at saved users; no two share an id or an external identity. */
  ghost predicate LinksValid(users: seq<User>, links: seq<ProviderLink>, nextId: int) {
    && (forall i :: 0 <= i < |links| ==> links[i].id < nextId && UserIndex(users, links[i].userId) >= 0)
    && (forall i, j :: 0 <= i < j < |links| ==>
          links[i].id != links[j].id &&
          !Identifies(links[j], links[i].providerName, links[i].providerUserId))
  }

  /** Deleting a link keeps the links valid. */
  lemma LinksRemove(users: seq<User>, links: seq<ProviderLink>, nextId: int, k: int)
    requires LinksValid(users, links, nextId) && 0 <= k < |links|
    ensures LinksValid(users, links[..k] + links[k + 1..], nextId)
  {
    var r := links[..k] + links[k + 1..];
    assert forall i :: 0 <= i < |r| ==> r[i] == links[if i < k then i else i + 1];
  }

  /** Saving a link with a fresh id, to a saved user, for an identity not yet linked, keeps the links valid. */
  lemma LinksAppend(users: seq<User>, links: seq<ProviderLink>, nextId: int, link: ProviderLink)
    requires LinksValid(users, links, nextId) && link.id == nextId && UserIndex(users, link.userId) >= 0
    requires LinkIndex(links, link.providerName, link.providerUserId) == -1
    ensures LinksValid(users, links + [link], nextId + 1)
  {
  }

  /** Saving a user keeps every link pointing at a saved user. */
  lemma LinksUserAdded(users: seq<User>, links: seq<ProviderLink>, nextId: int, user: User)
    requires LinksValid(users, links, nextId)
    ensures LinksValid(users + [user], links, nextId)
  {
    forall i | 0 <= i < |links|
      ensures UserIndex(users + [user], links[i].userId) >= 0
    {
      var k := UserIndex(users, links[i].userId);
      assert (users + [user])[k].id == Some(links[i].userId);
    }
  }

  // ---------------------------------------------------------------------------
  // The service
  // ---------------------------------------------------------------------------

  class UserService {
    var users: seq<User>
    var links: seq<ProviderLink>
    var nextUserId: int
    var nextLinkId: int

    /**
     * The tables as the database keeps them: every saved user has an id below
     * `nextUserId` and an e-mail address, ids and addresses are unique; every link
     * has an id below `nextLinkId`, points at a saved user, and no two links share
     * an id or an external identity.
     */
    ghost predicate Valid()
      reads this
    {
      UsersValid(users, nextUserId) && LinksValid(users, links, nextLinkId)
    }

    /** Empty tables, both identity sequences starting at 1. */
    constructor ()
      ensures Valid() && users == [] && links == [] && nextUserId == 1 && nextLinkId == 1
    {
      users := [];
      links := [];
      nextUserId := 1;
      nextLinkId := 1;
    }

    /** `makeUsernameUnique`: try the base, then base + counter for counter = 1, 2, ... until a name is free. */
    method MakeUsernameUnique(base: string) returns (name: string)
      ensures FirstFree(users, base, name)
    {
      name := base;
      var counter := 1;
      while Taken(users, name)
        invariant 1 <= counter <= |users| + 1
        invariant name == Candidate(base, counter - 1)
        invariant forall j :: 0 <= j < counter - 1 ==> Taken(users, Candidate(base, j))
        decreases |users| + 1 - counter
      {
        assert Tries(base, counter) <= Usernames(users) by {
          forall n | n in Tries(base, counter)
            ensures n in Usernames(users)
          {
            var k :| 0 <= k < counter && n == Candidate(base, k);
            assert Taken(users, Candidate(base, k));
            var i :| 0 <= i < |users| && users[i].username == Some(n);
          }
        }
        TriesCard(base, counter);
        UsernamesBound(users);
        SubsetCard(Tries(base, counter), Usernames(users));
        name := base + NatToString(counter);
        counter := counter + 1;
      }
    }

    /**
     * `createOrUpdateOAuth2User`. A known external identity returns its user and
     * saves nothing. Otherwise the user with that e-mail address is reused, or a new
     * user is saved whose name is the first free try built from the text before the
     * address's '@'; then one link from that user to the identity is saved.
     */
    method CreateOrUpdateOAuth2User(email: string, firstName: Option<string>, lastName: Option<string>,
                                    avatarUrl: Option<string>, providerName: string, providerUserId: string)
      returns (r: Outcome<User>)
      requires Valid()
      modifies this
      ensures Valid()
      ensures var li := LinkIndex(old(links), providerName, providerUserId);
        li >= 0 ==>
          && r == Done(old(users)[UserIndex(old(users), old(links)[li].userId)])
          && users == old(users) && links == old(links)
          && nextUserId == old(nextUserId) && nextLinkId == old(nextLinkId)
      ensures var li, ei := LinkIndex(old(links), providerName, providerUserId), EmailIndex(old(users), email);
        li < 0 && ei >= 0 ==>
          && r == Done(old(users)[ei])
          && users == old(users) && nextUserId == old(nextUserId)
          && links == old(links) + [ProviderLink(old(nextLinkId), old(users)[ei].id.value, providerName, providerUserId)]
          && nextLinkId == old(nextLinkId) + 1
      ensures var li, ei := LinkIndex(old(links), providerName, providerUserId), EmailIndex(old(users), email);
        li < 0 && ei < 0 && LocalPart(email).Thrown? ==>
          && r == Thrown(ArrayIndexOutOfBounds)
          && users == old(users) && links == old(links)
          && nextUserId == old(nextUserId) && nextLinkId == old(nextLinkId)
      ensures var li, ei := LinkIndex(old(links), providerName, providerUserId), EmailIndex(old(users), email);
        li < 0 && ei < 0 && LocalPart(email).Done? ==>
          && r.Done? && r.value.id == Some(old(nextUserId)) && r.value.email == Some(email)
          && r.value.firstName == firstName && r.value.lastName == lastName && r.value.avatarUrl == avatarUrl
          && r.value.username.Some? && FirstFree(old(users), LocalPart(email).value, r.value.username.value)
          && users == old(users) + [r.value] && nextUserId == old(nextUserId) + 1
          && links == old(links) + [ProviderLink(old(nextLinkId), old(nextUserId), providerName, providerUserId)]
          && nextLinkId == old(nextLinkId) + 1
      ensures r.Done? ==>
        && r.value.id.Some?
        && exists i :: 0 <= i < |links| && Identifies(links[i], providerName, providerUserId) && links[i].userId == r.value.id.value
    {
      var li := LinkIndex(links, providerName, providerUserId);
      if li >= 0 {
        var ui := UserIndex(users, links[li].userId);
        assert Identifies(links[li], providerName, providerUserId);
        return Done(users[ui]);
      }
      var ei := EmailIndex(users, email);
      var user: User;
      if ei >= 0 {
        user := users[ei];
        assert users[ei].id == Some(user.id.value);
      } else {
        var local := LocalPart(email);
        if local.Thrown? {
          return Thrown(local.failure);
        }
        var username := MakeUsernameUnique(local.value);
        user := User(Some(nextUserId), Some(email), Some(username), firstName, lastName, avatarUrl, None);
        SaveUser(user);
        assert users[|users| - 1].id == Some(user.id.value);
      }
      SaveLink(user.id.value, providerName, providerUserId);
      assert Identifies(links[|links| - 1], providerName, providerUserId);
      r := Done(user);
    }

    /** `userRepository.save` of a new user with a fresh id and a new e-mail address. */
    method SaveUser(user: User)
      requires Valid() && user.id == Some(nextUserId) && user.email.Some?
      requires EmailIndex(users, user.email.value) == -1
      modifies this
      ensures Valid()
      ensures users == old(users) + [user] && nextUserId == old(nextUserId) + 1
      ensures links == old(links) && nextLinkId == old(nextLinkId)
    {
      LinksUserAdded(users, links, nextLinkId, user);
      users := users + [user];
      nextUserId := nextUserId + 1;
    }

    /** `oauth2ProviderRepository.save` of a new link from a saved user to an identity not yet linked. */
    method SaveLink(userId: int, providerName: string, providerUserId: string)
      requires Valid() && UserIndex(users, userId) >= 0
      requires LinkIndex(links, providerName, providerUserId) == -1
      modifies this
      ensures Valid()
      ensures links == old(links) + [ProviderLink(old(nextLinkId), userId, providerName, providerUserId)]
      ensures nextLinkId == old(nextLinkId) + 1
      ensures users == old(users) && nextUserId == old(nextUserId)
    {
      LinksAppend(users, links, nextLinkId, ProviderLink(nextLinkId, userId, providerName, providerUserId));
      links := links + [ProviderLink(nextLinkId, userId, providerName, providerUserId)];
      nextLinkId := nextLinkId + 1;
    }

    /**
     * `disconnectOAuth2Provider`: false when no user has the address or the user has
     * no link for the provider; the single matching link is deleted and true
     * returned; more than one matching link makes the query throw.
     */
    method DisconnectOAuth2Provider(userEmail: string, providerName: string) returns (r: Outcome<bool>)
      requires Valid()
      modifies this
      ensures Valid()
      ensures users == old(users) && nextUserId == old(nextUserId) && nextLinkId == old(nextLinkId)
      ensures var ei := EmailIndex(old(users), userEmail);
        ei < 0 ==> r == Done(false) && links == old(links)
      ensures var ei := EmailIndex(old(users), userEmail);
        ei >= 0 ==>
          var uid := old(users)[ei].id.value;
          var n := MatchCount(old(links), uid, providerName);
          && (n == 0 ==> r == Done(false) && links == old(links))
          && (n == 1 ==>
                var i := MatchIndex(old(links), uid, providerName);
                && r == Done(true)
                && links == old(links)[..i] + old(links)[i + 1..]
                && MatchCount(links, uid, providerName) == 0)
          && (n > 1 ==> r == Thrown(IncorrectResultSize) && links == old(links))
    {
      var ei := EmailIndex(users, userEmail);
      if ei < 0 {
        return Done(false);
      }
      var uid := users[ei].id.value;
      var n := MatchCount(links, uid, providerName);
      if n > 1 {
        return Thrown(IncorrectResultSize);
      }
      if n == 0 {
        return Done(false);
      }
      var i := MatchIndex(links, uid, providerName);
      RemoveOnlyMatch(links, uid, providerName);
      LinksRemove(users, links, nextLinkId, i);
      links := links[..i] + links[i + 1..];
      r := Done(true);
    }
  }
}
