/**
 * The back end's account records: the `User` entity, the `UserDTO` sent to the
 * client and the `OAuth2ProviderDTO` pairs inside it. Java strings may be null,
 * so every nullable field is an `Option`.
 */
module Accounts {
  import opened Wrappers

  /** A stored `OAuth2Provider` link from a user to an external identity (tokens and timestamps left out). */
  datatype ProviderLink = ProviderLink(id: int, userId: int, providerName: string, providerUserId: string)

  /** The `User` entity; `id` is null until the entity is saved (timestamps and password hash left out). */
  datatype User = User(id: Option<int>, email: Option<string>, username: Option<string>,
                       firstName: Option<string>, lastName: Option<string>, avatarUrl: Option<string>,
                       oauth2Providers: Option<seq<ProviderLink>>)

  /** `OAuth2ProviderDTO`. */
  datatype ProviderInfo = ProviderInfo(providerName: string, providerUserId: string)

  /** `UserDTO` (the creation time left out). */
  datatype UserDTO = UserDTO(id: Option<int>, email: Option<string>, username: Option<string>,
                             firstName: Option<string>, lastName: Option<string>, fullName: Option<string>,
                             avatarUrl: Option<string>, oauth2Providers: Option<seq<ProviderInfo>>)

  /** A name that is null or empty adds nothing to the builder. */
  predicate Blank(name: Option<string>) {
    name.None? || name.value == ""
  }

  /**
   * `UserDTO.buildFullName`: append the first name if not null; if the last name is
   * not null, append a space when the builder already holds something, then the last
   * name; an empty builder gives `username` instead.
   */
  function BuildFullName(firstName: Option<string>, lastName: Option<string>, username: Option<string>): (r: Option<string>)
    ensures !Blank(firstName) && lastName.Some? ==> r == Some(firstName.value + " " + lastName.value)
    ensures !Blank(firstName) && lastName.None? ==> r == Some(firstName.value)
    ensures Blank(firstName) && !Blank(lastName) ==> r == Some(lastName.value)
    ensures Blank(firstName) && Blank(lastName) ==> r == username
  {
    var afterFirst := if firstName.Some? then firstName.value else "";
    var afterLast :=
      if lastName.Some? then (if |afterFirst| > 0 then afterFirst + " " else afterFirst) + lastName.value
      else afterFirst;
    assert lastName.Some? ==> "" + lastName.value == lastName.value;
    if |afterLast| > 0 then Some(afterLast) else username
  }

  /** A built name that is not the fallback starts with a character of a name, never with the inserted space. */
  lemma NoLeadingSpace(firstName: Option<string>, lastName: Option<string>, username: Option<string>)
    requires BuildFullName(firstName, lastName, username) != username
    ensures var r := BuildFullName(firstName, lastName, username).value;
      |r| > 0 && r[0] == (if !Blank(firstName) then firstName.value[0] else lastName.value[0])
  {
  }

  /** `User.getFullName`: the same builder over the entity's fields; it agrees with `buildFullName`. */
  function GetFullName(u: User): (r: Option<string>)
    ensures r == BuildFullName(u.firstName, u.lastName, u.username)
  {
    var afterFirst := if u.firstName.Some? then u.firstName.value else "";
    var afterLast :=
      if u.lastName.Some? then (if |afterFirst| > 0 then afterFirst + " " else afterFirst) + u.lastName.value
      else afterFirst;
    if |afterLast| > 0 then Some(afterLast) else u.username
  }

  /** `new User(email, username, firstName, lastName)`: those four fields as given, everything else null. */
  function NewUser(email: Option<string>, username: Option<string>, firstName: Option<string>, lastName: Option<string>): (u: User)
    ensures u.email == email && u.username == username && u.firstName == firstName && u.lastName == lastName
    ensures u.id.None? && u.avatarUrl.None? && u.oauth2Providers.None?
    ensures GetFullName(u) == BuildFullName(firstName, lastName, username)
  {
    User(None, email, username, firstName, lastName, None, None)
  }

  /** The seven-argument `UserDTO` constructor: each argument copied, the full name built, no provider list. */
  function NewUserDTO(id: Option<int>, email: Option<string>, username: Option<string>, firstName: Option<string>,
                      lastName: Option<string>, avatarUrl: Option<string>): (d: UserDTO)
    ensures d.id == id && d.email == email && d.username == username
    ensures d.firstName == firstName && d.lastName == lastName && d.avatarUrl == avatarUrl
    ensures d.fullName == BuildFullName(firstName, lastName, username)
    ensures d.oauth2Providers.None?
  {
    UserDTO(id, email, username, firstName, lastName, BuildFullName(firstName, lastName, username), avatarUrl, None)
  }

  /** `OAuth2ProviderDTO` of a link. */
  function ToInfo(link: ProviderLink): ProviderInfo {
    ProviderInfo(link.providerName, link.providerUserId)
  }

  /**
   * `UserService.convertToUserDTO`: the DTO of the user's fields, whose full name
   * is the user's full name; the provider list is null exactly when the user's is,
   * and otherwise holds one (name, external id) pair per link, in order.
   */
  function ConvertToUserDTO(u: User): (d: UserDTO)
    ensures d.id == u.id && d.email == u.email && d.username == u.username
    ensures d.firstName == u.firstName && d.lastName == u.lastName && d.avatarUrl == u.avatarUrl
    ensures d.fullName == GetFullName(u)
    ensures d.oauth2Providers.None? <==> u.oauth2Providers.None?
    ensures u.oauth2Providers.Some? ==>
      var ls := u.oauth2Providers.value;
      && |d.oauth2Providers.value| == |ls|
      && forall i :: 0 <= i < |ls| ==>
           d.oauth2Providers.value[i] == ProviderInfo(ls[i].providerName, ls[i].providerUserId)
  {
    var d := NewUserDTO(u.id, u.email, u.username, u.firstName, u.lastName, u.avatarUrl);
    match u.oauth2Providers
    case None => d
    case Some(ls) => d.(oauth2Providers := Some(seq(|ls|, i requires 0 <= i < |ls| => ToInfo(ls[i]))))
  }
}
