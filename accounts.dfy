/**
 * The account service of app/Repositories/EloquentAccountRepository.php, stated on
 * values: the persisted user table, the authenticated user id, the three
 * impersonation keys of the session, the `app.registration` setting and the
 * confirmation notifications sent so far. Every public method of the repository is
 * one function from the old state to the new state and the method's result; the
 * class in Repository runs the same steps in place and is proved against these.
 */
module Accounts {
  import opened Wrappers
  import opened Hashing

  /** A `social_logins` row: the provider's name and the id it gave the person. */
  datatype SocialLogin = SocialLogin(provider: string, providerId: string)

  /** A `users` row and the social logins that belong to it. */
  datatype User = User(
    name: string,
    email: string,
    password: Option<Hash>,             // None: no password set (an account made through a provider)
    confirmationToken: Option<string>,
    confirmed: bool,
    isSuperAdmin: bool,
    active: bool,
    locale: Option<string>,
    timezone: Option<string>,
    lastAccessAt: Option<int>,
    providers: seq<SocialLogin>)

  /** What a provider reports about the person who signed in; an absent email is "". */
  datatype SocialProfile = SocialProfile(id: string, email: string, name: string)

  /** The session keys `admin_user_id`, `admin_user_name` and `temp_user_id`. */
  datatype Session = Session(adminUserId: Option<int>, adminUserName: Option<string>, tempUserId: Option<int>)

  const NoImpersonation := Session(None, None, None)

  /** A `SendConfirmation` notification handed to the user's notifier. */
  datatype Notice = ConfirmationNotice(userId: int, token: string)

  /** Where the redirect returned by `loginAs` and `logoutAs` leads. */
  datatype Landing = AdminHome | HomeRoute

  /** The GeneralException messages the service raises. */
  datatype Error = EmailTaken | RegistrationDisabled | PasswordMismatch | ProtectedAccount

  datatype Account = Account(
    users: map<int, User>,
    nextId: int,                 // the id the next stored user receives (auto-increment)
    authId: int,                 // `auth()->user()->id`
    session: Session,
    registration: bool,          // `config('app.registration')`
    outbox: seq<Notice>)

  /** The state after an operation, and what the operation returned. */
  datatype Step<T> = Step(next: Account, value: T)

  /** `Str::random(60)` */
  const TokenLength := 60

  predicate LinksDistinct(links: seq<SocialLogin>)
  {
    forall i, j :: 0 <= i < j < |links| ==> links[i].provider != links[j].provider
  }

  ghost predicate EmailsUnique(users: map<int, User>)
  {
    forall a, b :: a in users && b in users && a != b ==> users[a].email != users[b].email
  }

  /** The impersonation keys are present together or absent together. */
  predicate KeysTogether(session: Session)
  {
    && (session.adminUserId.Some? <==> session.adminUserName.Some?)
    && (session.adminUserId.Some? <==> session.tempUserId.Some?)
  }

  /** The state invariant every operation keeps. */
  ghost predicate Valid(s: Account)
  {
    && s.nextId > 0
    && (forall id :: id in s.users ==> 0 < id < s.nextId)
    && EmailsUnique(s.users)
    && (forall id :: id in s.users ==> LinksDistinct(s.users[id].providers))
    && (forall id :: id in s.users && s.users[id].confirmationToken.Some? ==>
          |s.users[id].confirmationToken.value| == TokenLength)
    && KeysTogether(s.session)
    // the restore point exists and is not the identity being acted as
    && (s.session.adminUserId.Some? ==>
          s.session.adminUserId.value in s.users && s.session.adminUserId.value != s.authId)
  }

  /** No super-admin of `s` is deleted or loses the flag in `t`. */
  ghost predicate KeepsSuperAdmins(s: Account, t: Account)
  {
    forall id :: id in s.users && s.users[id].isSuperAdmin ==> id in t.users && t.users[id].isSuperAdmin
  }

  /** PHP truthiness of the `admin_user_id` value: absent and 0 both read as false. */
  predicate Recorded(adminUserId: Option<int>)
  {
    adminUserId.Some? && adminUserId.value != 0
  }

  ghost predicate EmailInUse(users: map<int, User>, email: string)
  {
    exists id :: id in users && users[id].email == email
  }

  /** `whereEmail($email)->first()` */
  ghost function UserWithEmail(users: map<int, User>, email: string): (r: Option<int>)
    ensures r.Some? <==> EmailInUse(users, email)
    ensures r.Some? ==> r.value in users && users[r.value].email == email
  {
    if EmailInUse(users, email) then
      var id :| id in users && users[id].email == email; Some(id)
    else
      None
  }

  /** `User::getProvider($provider)`: the first link of the user for that provider name
   * (AccountProperties.FindProviderFindsFirst). */
  function FindProvider(links: seq<SocialLogin>, provider: string): (r: Option<SocialLogin>)
    ensures r.Some? ==> r.value in links && r.value.provider == provider
    ensures r.None? <==> forall i :: 0 <= i < |links| ==> links[i].provider != provider
  {
    if links == [] then None
    else if links[0].provider == provider then Some(links[0])
    else FindProvider(links[1..], provider)
  }

  predicate HasProvider(links: seq<SocialLogin>, provider: string)
  {
    FindProvider(links, provider).Some?
  }

  /** The email a social sign-in is resolved by: the provider's, else `"{id}@{provider}.com"`. */
  function LookupEmail(provider: string, data: SocialProfile): (r: string)
    ensures r != []
    ensures data.email != "" ==> r == data.email
    ensures data.email == "" ==> r == data.id + "@" + provider + ".com"
  {
    // `?:` also treats the email "0" as absent; the model only tests for the empty string
    if data.email != "" then data.email else data.id + "@" + provider + ".com"
  }

  /** `$user->fill(Arr::only($input, ['name', 'email', 'locale', 'timezone']))` */
  function Fill(u: User, input: map<string, string>): (r: User)
    ensures r.(name := u.name, email := u.email, locale := u.locale, timezone := u.timezone) == u
    ensures "name" in input ==> r.name == input["name"]
    ensures "name" !in input ==> r.name == u.name
    ensures "email" in input ==> r.email == input["email"]
    ensures "email" !in input ==> r.email == u.email
    ensures "locale" in input ==> r.locale == Some(input["locale"])
    ensures "locale" !in input ==> r.locale == u.locale
    ensures "timezone" in input ==> r.timezone == Some(input["timezone"])
    ensures "timezone" !in input ==> r.timezone == u.timezone
  {
    u.(name := if "name" in input then input["name"] else u.name,
       email := if "email" in input then input["email"] else u.email,
       locale := if "locale" in input then Some(input["locale"]) else u.locale,
       timezone := if "timezone" in input then Some(input["timezone"]) else u.timezone)
  }

  /** Besides the allow-listed fields, `v` differs from `u` only in its confirmation state. */
  ghost predicate OnlyProfileChanged(u: User, v: User)
  {
    v.(name := u.name, email := u.email, locale := u.locale, timezone := u.timezone,
       confirmed := u.confirmed, confirmationToken := u.confirmationToken) == u
  }

  function NewUser(name: string, email: string, password: Option<Hash>, active: bool, confirmed: bool): User
  {
    User(name, email, password, None, confirmed, false, active, None, None, None, [])
  }

  /**
   * `$this->users->store($input, $confirmed)`: inserts a row under the next id, hashing
   * the password when one is given; a duplicate email is refused.
   */
  ghost function Store(s: Account, name: string, email: string, password: Option<string>, salt: nat,
                       active: bool, confirmed: bool): (r: Step<Result<int, Error>>)
    requires Valid(s)
    ensures Valid(r.next) && KeepsSuperAdmins(s, r.next)
    ensures r.value.Failure? <==> EmailInUse(s.users, email)
    ensures r.value.Failure? ==> r == Step(s, Failure(EmailTaken))
    ensures r.value.Success? ==>
      var id := r.value.value;
      && id !in s.users
      && r.next.users.Keys == s.users.Keys + {id}
      && (forall other :: other in s.users ==> r.next.users[other] == s.users[other])
      && r.next.users[id].email == email && r.next.users[id].name == name
      && r.next.users[id].active == active && r.next.users[id].confirmed == confirmed
      && !r.next.users[id].isSuperAdmin && r.next.users[id].providers == []
      && (password.None? <==> r.next.users[id].password.None?)
      && (password.Some? ==> Check(password.value, r.next.users[id].password.value))
      && r.next.(users := s.users, nextId := s.nextId) == s
  {
    if EmailInUse(s.users, email) then
      Step(s, Failure(EmailTaken))
    else
      var hash := if password.Some? then Some(Bcrypt(password.value, salt)) else None;
      var id := s.nextId;
      Step(s.(users := s.users[id := NewUser(name, email, hash, active, confirmed)], nextId := id + 1), Success(id))
  }

  /** `sendConfirmationToUser`: installs a fresh 60-character token and notifies the user of it. */
  ghost function SendConfirmationTo(s: Account, id: int, token: string): (r: Account)
    requires Valid(s) && id in s.users && |token| == TokenLength
    ensures Valid(r) && KeepsSuperAdmins(s, r)
    ensures r.users.Keys == s.users.Keys
    ensures r.users[id] == s.users[id].(confirmationToken := Some(token))
    ensures forall other :: other in s.users && other != id ==> r.users[other] == s.users[other]
    ensures r.outbox == s.outbox + [ConfirmationNotice(id, token)]
    ensures r.(users := s.users, outbox := s.outbox) == s
  {
    s.(users := s.users[id := s.users[id].(confirmationToken := Some(token))],
       outbox := s.outbox + [ConfirmationNotice(id, token)])
  }

  /** `register`: stores name, email and password, then sends the new user a confirmation. */
  ghost function Register(s: Account, name: string, email: string, password: string, salt: nat,
                          token: string): (r: Step<Result<int, Error>>)
    requires Valid(s) && |token| == TokenLength
    ensures Valid(r.next) && KeepsSuperAdmins(s, r.next)
    ensures r.value.Failure? <==> EmailInUse(s.users, email)
    ensures r.value.Failure? ==> r == Step(s, Failure(EmailTaken))
    ensures r.value.Success? ==>
      var id := r.value.value;
      && id !in s.users
      && r.next.users.Keys == s.users.Keys + {id}
      && (forall other :: other in s.users ==> r.next.users[other] == s.users[other])
      && r.next.users[id].email == email && r.next.users[id].name == name
      && r.next.users[id].password.Some? && Check(password, r.next.users[id].password.value)
      && !r.next.users[id].confirmed && !r.next.users[id].isSuperAdmin
      && r.next.users[id].confirmationToken == Some(token)
      && r.next.outbox == s.outbox + [ConfirmationNotice(id, token)]
      && r.next.session == s.session && r.next.authId == s.authId
      // the new row is store's inactive, unconfirmed row carrying the sent token
      && r.next.users[id] == NewUser(name, email, r.next.users[id].password, false, false).(confirmationToken := Some(token))
      // only the user table, the id counter and the outbox change
      && r.next.(users := s.users, nextId := s.nextId, outbox := s.outbox) == s
  {
    var stored := Store(s, name, email, Some(password), salt, false, false);
    match stored.value
    case Failure(e) => Step(s, Failure(e))
    case Success(id) => Step(SendConfirmationTo(stored.next, id, token), Success(id))
  }

  /** `login` after authentication: stamps the last access time; nothing else changes. */
  ghost function Login(s: Account, id: int, now: int): (r: Step<int>)
    requires Valid(s) && id in s.users
    ensures Valid(r.next) && KeepsSuperAdmins(s, r.next)
    ensures r.value == id
    ensures r.next.users.Keys == s.users.Keys
    ensures r.next.users[id] == s.users[id].(lastAccessAt := Some(now))
    ensures forall other :: other in s.users && other != id ==> r.next.users[other] == s.users[other]
    ensures r.next.(users := s.users) == s
  {
    Step(s.(users := s.users[id := s.users[id].(lastAccessAt := Some(now))]), id)
  }

  /** `$user->providers()->save(...)` behind the `getProvider` test. */
  ghost function LinkProvider(s: Account, id: int, provider: string, providerId: string): (r: Account)
    requires Valid(s) && id in s.users
    ensures Valid(r) && KeepsSuperAdmins(s, r)
    ensures r.users.Keys == s.users.Keys
    ensures HasProvider(r.users[id].providers, provider)
    ensures HasProvider(s.users[id].providers, provider) ==> r == s
    ensures !HasProvider(s.users[id].providers, provider) ==>
      r.users[id] == s.users[id].(providers := s.users[id].providers + [SocialLogin(provider, providerId)])
    ensures forall other :: other in s.users && other != id ==> r.users[other] == s.users[other]
    ensures r.(users := s.users) == s
  {
    var u := s.users[id];
    if HasProvider(u.providers, provider) then s
    else
      var links := u.providers + [SocialLogin(provider, providerId)];
      assert LinksDistinct(links) by {
        forall i, j | 0 <= i < j < |links| ensures links[i].provider != links[j].provider {
          if j == |u.providers| {
            assert links[i] == u.providers[i];
          }
        }
      }
      var r := s.(users := s.users[id := u.(providers := links)]);
      assert FindProvider(links, provider).Some? by {
        assert links[|links| - 1].provider == provider;
      }
      r
  }

  /**
   * `findOrCreateSocial`: resolves the sign-in to the user owning the lookup email,
   * creating an active, confirmed user when there is none and registration is on,
   * and links the provider unless the user already has a link for it.
   */
  ghost function FindOrCreateSocial(s: Account, provider: string, data: SocialProfile): (r: Step<Result<int, Error>>)
    requires Valid(s)
    ensures Valid(r.next) && KeepsSuperAdmins(s, r.next)
    ensures var email := LookupEmail(provider, data);
      && (EmailInUse(s.users, email) ==>
            r.value == Success(UserWithEmail(s.users, email).value) && r.next.users.Keys == s.users.Keys)
      && (!EmailInUse(s.users, email) && !s.registration ==> r == Step(s, Failure(RegistrationDisabled)))
      && (!EmailInUse(s.users, email) && s.registration ==>
            && r.value.Success? && r.value.value !in s.users
            && r.next.users.Keys == s.users.Keys + {r.value.value}
            && r.next.users[r.value.value].name == data.name
            && r.next.users[r.value.value].active && r.next.users[r.value.value].confirmed
            && r.next.users[r.value.value].providers == [SocialLogin(provider, data.id)])
      && (r.value.Success? ==>
            && r.value.value in r.next.users
            && r.next.users[r.value.value].email == email
            && HasProvider(r.next.users[r.value.value].providers, provider)
            && (forall other :: other in s.users && other != r.value.value ==>
                  r.next.users[other] == s.users[other])
            && r.next.session == s.session && r.next.authId == s.authId && r.next.outbox == s.outbox)
    ensures r.value.Success? && r.value.value in s.users && HasProvider(s.users[r.value.value].providers, provider) ==>
      r.next == s
    // a reused user without a link for the provider gains exactly the link (provider, data.id)
    ensures r.value.Success? && r.value.value in s.users && !HasProvider(s.users[r.value.value].providers, provider) ==>
      r.next.users[r.value.value] ==
        s.users[r.value.value].(providers := s.users[r.value.value].providers + [SocialLogin(provider, data.id)])
    // a created user is store's active, confirmed row without password, plus that one link
    ensures r.value.Success? && r.value.value !in s.users ==>
      r.next.users[r.value.value] ==
        NewUser(data.name, LookupEmail(provider, data), None, true, true).(providers := [SocialLogin(provider, data.id)])
    // only the user table and the id counter can change
    ensures r.next.(users := s.users, nextId := s.nextId) == s
  {
    var email := LookupEmail(provider, data);
    match UserWithEmail(s.users, email)
    case Some(id) => Step(LinkProvider(s, id, provider, data.id), Success(id))
    case None =>
      if !s.registration then Step(s, Failure(RegistrationDisabled))
      else
        var created := Store(s, data.name, email, None, 0, true, true);
        match created.value
        case Success(id) => Step(LinkProvider(created.next, id, provider, data.id), Success(id))
        case Failure(e) => assert false; Step(s, Failure(e))
  }

  /**
   * `auth()->loginUsingId($id)`: switches the authenticated user when that user exists.
   * Repository.AccountRepository.LoginUsingId performs the same switch in place.
   */
  function LoginUsingId(s: Account, id: int): Account
  {
    if id in s.users then s.(authId := id) else s
  }

  /** `flushTempSession`: forgets the three impersonation keys. */
  function FlushTempSession(s: Account): (r: Account)
    ensures r.session == NoImpersonation && KeysTogether(r.session)
    ensures r.(session := s.session) == s
  {
    s.(session := NoImpersonation)
  }

  /**
   * `loginAs($user)`: the acting user starts acting as `target`. Acting as oneself or
   * as the recorded admin is refused; the keys are recorded only when no admin id is
   * recorded yet, so a nested call keeps the first restore point.
   */
  ghost function LoginAs(s: Account, target: int): (r: Step<Landing>)
    requires Valid(s) && s.authId in s.users && target in s.users
    ensures Valid(r.next) && KeepsSuperAdmins(s, r.next)
    ensures r.value == AdminHome <==> target == s.authId || s.session.adminUserId == Some(target)
    ensures r.value == AdminHome ==> r.next == s
    ensures r.value == HomeRoute ==>
      && r.next.authId == target
      && r.next.(authId := s.authId, session := s.session) == s
      && (s.session.adminUserId.None? ==>
            r.next.session == Session(Some(s.authId), Some(s.users[s.authId].name), Some(target)))
      && (s.session.adminUserId.Some? ==> r.next.session == s.session)
  {
    if target == s.authId || s.session.adminUserId == Some(target) then
      Step(s, AdminHome)
    else
      var session :=
        if !Recorded(s.session.adminUserId) then
          Session(Some(s.authId), Some(s.users[s.authId].name), Some(target))
        else
          s.session;
      Step(LoginUsingId(s.(session := session), target), HomeRoute)
  }

  /**
   * `logoutAs`: with an admin id recorded, forgets the three keys and authenticates as
   * that admin again; otherwise changes nothing. Both lead to the admin home.
   */
  ghost function LogoutAs(s: Account): (r: Step<Landing>)
    requires Valid(s)
    ensures Valid(r.next) && KeepsSuperAdmins(s, r.next)
    ensures r.value == AdminHome
    ensures r.next.session == NoImpersonation
    ensures s.session.adminUserId.None? ==> r.next == s
    ensures s.session.adminUserId.Some? ==>
      r.next == s.(session := NoImpersonation, authId := s.session.adminUserId.value)
  {
    if Recorded(s.session.adminUserId) then
      Step(LoginUsingId(FlushTempSession(s), s.session.adminUserId.value), AdminHome)
    else
      Step(s, AdminHome)
  }

  /**
   * `update`: applies the allow-listed profile fields to the authenticated user. A new
   * email must not belong to any user; it unconfirms the account and sends a new token.
   */
  ghost function Update(s: Account, input: map<string, string>, token: string): (r: Step<Result<bool, Error>>)
    requires Valid(s) && s.authId in s.users && |token| == TokenLength
    ensures Valid(r.next) && KeepsSuperAdmins(s, r.next)
    ensures r.value.Failure? <==>
      Fill(s.users[s.authId], input).email != s.users[s.authId].email
      && EmailInUse(s.users, Fill(s.users[s.authId], input).email)
    ensures r.value.Failure? ==> r == Step(s, Failure(EmailTaken))
    ensures r.value.Success? ==>
      && r.value.value
      && r.next.users.Keys == s.users.Keys
      && (forall other :: other in s.users && other != s.authId ==> r.next.users[other] == s.users[other])
      && OnlyProfileChanged(s.users[s.authId], r.next.users[s.authId])
      && r.next.users[s.authId].(confirmed := s.users[s.authId].confirmed,
                                 confirmationToken := s.users[s.authId].confirmationToken)
         == Fill(s.users[s.authId], input)
      && r.next.session == s.session && r.next.authId == s.authId
    // only the user table and the outbox can change
    ensures r.next.(users := s.users, outbox := s.outbox) == s
    ensures r.value.Success? && Fill(s.users[s.authId], input).email != s.users[s.authId].email ==>
      && !r.next.users[s.authId].confirmed
      && r.next.users[s.authId].confirmationToken == Some(token)
      && r.next.outbox == s.outbox + [ConfirmationNotice(s.authId, token)]
    ensures Fill(s.users[s.authId], input).email == s.users[s.authId].email ==>
      r.next.users[s.authId] == Fill(s.users[s.authId], input) && r.next.outbox == s.outbox
  {
    var u := s.users[s.authId];
    var filled := Fill(u, input);
    if filled.email != u.email then
      if EmailInUse(s.users, filled.email) then
        Step(s, Failure(EmailTaken))
      else
        // the save inside sendConfirmationToUser persists the filled fields too
        var unconfirmed := Persist(s, filled.(confirmed := false));
        Step(SendConfirmationTo(unconfirmed, s.authId, token), Success(true))
    else
      Step(Persist(s, filled), Success(true))
  }

  /** `$user->save()` of the authenticated user's record, when its email is not another user's. */
  ghost function Persist(s: Account, u: User): (r: Account)
    requires Valid(s) && s.authId in s.users
    requires u.email == s.users[s.authId].email || !EmailInUse(s.users, u.email)
    requires u.isSuperAdmin == s.users[s.authId].isSuperAdmin
    requires u.providers == s.users[s.authId].providers
    requires u.confirmationToken == s.users[s.authId].confirmationToken
    ensures Valid(r) && KeepsSuperAdmins(s, r)
    ensures r.users == s.users[s.authId := u]
    ensures r.(users := s.users) == s
  {
    var r := s.(users := s.users[s.authId := u]);
    assert EmailsUnique(r.users) by {
      forall a, b | a in r.users && b in r.users && a != b ensures r.users[a].email != r.users[b].email {
        if a != s.authId && b != s.authId {
          assert r.users[a] == s.users[a] && r.users[b] == s.users[b];
        }
      }
    }
    r
  }

  /**
   * `changePassword`: allowed when no password is stored or the old one checks against
   * the stored hash; then the new password's hash is stored.
   */
  ghost function ChangePassword(s: Account, oldPassword: string, newPassword: string, salt: nat): (r: Step<Result<bool, Error>>)
    requires Valid(s) && s.authId in s.users
    ensures Valid(r.next) && KeepsSuperAdmins(s, r.next)
    ensures var stored := s.users[s.authId].password;
      && (r.value.Success? <==> stored.None? || Check(oldPassword, stored.value))
      && (r.value.Failure? ==> r == Step(s, Failure(PasswordMismatch)))
      && (r.value.Success? ==>
            && r.value.value
            && r.next.users.Keys == s.users.Keys
            && r.next.users[s.authId].password.Some?
            && Check(newPassword, r.next.users[s.authId].password.value)
            && r.next.users[s.authId] == s.users[s.authId].(password := r.next.users[s.authId].password)
            && (forall other :: other in s.users && other != s.authId ==> r.next.users[other] == s.users[other])
            && r.next.(users := s.users) == s)
  {
    var u := s.users[s.authId];
    if u.password.None? || Check(oldPassword, u.password.value) then
      Step(s.(users := s.users[s.authId := u.(password := Some(Bcrypt(newPassword, salt)))]), Success(true))
    else
      Step(s, Failure(PasswordMismatch))
  }

  /** `sendConfirmation`: sends the authenticated user a fresh confirmation token. */
  ghost function SendConfirmation(s: Account, token: string): (r: Account)
    requires Valid(s) && s.authId in s.users && |token| == TokenLength
    ensures Valid(r) && KeepsSuperAdmins(s, r)
    ensures r.outbox == s.outbox + [ConfirmationNotice(s.authId, token)]
    ensures r.users.Keys == s.users.Keys
    ensures r.users[s.authId] == s.users[s.authId].(confirmationToken := Some(token))
    ensures forall other :: other in s.users && other != s.authId ==> r.users[other] == s.users[other]
    ensures r.(users := s.users, outbox := s.outbox) == s
  {
    SendConfirmationTo(s, s.authId, token)
  }

  /** `confirmEmail`: confirms the account on an exact token match and otherwise does nothing. */
  ghost function ConfirmEmail(s: Account, token: string): (r: Account)
    requires Valid(s) && s.authId in s.users
    ensures Valid(r) && KeepsSuperAdmins(s, r)
    ensures s.users[s.authId].confirmationToken != Some(token) ==> r == s
    ensures s.users[s.authId].confirmationToken == Some(token) ==>
      && r.users.Keys == s.users.Keys
      && r.users[s.authId] == s.users[s.authId].(confirmed := true)
      && (forall other :: other in s.users && other != s.authId ==> r.users[other] == s.users[other])
      && r.(users := s.users) == s
  {
    var u := s.users[s.authId];
    if u.confirmationToken == Some(token) then
      s.(users := s.users[s.authId := u.(confirmed := true)])
    else
      s
  }

  /** `delete`: the authenticated user deletes their own account, unless it is the super-admin. */
  ghost function Delete(s: Account): (r: Step<Result<bool, Error>>)
    requires Valid(s) && s.authId in s.users
    ensures Valid(r.next) && KeepsSuperAdmins(s, r.next)
    ensures r.value.Failure? <==> s.users[s.authId].isSuperAdmin
    ensures r.value.Failure? ==> r == Step(s, Failure(ProtectedAccount))
    ensures r.value.Success? ==>
      && r.value.value
      && r.next.users.Keys == s.users.Keys - {s.authId}
      && (forall other :: other in r.next.users ==> r.next.users[other] == s.users[other])
      && r.next.(users := s.users) == s
  {
    if s.users[s.authId].isSuperAdmin then
      Step(s, Failure(ProtectedAccount))
    else
      Step(s.(users := s.users - {s.authId}), Success(true))
  }
}
