/**
 * EloquentAccountRepository as an object that changes its state in place: the user
 * table is saved into, the three session keys are written and forgotten one by one,
 * and the authenticated id is switched by `loginUsingId`. Each method is proved to
 * take the repository from `old(State())` to the state the matching function of
 * Accounts describes, and to keep Accounts.Valid.
 */
module Repository {
  import opened Wrappers
  import opened Hashing
  import opened Accounts

  class AccountRepository {
    var users: map<int, User>
    var nextId: int
    var authId: int
    var adminUserId: Option<int>
    var adminUserName: Option<string>
    var tempUserId: Option<int>
    const registration: bool
    var outbox: seq<Notice>

    ghost function State(): Account
      reads this
    {
      Account(users, nextId, authId, Session(adminUserId, adminUserName, tempUserId), registration, outbox)
    }

    ghost predicate Valid()
      reads this
    {
      Accounts.Valid(State())
    }

    constructor (users: map<int, User>, nextId: int, authId: int, registration: bool)
      requires Accounts.Valid(Account(users, nextId, authId, NoImpersonation, registration, []))
      ensures Valid()
      ensures State() == Account(users, nextId, authId, NoImpersonation, registration, [])
    {
      this.users := users;
      this.nextId := nextId;
      this.authId := authId;
      this.adminUserId, this.adminUserName, this.tempUserId := None, None, None;
      this.registration := registration;
      this.outbox := [];
    }

    /** `$this->users->query()->whereEmail($email)->first()` */
    method FirstWithEmail(email: string) returns (r: Option<int>)
      requires Valid()
      ensures r == UserWithEmail(users, email)
    {
      if exists id :: id in users && users[id].email == email {
        var id :| id in users && users[id].email == email;
        r := Some(id);
      } else {
        r := None;
      }
    }

    /** `$this->users->store(...)` */
    method Store(name: string, email: string, password: Option<string>, salt: nat, active: bool, confirmed: bool)
      returns (r: Result<int, Error>)
      requires Valid()
      modifies this
      ensures Valid()
      ensures Step(State(), r) == Accounts.Store(old(State()), name, email, password, salt, active, confirmed)
    {
      if exists id :: id in users && users[id].email == email {
        return Failure(EmailTaken);
      }
      var hash := if password.Some? then Some(Bcrypt(password.value, salt)) else None;
      var id := nextId;
      users := users[id := NewUser(name, email, hash, active, confirmed)];
      nextId := nextId + 1;
      return Success(id);
    }

    method Register(name: string, email: string, password: string, salt: nat, token: string)
      returns (r: Result<int, Error>)
      requires Valid() && |token| == TokenLength
      modifies this
      ensures Valid()
      ensures Step(State(), r) == Accounts.Register(old(State()), name, email, password, salt, token)
    {
      r := Store(name, email, Some(password), salt, false, false);
      if r.Success? {
        SendConfirmationToUser(r.value, token);
      }
    }

    method Login(id: int, now: int) returns (r: int)
      requires Valid() && id in users
      modifies this
      ensures Valid()
      ensures Step(State(), r) == Accounts.Login(old(State()), id, now)
    {
      var user := users[id];
      user := user.(lastAccessAt := Some(now));
      users := users[id := user];
      return id;
    }

    method FindOrCreateSocial(provider: string, data: SocialProfile) returns (r: Result<int, Error>)
      requires Valid()
      modifies this
      ensures Valid()
      ensures Step(State(), r) == Accounts.FindOrCreateSocial(old(State()), provider, data)
    {
      var email := LookupEmail(provider, data);
      var found := FirstWithEmail(email);
      var id: int;
      if found.None? {
        if !registration {
          return Failure(RegistrationDisabled);
        }
        var created := Store(data.name, email, None, 0, true, true);
        if created.Failure? {
          assert false;
          return created;
        }
        id := created.value;
      } else {
        id := found.value;
      }
      if FindProvider(users[id].providers, provider).None? {
        ghost var before := State();
        var user := users[id];
        users := users[id := user.(providers := user.providers + [SocialLogin(provider, data.id)])];
        assert State() == LinkProvider(before, id, provider, data.id);
      }
      return Success(id);
    }

    /** `auth()->loginUsingId($id)` */
    method LoginUsingId(id: int)
      modifies this
      ensures State() == Accounts.LoginUsingId(old(State()), id)
    {
      if id in users {
        authId := id;
      }
    }

    method LoginAs(target: int) returns (landing: Landing)
      requires Valid() && authId in users && target in users
      modifies this
      ensures Valid()
      ensures Step(State(), landing) == Accounts.LoginAs(old(State()), target)
    {
      var actor := authId;
      if actor == target || adminUserId == Some(target) {
        return AdminHome;
      }
      if !Recorded(adminUserId) {
        adminUserId := Some(actor);
        adminUserName := Some(users[actor].name);
        tempUserId := Some(target);
      }
      LoginUsingId(target);
      return HomeRoute;
    }

    method LogoutAs() returns (landing: Landing)
      requires Valid()
      modifies this
      ensures Valid()
      ensures Step(State(), landing) == Accounts.LogoutAs(old(State()))
    {
      if Recorded(adminUserId) {
        var admin := adminUserId.value;
        FlushTempSession();
        LoginUsingId(admin);
      }
      return AdminHome;
    }

    method FlushTempSession()
      modifies this
      ensures State() == Accounts.FlushTempSession(old(State()))
    {
      adminUserId := None;
      adminUserName := None;
      tempUserId := None;
    }

    method Update(input: map<string, string>, token: string) returns (r: Result<bool, Error>)
      requires Valid() && authId in users && |token| == TokenLength
      modifies this
      ensures Valid()
      ensures Step(State(), r) == Accounts.Update(old(State()), input, token)
    {
      var user := Fill(users[authId], input);
      if user.email != users[authId].email {
        if exists id :: id in users && users[id].email == user.email {
          return Failure(EmailTaken);
        }
        user := user.(confirmed := false);
        // sendConfirmationToUser saves the filled record together with the new token
        users := users[authId := user];
        SendConfirmationToUser(authId, token);
        return Success(true);
      }
      users := users[authId := user];
      return Success(true);
    }

    method ChangePassword(oldPassword: string, newPassword: string, salt: nat) returns (r: Result<bool, Error>)
      requires Valid() && authId in users
      modifies this
      ensures Valid()
      ensures Step(State(), r) == Accounts.ChangePassword(old(State()), oldPassword, newPassword, salt)
    {
      var user := users[authId];
      if user.password.None? || Check(oldPassword, user.password.value) {
        user := user.(password := Some(Bcrypt(newPassword, salt)));
        users := users[authId := user];
        return Success(true);
      }
      return Failure(PasswordMismatch);
    }

    method SendConfirmation(token: string)
      requires Valid() && authId in users && |token| == TokenLength
      modifies this
      ensures Valid()
      ensures State() == Accounts.SendConfirmation(old(State()), token)
    {
      SendConfirmationToUser(authId, token);
    }

    method SendConfirmationToUser(id: int, token: string)
      requires Valid() && id in users && |token| == TokenLength
      modifies this
      ensures Valid()
      ensures State() == SendConfirmationTo(old(State()), id, token)
    {
      var user := users[id];
      user := user.(confirmationToken := Some(token));
      users := users[id := user];
      outbox := outbox + [ConfirmationNotice(id, token)];
    }

    method ConfirmEmail(token: string)
      requires Valid() && authId in users
      modifies this
      ensures Valid()
      ensures State() == Accounts.ConfirmEmail(old(State()), token)
    {
      var user := users[authId];
      if user.confirmationToken == Some(token) {
        user := user.(confirmed := true);
        users := users[authId := user];
      }
    }

    method Delete() returns (r: Result<bool, Error>)
      requires Valid() && authId in users
      modifies this
      ensures Valid()
      ensures Step(State(), r) == Accounts.Delete(old(State()))
    {
      if users[authId].isSuperAdmin {
        return Failure(ProtectedAccount);
      }
      users := users - {authId};
      return Success(true);
    }
  }
}
