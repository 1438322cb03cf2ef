/**
 * Properties of the account service that relate several operations: the
 * impersonation round trips, how social sign-ins resolve and link, the confirmation
 * and password round trips, and the invariant kept along any sequence of requests.
 */
module AccountProperties {
  import opened Wrappers
  import opened Hashing
  import opened Accounts

  // ---------------------------------------------------------------------------
  // Impersonation

  /** Acting as another user and then stopping gives back exactly the starting state. */
  lemma ImpersonationRoundTrip(s: Account, target: int)
    requires Valid(s) && s.session == NoImpersonation
    requires s.authId in s.users && target in s.users && target != s.authId
    ensures LoginAs(s, target).value == HomeRoute
    ensures LoginAs(s, target).next.session ==
      Session(Some(s.authId), Some(s.users[s.authId].name), Some(target))
    ensures LogoutAs(LoginAs(s, target).next).next == s
  {
  }

  /**
   * Switching to a second target while impersonating keeps the first restore point:
   * the admin recorded is the original one, `temp_user_id` still names the first
   * target, and stopping returns to the original admin with no key left.
   */
  lemma NestedImpersonationKeepsRestorePoint(s: Account, first: int, second: int)
    requires Valid(s) && s.session == NoImpersonation
    requires s.authId in s.users && first in s.users && second in s.users
    requires first != s.authId && second != first && second != s.authId
    ensures var s1 := LoginAs(s, first).next;
      && LoginAs(s1, second).value == HomeRoute
      && LoginAs(s1, second).next.authId == second
      && LoginAs(s1, second).next.session ==
         Session(Some(s.authId), Some(s.users[s.authId].name), Some(first))
      && LogoutAs(LoginAs(s1, second).next).next == s
  {
  }

  /** Trying to act as the recorded admin while impersonating is refused and changes nothing. */
  lemma CannotImpersonateRestorePoint(s: Account, target: int)
    requires Valid(s) && s.authId in s.users && target in s.users
    requires s.session.adminUserId == Some(target)
    ensures LoginAs(s, target) == Step(s, AdminHome)
  {
  }

  // ---------------------------------------------------------------------------
  // Social sign-in

  /** Number of links the user has for one provider name. */
  function LinkCount(links: seq<SocialLogin>, provider: string): nat
  {
    if links == [] then 0
    else (if links[0].provider == provider then 1 else 0) + LinkCount(links[1..], provider)
  }

  lemma {:induction false} NoLinkCountsZero(links: seq<SocialLogin>, provider: string)
    requires forall i :: 0 <= i < |links| ==> links[i].provider != provider
    ensures LinkCount(links, provider) == 0
  {
    if links != [] {
      NoLinkCountsZero(links[1..], provider);
    }
  }

  /** `getProvider` returns the first link for the provider name: no earlier link has that name. */
  lemma {:induction false} FindProviderFindsFirst(links: seq<SocialLogin>, provider: string)
    requires HasProvider(links, provider)
    ensures exists k :: (0 <= k < |links| && links[k] == FindProvider(links, provider).value &&
                         forall i :: 0 <= i < k ==> links[i].provider != provider)
  {
    if links[0].provider != provider {
      FindProviderFindsFirst(links[1..], provider);
      var k :| 0 <= k < |links[1..]| && links[1..][k] == FindProvider(links, provider).value &&
        (forall i :: 0 <= i < k ==> links[1..][i].provider != provider);
      assert links[k + 1] == FindProvider(links, provider).value;
      forall i | 0 <= i < k + 1 ensures links[i].provider != provider {
        if i > 0 { assert links[i] == links[1..][i - 1]; }
      }
    } else {
      assert links[0] == FindProvider(links, provider).value;
    }
  }

  /** `getProvider` finds a link exactly when there is at least one to count. */
  lemma {:induction false} HasProviderIffCounted(links: seq<SocialLogin>, provider: string)
    ensures HasProvider(links, provider) <==> LinkCount(links, provider) > 0
  {
    if links != [] {
      HasProviderIffCounted(links[1..], provider);
    }
  }

  /** Links with distinct provider names hold at most one link per provider. */
  lemma {:induction false} DistinctLinksAtMostOne(links: seq<SocialLogin>, provider: string)
    requires LinksDistinct(links)
    ensures LinkCount(links, provider) <= 1
  {
    if links != [] {
      var rest := links[1..];
      assert LinksDistinct(rest) by {
        forall i, j | 0 <= i < j < |rest| ensures rest[i].provider != rest[j].provider {
          assert rest[i] == links[i + 1] && rest[j] == links[j + 1];
        }
      }
      DistinctLinksAtMostOne(rest, provider);
      if links[0].provider == provider {
        forall i | 0 <= i < |rest| ensures rest[i].provider != provider {
          assert rest[i] == links[i + 1];
        }
        NoLinkCountsZero(rest, provider);
      }
    }
  }

  /** After a successful social sign-in the user has exactly one link for that provider. */
  lemma SocialLeavesOneLink(s: Account, provider: string, data: SocialProfile)
    requires Valid(s)
    requires FindOrCreateSocial(s, provider, data).value.Success?
    ensures var r := FindOrCreateSocial(s, provider, data);
      LinkCount(r.next.users[r.value.value].providers, provider) == 1
  {
    var r := FindOrCreateSocial(s, provider, data);
    var links := r.next.users[r.value.value].providers;
    HasProviderIffCounted(links, provider);
    DistinctLinksAtMostOne(links, provider);
  }

  /**
   * Signing in twice with the same provider and profile resolves to the same user and
   * the second sign-in changes nothing, so no second link is made.
   */
  lemma SocialSignInIdempotent(s: Account, provider: string, data: SocialProfile)
    requires Valid(s)
    requires FindOrCreateSocial(s, provider, data).value.Success?
    ensures var r := FindOrCreateSocial(s, provider, data);
      FindOrCreateSocial(r.next, provider, data) == r
  {
  }

  /**
   * Two providers reporting the same email reach the same account, which then holds a
   * link for each of them.
   */
  lemma ProvidersMergeByEmail(s: Account, provider: string, other: string, data: SocialProfile, otherData: SocialProfile)
    requires Valid(s)
    requires data.email != "" && otherData.email == data.email
    requires FindOrCreateSocial(s, provider, data).value.Success?
    ensures var r := FindOrCreateSocial(s, provider, data);
      var r2 := FindOrCreateSocial(r.next, other, otherData);
      && r2.value == r.value
      && r2.next.users.Keys == r.next.users.Keys
      && HasProvider(r2.next.users[r.value.value].providers, provider)
      && HasProvider(r2.next.users[r.value.value].providers, other)
  {
    var r := FindOrCreateSocial(s, provider, data);
    var id := r.value.value;
    var email := LookupEmail(provider, data);
    assert LookupEmail(other, otherData) == email;
    assert UserWithEmail(r.next.users, email) == Some(id) by {
      assert id in r.next.users && r.next.users[id].email == email;
      assert EmailInUse(r.next.users, email);
    }
    var r2 := FindOrCreateSocial(r.next, other, otherData);
    var before := r.next.users[id].providers;
    var after := r2.next.users[id].providers;
    if !HasProvider(before, other) {
      assert after == before + [SocialLogin(other, otherData.id)];
      var w := FindProvider(before, provider).value;
      var k :| 0 <= k < |before| && before[k] == w;
      assert after[k] == w;
      assert FindProvider(after, provider).Some?;
    }
  }

  /**
   * Without a provider email, the same provider id always resolves to the same
   * placeholder address, and different ids of one provider to different ones.
   */
  lemma PlaceholderEmailInjective(provider: string, data: SocialProfile, otherData: SocialProfile)
    requires data.email == "" && otherData.email == ""
    ensures LookupEmail(provider, data) == LookupEmail(provider, otherData) <==> data.id == otherData.id
  {
    var suffix := "@" + provider + ".com";
    assert LookupEmail(provider, data) == data.id + suffix;
    assert LookupEmail(provider, otherData) == otherData.id + suffix;
    if data.id + suffix == otherData.id + suffix {
      assert |data.id| == |otherData.id|;
      assert data.id == (data.id + suffix)[..|data.id|];
      assert otherData.id == (otherData.id + suffix)[..|otherData.id|];
    }
  }

  // ---------------------------------------------------------------------------
  // Confirmation and password

  /** The token a confirmation mail carries confirms the account. */
  lemma ConfirmationRoundTrip(s: Account, token: string)
    requires Valid(s) && s.authId in s.users && |token| == TokenLength
    ensures var sent := SendConfirmation(s, token);
      && sent.outbox[|sent.outbox| - 1] == ConfirmationNotice(s.authId, token)
      && ConfirmEmail(sent, token).users[s.authId].confirmed
  {
  }

  /** A token superseded by a newer confirmation mail no longer confirms anything. */
  lemma SupersededTokenRejected(s: Account, stale: string, newer: string)
    requires Valid(s) && s.authId in s.users && |stale| == TokenLength && |newer| == TokenLength
    requires stale != newer
    ensures var twice := SendConfirmation(SendConfirmation(s, stale), newer);
      ConfirmEmail(twice, stale) == twice
  {
  }

  /** The token is not cleared on confirmation: confirming again with it changes nothing more. */
  lemma ConfirmEmailIdempotent(s: Account, token: string)
    requires Valid(s) && s.authId in s.users
    ensures ConfirmEmail(ConfirmEmail(s, token), token) == ConfirmEmail(s, token)
  {
  }

  /**
   * After a password change the new password is the one that opens the next change,
   * and a different old password is refused (by the ideal hash of Hashing).
   */
  lemma PasswordChangeRoundTrip(s: Account, oldPassword: string, newPassword: string, salt: nat,
                                later: string, laterSalt: nat)
    requires Valid(s) && s.authId in s.users
    requires ChangePassword(s, oldPassword, newPassword, salt).value.Success?
    ensures var s1 := ChangePassword(s, oldPassword, newPassword, salt).next;
      && ChangePassword(s1, newPassword, later, laterSalt).value.Success?
      && (oldPassword != newPassword ==>
            ChangePassword(s1, oldPassword, later, laterSalt) == Step(s1, Failure(PasswordMismatch)))
  {
  }

  // ---------------------------------------------------------------------------
  // Sequences of requests

  /** One call into the service, with the random and clock values it draws. */
  datatype Request =
    | RegisterRequest(name: string, email: string, password: string, salt: nat, token: string)
    | LoginRequest(id: int, now: int)
    | SocialRequest(provider: string, profile: SocialProfile)
    | LoginAsRequest(target: int)
    | LogoutAsRequest
    | UpdateRequest(input: map<string, string>, token: string)
    | ChangePasswordRequest(oldPassword: string, newPassword: string, salt: nat)
    | SendConfirmationRequest(token: string)
    | ConfirmEmailRequest(token: string)
    | DeleteRequest

  /**
   * The state after one request; a request the service cannot be called with (no
   * authenticated user, a target that is not a user, a token of the wrong length)
   * never reaches it and leaves the state as it was.
   */
  ghost function Apply(s: Account, req: Request): (r: Account)
    requires Valid(s)
    ensures Valid(r) && KeepsSuperAdmins(s, r)
  {
    var signedIn := s.authId in s.users;
    match req
    case RegisterRequest(name, email, password, salt, token) =>
      if |token| == TokenLength then Register(s, name, email, password, salt, token).next else s
    case LoginRequest(id, now) =>
      if id in s.users then Login(s, id, now).next else s
    case SocialRequest(provider, profile) =>
      FindOrCreateSocial(s, provider, profile).next
    case LoginAsRequest(target) =>
      if signedIn && target in s.users then LoginAs(s, target).next else s
    case LogoutAsRequest =>
      LogoutAs(s).next
    case UpdateRequest(input, token) =>
      if signedIn && |token| == TokenLength then Update(s, input, token).next else s
    case ChangePasswordRequest(oldPassword, newPassword, salt) =>
      if signedIn then ChangePassword(s, oldPassword, newPassword, salt).next else s
    case SendConfirmationRequest(token) =>
      if signedIn && |token| == TokenLength then SendConfirmation(s, token) else s
    case ConfirmEmailRequest(token) =>
      if signedIn then ConfirmEmail(s, token) else s
    case DeleteRequest =>
      if signedIn then Delete(s).next else s
  }

  /**
   * Along any sequence of requests the invariant holds throughout: the impersonation
   * keys are never partially present, emails stay unique, each user keeps at most one
   * link per provider, and no super-admin account is ever deleted.
   */
  ghost function Run(s: Account, reqs: seq<Request>): (r: Account)
    requires Valid(s)
    ensures Valid(r) && KeepsSuperAdmins(s, r)
    decreases |reqs|
  {
    if reqs == [] then s else Run(Apply(s, reqs[0]), reqs[1..])
  }
}
