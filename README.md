# Account service model

A Dafny model of `EloquentAccountRepository`, the account service of a Laravel
boilerplate application: registration, the post-authentication login hook, social
sign-in (`findOrCreateSocial`), the admin "login as another user" feature
(`loginAs` / `logoutAs`), profile update, password change, email confirmation and
account deletion.

The framework collaborators are replaced by a small in-memory state:

- the `users` table with each user's social logins: `map<int, User>` plus the next
  auto-increment id;
- the authenticated user's id (`auth()->user()`);
- the three impersonation session keys `admin_user_id`, `admin_user_name` and
  `temp_user_id`;
- the `app.registration` setting;
- an outbox of `SendConfirmation` notifications.

Files:

- `wrappers.dfy`: `Option` and `Result`.
- `hashing.dfy`: `bcrypt` and `Hash::check` as an ideal hash.
- `accounts.dfy` (module `Accounts`): the data model, the state invariant `Valid`, and
  one function per repository method from the old state to the new state and the
  result. Each function's contract states the invariant it keeps, its error cases and
  what changes.
- `repository.dfy` (module `Repository`): the class `AccountRepository`. Its fields are
  the user map, the three session keys, the authenticated id and the outbox. Its
  methods follow the PHP statement by statement: session keys written and forgotten
  one at a time, records filled and saved, `loginUsingId`. Each method is proved to
  reach the state that the matching `Accounts` function describes and to keep `Valid`.
- `properties.dfy` (module `AccountProperties`): properties relating several
  operations, and the invariant kept over any sequence of requests.

The invariant `Accounts.Valid` says:

- user ids are positive and below the next id;
- emails are unique;
- each user has at most one link per provider name;
- every stored confirmation token has 60 characters;
- the impersonation keys are present together or absent together;
- a recorded admin id names an existing user other than the acting one.

Randomness and the clock are parameters. The `Str::random(60)` token is a `token`
argument of length 60. The bcrypt salt is a `salt` argument. `Carbon::now()` is a
`now` argument.

Points where the code behaves differently from what one might expect, modelled as the code has them:

- The `loginAs` guard refuses a target equal to the recorded `admin_user_id`. It does
  not compare the target with `temp_user_id`. So, while acting as a second user, one
  may switch back to the first target.
- A nested `loginAs` leaves `temp_user_id` naming the first target.
- The confirmation token is not cleared once used. Confirming again with it is
  harmless (`ConfirmEmailIdempotent`), but it is not single-use.

## Model

| member | source | states |
|---|---|---|
| Hashing.Bcrypt | app/Repositories/EloquentAccountRepository.php:224 | the hash of a password checks against that password |
| Hashing.CheckOnlyOwnSecret | app/Repositories/EloquentAccountRepository.php:223 | a hash accepts no password other than the one it was made from |
| Accounts.UserWithEmail | app/Repositories/EloquentAccountRepository.php:100 | `whereEmail()->first()` finds a user exactly when some user has that email, and the user found has it |
| Accounts.FindProvider | app/Repositories/EloquentAccountRepository.php:116 | `getProvider` returns a link of the user for that provider name, and finds none exactly when no link has that name |
| Accounts.LookupEmail | app/Repositories/EloquentAccountRepository.php:96 | the lookup email is never empty; it is the provider email when that is non-empty, and otherwise `id + "@" + provider + ".com"` |
| Accounts.Fill | app/Repositories/EloquentAccountRepository.php:193 | `fill(Arr::only(...))` changes no field except name, email, locale and timezone; each of the four takes the input's value when its key is given (locale and timezone as set values) and keeps the old value otherwise |
| Accounts.Store | app/Repositories/EloquentAccountRepository.php:108-112 | store fails exactly when the email is in use, and then changes nothing; otherwise it adds one user under a new id with the given name, email, active and confirmed flags, no links, not super-admin, and a hash of the password if one was given; it keeps `Valid` |
| Accounts.SendConfirmationTo | app/Repositories/EloquentAccountRepository.php:248-254 | installs the 60-character token on that user only, and appends exactly one notification carrying it |
| Accounts.Register | app/Repositories/EloquentAccountRepository.php:54-62 | with a fresh email: one new user, store's inactive, unconfirmed, non-super-admin row with no links, locale, timezone or last access, whose password checks and which holds the token; exactly one notification is sent; only the user table, the id counter and the outbox change; with a taken email: fails and nothing changes |
| Accounts.Login | app/Repositories/EloquentAccountRepository.php:70-84 | stamps the user's last access time; nothing else changes |
| Accounts.LinkProvider | app/Repositories/EloquentAccountRepository.php:115-121 | afterwards the user has a link for the provider; one is appended only when there was none; links stay distinct per provider |
| Accounts.FindOrCreateSocial | app/Repositories/EloquentAccountRepository.php:93-124 | an existing owner of the lookup email is reused and no user is created; with no owner and registration off, it fails and nothing changes; otherwise it creates one active, confirmed user without a password, carrying exactly the link (provider, profile id); a reused user without a link for the provider gains exactly that link and nothing else; the resolved user has the lookup email and a link for the provider; nothing changes if the user already had one; only the user table and the id counter can change |
| Accounts.FlushTempSession | app/Repositories/EloquentAccountRepository.php:171-176 | all three impersonation keys are removed together; nothing else changes |
| Accounts.LoginAs | app/Repositories/EloquentAccountRepository.php:133-153 | refused (admin home, nothing changes) exactly when the target is the acting user or the recorded admin; from the normal state it records acting id, acting name and target together; while impersonating it keeps all three keys; the acting id becomes the target; `Valid` is kept |
| Accounts.LogoutAs | app/Repositories/EloquentAccountRepository.php:158-166 | always leads to admin home and leaves no key; with an admin recorded, the acting id becomes that admin; otherwise nothing changes |
| Accounts.Update | app/Repositories/EloquentAccountRepository.php:186-206 | fails with email-taken exactly when the email changes to one in use, and then nothing changes; on success only this user changes, and only its allow-listed fields and confirmation state; a changed email unconfirms the account, installs the token and sends one notification; an unchanged email persists the filled record only; only the user table and the outbox can change (never the id counter, the session or the registration setting) |
| Accounts.Persist | app/Repositories/EloquentAccountRepository.php:205 | saving the authenticated user's record with an email no other user has keeps `Valid` |
| Accounts.ChangePassword | app/Repositories/EloquentAccountRepository.php:216-230 | succeeds exactly when no password is stored or the old password checks; the new stored hash checks against the new password and nothing else changes; on mismatch it fails and nothing changes |
| Accounts.SendConfirmation | app/Repositories/EloquentAccountRepository.php:235-243 | the authenticated user holds the new token and nothing else of it changes, every other user is untouched, one notification carrying it is sent, and nothing else of the state changes |
| Accounts.ConfirmEmail | app/Repositories/EloquentAccountRepository.php:263-274 | on an exact token match only the user's `confirmed` flag becomes true; otherwise nothing changes |
| Accounts.Delete | app/Repositories/EloquentAccountRepository.php:280-296 | fails exactly for the super-admin, and then nothing changes; otherwise removes exactly the authenticated user, and the other users are unchanged |
| Repository.AccountRepository.constructor | app/Repositories/EloquentAccountRepository.php:41-45 | starts from a valid user table with no impersonation keys and an empty outbox |
| Repository.AccountRepository.FirstWithEmail | app/Repositories/EloquentAccountRepository.php:100 | returns the one user holding the email, or none |
| Repository.AccountRepository.Store | app/Repositories/EloquentAccountRepository.php:108-112 | the in-place insert reaches `Accounts.Store`'s state and result and keeps `Valid` |
| Repository.AccountRepository.Register | app/Repositories/EloquentAccountRepository.php:54-62 | reaches `Accounts.Register`'s state and result, keeping `Valid` |
| Repository.AccountRepository.Login | app/Repositories/EloquentAccountRepository.php:70-84 | reaches `Accounts.Login`'s state, keeping `Valid` |
| Repository.AccountRepository.FindOrCreateSocial | app/Repositories/EloquentAccountRepository.php:93-124 | reaches `Accounts.FindOrCreateSocial`'s state and result, keeping `Valid` |
| Repository.AccountRepository.LoginUsingId | app/Repositories/EloquentAccountRepository.php:150 | switches the authenticated id to an existing user, and otherwise leaves it |
| Repository.AccountRepository.LoginAs | app/Repositories/EloquentAccountRepository.php:133-153 | the guard and the three separate session writes reach `Accounts.LoginAs`'s state and landing, keeping `Valid` |
| Repository.AccountRepository.LogoutAs | app/Repositories/EloquentAccountRepository.php:158-166 | flushing and re-authenticating reach `Accounts.LogoutAs`'s state, keeping `Valid` |
| Repository.AccountRepository.FlushTempSession | app/Repositories/EloquentAccountRepository.php:171-176 | the three `forget` calls reach `Accounts.FlushTempSession`'s state |
| Repository.AccountRepository.Update | app/Repositories/EloquentAccountRepository.php:186-206 | reaches `Accounts.Update`'s state and result, keeping `Valid` |
| Repository.AccountRepository.ChangePassword | app/Repositories/EloquentAccountRepository.php:216-230 | reaches `Accounts.ChangePassword`'s state and result, keeping `Valid` |
| Repository.AccountRepository.SendConfirmation | app/Repositories/EloquentAccountRepository.php:235-243 | reaches `Accounts.SendConfirmation`'s state, keeping `Valid` |
| Repository.AccountRepository.SendConfirmationToUser | app/Repositories/EloquentAccountRepository.php:248-254 | reaches `Accounts.SendConfirmationTo`'s state, keeping `Valid` |
| Repository.AccountRepository.ConfirmEmail | app/Repositories/EloquentAccountRepository.php:263-274 | reaches `Accounts.ConfirmEmail`'s state, keeping `Valid` |
| Repository.AccountRepository.Delete | app/Repositories/EloquentAccountRepository.php:280-296 | reaches `Accounts.Delete`'s state and result, keeping `Valid` |
| AccountProperties.ImpersonationRoundTrip | app/Repositories/EloquentAccountRepository.php:143-163 | from the normal state, `loginAs` then `logoutAs` gives back exactly the starting state |
| AccountProperties.NestedImpersonationKeepsRestorePoint | app/Repositories/EloquentAccountRepository.php:137-163 | a second `loginAs` while impersonating keeps the original admin and the first target in the session and acts as the second target; `logoutAs` then gives back the starting state |
| AccountProperties.CannotImpersonateRestorePoint | app/Repositories/EloquentAccountRepository.php:137-141 | acting as the recorded admin through `loginAs` is refused and changes nothing |
| AccountProperties.NoLinkCountsZero | app/Repositories/EloquentAccountRepository.php:116 | a list with no link for a provider counts zero links for it |
| AccountProperties.FindProviderFindsFirst | app/Repositories/EloquentAccountRepository.php:116 | the link `getProvider` returns is the first one with that provider name: no earlier link has it |
| AccountProperties.HasProviderIffCounted | app/Repositories/EloquentAccountRepository.php:116 | `getProvider` finds a link exactly when at least one link has that provider name |
| AccountProperties.DistinctLinksAtMostOne | app/Repositories/EloquentAccountRepository.php:115-121 | links with distinct provider names hold at most one link per provider |
| AccountProperties.SocialLeavesOneLink | app/Repositories/EloquentAccountRepository.php:115-121 | after a successful social sign-in the user has exactly one link for that provider |
| AccountProperties.SocialSignInIdempotent | app/Repositories/EloquentAccountRepository.php:96-123 | a second sign-in with the same provider and profile returns the same user and changes nothing |
| AccountProperties.ProvidersMergeByEmail | app/Repositories/EloquentAccountRepository.php:96-121 | two providers reporting the same email resolve to the same user, which then has a link for each; no user is created |
| AccountProperties.PlaceholderEmailInjective | app/Repositories/EloquentAccountRepository.php:96 | without a provider email, two profiles of one provider get the same placeholder exactly when their ids are equal |
| AccountProperties.ConfirmationRoundTrip | app/Repositories/EloquentAccountRepository.php:248-273 | the token carried by the last notification confirms the account |
| AccountProperties.SupersededTokenRejected | app/Repositories/EloquentAccountRepository.php:250-273 | after a newer confirmation, the older token changes nothing |
| AccountProperties.ConfirmEmailIdempotent | app/Repositories/EloquentAccountRepository.php:270-273 | confirming twice with the same token is the same as confirming once |
| AccountProperties.PasswordChangeRoundTrip | app/Repositories/EloquentAccountRepository.php:223-229 | after a change, the new password opens the next change and a different old one is refused |
| AccountProperties.Apply | app/Repositories/EloquentAccountRepository.php:54-296 | any single request keeps `Valid` and keeps every super-admin account and its flag |
| AccountProperties.Run | app/Repositories/EloquentAccountRepository.php:54-296 | over any sequence of requests, the impersonation keys are never partially present, `Valid` holds, and no super-admin account is ever deleted |

## Left out

- `resources/views/auth/login.blade.php` is a form template with no logic. It is not part of this model.
- Accounts.Login: the permission set stored in the session (line 81) is not modelled, because `getPermissions` is not part of this model. The timestamp is a `now` argument.
- Accounts.Update, Accounts.ChangePassword, Accounts.Login, Accounts.Delete: database writes never fail in the model. So the `save()`/`delete()` failure branches (lines 77-79 and 291-293) do not arise, and `update`/`changePassword` always return `true` on success.
- Accounts.Store: `UserRepository::store` is not part of this model. It is taken to insert a row under the next id and refuse a duplicate email. Its second argument (line 112) is taken to be the "confirmed" flag. Columns the caller does not pass take these values: `active` false, `locale` and `timezone` unset, not super-admin.
- Hashing.Bcrypt: modelled as an ideal, collision-free hash with the salt as an argument; the algorithm is not modelled. Real bcrypt reads only the first 72 bytes of the password, so a stored hash also accepts every password sharing those 72 bytes, and also admits (improbable) collisions. Hashing.CheckOnlyOwnSecret and the refusal clause of AccountProperties.PasswordChangeRoundTrip (the old password no longer checks) therefore hold of the ideal hash only, and of real bcrypt only for passwords that differ within their first 72 bytes.
- `Str::random(60)` is a `token` argument that must have 60 characters. Nothing in the model makes tokens unique or unpredictable.
- Notification delivery is not modelled. Only the notifications handed over are recorded, in the outbox.
- The redirect responses are the two landings of `Landing`. `home_route()` is not resolved further.
- Accounts.UserWithEmail, Accounts.EmailInUse, Accounts.FindProvider: emails and provider names are compared by exact string equality. The database queries `whereEmail` (lines 100 and 197) and the provider lookup follow the column collation. Under a case-insensitive collation such as MySQL's `utf8mb4_unicode_ci`, two things differ. A social sign-in reporting "Ann@x.com" reuses the account of "ann@x.com", where the model creates a second account. An `update` from "ann@x.com" to "Ann@x.com" is refused as email-taken, because the query matches the user's own row, where the model accepts it.
- Accounts.LookupEmail: PHP's `?:` also treats the email "0" as absent. The model tests only for the empty string.
- Eloquent's mass-assignment guard is taken to allow the four fields that `update` passes to `fill`.
- Middleware and controller concerns are not modelled: who may call `loginAs`, input validation, and logging out after `delete`.
