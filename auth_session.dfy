/** The authentication provider: the hosted account service and "users"
    collection, and the provider's state (`currentUser`, `userProfile`,
    `loading`). The auth service's sign-in state reaches `currentUser` only
    through the auth-state listener, modelled as its own step. */
module AuthSession {
  import opened Wrappers
  import opened Types
  import Remote

  /** A hosted account: the user id the service assigned and the password. */
  datatype Account = Account(uid: string, password: string)

  const EmailInUse: string := "auth/email-already-in-use"

  function Uids(accounts: map<string, Account>): set<string>
  {
    set e | e in accounts :: accounts[e].uid
  }

  /** Every profile document is stored under its own user id. */
  ghost predicate ProfilesKeyed(profiles: map<string, User>)
  {
    forall uid :: uid in profiles ==> profiles[uid].id == uid
  }

  /** No two accounts share a user id. */
  ghost predicate DistinctUids(accounts: map<string, Account>)
  {
    forall e1, e2 :: e1 in accounts && e2 in accounts && e1 != e2 ==> accounts[e1].uid != accounts[e2].uid
  }

  class Session {
    /** The auth service's accounts, by email. */
    var accounts: map<string, Account>
    /** The user the auth service has signed in, by uid. */
    var authUser: Option<string>
    /** The "users" collection, by uid. */
    var profiles: map<string, User>

    var currentUser: Option<string>
    var userProfile: Option<User>
    var loading: bool

    ghost predicate Valid()
      reads this
    {
      ProfilesKeyed(profiles) && DistinctUids(accounts)
      && (userProfile.Some? ==> userProfile.value.id in profiles && profiles[userProfile.value.id] == userProfile.value)
    }

    constructor (accounts: map<string, Account>, profiles: map<string, User>, authUser: Option<string>)
      requires ProfilesKeyed(profiles) && DistinctUids(accounts)
      ensures Valid()
      ensures this.accounts == accounts && this.profiles == profiles && this.authUser == authUser
      ensures currentUser.None? && userProfile.None? && loading
    {
      this.accounts, this.profiles, this.authUser := accounts, profiles, authUser;
      currentUser, userProfile, loading := None, None, true;
    }

    /** `fetchUserProfile`: the profile stored under `uid`, or none when it
        is missing or the read fails. */
    method FetchUserProfile(uid: string)
      requires Valid()
      modifies this`userProfile
      ensures Valid()
      ensures uid !in profiles ==> userProfile.None?
      ensures userProfile.Some? ==> uid in profiles && userProfile == Some(profiles[uid]) && userProfile.value.id == uid
    {
      var ok := Remote.Call();
      if ok && uid in profiles {
        userProfile := Some(profiles[uid]);
      } else {
        userProfile := None;
      }
    }

    /** The auth-state listener: mirrors the service's user, loads or clears
        the profile, and ends the initial loading phase. */
    method AuthStateChanged()
      requires Valid()
      modifies this`currentUser, this`userProfile, this`loading
      ensures Valid()
      ensures currentUser == authUser && !loading
      ensures authUser.None? ==> userProfile.None?
      ensures userProfile.Some? ==> authUser.Some? && authUser.value in profiles && userProfile == Some(profiles[authUser.value])
    {
      currentUser := authUser;
      if authUser.Some? {
        FetchUserProfile(authUser.value);
      } else {
        userProfile := None;
      }
      loading := false;
    }

    /** `signIn`: signs the account in and loads its profile; unknown emails,
        wrong passwords and service failures are errors that change nothing. */
    method SignIn(email: string, password: string) returns (r: Outcome)
      requires Valid()
      modifies this`authUser, this`userProfile
      ensures Valid()
      ensures email !in accounts || accounts[email].password != password ==> r.Fail?
      ensures r.Fail? ==> authUser == old(authUser) && userProfile == old(userProfile)
      ensures r.Pass? ==> email in accounts && accounts[email].password == password
      ensures r.Pass? ==> authUser == Some(accounts[email].uid)
      ensures r.Pass? ==> userProfile.None? || (accounts[email].uid in profiles && userProfile == Some(profiles[accounts[email].uid]))
    {
      var ok := Remote.Call();
      if !ok || email !in accounts || accounts[email].password != password {
        var code := Remote.ErrorCode();
        return Fail(code);
      }
      authUser := Some(accounts[email].uid);
      FetchUserProfile(accounts[email].uid);
      r := Pass;
    }

    /** `signOut`: signs the service out and drops the profile at once;
        `currentUser` follows when the listener runs. */
    method SignOut() returns (r: Outcome)
      requires Valid()
      modifies this`authUser, this`userProfile
      ensures Valid()
      ensures r.Pass? ==> authUser.None? && userProfile.None?
      ensures r.Fail? ==> authUser == old(authUser) && userProfile == old(userProfile)
    {
      var ok := Remote.Call();
      if !ok {
        var code := Remote.ErrorCode();
        return Fail(code);
      }
      authUser := None;
      userProfile := None;
      r := Pass;
    }

    /** `register`: creates the account (which signs it in), then writes a
        profile with the new uid, the given name, email and role, and makes
        it the loaded profile. A failed profile write leaves the account
        created and signed in without a profile. */
    method Register(email: string, password: string, name: string, role: Role) returns (r: Outcome)
      requires Valid()
      modifies this`accounts, this`authUser, this`profiles, this`userProfile
      ensures Valid()
      ensures email in old(accounts) ==> r == Fail(EmailInUse) && accounts == old(accounts)
      ensures r.Pass? ==> email !in old(accounts) && email in accounts && accounts[email].password == password
      ensures r.Pass? ==> var uid := accounts[email].uid;
        uid !in Uids(old(accounts)) && accounts == old(accounts)[email := Account(uid, password)]
        && authUser == Some(uid) && profiles == old(profiles)[uid := User(uid, name, email, RoleName(role))]
        && userProfile == Some(User(uid, name, email, RoleName(role)))
      ensures r.Fail? ==> profiles == old(profiles) && userProfile == old(userProfile)
      ensures r.Fail? ==> accounts == old(accounts) || (email !in old(accounts) && email in accounts && authUser == Some(accounts[email].uid))
    {
      if email in accounts {
        return Fail(EmailInUse);
      }
      var created := Remote.Call();
      if !created {
        var code := Remote.ErrorCode();
        return Fail(code);
      }
      var uid := Remote.FreshName(Uids(accounts));
      accounts := accounts[email := Account(uid, password)];
      authUser := Some(uid);
      var written := Remote.Call();
      if !written {
        var code := Remote.ErrorCode();
        return Fail(code);
      }
      var profile := User(uid, name, email, RoleName(role));
      profiles := profiles[uid := profile];
      userProfile := Some(profile);
      r := Pass;
    }
  }
}
