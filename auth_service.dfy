/** The authentication service: the session channels `authSubject`,
    `adminLogueado`, `userLogueado` and `isUserAccountDeleted`, and the requests
    whose success hooks move them. */
module Auth {
  import opened Common
  import opened HttpErrors
  import opened Storage

  /** The profile the server returns for the bearer token. `isNotLocked` is
      false when the field is missing, as JavaScript reads `!undefined`. */
  datatype Profile = Profile(
    id: nat,
    nombre: string,
    apellidos: string,
    fechanacimiento: string,
    email: string,
    telefono: string,
    bailerol: string,
    role: string,
    isNotLocked: bool)

  /** A value stored in `authSubject`: `null` or a profile. */
  datatype AuthEntry = NoUser | User(profile: Profile)

  /** The four session channels together. */
  datatype Session = Session(
    auth: map<string, AuthEntry>,
    adminLogueado: bool,
    userLogueado: bool,
    isUserAccountDeleted: bool)

  /** The session when the application starts: `{user: null}` and every flag
      down. */
  const InitialSession := Session(map["user" := NoUser], false, false, false)

  /** The success hook of `getUserProfile`. */
  function ProfileLoaded(s: Session, p: Profile): (t: Session)
    ensures !p.isNotLocked ==> t.auth == s.auth["user" := User(p)]
    ensures p.isNotLocked ==> t.auth == s.auth
    ensures t.adminLogueado <==> s.adminLogueado || p.role == "ADMIN"
    ensures t.userLogueado <==> s.userLogueado || p.role == "USER"
    ensures t.isUserAccountDeleted == s.isUserAccountDeleted
  {
    var auth := if !p.isNotLocked then s.auth["user" := User(p)] else s.auth;
    var admin := if p.role == "ADMIN" then true else s.adminLogueado;
    var user := if p.role == "USER" then true else s.userLogueado;
    Session(auth, admin, user, s.isUserAccountDeleted)
  }

  /** The success hook shared by `logout` and `resetPassword` (storage is
      cleared beside it). */
  function SignedOut(s: Session): (t: Session)
    ensures t.auth == map[] && "user" !in t.auth
    ensures !t.adminLogueado && !t.userLogueado
    ensures t.isUserAccountDeleted == s.isUserAccountDeleted
  {
    Session(map[], false, false, s.isUserAccountDeleted)
  }

  /** The success hook of `eliminarUsuario`. */
  function AccountDeleted(s: Session): (t: Session)
    ensures t.isUserAccountDeleted
    ensures t.(isUserAccountDeleted := s.isUserAccountDeleted) == s
  {
    s.(isUserAccountDeleted := true)
  }

  /** A run of profile fetches. */
  function ProfilesLoaded(s: Session, ps: seq<Profile>): Session
    decreases ps
  {
    if ps == [] then s else ProfilesLoaded(ProfileLoaded(s, ps[0]), ps[1..])
  }

  /** Profile fetches only ever raise the role flags: after any run of them the
      administrator flag is up exactly when it was up before or some fetched
      profile had role ADMIN, and likewise for USER. */
  lemma {:induction false} ProfilesLoadedFlags(s: Session, ps: seq<Profile>)
    ensures ProfilesLoaded(s, ps).adminLogueado <==>
              s.adminLogueado || HasRole(ps, "ADMIN")
    ensures ProfilesLoaded(s, ps).userLogueado <==>
              s.userLogueado || HasRole(ps, "USER")
    ensures ProfilesLoaded(s, ps).isUserAccountDeleted == s.isUserAccountDeleted
    decreases ps
  {
    if ps != [] {
      var t := ProfileLoaded(s, ps[0]);
      ProfilesLoadedFlags(t, ps[1..]);
      HasRoleCons(ps, "ADMIN");
      HasRoleCons(ps, "USER");
    }
  }

  predicate HasRole(ps: seq<Profile>, r: string) {
    exists i :: 0 <= i < |ps| && ps[i].role == r
  }

  lemma HasRoleCons(ps: seq<Profile>, r: string)
    requires ps != []
    ensures HasRole(ps, r) <==> ps[0].role == r || HasRole(ps[1..], r)
  {
    if HasRole(ps, r) {
      var i :| 0 <= i < |ps| && ps[i].role == r;
      if i > 0 { assert ps[1..][i - 1].role == r; }
    }
    if HasRole(ps[1..], r) {
      var i :| 0 <= i < |ps[1..]| && ps[1..][i].role == r;
      assert ps[i + 1].role == r;
    }
  }

  /** Whatever profiles are fetched, the keys of `authSubject` other than
      `user` keep their values. */
  lemma {:induction false} ProfilesLoadedAuth(s: Session, ps: seq<Profile>, k: string)
    requires k != "user" && k in s.auth
    ensures k in ProfilesLoaded(s, ps).auth && ProfilesLoaded(s, ps).auth[k] == s.auth[k]
    decreases ps
  {
    if ps != [] {
      ProfilesLoadedAuth(ProfileLoaded(s, ps[0]), ps[1..], k);
    }
  }

  /** A profile whose `isNotLocked` flag is set, an unlocked one, is not
      published, since the guard only lets locked ones through; its role
      still raises the matching flag. */
  lemma UnlockedProfileRaisesRole(s: Session, p: Profile)
    requires p.isNotLocked && p.role == "ADMIN"
    ensures ProfileLoaded(s, p).auth == s.auth
    ensures ProfileLoaded(s, p).adminLogueado
  {
  }

  class AuthService {
    var authSubject: map<string, AuthEntry>
    var adminLogueado: bool
    var userLogueado: bool
    var isUserAccountDeleted: bool
    const storage: LocalStorage

    function State(): Session
      reads this
    {
      Session(authSubject, adminLogueado, userLogueado, isUserAccountDeleted)
    }

    constructor (storage: LocalStorage)
      ensures State() == InitialSession
      ensures this.storage == storage
    {
      authSubject := map["user" := NoUser];
      adminLogueado := false;
      userLogueado := false;
      isUserAccountDeleted := false;
      this.storage := storage;
    }

    /** `getUserProfile()`: on success the hook runs, on error the session is
        left as it was and the derived message is delivered. */
    method GetUserProfile(outcome: Outcome<Profile>) returns (reply: Reply<Profile>)
      modifies this
      ensures reply == Handled(outcome)
      ensures outcome.Success? ==> State() == ProfileLoaded(old(State()), outcome.value)
      ensures outcome.Failure? ==> State() == old(State())
    {
      match outcome {
        case Success(user) =>
          if !user.isNotLocked {
            authSubject := authSubject["user" := User(user)];
          }
          if user.role == "ADMIN" {
            adminLogueado := true;
          }
          if user.role == "USER" {
            userLogueado := true;
          }
          reply := Ok(user);
        case Failure(e) =>
          reply := Err(HandleError(e));
      }
    }

    /** The hook shared by `logout` and `resetPassword`. */
    method SignOut()
      modifies this, storage
      ensures State() == SignedOut(old(State()))
      ensures storage.items == map[]
    {
      storage.Clear();
      authSubject := map[];
      adminLogueado := false;
      userLogueado := false;
    }

    /** `logout()`. */
    method Logout(outcome: Outcome<()>) returns (reply: Reply<()>)
      modifies this, storage
      ensures reply == Handled(outcome)
      ensures outcome.Success? ==> State() == SignedOut(old(State())) && storage.items == map[]
      ensures outcome.Failure? ==> State() == old(State()) && storage.items == old(storage.items)
    {
      if outcome.Success? {
        SignOut();
      }
      reply := Handled(outcome);
    }

    /** `resetPassword(password, email)`. */
    method ResetPassword(outcome: Outcome<()>) returns (reply: Reply<()>)
      modifies this, storage
      ensures reply == Handled(outcome)
      ensures outcome.Success? ==> State() == SignedOut(old(State())) && storage.items == map[]
      ensures outcome.Failure? ==> State() == old(State()) && storage.items == old(storage.items)
    {
      if outcome.Success? {
        SignOut();
      }
      reply := Handled(outcome);
    }

    /** `eliminarUsuario(userId)`. */
    method EliminarUsuario(outcome: Outcome<()>) returns (reply: Reply<()>)
      modifies this
      ensures reply == Handled(outcome)
      ensures outcome.Success? ==> State() == AccountDeleted(old(State()))
      ensures outcome.Failure? ==> State() == old(State())
    {
      if outcome.Success? {
        isUserAccountDeleted := true;
      }
      reply := Handled(outcome);
    }

    /** `setUserLogueado(estado)`. */
    method SetUserLogueado(estado: bool)
      modifies this
      ensures State() == old(State()).(userLogueado := estado)
    {
      userLogueado := estado;
    }

    /** The requests whose hook is empty (`login`, `register`, `updateUser`,
        `listarUsuarios`, `requestOTP`, `confirmOtp`, the enable and disable
        calls): the session is untouched and errors go through the handler. */
    method Request<T>(outcome: Outcome<T>) returns (reply: Reply<T>)
      ensures reply == Handled(outcome)
    {
      reply := Handled(outcome);
    }
  }
}
