/** The profile page: the signed-in user's record with the birth date shown as
    DD-MM-YYYY and sent as YYYY-MM-DD, the dance-role flags, the edit switch,
    the account-deletion reset and the administrator's user table. */
module PerfilUsuario {
  import opened Common
  import opened Text
  import opened Dates
  import opened HttpErrors
  import opened Auth

  /** The record the page starts with and falls back to once the account is
      deleted. */
  const EmptyUser := Profile(0, "", "", "", "", "", "", "", false)

  /** A record as the page shows it: its birth date in display form. */
  function ForDisplay(u: Profile, parse: string -> JsDate): (r: Profile)
    ensures r.fechanacimiento == Display(parse(u.fechanacimiento))
    ensures r.(fechanacimiento := u.fechanacimiento) == u
  {
    u.(fechanacimiento := Display(parse(u.fechanacimiento)))
  }

  /** Editing a shown record and saving it: the date sent for a year from 0 on
      is YYYY-MM-DD with the same year, month and day, and if the server reads
      it back as that day the page shows the date it showed before. */
  lemma UpdateRoundTrip(d: JsDate, parse: string -> JsDate)
    requires d.Valid? && d.fullYear >= 0
    requires parse(NatToString(d.fullYear) + "-" + Pad2(d.monthIndex + 1) + "-" + Pad2(d.date)) == d
    ensures ToSubmission(Display(d)) == NatToString(d.fullYear) + "-" + Pad2(d.monthIndex + 1) + "-" + Pad2(d.date)
    ensures Display(parse(ToSubmission(Display(d)))) == Display(d)
  {
    SubmissionOfDisplay(d.fullYear, d.monthIndex, d.date);
  }

  /** Every field of the profile page. */
  datatype PerfilState = PerfilState(
    adminLogueado: bool,
    userLogueado: bool,
    isLoading: bool,
    user: Profile,
    users: seq<Profile>,
    isNotEditable: bool,
    isLider: bool,
    isFollower: bool,
    showTabla: bool,
    filter: string)

  class PerfilUsuarioComponent {
    var adminLogueado: bool
    var userLogueado: bool
    var isLoading: bool
    var user: Profile
    var users: seq<Profile>
    var isNotEditable: bool
    var isLider: bool
    var isFollower: bool
    var showTabla: bool
    var filter: string
    const authService: AuthService

    function State(): PerfilState
      reads this
    {
      PerfilState(adminLogueado, userLogueado, isLoading, user, users,
                  isNotEditable, isLider, isFollower, showTabla, filter)
    }

    constructor (authService: AuthService)
      ensures this.authService == authService
      ensures State() == PerfilState(false, false, false, EmptyUser, [], true, false, false, false, "")
    {
      this.authService := authService;
      adminLogueado, userLogueado, isLoading := false, false, false;
      user, users := EmptyUser, [];
      isNotEditable, isLider, isFollower, showTabla := true, false, false, false;
      filter := "";
    }

    /** The profile callback of `ngOnInit`: the record is shown with its
        date in display form, and the dance role raises one flag. A failed
        request changes nothing here. */
    method OnProfile(profile: Outcome<Profile>, parse: string -> JsDate)
      modifies this, authService
      ensures profile.Failure? ==>
                State() == old(State()) && authService.State() == old(authService.State())
      ensures profile.Success? ==>
                && authService.State() == ProfileLoaded(old(authService.State()), profile.value)
                && State() == old(State()).(user := ForDisplay(profile.value, parse),
                                            isLider := old(isLider) || profile.value.bailerol == "lider",
                                            isFollower := old(isFollower) || profile.value.bailerol != "lider")
    {
      var reply := authService.GetUserProfile(profile);
      if reply.Ok? {
        var u := reply.value;
        user := ForDisplay(u, parse);
        if u.bailerol == "lider" {
          isLider := true;
        } else {
          isFollower := true;
        }
      }
    }

    /** The `adminLogueado$` subscription: an administrator is a user too. */
    method OnAdminLogueado(state: bool)
      modifies this
      ensures State() == old(State()).(adminLogueado := state, userLogueado := state)
    {
      adminLogueado := state;
      userLogueado := state;
    }

    /** The `userLogueado$` subscription. */
    method OnUserLogueado(state: bool)
      modifies this
      ensures State() == old(State()).(userLogueado := state)
    {
      userLogueado := state;
    }

    /** `handleUpdateUser(userId)`: the shown date goes out as YYYY-MM-DD. On
        success the answer's date is shown again and the form closes; on error
        the record keeps the submission form of the date. */
    method HandleUpdateUser(outcome: Outcome<Profile>, parse: string -> JsDate)
      returns (sent: Profile, reply: Reply<Profile>)
      modifies this
      ensures sent == old(user).(fechanacimiento := ToSubmission(old(user).fechanacimiento))
      ensures reply == Handled(outcome)
      ensures outcome.Success? ==>
                State() == old(State()).(user := sent.(fechanacimiento := Display(parse(outcome.value.fechanacimiento))),
                                         isNotEditable := true, isLoading := false)
      ensures outcome.Failure? ==> State() == old(State()).(user := sent, isLoading := false)
    {
      isLoading := true;
      user := user.(fechanacimiento := ToSubmission(user.fechanacimiento));
      sent := user;
      reply := authService.Request(outcome);
      if reply.Ok? {
        user := user.(fechanacimiento := Display(parse(reply.value.fechanacimiento)));
        HandleCloseForm();
        isLoading := false;
      } else {
        isLoading := false;
      }
    }

    /** `handleCloseForm()`. */
    method HandleCloseForm()
      modifies this
      ensures State() == old(State()).(isNotEditable := true)
    {
      isNotEditable := true;
    }

    /** `handleEditUser()`. */
    method HandleEditUser()
      modifies this
      ensures State() == old(State()).(isNotEditable := false)
    {
      isNotEditable := false;
    }

    /** `selectUser(usuario)`: the chosen row becomes the shown record. */
    method SelectUser(usuario: Profile, parse: string -> JsDate)
      modifies this
      ensures State() == old(State()).(user := ForDisplay(usuario, parse))
    {
      user := usuario.(fechanacimiento := Display(parse(usuario.fechanacimiento)));
    }

    /** `applyFilter(event)` with the input's text. */
    method ApplyFilter(value: string)
      modifies this
      ensures State() == old(State()).(filter := Filter(value))
    {
      filter := Filter(value);
    }

    /** The `isUserAccountDeleted$` subscription of `handleEliminarUsuario`:
        once the account is gone the shown record is emptied. */
    method OnAccountDeleted(value: bool)
      modifies this
      ensures value ==> State() == old(State()).(user := EmptyUser)
      ensures !value ==> State() == old(State())
    {
      if value {
        user := EmptyUser;
      }
    }

    /** `handleListUsers()`: the list is stored and the table shown or hidden;
        an error leaves both as they were. */
    method HandleListUsers(outcome: Outcome<seq<Profile>>) returns (reply: Reply<seq<Profile>>)
      modifies this
      ensures reply == Handled(outcome)
      ensures outcome.Success? ==>
                State() == old(State()).(users := outcome.value, showTabla := !old(showTabla))
      ensures outcome.Failure? ==> State() == old(State())
    {
      reply := authService.Request(outcome);
      if reply.Ok? {
        users := reply.value;
        showTabla := !showTabla;
      }
    }
  }
}
