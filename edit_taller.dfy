/** The workshop detail page: loading the workshop with the user's enrolment
    answers, the enrolment handlers (sign in alone, sign out, add a partner,
    sign in as a couple), the update and delete requests, and the enrolled-users
    table with its filter. */
module EditTaller {
  import opened Common
  import opened Text
  import opened HttpErrors
  import opened Talleres
  import opened Auth

  /** A row of the enrolled-users table. */
  datatype TallerUser = TallerUser(
    nombre: string,
    apellidos: string,
    estado: string,
    partner: string,
    telefono: string,
    email: string)

  /** The flags the enrolment handlers move. */
  datatype Enrolment = Enrolment(
    isLoading: bool,
    isUserSignedUp: bool,
    isUserHasPartner: bool,
    showInput: bool,
    showInputPareja: bool)

  /** `handleSignInTaller` once the answer came: on success the partner query
      runs and its answer, if any, is written; `isUserSignedUp` is left alone
      either way. */
  function SignInDone(e: Enrolment, reply: Reply<string>, partner: Option<bool>): (r: Enrolment)
    ensures !r.isLoading
    ensures r.isUserSignedUp == e.isUserSignedUp
    ensures reply.Ok? && partner.Some? ==> r.isUserHasPartner == partner.value
    ensures reply.Err? || partner.None? ==> r.isUserHasPartner == e.isUserHasPartner
    ensures r.showInput == e.showInput && r.showInputPareja == e.showInputPareja
  {
    var hasPartner := if reply.Ok? && partner.Some? then partner.value else e.isUserHasPartner;
    e.(isLoading := false, isUserHasPartner := hasPartner)
  }

  /** `handleSignOutTaller` once the answer came. */
  function SignOutDone(e: Enrolment, reply: Reply<string>): (r: Enrolment)
    ensures !r.isLoading
    ensures reply.Ok? ==> !r.isUserSignedUp && !r.isUserHasPartner
    ensures reply.Err? ==> r.isUserSignedUp == e.isUserSignedUp && r.isUserHasPartner == e.isUserHasPartner
    ensures r.showInput == e.showInput && r.showInputPareja == e.showInputPareja
  {
    if reply.Ok? then e.(isLoading := false, isUserSignedUp := false, isUserHasPartner := false)
    else e.(isLoading := false)
  }

  /** `handleAddPartner` once the answer came. */
  function AddPartnerDone(e: Enrolment, reply: Reply<string>): (r: Enrolment)
    ensures !r.isLoading
    ensures r.isUserSignedUp == e.isUserSignedUp && r.showInputPareja == e.showInputPareja
    ensures reply.Ok? ==> r.isUserHasPartner && !r.showInput
    ensures reply.Err? ==> r.isUserHasPartner == e.isUserHasPartner && r.showInput == e.showInput
  {
    if reply.Ok? then e.(isLoading := false, showInput := false, isUserHasPartner := true)
    else e.(isLoading := false)
  }

  /** `handleSignInCouple` once the answer came. */
  function SignInCoupleDone(e: Enrolment, reply: Reply<string>): (r: Enrolment)
    ensures !r.isLoading
    ensures r.showInput == e.showInput
    ensures reply.Ok? ==> r.isUserSignedUp && r.isUserHasPartner && !r.showInputPareja
    ensures reply.Err? ==> r == e.(isLoading := false)
  {
    if reply.Ok?
    then e.(isLoading := false, showInputPareja := false, isUserSignedUp := true, isUserHasPartner := true)
    else e.(isLoading := false)
  }

  /** An enrolment handler that fails only clears the spinner. */
  lemma FailedEnrolmentKeepsFlags(e: Enrolment, message: string, partner: Option<bool>)
    ensures SignInDone(e, Err(message), partner) == e.(isLoading := false)
    ensures SignOutDone(e, Err(message)) == e.(isLoading := false)
    ensures AddPartnerDone(e, Err(message)) == e.(isLoading := false)
    ensures SignInCoupleDone(e, Err(message)) == e.(isLoading := false)
  {
  }

  /** The body of the update request: the seven fields of the workshop with
      the adjusted date, and neither enrolment answer. */
  function UpdateDto(t: Taller, fecha: string): (d: Taller)
    ensures d.isSignedUp.None? && d.hasPartner.None?
    ensures d.fecha == fecha
    ensures d.(isSignedUp := t.isSignedUp, hasPartner := t.hasPartner, fecha := t.fecha) == t
  {
    Taller(t.id, t.nombre, t.modalidad, t.profesores, fecha, t.hora, t.lugar, None, None)
  }

  /** Every field of the workshop detail page. */
  datatype EditState = EditState(
    flags: Enrolment,
    userId: nat,
    tallerId: nat,
    taller: Taller,
    showTabla: bool,
    isNotEditable: bool,
    usersTaller: seq<TallerUser>,
    filter: string)

  class EditTallerComponent {
    var userId: nat
    var tallerId: nat
    var taller: Taller
    var isLoading: bool
    var isUserSignedUp: bool
    var isUserHasPartner: bool
    var showInput: bool
    var showInputPareja: bool
    var showTabla: bool
    var isNotEditable: bool
    var usersTaller: seq<TallerUser>
    var filter: string
    const tallerService: TalleresService
    const authService: AuthService

    function Flags(): Enrolment
      reads this
    {
      Enrolment(isLoading, isUserSignedUp, isUserHasPartner, showInput, showInputPareja)
    }

    function State(): EditState
      reads this
    {
      EditState(Flags(), userId, tallerId, taller, showTabla, isNotEditable, usersTaller, filter)
    }

    constructor (tallerService: TalleresService, authService: AuthService)
      ensures this.tallerService == tallerService && this.authService == authService
      ensures State() == EditState(Enrolment(false, false, false, false, false), 0, 0,
                                   Taller(0, "", "", "", "", "", "", Some(false), Some(false)),
                                   false, true, [], "")
    {
      this.tallerService := tallerService;
      this.authService := authService;
      userId, tallerId := 0, 0;
      taller := Taller(0, "", "", "", "", "", "", Some(false), Some(false));
      isLoading, isUserSignedUp, isUserHasPartner := false, false, false;
      showInput, showInputPareja, showTabla := false, false, false;
      isNotEditable := true;
      usersTaller := [];
      filter := "";
    }

    /** The `combineLatest` callback of `ngOnInit`: once the profile and the
        route's id are in, the workshop is fetched (and published by the
        service), then the enrolment answers are written into it. */
    method OnProfileAndParams(profile: Outcome<Profile>, id: nat, fetched: Outcome<Taller>,
                              signedUp: Option<bool>, hasPartner: Option<bool>)
      modifies this, authService, tallerService
      ensures profile.Failure? ==>
                && State() == old(State())
                && authService.State() == old(authService.State())
                && tallerService.tallerSubject == old(tallerService.tallerSubject)
      ensures profile.Success? ==>
                && authService.State() == ProfileLoaded(old(authService.State()), profile.value)
                && (fetched.Success? ==>
                      && State() == old(State()).(userId := profile.value.id, tallerId := id,
                                                  taller := Answered(fetched.value, signedUp, hasPartner))
                      && tallerService.tallerSubject
                         == old(tallerService.tallerSubject)["taller" := OneTaller(fetched.value)])
                && (fetched.Failure? ==>
                      && State() == old(State()).(userId := profile.value.id, tallerId := id)
                      && tallerService.tallerSubject == old(tallerService.tallerSubject))
    {
      var reply := authService.GetUserProfile(profile);
      if reply.Ok? {
        userId := reply.value.id;
        tallerId := id;
        var result := tallerService.GetTallerById(fetched);
        if result.Success? {
          taller := Answered(result.value, signedUp, hasPartner);
        }
      }
    }

    /** `handleUpdateTaller()`; `adjustedFecha` is the date shifted to local
        time and cut to YYYY-MM-DD, or None when `toISOString` throws on an
        invalid date: then nothing is sent and the spinner stays on. It also
        stays on when the request fails. */
    method HandleUpdateTaller(adjustedFecha: Option<string>, outcome: Outcome<string>)
      returns (dto: Option<Taller>, reply: Option<Reply<string>>)
      modifies this
      ensures adjustedFecha.None? ==>
                && dto.None? && reply.None?
                && State() == old(State()).(flags := old(Flags()).(isLoading := true))
      ensures adjustedFecha.Some? ==>
                && dto == Some(UpdateDto(old(taller), adjustedFecha.value))
                && reply == Some(Handled(outcome))
                && State() == old(State()).(flags := old(Flags()).(isLoading := outcome.Failure?))
    {
      isLoading := true;
      dto, reply := None, None;
      if adjustedFecha.Some? {
        dto := Some(UpdateDto(taller, adjustedFecha.value));
        var r := tallerService.Request(outcome);
        reply := Some(r);
        if r.Ok? {
          isLoading := false;
        }
      }
    }

    /** `handleSignInTaller(tallerId)`; `partner` is the answer of the partner
        query it runs on success (None when that query fails). */
    method HandleSignInTaller(outcome: Outcome<string>, partner: Option<bool>)
      returns (reply: Reply<string>)
      modifies this
      ensures reply == Handled(outcome)
      ensures State() == old(State()).(flags := SignInDone(old(Flags()), reply, partner))
    {
      isLoading := true;
      reply := tallerService.Request(outcome);
      if reply.Ok? {
        UserHasPartner(partner);
        isLoading := false;
      } else {
        isLoading := false;
      }
    }

    /** `handleSignOutTaller(tallerId, userId)`: the request is sent only when
        the dialog closed with `true`. */
    method HandleSignOutTaller(dialog: DialogResult, outcome: Outcome<string>)
      returns (sent: bool, reply: Option<Reply<string>>)
      modifies this
      ensures sent == Confirmed(dialog)
      ensures !sent ==> State() == old(State()) && reply.None?
      ensures sent ==> reply == Some(Handled(outcome))
                       && State() == old(State()).(flags := SignOutDone(old(Flags()), Handled(outcome)))
    {
      sent := dialog == Closed(true);
      reply := None;
      if sent {
        isLoading := true;
        var r := tallerService.Request(outcome);
        reply := Some(r);
        if r.Ok? {
          isLoading := false;
          isUserSignedUp := false;
          isUserHasPartner := false;
        } else {
          isLoading := false;
        }
      }
    }

    /** `handleAddPartner(tallerId, partnerEmail)`. */
    method HandleAddPartner(outcome: Outcome<string>) returns (reply: Reply<string>)
      modifies this
      ensures reply == Handled(outcome)
      ensures State() == old(State()).(flags := AddPartnerDone(old(Flags()), reply))
    {
      isLoading := true;
      reply := tallerService.Request(outcome);
      isLoading := false;
      if reply.Ok? {
        showInput := false;
        isUserHasPartner := true;
      }
    }

    /** `handleSignInCouple(tallerId, userId, partnerEmail)`. */
    method HandleSignInCouple(outcome: Outcome<string>) returns (reply: Reply<string>)
      modifies this
      ensures reply == Handled(outcome)
      ensures State() == old(State()).(flags := SignInCoupleDone(old(Flags()), reply))
    {
      isLoading := true;
      reply := tallerService.Request(outcome);
      isLoading := false;
      if reply.Ok? {
        showInputPareja := false;
        isUserSignedUp := true;
        isUserHasPartner := true;
      }
    }

    /** `handleDeleteTaller(tallerId)`: sent only on a confirmed dialog; the
        spinner is off again once the answer came. */
    method HandleDeleteTaller(dialog: DialogResult, outcome: Outcome<string>)
      returns (sent: bool, reply: Option<Reply<string>>)
      modifies this
      ensures sent == Confirmed(dialog)
      ensures !sent ==> State() == old(State()) && reply.None?
      ensures sent ==> reply == Some(Handled(outcome))
                       && State() == old(State()).(flags := old(Flags()).(isLoading := false))
    {
      sent := dialog == Closed(true);
      reply := None;
      if sent {
        isLoading := true;
        var r := tallerService.Request(outcome);
        reply := Some(r);
        isLoading := false;
      }
    }

    /** `handleListUsersTaller(tallerId)`: a success stores the rows and
        toggles the table; an error leaves both. */
    method HandleListUsersTaller(outcome: Outcome<seq<TallerUser>>)
      modifies this
      ensures outcome.Success? ==>
                State() == old(State()).(usersTaller := outcome.value, showTabla := !old(showTabla))
      ensures outcome.Failure? ==> State() == old(State())
    {
      var reply := tallerService.Request(outcome);
      if reply.Ok? {
        usersTaller := reply.value;
        showTabla := !showTabla;
      }
    }

    /** `isUserSuscribed(tallerId, userId)`: only an answer is written. */
    method IsUserSuscribed(answer: Option<bool>)
      modifies this
      ensures answer.Some? ==> State() == old(State()).(flags := old(Flags()).(isUserSignedUp := answer.value))
      ensures answer.None? ==> State() == old(State())
    {
      if answer.Some? {
        isUserSignedUp := answer.value;
      }
    }

    /** `userHasPartner(tallerId, userId)`: only an answer is written. */
    method UserHasPartner(answer: Option<bool>)
      modifies this
      ensures answer.Some? ==> State() == old(State()).(flags := old(Flags()).(isUserHasPartner := answer.value))
      ensures answer.None? ==> State() == old(State())
    {
      if answer.Some? {
        isUserHasPartner := answer.value;
      }
    }

    /** `applyFilter(event)` with the input's text. */
    method ApplyFilter(value: string)
      modifies this
      ensures State() == old(State()).(filter := Filter(value))
    {
      filter := Filter(value);
    }
  }
}
