/** The workshop list page: it loads the workshops, rewrites their dates for
    display in the very array the service published, and fills in for each one
    whether the signed-in user is enrolled and has a partner. */
module TalleresView {
  import opened Common
  import opened Text
  import opened Dates
  import opened Talleres
  import opened Auth

  /** One workshop after the date rewrite. */
  function WithDisplayDate(t: Taller, parse: string -> JsDate): Taller {
    t.(fecha := Display(parse(t.fecha)))
  }

  /** The list after the date rewrite: every `fecha` in display form, every
      other field as it was. */
  function Reformatted(ts: seq<Taller>, parse: string -> JsDate): (r: seq<Taller>)
    ensures |r| == |ts|
    ensures forall i :: 0 <= i < |ts| ==> r[i] == WithDisplayDate(ts[i], parse)
    ensures forall i :: 0 <= i < |ts| ==> r[i].fecha == Display(parse(ts[i].fecha))
    ensures forall i :: 0 <= i < |ts| ==> r[i].(fecha := ts[i].fecha) == ts[i]
  {
    if ts == [] then []
    else [WithDisplayDate(ts[0], parse)] + Reformatted(ts[1..], parse)
  }

  /** Every rewritten date of a valid parse reads DD-MM- and the year, with
      day and month as two digits. */
  lemma ReformattedShape(ts: seq<Taller>, parse: string -> JsDate, i: nat)
    requires i < |ts| && parse(ts[i].fecha).Valid?
    ensures var d := parse(ts[i].fecha);
            var f := Reformatted(ts, parse)[i].fecha;
            |f| >= 7 && f[2] == '-' && f[5] == '-'
            && f[..2] == Pad2(d.date) && f[3..5] == Pad2(d.monthIndex + 1)
            && f[6..] == IntToString(d.fullYear)
  {
    DisplayShape(parse(ts[i].fecha));
  }

  /** The list after the enrolment answers for user `userId` came back. */
  function WithAnswers(ts: seq<Taller>, userId: nat,
                       signedUp: (nat, nat) -> Option<bool>,
                       hasPartner: (nat, nat) -> Option<bool>): (r: seq<Taller>)
    ensures |r| == |ts|
    ensures forall i :: 0 <= i < |ts| ==>
              r[i] == Answered(ts[i], signedUp(ts[i].id, userId), hasPartner(ts[i].id, userId))
  {
    if ts == [] then []
    else [Answered(ts[0], signedUp(ts[0].id, userId), hasPartner(ts[0].id, userId))]
         + WithAnswers(ts[1..], userId, signedUp, hasPartner)
  }

  /** The loop of `listTalleres()`: each date rewritten in place, in order. */
  method ReformatDates(a: array<Taller>, parse: string -> JsDate)
    modifies a
    ensures a[..] == Reformatted(old(a[..]), parse)
  {
    var index := 0;
    while index < a.Length
      invariant 0 <= index <= a.Length
      invariant forall k :: 0 <= k < index ==> a[k] == WithDisplayDate(old(a[k]), parse)
      invariant forall k :: index <= k < a.Length ==> a[k] == old(a[k])
    {
      a[index] := WithDisplayDate(a[index], parse);
      index := index + 1;
    }
    ghost var before := old(a[..]);
    ghost var r := Reformatted(before, parse);
    forall k | 0 <= k < a.Length
      ensures a[k] == r[k]
    {
      assert before[k] == old(a[k]);
    }
    assert a[..] == r;
  }

  /** The loop of the `ngOnInit` callback: each workshop gets the user's
      enrolment answers, in place. */
  method WriteAnswers(a: array<Taller>, userId: nat,
                      signedUp: (nat, nat) -> Option<bool>,
                      hasPartner: (nat, nat) -> Option<bool>)
    modifies a
    ensures a[..] == WithAnswers(old(a[..]), userId, signedUp, hasPartner)
  {
    var i := 0;
    while i < a.Length
      invariant 0 <= i <= a.Length
      invariant forall k :: 0 <= k < i ==>
                  a[k] == Answered(old(a[k]), signedUp(old(a[k]).id, userId),
                                   hasPartner(old(a[k]).id, userId))
      invariant forall k :: i <= k < a.Length ==> a[k] == old(a[k])
    {
      a[i] := Answered(a[i], signedUp(a[i].id, userId), hasPartner(a[i].id, userId));
      i := i + 1;
    }
    ghost var before := old(a[..]);
    assert forall k :: 0 <= k < a.Length ==> before[k] == old(a[k]);
  }

  class TalleresComponent {
    var adminLogueado: bool
    var userId: nat
    var talleres: array<Taller>
    const tallerService: TalleresService
    const authService: AuthService

    constructor (tallerService: TalleresService, authService: AuthService)
      ensures this.tallerService == tallerService && this.authService == authService
      ensures !adminLogueado && userId == 0 && talleres.Length == 0
    {
      this.tallerService := tallerService;
      this.authService := authService;
      adminLogueado := false;
      userId := 0;
      talleres := new Taller[0];
    }

    /** `listTalleres()`: after the service has published the response, each
        workshop's date is rewritten in place, so the channel holds the
        rewritten dates too. */
    method ListTalleres(outcome: Outcome<array<Taller>>, parse: string -> JsDate)
      modifies tallerService, if outcome.Success? then {outcome.value} else {}
      ensures outcome.Success? ==>
                && tallerService.tallerSubject
                   == old(tallerService.tallerSubject)["talleres" := TallerList(outcome.value)]
                && outcome.value[..] == Reformatted(old(outcome.value[..]), parse)
      ensures outcome.Failure? ==> tallerService.tallerSubject == old(tallerService.tallerSubject)
    {
      var result := tallerService.ListTalleres(outcome);
      if result.Success? {
        ReformatDates(result.value, parse);
      }
    }

    /** The `combineLatest` callback of `ngOnInit`, once the profile has come
        back: remember the user, raise the administrator flag for role ADMIN,
        take the published workshops (or an empty list) and write each one's
        enrolment answers into it. A failed profile request changes nothing. */
    method OnProfileAndState(profile: Outcome<Profile>,
                             signedUp: (nat, nat) -> Option<bool>,
                             hasPartner: (nat, nat) -> Option<bool>)
      modifies this, authService,
        if tallerService.Listed().Some? then {tallerService.Listed().value} else {}
      ensures profile.Failure? ==>
                && adminLogueado == old(adminLogueado) && userId == old(userId)
                && talleres == old(talleres)
                && authService.State() == old(authService.State())
      ensures profile.Success? ==>
                && authService.State() == ProfileLoaded(old(authService.State()), profile.value)
                && userId == profile.value.id
                && adminLogueado == (old(adminLogueado) || profile.value.role == "ADMIN")
                && (old(tallerService.Listed()).Some? ==> talleres == old(tallerService.Listed()).value)
                && (old(tallerService.Listed()).None? ==> fresh(talleres) && talleres.Length == 0)
                && talleres[..] == WithAnswers(old(tallerService.ListedItems()), userId,
                                               signedUp, hasPartner)
    {
      var reply := authService.GetUserProfile(profile);
      if reply.Ok? {
        var user := reply.value;
        userId := user.id;
        if user.role == "ADMIN" {
          adminLogueado := true;
        }
        var listed := tallerService.Listed();
        if listed.Some? {
          talleres := listed.value;
        } else {
          talleres := new Taller[0];
        }
        WriteAnswers(talleres, userId, signedUp, hasPartner);
      }
    }
  }
}
