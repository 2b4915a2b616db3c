/** The workshop service: the `tallerSubject` channel, which holds the form
    defaults, the listed workshops and the selected workshop, and the requests
    that publish into it. */
module Talleres {
  import opened Common
  import opened HttpErrors

  /** A workshop. `isSignedUp` and `hasPartner` are optional: the server does
      not send them, the components fill them in. */
  datatype Taller = Taller(
    id: nat,
    nombre: string,
    modalidad: string,
    profesores: string,
    fecha: string,
    hora: string,
    lugar: string,
    isSignedUp: Option<bool>,
    hasPartner: Option<bool>)

  /** A value of the channel. The listed workshops are the array the HTTP
      response delivered, so whoever holds it shares it with the channel. */
  datatype TallerEntry = Text(text: string) | TallerList(list: array<Taller>) | OneTaller(taller: Taller)

  const FormKeys: set<string> := {"nombre", "modalidad", "profesores", "fecha", "hora", "lugar"}

  /** The value the channel starts with. */
  function InitialTallerState(): (m: map<string, TallerEntry>)
    ensures m.Keys == FormKeys
    ensures forall k :: k in m ==> m[k] == Text("")
    ensures "talleres" !in m && "taller" !in m
  {
    map k | k in FormKeys :: Text("")
  }

  /** The answer of `isUserSuscribed` or `isUserHasAPartner` written into a
      workshop; a failed request writes nothing. */
  function Answered(t: Taller, signedUp: Option<bool>, hasPartner: Option<bool>): (r: Taller)
    ensures signedUp.Some? ==> r.isSignedUp == signedUp
    ensures signedUp.None? ==> r.isSignedUp == t.isSignedUp
    ensures hasPartner.Some? ==> r.hasPartner == hasPartner
    ensures hasPartner.None? ==> r.hasPartner == t.hasPartner
    ensures r.(isSignedUp := t.isSignedUp, hasPartner := t.hasPartner) == t
  {
    t.(isSignedUp := if signedUp.Some? then signedUp else t.isSignedUp,
       hasPartner := if hasPartner.Some? then hasPartner else t.hasPartner)
  }

  class TalleresService {
    var tallerSubject: map<string, TallerEntry>

    constructor ()
      ensures tallerSubject == InitialTallerState()
    {
      tallerSubject := InitialTallerState();
    }

    /** The listed workshops, when some have been published. */
    function Listed(): Option<array<Taller>>
      reads this
    {
      if "talleres" in tallerSubject && tallerSubject["talleres"].TallerList?
      then Some(tallerSubject["talleres"].list) else None
    }

    /** The contents of the published list, empty when there is none. */
    function ListedItems(): seq<Taller>
      reads this, if Listed().Some? then {Listed().value} else {}
    {
      if Listed().Some? then Listed().value[..] else []
    }

    /** `listTalleres()`: the response is published under `talleres`; an error
        is passed on as it came and nothing is published. */
    method ListTalleres(outcome: Outcome<array<Taller>>) returns (result: Outcome<array<Taller>>)
      modifies this
      ensures result == outcome
      ensures outcome.Success? ==>
                tallerSubject == old(tallerSubject)["talleres" := TallerList(outcome.value)]
                && Listed() == Some(outcome.value)
      ensures outcome.Failure? ==> tallerSubject == old(tallerSubject)
    {
      if outcome.Success? {
        tallerSubject := tallerSubject["talleres" := TallerList(outcome.value)];
      }
      result := outcome;
    }

    /** `getTallerById(id)`: the response is published under `taller`; an error
        is passed on as it came and nothing is published. */
    method GetTallerById(outcome: Outcome<Taller>) returns (result: Outcome<Taller>)
      modifies this
      ensures result == outcome
      ensures outcome.Success? ==>
                tallerSubject == old(tallerSubject)["taller" := OneTaller(outcome.value)]
                && Listed() == old(Listed())
      ensures outcome.Failure? ==> tallerSubject == old(tallerSubject)
    {
      if outcome.Success? {
        tallerSubject := tallerSubject["taller" := OneTaller(outcome.value)];
      }
      result := outcome;
    }

    /** The other requests (`createTaller`, `signInUserTaller`,
        `addPartnerTaller`, `sigOutTaller`, `signInCoupleTaller`,
        `listUsersTaller`, `deleteTaller`, `updateTaller`, `isUserSuscribed`,
        `isUserHasAPartner`): nothing is published, errors go through the
        handler. */
    method Request<T>(outcome: Outcome<T>) returns (reply: Reply<T>)
      ensures reply == Handled(outcome)
    {
      reply := Handled(outcome);
    }
  }
}
