/** The dance-hall service: the `salaSubject` channel, which holds the form
    defaults, the halls open on a day and the selected hall, and the requests
    that publish into it. */
module SalasBaile {
  import opened Common
  import opened Text

  /** A day a hall opens on and the music genres played that day. */
  datatype DiaGenero = DiaGenero(dia: string, generos: seq<string>)

  datatype Sala = Sala(nombreSala: string, localidad: string, address: string, diasGeneros: seq<DiaGenero>)

  /** A value of the channel. */
  datatype SalaEntry = Text(text: string) | Dias(dias: seq<DiaGenero>) | SalaList(salas: seq<Sala>) | OneSala(sala: Sala)

  /** The value the channel starts with: empty text fields and one placeholder
      day with no genres. */
  function InitialSalaState(): (m: map<string, SalaEntry>)
    ensures m.Keys == {"nombreSala", "localidad", "address", "diasGeneros"}
    ensures m["nombreSala"] == m["localidad"] == m["address"] == Text("")
    ensures m["diasGeneros"] == Dias([DiaGenero("", [])])
    ensures "salas" !in m && "sala" !in m
  {
    map["nombreSala" := Text(""), "localidad" := Text(""), "address" := Text(""),
        "diasGeneros" := Dias([DiaGenero("", [])])]
  }

  const HorariosPath := "salas/horarios/"

  /** The path `getSalasByDia(dia)` requests: the day upper-cased after
      `salas/horarios/`. */
  function SalasByDiaPath(dia: string): (path: string)
    ensures |path| == |HorariosPath| + |dia| + Occurrences(dia, Eszett)
    ensures path[..|HorariosPath|] == HorariosPath
    ensures Eszett !in dia ==>
              forall i :: 0 <= i < |dia| ==> path[|HorariosPath| + i] == UpperChar(dia[i])
  {
    HorariosPath + ToUpper(dia)
  }

  /** A lower-case day name reaches the server in capitals. */
  lemma ViernesPath(dia: string)
    requires dia == "viernes"
    ensures SalasByDiaPath(dia) == "salas/horarios/VIERNES"
  {
    var u := ToUpper(dia);
    assert Eszett !in dia;
    assert u == "VIERNES" by {
      assert |u| == 7;
      assert u[0] == UpperChar(dia[0]) == 'V';
      assert u[1] == UpperChar(dia[1]) == 'I';
      assert u[2] == UpperChar(dia[2]) == 'E';
      assert u[3] == UpperChar(dia[3]) == 'R';
      assert u[4] == UpperChar(dia[4]) == 'N';
      assert u[5] == UpperChar(dia[5]) == 'E';
      assert u[6] == UpperChar(dia[6]) == 'S';
    }
    assert SalasByDiaPath(dia) == HorariosPath + u;
  }

  /** Upper-casing is idempotent, so a day passed in capitals or in lower case
      reaches the same path. */
  lemma UpperPathIdempotent(dia: string)
    ensures SalasByDiaPath(ToUpper(dia)) == SalasByDiaPath(dia)
  {
    ToUpperIdempotent(dia);
  }

  class SalasBaileService {
    var salaSubject: map<string, SalaEntry>

    constructor ()
      ensures salaSubject == InitialSalaState()
    {
      salaSubject := InitialSalaState();
    }

    /** `getSalasByDia(dia)`: the request path, and on success the halls are
        published under `salas`; an error is passed on as it came. */
    method GetSalasByDia(dia: string, outcome: Outcome<seq<Sala>>) returns (path: string, result: Outcome<seq<Sala>>)
      modifies this
      ensures path == SalasByDiaPath(dia) && result == outcome
      ensures outcome.Success? ==> salaSubject == old(salaSubject)["salas" := SalaList(outcome.value)]
      ensures outcome.Failure? ==> salaSubject == old(salaSubject)
    {
      path := SalasByDiaPath(dia);
      if outcome.Success? {
        salaSubject := salaSubject["salas" := SalaList(outcome.value)];
      }
      result := outcome;
    }

    /** `getSalaById(id)`: on success the hall is published under `sala`. */
    method GetSalaById(outcome: Outcome<Sala>) returns (result: Outcome<Sala>)
      modifies this
      ensures result == outcome
      ensures outcome.Success? ==> salaSubject == old(salaSubject)["sala" := OneSala(outcome.value)]
      ensures outcome.Failure? ==> salaSubject == old(salaSubject)
    {
      if outcome.Success? {
        salaSubject := salaSubject["sala" := OneSala(outcome.value)];
      }
      result := outcome;
    }

    /** `createSala`, `updateSala` and `deleteSala`: the response is passed on
        and the channel is not touched. */
    method Request<T>(outcome: Outcome<T>) returns (result: Outcome<T>)
      ensures result == outcome
    {
      result := outcome;
    }
  }
}
