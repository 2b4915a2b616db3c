/** The hall edit form: the hall's opening days and, for each day, its music
    genres, edited in place by ticking day and genre boxes. */
module UpdateSala {
  import opened Common
  import opened Lists
  import opened SalasBaile

  /** The `dia` of every entry, in order. */
  function Days(ds: seq<DiaGenero>): (r: seq<string>)
    ensures |r| == |ds| && forall i :: 0 <= i < |ds| ==> r[i] == ds[i].dia
  {
    seq(|ds|, i requires 0 <= i < |ds| => ds[i].dia)
  }

  /** `findIndex(d => d.dia === dia)`: the first entry for the day, or -1. */
  function DayIndex(ds: seq<DiaGenero>, dia: string): (i: int)
    ensures -1 <= i < |ds|
    ensures i == -1 <==> forall k :: 0 <= k < |ds| ==> ds[k].dia != dia
    ensures 0 <= i ==> ds[i].dia == dia && forall k :: 0 <= k < i ==> ds[k].dia != dia
  {
    var i := IndexOf(Days(ds), dia);
    assert i == -1 ==> forall k :: 0 <= k < |ds| ==> Days(ds)[k] != dia;
    assert 0 <= i ==> forall k :: 0 <= k < i ==> Days(ds)[..i][k] != dia;
    i
  }

  /** `isDaySelected(dia)`. */
  function IsDaySelected(ds: seq<DiaGenero>, dia: string): (b: bool)
    ensures b <==> exists k :: 0 <= k < |ds| && ds[k].dia == dia
  {
    DayIndex(ds, dia) != -1
  }

  /** `isGenreSelected(dia, genero)`: asked of the first entry for the day. */
  function IsGenreSelected(ds: seq<DiaGenero>, dia: string, genero: string): (b: bool)
    ensures !IsDaySelected(ds, dia) ==> !b
    ensures b <==> exists k :: 0 <= k < |ds| && ds[k].dia == dia
                     && (forall j :: 0 <= j < k ==> ds[j].dia != dia) && genero in ds[k].generos
  {
    var i := DayIndex(ds, dia);
    i != -1 && genero in ds[i].generos
  }

  /** `onDaySelected(event, dia)` on the list of entries. */
  function DaySelected(ds: seq<DiaGenero>, dia: string, checked: bool): (r: seq<DiaGenero>)
    ensures checked ==> r == ds + [DiaGenero(dia, [])]
    ensures !checked && !IsDaySelected(ds, dia) ==> r == ds
    ensures !checked && IsDaySelected(ds, dia) ==>
              |r| == |ds| - 1
              && r[..DayIndex(ds, dia)] == ds[..DayIndex(ds, dia)]
              && r[DayIndex(ds, dia)..] == ds[DayIndex(ds, dia) + 1..]
  {
    if checked then ds + [DiaGenero(dia, [])]
    else
      var i := DayIndex(ds, dia);
      if i != -1 then RemoveAt(ds, i) else ds
  }

  /** The genres of a day after `onGenreSelected`: added once, or their first
      occurrence removed. */
  function GenresSelected(gs: seq<string>, genero: string, checked: bool): (r: seq<string>)
    ensures checked ==> genero in r && (genero in gs ==> r == gs) && (genero !in gs ==> r == gs + [genero])
    ensures !checked && genero !in gs ==> r == gs
    ensures !checked && genero in gs ==> r == RemoveAt(gs, IndexOf(gs, genero))
  {
    if checked then
      if genero !in gs then gs + [genero] else gs
    else
      var i := IndexOf(gs, genero);
      if i != -1 then RemoveAt(gs, i) else gs
  }

  /** `onGenreSelected(event, dia, genero)` on the list of entries: only the
      first entry for the day changes, and nothing changes without one. */
  function GenreSelected(ds: seq<DiaGenero>, dia: string, genero: string, checked: bool): (r: seq<DiaGenero>)
    ensures !IsDaySelected(ds, dia) ==> r == ds
    ensures IsDaySelected(ds, dia) ==>
              var i := DayIndex(ds, dia);
              r == ds[i := DiaGenero(dia, GenresSelected(ds[i].generos, genero, checked))]
  {
    var i := DayIndex(ds, dia);
    if i == -1 then ds
    else ds[i := ds[i].(generos := GenresSelected(ds[i].generos, genero, checked))]
  }

  /** Every genre list is free of repetitions. */
  predicate GenresNoDup(ds: seq<DiaGenero>) {
    forall k :: 0 <= k < |ds| ==> NoDup(ds[k].generos)
  }

  /** Removing one position keeps a list free of repetitions. */
  lemma RemoveAtNoDup<T>(xs: seq<T>, i: nat)
    requires i < |xs| && NoDup(xs)
    ensures NoDup(RemoveAt(xs, i))
  {
    var r := RemoveAt(xs, i);
    forall a, b | 0 <= a < b < |r|
      ensures r[a] != r[b]
    {
      var a' := if a < i then a else a + 1;
      var b' := if b < i then b else b + 1;
      assert r[a] == xs[a'] && r[b] == xs[b'] && a' < b';
    }
  }

  /** Ticking and unticking genres never lists a genre twice for a day. */
  lemma GenreSelectedNoDup(ds: seq<DiaGenero>, dia: string, genero: string, checked: bool)
    requires GenresNoDup(ds)
    ensures GenresNoDup(GenreSelected(ds, dia, genero, checked))
  {
    var i := DayIndex(ds, dia);
    if i != -1 {
      var gs := ds[i].generos;
      if !checked && genero in gs {
        RemoveAtNoDup(gs, IndexOf(gs, genero));
      }
    }
  }

  /** Ticking a day that has no entry and unticking it again gives the list
      back. */
  lemma DaySelectedUndo(ds: seq<DiaGenero>, dia: string)
    requires !IsDaySelected(ds, dia)
    ensures DaySelected(DaySelected(ds, dia, true), dia, false) == ds
  {
    var ds' := ds + [DiaGenero(dia, [])];
    assert DayIndex(ds', dia) == |ds| by {
      assert ds'[|ds|].dia == dia;
      assert forall k :: 0 <= k < |ds| ==> ds'[k].dia == ds[k].dia;
    }
    assert RemoveAt(ds', |ds|) == ds;
  }

  /** Replacing an entry by one for the same day keeps the first entry of
      every day where it was. */
  lemma DayIndexOfUpdate(ds: seq<DiaGenero>, i: nat, e: DiaGenero, dia: string)
    requires i < |ds| && e.dia == ds[i].dia
    ensures DayIndex(ds[i := e], dia) == DayIndex(ds, dia)
  {
    assert Days(ds[i := e]) == Days(ds);
  }

  /** Appending an absent element and removing its first occurrence gives the
      list back. */
  lemma AppendThenRemove<T>(xs: seq<T>, x: T)
    requires x !in xs
    ensures IndexOf(xs + [x], x) == |xs|
    ensures RemoveAt(xs + [x], |xs|) == xs
  {
    assert (xs + [x])[..|xs|] == xs;
  }

  /** Ticking a genre absent from the day and unticking it again gives the
      list back. */
  lemma GenreSelectedUndo(ds: seq<DiaGenero>, dia: string, genero: string)
    requires IsDaySelected(ds, dia)
    requires genero !in ds[DayIndex(ds, dia)].generos
    ensures GenreSelected(GenreSelected(ds, dia, genero, true), dia, genero, false) == ds
  {
    var i := DayIndex(ds, dia);
    var gs := ds[i].generos;
    assert GenresSelected(gs, genero, true) == gs + [genero];
    var ds' := ds[i := DiaGenero(dia, gs + [genero])];
    assert GenreSelected(ds, dia, genero, true) == ds';
    DayIndexOfUpdate(ds, i, DiaGenero(dia, gs + [genero]), dia);
    AppendThenRemove(gs, genero);
    assert GenresSelected(gs + [genero], genero, false) == gs;
    assert GenreSelected(ds', dia, genero, false) == ds'[i := DiaGenero(dia, gs)];
    assert ds[i] == DiaGenero(dia, gs);
  }

  /** The hall the form shows before the fetched one arrives: empty text
      fields and one placeholder day with no genres. */
  const PlaceholderSala := Sala("", "", "", [DiaGenero("", [])])

  class UpdateSalaForm {
    var sala: Sala
    var salaId: int
    const salasService: SalasBaileService
    /** The hall id the dialog was opened with. */
    const salaData: int

    constructor (salasService: SalasBaileService, salaData: int)
      ensures this.salasService == salasService && this.salaData == salaData
      ensures sala == PlaceholderSala && salaId == 0
    {
      this.salasService := salasService;
      this.salaData := salaData;
      sala := PlaceholderSala;
      salaId := 0;
    }

    /** `ngOnInit()`: the dialog's id is kept and the hall is fetched for it. */
    method OnInit(outcome: Outcome<Sala>)
      modifies this, salasService
      ensures salaId == salaData
      ensures outcome.Success? ==> sala == outcome.value
      ensures outcome.Failure? ==> sala == old(sala)
      ensures outcome.Success? ==>
                salasService.salaSubject == old(salasService.salaSubject)["sala" := OneSala(outcome.value)]
      ensures outcome.Failure? ==> salasService.salaSubject == old(salasService.salaSubject)
    {
      salaId := salaData;
      GetSalaData(outcome);
    }

    /** `getSalaData(id)`: the fetched hall replaces the one being edited. */
    method GetSalaData(outcome: Outcome<Sala>)
      modifies this, salasService
      ensures outcome.Success? ==> sala == outcome.value
      ensures outcome.Failure? ==> sala == old(sala)
      ensures salaId == old(salaId)
      ensures outcome.Success? ==>
                salasService.salaSubject == old(salasService.salaSubject)["sala" := OneSala(outcome.value)]
      ensures outcome.Failure? ==> salasService.salaSubject == old(salasService.salaSubject)
    {
      var result := salasService.GetSalaById(outcome);
      if result.Success? {
        sala := result.value;
      }
    }

    /** `onDaySelected(event, dia)`. */
    method OnDaySelected(checked: bool, dia: string)
      modifies this
      ensures sala == old(sala).(diasGeneros := DaySelected(old(sala.diasGeneros), dia, checked))
      ensures salaId == old(salaId)
    {
      if checked {
        sala := sala.(diasGeneros := sala.diasGeneros + [DiaGenero(dia, [])]);
      } else {
        var index := DayIndex(sala.diasGeneros, dia);
        if index != -1 {
          sala := sala.(diasGeneros := RemoveAt(sala.diasGeneros, index));
        }
      }
    }

    /** `onGenreSelected(event, dia, genero)`. */
    method OnGenreSelected(checked: bool, dia: string, genero: string)
      modifies this
      ensures sala == old(sala).(diasGeneros := GenreSelected(old(sala.diasGeneros), dia, genero, checked))
      ensures salaId == old(salaId)
    {
      var i := DayIndex(sala.diasGeneros, dia);
      if i != -1 {
        var gs := sala.diasGeneros[i].generos;
        if checked {
          if genero !in gs {
            gs := gs + [genero];
          }
        } else {
          var index := IndexOf(gs, genero);
          if index != -1 {
            gs := RemoveAt(gs, index);
          }
        }
        sala := sala.(diasGeneros := sala.diasGeneros[i := sala.diasGeneros[i].(generos := gs)]);
      }
    }

    /** `onSubmit()`: the edited hall is sent under the kept id; the answer
        closes the dialog or is reported, and the form is not touched. */
    method OnSubmit(outcome: Outcome<Sala>) returns (sentId: int, sent: Sala, closedWith: Option<Sala>)
      ensures sentId == salaId && sent == sala
      ensures closedWith.Some? <==> outcome.Success?
      ensures outcome.Success? ==> closedWith.value == outcome.value
    {
      sentId, sent := salaId, sala;
      var result := salasService.Request(outcome);
      closedWith := if result.Success? then Some(result.value) else None;
    }
  }
}
