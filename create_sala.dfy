/** The new-hall form: three required text fields, the list of open days and
    a form array with one group (day and genres) per open day. Unticking uses
    Angular's `FormArray.removeAt`, which counts a negative index from the end,
    so the index -1 of a missing entry removes the last one. */
module CreateSala {
  import opened Common
  import opened Lists
  import opened Forms
  import opened SalasBaile
  import opened UpdateSala

  /** The genres of a day after `onGenreSelected`: appended without a
      membership test, or the first occurrence removed at `removeAt(findIndex)`. */
  function GenresToggled(gs: seq<string>, genero: string, checked: bool): (r: seq<string>)
    ensures checked ==> r == gs + [genero]
    ensures !checked && genero in gs ==> r == RemoveAt(gs, IndexOf(gs, genero))
    ensures !checked && genero !in gs && gs != [] ==> r == gs[..|gs| - 1]
    ensures !checked && gs == [] ==> r == []
  {
    if checked then gs + [genero]
    else
      FormArrayRemoveAtIndexOf(gs, genero);
      FormArrayRemoveAt(gs, IndexOf(gs, genero))
  }

  /** The form's value. */
  datatype SalaForm = SalaForm(nombreSala: string, localidad: string, address: string, diasGeneros: seq<DiaGenero>)

  /** Angular's `valid`: the three text controls are required; the day array
      has no validator. */
  function FormValid(f: SalaForm): (b: bool)
    ensures b <==> f.nombreSala != "" && f.localidad != "" && f.address != ""
  {
    !RequiredError(f.nombreSala) && !RequiredError(f.localidad) && !RequiredError(f.address)
  }

  /** `getErrorMessage(control)`. */
  function ErrorMessage(v: string): (m: string)
    ensures m == "Este campo es obligatorio" <==> v == ""
    ensures v != "" ==> m == ""
  {
    if RequiredError(v) then "Este campo es obligatorio" else ""
  }

  /** The open days and the day groups after `onDaySelected`. */
  function DayToggled(abiertos: seq<string>, ds: seq<DiaGenero>, dia: string, checked: bool)
    : (r: (seq<string>, seq<DiaGenero>))
    ensures checked ==> r == (abiertos + [dia], ds + [DiaGenero(dia, [])])
    ensures !checked ==> r.0 == RemoveAll(abiertos, dia)
    ensures !checked && IsDaySelected(ds, dia) ==> r.1 == RemoveAt(ds, DayIndex(ds, dia))
    ensures !checked && !IsDaySelected(ds, dia) && ds != [] ==> r.1 == ds[..|ds| - 1]
  {
    if checked then (abiertos + [dia], ds + [DiaGenero(dia, [])])
    else (RemoveAll(abiertos, dia), FormArrayRemoveAt(ds, DayIndex(ds, dia)))
  }

  /** The open days and the days of the groups agree, without repetition. */
  predicate InSync(abiertos: seq<string>, ds: seq<DiaGenero>) {
    abiertos == Days(ds) && NoDup(abiertos)
  }

  lemma DaysRemoveAt(ds: seq<DiaGenero>, i: nat)
    requires i < |ds|
    ensures Days(RemoveAt(ds, i)) == RemoveAt(Days(ds), i)
  {
  }

  /** Ticking a day that is not open, or unticking one that is, keeps the open
      days and the groups in step. */
  lemma {:induction false} DayToggledInSync(abiertos: seq<string>, ds: seq<DiaGenero>, dia: string, checked: bool)
    requires InSync(abiertos, ds)
    requires checked <==> dia !in abiertos
    ensures InSync(DayToggled(abiertos, ds, dia, checked).0, DayToggled(abiertos, ds, dia, checked).1)
  {
    var r := DayToggled(abiertos, ds, dia, checked);
    if checked {
      assert Days(ds + [DiaGenero(dia, [])]) == Days(ds) + [dia];
      assert NoDup(abiertos + [dia]);
    } else {
      var i := DayIndex(ds, dia);
      assert i == IndexOf(abiertos, dia);
      RemoveFirstIsRemoveAll(abiertos, dia);
      DaysRemoveAt(ds, i);
      RemoveAllNoDup(abiertos, dia);
    }
  }

  /** Unticking a day that is not open drops the last group all the same, so
      the groups lose a day that is still open. */
  lemma UntickAbsentDayDropsLast(abiertos: seq<string>, ds: seq<DiaGenero>, dia: string)
    requires InSync(abiertos, ds) && dia !in abiertos && ds != []
    ensures DayToggled(abiertos, ds, dia, false) == (abiertos, ds[..|ds| - 1])
    ensures !InSync(abiertos, ds[..|ds| - 1])
  {
    assert !IsDaySelected(ds, dia) by {
      assert forall k :: 0 <= k < |ds| ==> ds[k].dia == abiertos[k];
    }
    assert |Days(ds[..|ds| - 1])| < |abiertos|;
  }

  class CreateSalaForm {
    var diasAbiertos: seq<string>
    var form: SalaForm
    const salasService: SalasBaileService

    constructor (salasService: SalasBaileService)
      ensures this.salasService == salasService
      ensures diasAbiertos == [] && form == SalaForm("", "", "", [])
      ensures InSync(diasAbiertos, form.diasGeneros) && !FormValid(form)
    {
      this.salasService := salasService;
      diasAbiertos := [];
      form := SalaForm("", "", "", []);
    }

    /** `onDaySelected(event, dia)`. */
    method OnDaySelected(checked: bool, dia: string)
      modifies this
      ensures (diasAbiertos, form.diasGeneros) == DayToggled(old(diasAbiertos), old(form.diasGeneros), dia, checked)
      ensures form == old(form).(diasGeneros := form.diasGeneros)
    {
      if checked {
        diasAbiertos := diasAbiertos + [dia];
        form := form.(diasGeneros := form.diasGeneros + [DiaGenero(dia, [])]);
      } else {
        diasAbiertos := RemoveAll(diasAbiertos, dia);
        var index := DayIndex(form.diasGeneros, dia);
        form := form.(diasGeneros := FormArrayRemoveAt(form.diasGeneros, index));
      }
    }

    /** `onGenreSelected(event, dia, genero)`. Without a group for the day the
        handler fails on the missing group before changing anything
        (`failed`); otherwise the first group for the day gets its genres
        toggled. */
    method OnGenreSelected(checked: bool, dia: string, genero: string) returns (failed: bool)
      modifies this
      ensures failed <==> !IsDaySelected(old(form.diasGeneros), dia)
      ensures failed ==> form == old(form)
      ensures !failed ==>
                var i := DayIndex(old(form.diasGeneros), dia);
                form == old(form).(diasGeneros := old(form.diasGeneros)[i :=
                          DiaGenero(dia, GenresToggled(old(form.diasGeneros)[i].generos, genero, checked))])
      ensures diasAbiertos == old(diasAbiertos)
    {
      var i := DayIndex(form.diasGeneros, dia);
      if i == -1 {
        return true;
      }
      var gs := form.diasGeneros[i].generos;
      if checked {
        gs := gs + [genero];
      } else {
        var index := IndexOf(gs, genero);
        gs := FormArrayRemoveAt(gs, index);
      }
      form := form.(diasGeneros := form.diasGeneros[i := form.diasGeneros[i].(generos := gs)]);
      failed := false;
    }

    /** `handleAddSala()`: the form value is sent only when the form is valid. */
    method HandleAddSala(outcome: Outcome<()>) returns (sent: Option<SalaForm>, closed: bool)
      ensures FormValid(form) <==> sent.Some?
      ensures sent.Some? ==> sent.value == form
      ensures closed <==> FormValid(form) && outcome.Success?
    {
      if FormValid(form) {
        sent := Some(form);
        var result := salasService.Request(outcome);
        closed := result.Success?;
      } else {
        sent := None;
        closed := false;
      }
    }
  }
}
