/** The form that creates a workshop: six required fields, a 24-hour time
    pattern on `hora`, the submit guard and the error text of a control. */
module CreateTaller {
  import opened Common
  import opened Text
  import opened Forms
  import opened HttpErrors
  import opened Talleres

  datatype TallerForm = TallerForm(
    nombre: string,
    modalidad: string,
    profesores: string,
    fecha: string,
    hora: string,
    lugar: string)

  /** `/^([01]\d|2[0-3]):([0-5]\d)$/.test(s)`. */
  predicate HoraMatches(s: string) {
    && |s| == 5 && s[2] == ':'
    && ((('0' <= s[0] <= '1') && IsDigit(s[1])) || (s[0] == '2' && '0' <= s[1] <= '3'))
    && '0' <= s[3] <= '5' && IsDigit(s[4])
  }

  /** A time of day written HH:MM, hours and minutes with two digits each. */
  function HourMinute(h: nat, m: nat): (s: string)
    requires h < 100 && m < 100
    ensures |s| == 5 && s[2] == ':'
  {
    [Digit(h / 10), Digit(h % 10), ':', Digit(m / 10), Digit(m % 10)]
  }

  /** Every time of a 24-hour clock, written HH:MM, matches the pattern. */
  lemma TimeMatches(h: nat, m: nat)
    requires h < 24 && m < 60
    ensures HoraMatches(HourMinute(h, m))
  {
    assert h / 10 < 2 || (h / 10 == 2 && h % 10 < 4);
    assert m / 10 < 6;
  }

  /** Every string the pattern accepts is such a time. */
  lemma MatchIsTime(s: string) returns (h: nat, m: nat)
    requires HoraMatches(s)
    ensures h < 24 && m < 60 && s == HourMinute(h, m)
  {
    var a, b, c, d := DigitValue(s[0]), DigitValue(s[1]), DigitValue(s[3]), DigitValue(s[4]);
    h := a * 10 + b;
    m := c * 10 + d;
    assert h / 10 == a && h % 10 == b;
    assert m / 10 == c && m % 10 == d;
    assert s == [s[0], s[1], s[2], s[3], s[4]];
  }

  /** The pattern accepts exactly the times HH:MM of a 24-hour clock. */
  lemma HoraMatchesIff(s: string)
    ensures HoraMatches(s) <==> exists h: nat, m: nat :: h < 24 && m < 60 && s == HourMinute(h, m)
  {
    if HoraMatches(s) {
      var h, m := MatchIsTime(s);
    }
    if exists h: nat, m: nat :: h < 24 && m < 60 && s == HourMinute(h, m) {
      var h: nat, m: nat :| h < 24 && m < 60 && s == HourMinute(h, m);
      TimeMatches(h, m);
    }
  }

  /** The errors a control reports; only `hora` can have a pattern error. */
  datatype ControlErrors = ControlErrors(required: bool, pattern: bool)

  function TextErrors(v: string): ControlErrors {
    ControlErrors(RequiredError(v), false)
  }

  function HoraErrors(v: string): ControlErrors {
    ControlErrors(RequiredError(v), PatternError(v, HoraMatches(v)))
  }

  predicate NoErrors(e: ControlErrors) {
    !e.required && !e.pattern
  }

  /** `addTallerForm.valid`: every control free of errors, which comes down
      to six non-empty fields and a well-formed time. */
  function FormValid(f: TallerForm): (b: bool)
    ensures b <==> f.nombre != "" && f.modalidad != "" && f.profesores != ""
                   && f.fecha != "" && f.lugar != "" && HoraMatches(f.hora)
  {
    && NoErrors(TextErrors(f.nombre)) && NoErrors(TextErrors(f.modalidad))
    && NoErrors(TextErrors(f.profesores)) && NoErrors(TextErrors(f.fecha))
    && NoErrors(HoraErrors(f.hora)) && NoErrors(TextErrors(f.lugar))
  }

  /** `getErrorMessage(control)`: the pattern message overrides the required
      one, and a control without errors gets no text. */
  function ErrorMessage(e: ControlErrors): (m: string)
    ensures e.pattern ==> m == "Formato incorrecto"
    ensures !e.pattern && e.required ==> m == "Este campo es obligatorio"
    ensures !e.pattern && !e.required ==> m == ""
  {
    var message := if e.required then "Este campo es obligatorio" else "";
    if e.pattern then "Formato incorrecto" else message
  }

  /** On the time control the two errors never come together, so its message
      names the one error it has. */
  lemma HoraMessage(v: string)
    ensures !(HoraErrors(v).required && HoraErrors(v).pattern)
    ensures ErrorMessage(HoraErrors(v)) ==
              if v == "" then "Este campo es obligatorio"
              else if !HoraMatches(v) then "Formato incorrecto"
              else ""
  {
  }

  class CreateTallerComponent {
    var form: TallerForm
    const tallerService: TalleresService

    constructor (tallerService: TalleresService)
      ensures form == TallerForm("", "", "", "", "", "") && !FormValid(form)
      ensures this.tallerService == tallerService
    {
      form := TallerForm("", "", "", "", "", "");
      this.tallerService := tallerService;
    }

    /** `handleCreateTaller()`; `adjust` stands for the shift to local time
        and the cut to YYYY-MM-DD, None when `toISOString` throws on an
        invalid date. An invalid form sends nothing, and neither does a date
        that throws. A valid form always has a date, since it is required. */
    method HandleCreateTaller(adjust: string -> Option<string>, outcome: Outcome<()>)
      returns (sent: Option<TallerForm>, reply: Option<Reply<()>>)
      modifies this
      ensures !FormValid(old(form)) ==> sent.None? && reply.None? && form == old(form)
      ensures FormValid(old(form)) && adjust(old(form).fecha).None? ==>
                sent.None? && reply.None? && form == old(form)
      ensures FormValid(old(form)) && adjust(old(form).fecha).Some? ==>
                && form == old(form).(fecha := adjust(old(form).fecha).value)
                && sent == Some(form) && reply == Some(Handled(outcome))
    {
      sent, reply := None, None;
      if FormValid(form) {
        var fecha := form.fecha;
        if fecha != "" {
          var adjusted := adjust(fecha);
          if adjusted.None? {
            return;
          }
          form := form.(fecha := adjusted.value);
        }
        sent := Some(form);
        var r := tallerService.Request(outcome);
        reply := Some(r);
      }
    }
  }
}
