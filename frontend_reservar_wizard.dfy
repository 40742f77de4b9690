/**
 * The single-form booking page of frontend/app/reservar/page.tsx, which
 * talks to the Django API: the working-day test on the chosen date, the
 * working days derived from the schedule, and the form's change and
 * submit handlers over its React state (`formData`, `diasLaborales`,
 * `loading`, `message`).
 */
module FrontendReservarWizard {
  import opened Wrappers
  import opened Seqs
  import opened Text
  import opened Calendar
  import GestionSerializers
  import GestionCreate

  /** A schedule entry as the configuration endpoint returns it. */
  datatype ConfigEntry = ConfigEntry(diaSemana: int, activo: bool)

  /** `servicio_id`: `null`, the `NaN` of an unreadable number, or a number. */
  datatype ServicioSel = Null | NaN | Id(n: int)

  /** JavaScript truthiness of `servicio_id`: `null`, `NaN` and `0` are false. */
  predicate Chosen(s: ServicioSel)
  {
    s.Id? && s.n != 0
  }

  datatype FormData = FormData(
    clienteNombre: string,
    clienteEmail: string,
    clienteTelefono: string,
    servicioId: ServicioSel,
    fecha: string,
    horaInicio: string)

  const InitialForm := FormData("", "", "", Null, "", "")

  /** The form's inputs, by their `name`. */
  datatype Field = ServicioId | Fecha | HoraInicio | ClienteNombre | ClienteEmail | ClienteTelefono

  /**
   * How the two requests end: both succeed; one is answered 400 (with the
   * body's `non_field_errors`, if it has them); or any other failure.
   */
  datatype SubmitReply = Reservada | Rechazada400(nonFieldErrors: Option<seq<string>>) | OtroError

  const AvisoNoLaboral := "⚠️ El día seleccionado no es un día laboral. Por favor elige otro."
  const CamposObligatorios := "Error: Por favor, completa todos los campos obligatorios."
  const FechaNoLaboral := "Error: La fecha seleccionada no corresponde a un día de atención."
  const ReservaExitosa := "¡Cita reservada con éxito! Te esperamos."
  const ConflictoGenerico := "Conflicto de horario o datos inválidos."
  const ErrorAlReservar := "Error al reservar. Intenta nuevamente."
  const ErrorDeCarga := "Error: No se pudieron cargar los datos del servidor."

  /**
   * `diasLaborales`: the `dia_semana` of the active entries, in the order
   * the endpoint returns them.
   */
  function DiasLaborales(configs: seq<ConfigEntry>): (r: seq<int>)
    ensures var active := Filter(configs, (c: ConfigEntry) => c.activo);
      |r| == |active| && forall i :: 0 <= i < |r| ==> r[i] == active[i].diaSemana
  {
    if configs == [] then []
    else
      var rest := DiasLaborales(configs[1..]);
      if configs[0].activo then [configs[0].diaSemana] + rest else rest
  }

  /** A weekday is in `DiasLaborales` exactly when an active entry names it. */
  lemma DiasLaboralesMembers(configs: seq<ConfigEntry>, dia: int)
    ensures dia in DiasLaborales(configs) <==> exists c :: c in configs && c.activo && c.diaSemana == dia
  {
    var active := Filter(configs, (c: ConfigEntry) => c.activo);
    var r := DiasLaborales(configs);
    if dia in r {
      var i :| 0 <= i < |r| && r[i] == dia;
      assert active[i] in active;
    }
    if exists c :: c in configs && c.activo && c.diaSemana == dia {
      var c :| c in configs && c.activo && c.diaSemana == dia;
      assert c in active;
      var i :| 0 <= i < |active| && active[i] == c;
      assert r[i] == dia;
    }
  }

  /**
   * `esDiaLaboral`. `parsed` is the date `new Date(fecha + 'T00:00:00')`
   * denotes, `None` when it is an invalid date (whose `getDay()` is `NaN`,
   * which no weekday equals). The empty text is never a working day.
   */
  function EsDiaLaboral(fecha: string, parsed: Option<Date>, dias: seq<int>): (r: bool)
    ensures fecha == [] ==> !r
    ensures fecha != [] ==> (r <==> parsed.Some? && DiaSemana(JsGetDay(parsed.value)) in dias)
  {
    if fecha == [] then false
    else if parsed.None? then false
    else DiaSemana(JsGetDay(parsed.value)) in dias
  }

  /**
   * The remapped JavaScript weekday is the schedule's weekday: a date is
   * a working day exactly when an active entry has the date's Python
   * weekday, the numbering Django stores.
   */
  lemma WorkingDayMatchesSchedule(fecha: string, d: Date, configs: seq<ConfigEntry>)
    requires fecha != []
    ensures EsDiaLaboral(fecha, Some(d), DiasLaborales(configs)) <==>
      exists c :: c in configs && c.activo && c.diaSemana == PyWeekday(d)
  {
    DiaSemanaIsPyWeekday(d);
    DiasLaboralesMembers(configs, PyWeekday(d));
  }

  /** `value ? parseInt(value) : null`. */
  function ParseServicioId(value: string): ServicioSel
  {
    if value == [] then Null
    else match ParseInt(value)
      case None => NaN
      case Some(n) => Id(n)
  }

  /** The select's options carry the services' ids in decimal; reading one back gives the id. */
  lemma ParseServicioIdOfOption(id: nat)
    ensures ParseServicioId(DecimalString(id)) == Id(id)
  {
    ParseIntOfDecimal(id);
  }

  /** The message a 400 shows: the first non-field error when it is a non-empty text, else the generic one. */
  function RejectionMessage(nonFieldErrors: Option<seq<string>>): (r: string)
    ensures nonFieldErrors.Some? && nonFieldErrors.value != [] && nonFieldErrors.value[0] != [] ==>
      r == "Error: " + nonFieldErrors.value[0]
    ensures !(nonFieldErrors.Some? && nonFieldErrors.value != [] && nonFieldErrors.value[0] != []) ==>
      r == "Error: " + ConflictoGenerico
  {
    var detail :=
      if nonFieldErrors.Some? && nonFieldErrors.value != [] && nonFieldErrors.value[0] != [] then nonFieldErrors.value[0]
      else ConflictoGenerico;
    "Error: " + detail
  }

  /** How the booking view's answer reaches the page (the client request assumed to succeed). */
  function ReplyOf(resp: GestionCreate.CreateResponse): SubmitReply
  {
    match resp
    case Created(_) => Reservada
    case BadRequest(e) => if e.FieldErrors? then Rechazada400(None) else Rechazada400(Some(e.messages))
  }

  /**
   * Against the booking view, a taken slot shows the uniqueness message
   * itself, while a blacked-out date (a field error) shows only the
   * generic conflict message.
   */
  lemma MessagesForBookingErrors(fields: seq<GestionSerializers.FieldError>)
    ensures RejectionMessage(ReplyOf(GestionCreate.BadRequest(GestionSerializers.NonFieldErrors([GestionSerializers.MensajeNoUnico]))).nonFieldErrors)
      == "Error: " + GestionSerializers.MensajeNoUnico
    ensures RejectionMessage(ReplyOf(GestionCreate.BadRequest(GestionSerializers.FieldErrors(fields))).nonFieldErrors)
      == "Error: " + ConflictoGenerico
  {
  }

  /** What `handleSubmit` requires before sending anything. */
  predicate Complete(f: FormData)
  {
    Chosen(f.servicioId) && f.clienteNombre != [] && f.clienteEmail != [] && f.fecha != []
  }

  class Reservar {
    var form: FormData
    var diasLaborales: seq<int>
    var loading: bool
    var message: string

    constructor ()
      ensures form == InitialForm && diasLaborales == [] && !loading && message == []
    {
      form := InitialForm;
      diasLaborales := [];
      loading := false;
      message := [];
    }

    /** The loading effect: the working days from the schedule, or the load error. */
    method LoadConfig(configs: Option<seq<ConfigEntry>>)
      modifies this
      ensures configs.Some? ==> diasLaborales == DiasLaborales(configs.value) && message == old(message)
      ensures configs.None? ==> diasLaborales == old(diasLaborales) && message == ErrorDeCarga
      ensures form == old(form) && loading == old(loading)
    {
      if configs.Some? {
        diasLaborales := DiasLaborales(configs.value);
      } else {
        message := ErrorDeCarga;
      }
    }

    /**
     * `handleChange`. `parsed` is what the new value denotes as a date
     * (read only for the date field): a non-working date is kept, with a
     * warning.
     */
    method HandleChange(field: Field, value: string, parsed: Option<Date>)
      modifies this
      ensures field == ServicioId ==> form == old(form).(servicioId := ParseServicioId(value))
      ensures field == Fecha ==> form == old(form).(fecha := value)
      ensures field == HoraInicio ==> form == old(form).(horaInicio := value)
      ensures field == ClienteNombre ==> form == old(form).(clienteNombre := value)
      ensures field == ClienteEmail ==> form == old(form).(clienteEmail := value)
      ensures field == ClienteTelefono ==> form == old(form).(clienteTelefono := value)
      ensures field == Fecha ==>
        message == (if EsDiaLaboral(value, parsed, diasLaborales) then [] else AvisoNoLaboral)
      ensures field != Fecha ==> message == old(message)
      ensures diasLaborales == old(diasLaborales) && loading == old(loading)
    {
      match field
      case ServicioId =>
        form := form.(servicioId := ParseServicioId(value));
      case Fecha =>
        message := if EsDiaLaboral(value, parsed, diasLaborales) then [] else AvisoNoLaboral;
        form := form.(fecha := value);
      case HoraInicio =>
        form := form.(horaInicio := value);
      case ClienteNombre =>
        form := form.(clienteNombre := value);
      case ClienteEmail =>
        form := form.(clienteEmail := value);
      case ClienteTelefono =>
        form := form.(clienteTelefono := value);
    }

    /**
     * `handleSubmit`. `parsedFecha` is what `formData.fecha` denotes as a
     * date. The requests are sent exactly when the service, name, e-mail
     * and date are filled in and the date is a working day (the time and
     * the phone are not checked); success resets the form.
     */
    method HandleSubmit(parsedFecha: Option<Date>, reply: SubmitReply) returns (sent: bool)
      modifies this
      ensures sent <==> Complete(old(form)) && EsDiaLaboral(old(form).fecha, parsedFecha, diasLaborales)
      ensures !Complete(old(form)) ==> message == CamposObligatorios && form == old(form)
      ensures Complete(old(form)) && !sent ==> message == FechaNoLaboral && form == old(form)
      ensures sent && reply.Reservada? ==> message == ReservaExitosa && form == InitialForm
      ensures sent && reply.Rechazada400? ==> message == RejectionMessage(reply.nonFieldErrors) && form == old(form)
      ensures sent && reply.OtroError? ==> message == ErrorAlReservar && form == old(form)
      ensures !loading && diasLaborales == old(diasLaborales)
    {
      loading := true;
      message := [];
      if !Complete(form) {
        message := CamposObligatorios;
        loading := false;
        return false;
      }
      if !EsDiaLaboral(form.fecha, parsedFecha, diasLaborales) {
        message := FechaNoLaboral;
        loading := false;
        return false;
      }
      sent := true;
      match reply {
        case Reservada =>
          message := ReservaExitosa;
          form := InitialForm;
        case Rechazada400(nonFieldErrors) =>
          message := RejectionMessage(nonFieldErrors);
        case OtroError =>
          message := ErrorAlReservar;
      }
      loading := false;
    }
  }
}
