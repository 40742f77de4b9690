/**
 * The booking wizard of app/reservar/page.tsx: step 1 picks a service,
 * step 2 a date and a free slot, step 3 the client's details, step 4
 * confirms. Its React state (`step`, `formData`, `slots`, `loading`) is
 * the state of a `Reservar` object; the toasts it shows are returned.
 */
module ReservarWizard {
  import opened Wrappers
  import opened Text

  /** `formData`. */
  datatype FormData = FormData(
    clienteNombre: string,
    clienteEmail: string,
    clienteTelefono: string,
    servicioId: Option<string>,
    fecha: string,
    horaInicio: string)

  const InitialForm := FormData("", "", "", None, "", "")

  /** The fields the client-data step edits through `handleInputChange`. */
  datatype ClientField = ClienteNombre | ClienteEmail | ClienteTelefono

  /** What the availability request brings back: the body's `horarios` (if any), or a failure. */
  datatype SlotsReply = SlotsBody(horarios: Option<seq<string>>) | SlotsFailed

  /**
   * How the two booking requests end: both succeed, or one throws, with
   * the `error` field of the server's answer when there is one.
   */
  datatype SubmitReply = Booked | Rejected(error: Option<string>)

  /** The data the two requests carry (client find-or-create, then the booking). */
  datatype BookingRequest = BookingRequest(
    nombre: string, email: string, telefono: string,
    servicioId: Option<string>, fecha: string, horaInicio: string)

  const NombreObligatorio := "El nombre completo es obligatorio."
  const EmailObligatorio := "El email es obligatorio."
  const TelefonoObligatorio := "El teléfono de WhatsApp es obligatorio."
  const ReservaExitosa := "¡Cita reservada con éxito!"
  const ErrorGenerico := "Error al procesar la reserva."

  /** A field the form treats as empty: nothing but white space. */
  predicate Blank(s: string)
  {
    forall k :: 0 <= k < |s| ==> IsSpace(s[k])
  }

  /** A field trims to nothing exactly when it is blank. */
  lemma TrimmedEmptyIsBlank(s: string)
    ensures Trim(s) == [] <==> Blank(s)
  {
    TrimSpec(s);
  }

  /** The submit checks: the message of the first field that is nothing but white space, if any. */
  function MissingField(f: FormData): Option<string>
  {
    if Blank(f.clienteNombre) then Some(NombreObligatorio)
    else if Blank(f.clienteEmail) then Some(EmailObligatorio)
    else if Blank(f.clienteTelefono) then Some(TelefonoObligatorio)
    else None
  }

  /**
   * The page tests `trim()` of name, then e-mail, then phone against the
   * empty text: the first that trims to nothing gives the message, and the
   * submit goes ahead exactly when all three keep something after trimming.
   */
  lemma MissingFieldOrder(f: FormData)
    ensures MissingField(f).None? <==>
      Trim(f.clienteNombre) != [] && Trim(f.clienteEmail) != [] && Trim(f.clienteTelefono) != []
    ensures Trim(f.clienteNombre) == [] ==> MissingField(f) == Some(NombreObligatorio)
    ensures Trim(f.clienteNombre) != [] && Trim(f.clienteEmail) == [] ==> MissingField(f) == Some(EmailObligatorio)
    ensures Trim(f.clienteNombre) != [] && Trim(f.clienteEmail) != [] && Trim(f.clienteTelefono) == [] ==>
      MissingField(f) == Some(TelefonoObligatorio)
  {
    TrimmedEmptyIsBlank(f.clienteNombre);
    TrimmedEmptyIsBlank(f.clienteEmail);
    TrimmedEmptyIsBlank(f.clienteTelefono);
  }

  /** The toast after a failed submit: the server's `error` when it is a non-empty text, else the generic one. */
  function FailureMessage(error: Option<string>): (r: string)
    ensures r != []
    ensures error.Some? && error.value != [] ==> r == error.value
    ensures error.None? || error.value == [] ==> r == ErrorGenerico
  {
    if error.Some? && error.value != [] then error.value else ErrorGenerico
  }

  /** The availability request is made only when both a date and a service are chosen. */
  predicate FetchesSlots(f: FormData)
  {
    f.fecha != "" && f.servicioId.Some? && f.servicioId.value != ""
  }

  function RequestOf(f: FormData): BookingRequest
  {
    BookingRequest(f.clienteNombre, f.clienteEmail, f.clienteTelefono, f.servicioId, f.fecha, f.horaInicio)
  }

  class Reservar {
    var step: int
    var form: FormData
    var slots: seq<string>
    var loading: bool

    /**
     * The steps are reached in order: from step 2 on a service is chosen,
     * from step 3 on a date and a slot too.
     */
    predicate Valid()
      reads this
    {
      && 1 <= step <= 4
      && (step >= 2 ==> form.servicioId.Some?)
      && (step >= 3 ==> form.fecha != "" && form.horaInicio != "")
    }

    constructor ()
      ensures step == 1 && form == InitialForm && slots == [] && !loading
      ensures Valid()
    {
      step := 1;
      form := InitialForm;
      slots := [];
      loading := false;
    }

    /** `handleServiceSelect`: choose the service, forget the slot, go to step 2. */
    method HandleServiceSelect(id: string)
      modifies this
      ensures form == old(form).(servicioId := Some(id), horaInicio := "")
      ensures step == 2 && slots == old(slots) && loading == old(loading)
      ensures Valid()
    {
      form := form.(servicioId := Some(id), horaInicio := "");
      step := 2;
    }

    /** `handleNextStep`: step 2 moves on only with a date and a slot; any other step moves on. */
    method HandleNextStep()
      modifies this
      ensures old(step) == 2 && (form.fecha == "" || form.horaInicio == "") ==> step == old(step)
      ensures !(old(step) == 2 && (form.fecha == "" || form.horaInicio == "")) ==> step == old(step) + 1
      ensures form == old(form) && slots == old(slots) && loading == old(loading)
      ensures old(Valid()) && old(step) == 2 ==> Valid()
    {
      if step == 2 && (form.fecha == "" || form.horaInicio == "") {
        return;
      }
      step := step + 1;
    }

    /** The back buttons of steps 2 and 3. */
    method Back()
      requires step == 2 || step == 3
      modifies this
      ensures step == old(step) - 1
      ensures form == old(form) && slots == old(slots) && loading == old(loading)
      ensures old(Valid()) ==> Valid()
    {
      step := step - 1;
    }

    /** The date picker: a new date forgets the chosen slot. */
    method DateChange(fecha: string)
      modifies this
      ensures form == old(form).(fecha := fecha, horaInicio := "")
      ensures step == old(step) && slots == old(slots) && loading == old(loading)
      ensures old(Valid()) && step <= 2 ==> Valid()
    {
      form := form.(fecha := fecha, horaInicio := "");
    }

    /** A slot button: only the start time changes. */
    method SlotSelect(hora: string)
      modifies this
      ensures form == old(form).(horaInicio := hora)
      ensures step == old(step) && slots == old(slots) && loading == old(loading)
      ensures old(Valid()) && step <= 2 ==> Valid()
    {
      form := form.(horaInicio := hora);
    }

    /** `handleInputChange` from the client-data step. */
    method HandleInputChange(field: ClientField, value: string)
      modifies this
      ensures field == ClienteNombre ==> form == old(form).(clienteNombre := value)
      ensures field == ClienteEmail ==> form == old(form).(clienteEmail := value)
      ensures field == ClienteTelefono ==> form == old(form).(clienteTelefono := value)
      ensures step == old(step) && slots == old(slots) && loading == old(loading)
      ensures old(Valid()) ==> Valid()
    {
      match field
      case ClienteNombre => form := form.(clienteNombre := value);
      case ClienteEmail => form := form.(clienteEmail := value);
      case ClienteTelefono => form := form.(clienteTelefono := value);
    }

    /**
     * The slot-loading effect: without a date and a service nothing is
     * requested; a missing `horarios` becomes the empty list; a failed
     * request keeps the old list.
     */
    method LoadSlots(reply: SlotsReply)
      modifies this
      ensures !FetchesSlots(form) ==> slots == old(slots)
      ensures FetchesSlots(form) && reply.SlotsBody? ==>
        slots == (if reply.horarios.Some? then reply.horarios.value else [])
      ensures FetchesSlots(form) && reply.SlotsFailed? ==> slots == old(slots)
      ensures form == old(form) && step == old(step) && loading == old(loading)
    {
      if FetchesSlots(form) {
        if reply.SlotsBody? {
          slots := if reply.horarios.Some? then reply.horarios.value else [];
        }
      }
    }

    /**
     * `handleSubmit`. A blank field stops it with that field's message and
     * no request; otherwise the requests go out with the form's data, and
     * the wizard moves to step 4 on success or shows the failure message.
     * From step 3 a request always carries a service, a date and a slot.
     */
    method HandleSubmit(reply: SubmitReply) returns (toast: string, sent: Option<BookingRequest>)
      modifies this
      ensures MissingField(old(form)).Some? ==>
        toast == MissingField(old(form)).value && sent.None? && step == old(step) && loading == old(loading)
      ensures MissingField(old(form)).None? ==> sent == Some(RequestOf(old(form))) && !loading
      ensures MissingField(old(form)).None? && reply.Booked? ==> step == 4 && toast == ReservaExitosa
      ensures MissingField(old(form)).None? && reply.Rejected? ==> step == old(step) && toast == FailureMessage(reply.error)
      ensures form == old(form) && slots == old(slots)
      ensures old(Valid()) && old(step) == 3 ==> Valid()
      ensures old(Valid()) && old(step) == 3 && sent.Some? ==>
        sent.value.servicioId.Some? && sent.value.fecha != "" && sent.value.horaInicio != ""
    {
      var missing := MissingField(form);
      if missing.Some? {
        return missing.value, None;
      }
      loading := true;
      sent := Some(RequestOf(form));
      if reply.Booked? {
        toast := ReservaExitosa;
        step := 4;
      } else {
        toast := FailureMessage(reply.error);
      }
      loading := false;
    }
  }
}
