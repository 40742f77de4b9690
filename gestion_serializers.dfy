/**
 * `CitaSerializer` of backend/gestion/serializers.py as it validates a
 * booking: each writable field on its own (the two foreign keys, the
 * date with its blackout veto, the time), then, only when every field
 * passed, the `unique_together` validator the model's `Meta` brings in.
 * `estado` is read-only and never read from the input.
 */
module GestionSerializers {
  import opened Wrappers
  import opened Seqs
  import opened Calendar
  import opened GestionModels

  /**
   * The submitted data. `fecha` and `horaInicio` carry the field parsers'
   * results (`None`: missing or not a date / time); `estado` is whatever
   * the client sent.
   */
  datatype CitaInput = CitaInput(
    cliente: Option<int>,
    servicio: Option<int>,
    fecha: Option<Date>,
    horaInicio: Option<int>,
    estado: Option<char>)

  /** The field whose validation failed. */
  datatype FieldError =
    | ClienteInvalido   // missing, or no `Cliente` with that key
    | ServicioInvalido  // missing, or no `Servicio` with that key
    | FechaInvalida     // missing, or not a date
    | FechaBloqueada    // raised by `validate_fecha`
    | HoraInvalida      // missing, or not a time

  /** Why `is_valid` failed: per-field errors, or the non-field errors of the object validators. */
  datatype ValidationError =
    | FieldErrors(fields: seq<FieldError>)
    | NonFieldErrors(messages: seq<string>)

  /** The data `is_valid` hands to `save`. */
  datatype ValidatedCita = ValidatedCita(cliente: int, servicio: int, fecha: Date, horaInicio: int)

  datatype Validation = Valid(data: ValidatedCita) | Invalid(error: ValidationError)

  const MensajeBloqueo := "La fecha seleccionada ha sido marcada como no disponible por el gabinete."

  /** The message of the `unique_together` validator. */
  const MensajeNoUnico := "The fields fecha, hora_inicio must make a unique set."

  datatype FechaCheck = FechaOk(fecha: Date) | FechaRechazada(mensaje: string)

  /** `validate_fecha`: the date unchanged, unless a blackout row exists for it. */
  function ValidateFecha(value: Date, bloqueos: seq<BloqueoRecord>): (r: FechaCheck)
    ensures r.FechaRechazada? <==> exists b :: b in bloqueos && b.fecha == value
    ensures r.FechaRechazada? ==> r.mensaje == MensajeBloqueo
    ensures r.FechaOk? ==> r.fecha == value
  {
    if |Filter(bloqueos, (b: BloqueoRecord) => b.fecha == value)| > 0 then
      assert Filter(bloqueos, (b: BloqueoRecord) => b.fecha == value)[0] in bloqueos;
      FechaRechazada(MensajeBloqueo)
    else FechaOk(value)
  }

  /**
   * The field errors, in the serializer's field order. A field appears
   * exactly when its own check fails; the date is vetoed only when it
   * parsed.
   */
  function FieldErrorsOf(input: CitaInput, clienteIds: seq<int>, servicioIds: seq<int>, bloqueos: seq<BloqueoRecord>): (r: seq<FieldError>)
    ensures ClienteInvalido in r <==> input.cliente.None? || input.cliente.value !in clienteIds
    ensures ServicioInvalido in r <==> input.servicio.None? || input.servicio.value !in servicioIds
    ensures FechaInvalida in r <==> input.fecha.None?
    ensures FechaBloqueada in r <==> input.fecha.Some? && ValidateFecha(input.fecha.value, bloqueos).FechaRechazada?
    ensures HoraInvalida in r <==> input.horaInicio.None?
    ensures |r| <= 4
  {
    (if input.cliente.None? || input.cliente.value !in clienteIds then [ClienteInvalido] else [])
    + (if input.servicio.None? || input.servicio.value !in servicioIds then [ServicioInvalido] else [])
    + (if input.fecha.None? then [FechaInvalida]
       else if ValidateFecha(input.fecha.value, bloqueos).FechaRechazada? then [FechaBloqueada]
       else [])
    + (if input.horaInicio.None? then [HoraInvalida] else [])
  }

  /** An appointment of any status already holds the date and time. */
  predicate SlotTaken(citas: seq<CitaRecord>, fecha: Date, hora: int)
  {
    exists c :: c in citas && c.fecha == fecha && c.horaInicio == hora
  }

  /**
   * `is_valid()`: the field errors if any; else the `unique_together`
   * error if an appointment of any status holds the slot; else the
   * validated data, in which the submitted `estado` has no place.
   */
  function Validate(input: CitaInput, clienteIds: seq<int>, servicioIds: seq<int>, bloqueos: seq<BloqueoRecord>, citas: seq<CitaRecord>): (r: Validation)
    ensures r.Valid? <==>
      && input.cliente.Some? && input.cliente.value in clienteIds
      && input.servicio.Some? && input.servicio.value in servicioIds
      && input.fecha.Some? && !(exists b :: b in bloqueos && b.fecha == input.fecha.value)
      && input.horaInicio.Some?
      && !SlotTaken(citas, input.fecha.value, input.horaInicio.value)
    ensures r.Valid? ==> r.data == ValidatedCita(input.cliente.value, input.servicio.value, input.fecha.value, input.horaInicio.value)
    ensures r.Invalid? && r.error.NonFieldErrors? ==> r.error.messages == [MensajeNoUnico]
    ensures r.Invalid? && r.error.FieldErrors? ==> r.error.fields != []
  {
    var errors := FieldErrorsOf(input, clienteIds, servicioIds, bloqueos);
    if errors != [] then Invalid(FieldErrors(errors))
    else if SlotTaken(citas, input.fecha.value, input.horaInicio.value) then Invalid(NonFieldErrors([MensajeNoUnico]))
    else Valid(ValidatedCita(input.cliente.value, input.servicio.value, input.fecha.value, input.horaInicio.value))
  }

  /**
   * A blacked-out date is refused with the date's own error, whatever
   * else is wrong, before any uniqueness check.
   */
  lemma BlackoutIsAFieldError(input: CitaInput, clienteIds: seq<int>, servicioIds: seq<int>, bloqueos: seq<BloqueoRecord>, citas: seq<CitaRecord>)
    requires input.fecha.Some? && exists b :: b in bloqueos && b.fecha == input.fecha.value
    ensures var r := Validate(input, clienteIds, servicioIds, bloqueos, citas);
      r.Invalid? && r.error.FieldErrors? && FechaBloqueada in r.error.fields
  {
  }

  /** The submitted `estado` never changes the outcome: the field is read-only. */
  lemma EstadoIsReadOnly(input: CitaInput, estado: Option<char>, clienteIds: seq<int>, servicioIds: seq<int>, bloqueos: seq<BloqueoRecord>, citas: seq<CitaRecord>)
    ensures Validate(input, clienteIds, servicioIds, bloqueos, citas) ==
      Validate(input.(estado := estado), clienteIds, servicioIds, bloqueos, citas)
  {
  }
}
