/**
 * `CitaViewSet.create` of backend/gestion/views.py: validate, save the
 * appointment with the model's default status, then try both
 * notification e-mails; a failing e-mail is only logged.
 */
module GestionCreate {
  import opened Wrappers
  import opened Calendar
  import opened Agenda
  import opened GestionModels
  import opened GestionSerializers

  datatype CreateResponse =
    | Created(cita: CitaRecord)        // 201 with the serialized appointment
    | BadRequest(error: ValidationError) // 400 raised by `is_valid`

  /** The response and the table after the request. */
  datatype Outcome = Outcome(resp: CreateResponse, citas: seq<CitaRecord>)

  /** The row `perform_create` saves. */
  function Saved(data: ValidatedCita, id: int): CitaRecord
  {
    CitaRecord(id, data.cliente, data.servicio, data.fecha, data.horaInicio, DefaultEstado)
  }

  /** The view on a table of appointments; `newId` is the key the database assigns. */
  function CreateOutcome(input: CitaInput, clienteIds: seq<int>, servicioIds: seq<int>, bloqueos: seq<BloqueoRecord>, newId: int, citas: seq<CitaRecord>): Outcome
  {
    match Validate(input, clienteIds, servicioIds, bloqueos, citas)
    case Invalid(e) => Outcome(BadRequest(e), citas)
    case Valid(data) => Outcome(Created(Saved(data, newId)), citas + [Saved(data, newId)])
  }

  /**
   * The view books a request exactly when both keys exist, the date is
   * not blacked out and no appointment of any status holds the slot; the
   * booking carries the submitted fields and status Pendiente (whatever
   * status was sent), it is the only row added, and `unique_together`
   * still holds afterwards. A refused request changes nothing.
   */
  lemma CreateMeetsConstraints(input: CitaInput, clienteIds: seq<int>, servicioIds: seq<int>, bloqueos: seq<BloqueoRecord>, newId: int, citas: seq<CitaRecord>)
    requires UniqueTogether(citas)
    ensures var o := CreateOutcome(input, clienteIds, servicioIds, bloqueos, newId, citas);
      && UniqueTogether(o.citas)
      && (o.resp.Created? <==>
            && input.cliente.Some? && input.cliente.value in clienteIds
            && input.servicio.Some? && input.servicio.value in servicioIds
            && input.fecha.Some? && !(exists b :: b in bloqueos && b.fecha == input.fecha.value)
            && input.horaInicio.Some?
            && !SlotTaken(citas, input.fecha.value, input.horaInicio.value))
      && (o.resp.Created? ==>
            && o.resp.cita == CitaRecord(newId, input.cliente.value, input.servicio.value, input.fecha.value, input.horaInicio.value, Pendiente)
            && o.citas == citas + [o.resp.cita])
      && (o.resp.BadRequest? ==> o.citas == citas)
  {
    var o := CreateOutcome(input, clienteIds, servicioIds, bloqueos, newId, citas);
    if o.resp.Created? {
      var all := o.citas;
      forall i, j | 0 <= i < j < |all|
        ensures all[i].fecha != all[j].fecha || all[i].horaInicio != all[j].horaInicio
      {
        if j == |citas| {
          assert all[i] in citas;
        }
      }
    }
  }

  /**
   * A slot whose appointment was cancelled stays taken: the view refuses
   * it with the `unique_together` error.
   */
  lemma CancelledSlotStaysTaken(input: CitaInput, clienteIds: seq<int>, servicioIds: seq<int>, bloqueos: seq<BloqueoRecord>, newId: int, cancelled: CitaRecord)
    requires input.cliente.Some? && input.cliente.value in clienteIds
    requires input.servicio.Some? && input.servicio.value in servicioIds
    requires input.fecha.Some? && !(exists b :: b in bloqueos && b.fecha == input.fecha.value)
    requires input.horaInicio.Some?
    requires cancelled.estado == Cancelada
    requires cancelled.fecha == input.fecha.value && cancelled.horaInicio == input.horaInicio.value
    ensures CreateOutcome(input, clienteIds, servicioIds, bloqueos, newId, [cancelled]).resp ==
      BadRequest(NonFieldErrors([MensajeNoUnico]))
  {
    assert cancelled in [cancelled];
  }

  class CitaViewSet {
    var citas: seq<CitaRecord>

    constructor (initial: seq<CitaRecord>)
      ensures citas == initial
    {
      citas := initial;
    }

    /**
     * `create`. `emailFails` says whether `send_mail` (or the client
     * lookup before it) raises; the handler catches it, so the 201 stands.
     */
    method Create(input: CitaInput, clienteIds: seq<int>, servicioIds: seq<int>, bloqueos: seq<BloqueoRecord>, newId: int, emailFails: bool)
      returns (resp: CreateResponse)
      modifies this
      ensures Outcome(resp, citas) == CreateOutcome(input, clienteIds, servicioIds, bloqueos, newId, old(citas))
    {
      var validation := Validate(input, clienteIds, servicioIds, bloqueos, citas);
      if validation.Invalid? {
        return BadRequest(validation.error);
      }
      var cita := Saved(validation.data, newId);
      citas := citas + [cita];
      // The e-mails are sent inside a try whose except only logs, so
      // `emailFails` never reaches the response.
      return Created(cita);
    }
  }
}
