/**
 * `POST` of frontend/app/api/citas/route.ts on the Prisma `cita` table,
 * whose `(fecha, hora_inicio)` pair is a unique key: look the slot up by
 * that key, refuse it if the row found is not cancelled, else create.
 */
module FrontendCitasRoute {
  import opened Wrappers
  import opened Seqs
  import opened Calendar
  import opened Agenda

  /**
   * The body's fields; `None` is a missing field. `fecha` carries the
   * result of `new Date(fecha)`: `None` also when the text is no date.
   */
  datatype CitaBody = CitaBody(
    cliente: Option<string>,
    servicio: Option<string>,
    fecha: Option<Date>,
    horaInicio: Option<string>,
    notas: Option<string>)

  /** One `cita` row. */
  datatype CitaRow = CitaRow(
    id: string,
    clienteId: string,
    servicioId: string,
    fecha: Date,
    horaInicio: string,
    notas: Option<string>,
    estado: Estado)

  datatype CitaResponse =
    | Created(cita: CitaRow)   // 201
    | HorarioNoDisponible      // 400 'El horario ya no está disponible'
    | ErrorAlCrear             // 500 'Error al crear la cita'

  /** The response and the table after the request. */
  datatype Outcome = Outcome(resp: CitaResponse, rows: seq<CitaRow>)

  predicate AtSlot(r: CitaRow, fecha: Date, hora: string)
  {
    r.fecha == fecha && r.horaInicio == hora
  }

  /** The `@@unique([fecha, hora_inicio])` constraint: no two rows share the pair, whatever their status. */
  predicate UniqueSlots(rows: seq<CitaRow>)
  {
    forall i, j :: 0 <= i < j < |rows| ==>
      rows[i].fecha != rows[j].fecha || rows[i].horaInicio != rows[j].horaInicio
  }

  /** No two non-cancelled rows share the pair. */
  predicate NoDoubleBooking(rows: seq<CitaRow>)
  {
    forall i, j :: 0 <= i < j < |rows| && rows[i].estado != Cancelada && rows[j].estado != Cancelada ==>
      rows[i].fecha != rows[j].fecha || rows[i].horaInicio != rows[j].horaInicio
  }

  /** `findUnique({ where: { fecha_hora_inicio } })`. */
  function Existing(rows: seq<CitaRow>, fecha: Date, hora: string): Option<CitaRow>
  {
    Find(rows, (r: CitaRow) => AtSlot(r, fecha, hora))
  }

  /** The row `create` builds: the submitted fields, the table's default status. */
  function NewRow(b: CitaBody, id: string): CitaRow
    requires b.cliente.Some? && b.servicio.Some? && b.fecha.Some? && b.horaInicio.Some?
  {
    CitaRow(id, b.cliente.value, b.servicio.value, b.fecha.value, b.horaInicio.value, b.notas, DefaultEstado)
  }

  /**
   * The handler as written. `request` is the parsed JSON (`None`: not
   * JSON), `newId` the generated id, `createFault` any other failure of
   * `create` (a foreign key to no row). A missing date or time makes
   * `findUnique` throw; a missing client or service makes `create` throw;
   * and `create` throws on a pair that is already in the table.
   */
  function PostOutcome(request: Option<CitaBody>, newId: string, createFault: bool, rows: seq<CitaRow>): Outcome
  {
    if request.None? then Outcome(ErrorAlCrear, rows)
    else
      var b := request.value;
      if b.fecha.None? || b.horaInicio.None? then Outcome(ErrorAlCrear, rows)
      else
        var existente := Existing(rows, b.fecha.value, b.horaInicio.value);
        if existente.Some? && existente.value.estado != Cancelada then Outcome(HorarioNoDisponible, rows)
        else if b.cliente.None? || b.servicio.None? then Outcome(ErrorAlCrear, rows)
        else if existente.Some? || createFault then Outcome(ErrorAlCrear, rows)
        else Outcome(Created(NewRow(b, newId)), rows + [NewRow(b, newId)])
  }

  /** Appending a row whose pair is not in the table keeps the pairs unique. */
  lemma AppendNewSlot(rows: seq<CitaRow>, row: CitaRow)
    requires UniqueSlots(rows)
    requires Existing(rows, row.fecha, row.horaInicio).None?
    ensures UniqueSlots(rows + [row])
  {
    var all := rows + [row];
    forall i, j | 0 <= i < j < |all|
      ensures all[i].fecha != all[j].fecha || all[i].horaInicio != all[j].horaInicio
    {
      if j == |rows| {
        assert all[i] in rows;
      }
    }
  }

  /**
   * Against a table that keeps its unique key, the handler refuses with
   * 400 exactly when a non-cancelled row holds the pair, creates exactly
   * the submitted row as Pendiente otherwise (unless something throws),
   * and leaves the key unique.
   */
  lemma PostMeetsGuard(request: Option<CitaBody>, newId: string, createFault: bool, rows: seq<CitaRow>)
    requires UniqueSlots(rows)
    ensures var o := PostOutcome(request, newId, createFault, rows);
      && UniqueSlots(o.rows)
      && (o.resp == HorarioNoDisponible <==>
            request.Some? && request.value.fecha.Some? && request.value.horaInicio.Some? &&
            exists r :: r in rows && AtSlot(r, request.value.fecha.value, request.value.horaInicio.value) && r.estado != Cancelada)
      && (o.resp.Created? ==>
            request.Some? && o.resp.cita == NewRow(request.value, newId) && o.resp.cita.estado == Pendiente &&
            o.rows == rows + [o.resp.cita])
      && (request.Some? && request.value.cliente.Some? && request.value.servicio.Some? &&
          request.value.fecha.Some? && request.value.horaInicio.Some? &&
          Existing(rows, request.value.fecha.value, request.value.horaInicio.value).None? && !createFault ==>
            o.resp == Created(NewRow(request.value, newId)) && o.rows == rows + [NewRow(request.value, newId)])
      && (!o.resp.Created? ==> o.rows == rows)
  {
    if request.Some? && request.value.fecha.Some? && request.value.horaInicio.Some? {
      var b := request.value;
      var fecha, hora := b.fecha.value, b.horaInicio.value;
      var existente := Existing(rows, fecha, hora);
      if existente.Some? {
        forall r | r in rows && AtSlot(r, fecha, hora)
          ensures r == existente.value
        {
          var i :| 0 <= i < |rows| && rows[i] == r;
          var j :| 0 <= j < |rows| && rows[j] == existente.value;
          assert i == j;
        }
      }
      if b.cliente.Some? && b.servicio.Some? && existente.None? && !createFault {
        AppendNewSlot(rows, NewRow(b, newId));
      }
    }
  }

  /**
   * The pair a cancelled appointment leaves behind can never be booked
   * again: the guard lets the request through, and `create` then breaks
   * the unique key and the handler answers 500.
   */
  lemma CancelledSlotCannotBeRebooked(b: CitaBody, newId: string, createFault: bool, cancelled: CitaRow)
    requires b.cliente.Some? && b.servicio.Some? && b.fecha.Some? && b.horaInicio.Some?
    requires cancelled.fecha == b.fecha.value && cancelled.horaInicio == b.horaInicio.value && cancelled.estado == Cancelada
    ensures PostOutcome(Some(b), newId, createFault, [cancelled]).resp == ErrorAlCrear
  {
  }

  /**
   * What the guard evidently means: only a non-cancelled row holds a
   * pair, so the lookup and the uniqueness both ignore cancelled rows.
   */
  function PostOutcomeCorrected(request: Option<CitaBody>, newId: string, createFault: bool, rows: seq<CitaRow>): Outcome
  {
    if request.None? then Outcome(ErrorAlCrear, rows)
    else
      var b := request.value;
      if b.fecha.None? || b.horaInicio.None? then Outcome(ErrorAlCrear, rows)
      else
        var activa := Find(rows, (r: CitaRow) => AtSlot(r, b.fecha.value, b.horaInicio.value) && r.estado != Cancelada);
        if activa.Some? then Outcome(HorarioNoDisponible, rows)
        else if b.cliente.None? || b.servicio.None? || createFault then Outcome(ErrorAlCrear, rows)
        else Outcome(Created(NewRow(b, newId)), rows + [NewRow(b, newId)])
  }

  /**
   * The corrected handler books a complete request exactly when no
   * non-cancelled row holds the pair (a cancelled one does not), refuses
   * it otherwise, and never creates a double booking.
   */
  lemma CorrectedRebooksCancelledSlots(b: CitaBody, newId: string, rows: seq<CitaRow>)
    requires b.cliente.Some? && b.servicio.Some? && b.fecha.Some? && b.horaInicio.Some?
    requires NoDoubleBooking(rows)
    ensures var o := PostOutcomeCorrected(Some(b), newId, false, rows);
      && (o.resp == Created(NewRow(b, newId)) <==>
            forall r :: r in rows && AtSlot(r, b.fecha.value, b.horaInicio.value) ==> r.estado == Cancelada)
      && (o.resp.Created? || o.resp == HorarioNoDisponible)
      && NoDoubleBooking(o.rows)
  {
    var fecha, hora := b.fecha.value, b.horaInicio.value;
    var o := PostOutcomeCorrected(Some(b), newId, false, rows);
    if o.resp.Created? {
      var all := rows + [NewRow(b, newId)];
      forall i, j | 0 <= i < j < |all| && all[i].estado != Cancelada && all[j].estado != Cancelada
        ensures all[i].fecha != all[j].fecha || all[i].horaInicio != all[j].horaInicio
      {
        if j == |rows| {
          assert all[i] in rows;
        }
      }
    }
  }

  class CitasTable {
    var rows: seq<CitaRow>

    constructor (initial: seq<CitaRow>)
      ensures rows == initial
    {
      rows := initial;
    }

    /**
     * The handler: lookup, conditional refusal, create. `resendConfigured`
     * and `emailFails` stand for the e-mail step, whose failure is only
     * logged.
     */
    method Post(request: Option<CitaBody>, newId: string, createFault: bool, resendConfigured: bool, emailFails: bool)
      returns (resp: CitaResponse)
      modifies this
      ensures Outcome(resp, rows) == PostOutcome(request, newId, createFault, old(rows))
    {
      if request.None? {
        return ErrorAlCrear;
      }
      var b := request.value;
      if b.fecha.None? || b.horaInicio.None? {
        return ErrorAlCrear;
      }
      var existente := Existing(rows, b.fecha.value, b.horaInicio.value);
      if existente.Some? && existente.value.estado != Cancelada {
        return HorarioNoDisponible;
      }
      if b.cliente.None? || b.servicio.None? || existente.Some? || createFault {
        return ErrorAlCrear;
      }
      var nueva := NewRow(b, newId);
      rows := rows + [nueva];
      // The e-mails (when `resendConfigured`) are sent inside a try whose
      // catch only logs, so `emailFails` never reaches the response.
      return Created(nueva);
    }
  }
}
