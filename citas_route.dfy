/**
 * `POST` of app/api/citas/route.ts on the Supabase `citas` table: schema
 * validation, the exact-slot double-booking guard, the insert as
 * Pendiente, best-effort e-mail, and the names used in the WhatsApp notice.
 */
module CitasRoute {
  import opened Wrappers
  import opened Seqs
  import opened Text
  import opened Agenda

  /** The request body's fields; `None` is a missing field. */
  datatype CitaBody = CitaBody(
    cliente: Option<string>,
    servicio: Option<string>,
    fecha: Option<string>,
    horaInicio: Option<string>,
    notas: Option<string>,
    clienteNombre: Option<string>,
    clienteTelefono: Option<string>)

  /** One `citas` row as the route writes it; `fecha` and `hora_inicio` are compared as sent. */
  datatype CitaRow = CitaRow(
    id: string,
    clienteId: string,
    servicioId: string,
    fecha: string,
    horaInicio: string,
    notas: Option<string>,
    estado: Estado)

  /** The route's responses. */
  datatype CitaResponse =
    | Created(cita: CitaRow)   // 201
    | DatosInvalidos           // 400, schema rejected the body
    | HorarioNoDisponible      // 400, the slot is taken
    | ErrorAlCrear             // 500, the insert (or anything else) threw

  function Status(r: CitaResponse): int
  {
    match r
    case Created(_) => 201
    case DatosInvalidos => 400
    case HorarioNoDisponible => 400
    case ErrorAlCrear => 500
  }

  function ErrorMessage(r: CitaResponse): Option<string>
  {
    match r
    case Created(_) => None
    case DatosInvalidos => Some("Datos de reserva inválidos")
    case HorarioNoDisponible => Some("El horario ya no está disponible")
    case ErrorAlCrear => Some("Error al crear la cita")
  }

  /** `z.string().uuid()`: 8-4-4-4-12 hexadecimal digits separated by dashes. */
  predicate IsUuid(s: string)
  {
    && |s| == 36
    && (forall k :: 0 <= k < 36 && k in {8, 13, 18, 23} ==> s[k] == '-')
    && (forall k :: 0 <= k < 36 && k !in {8, 13, 18, 23} ==> IsHexDigit(s[k]))
  }

  /** `/^\d{4}-\d{2}-\d{2}$/`. */
  predicate IsFechaText(s: string)
  {
    && |s| == 10 && s[4] == '-' && s[7] == '-'
    && (forall k :: 0 <= k < 10 && k != 4 && k != 7 ==> IsDigit(s[k]))
  }

  /** `/^\d{2}:\d{2}$/`. */
  predicate IsHoraText(s: string)
  {
    |s| == 5 && s[2] == ':' && IsDigit(s[0]) && IsDigit(s[1]) && IsDigit(s[3]) && IsDigit(s[4])
  }

  /** `citaSchema.safeParse(body).success`. */
  predicate ValidBody(b: CitaBody)
  {
    && b.cliente.Some? && IsUuid(b.cliente.value)
    && b.servicio.Some? && IsUuid(b.servicio.value)
    && b.fecha.Some? && IsFechaText(b.fecha.value)
    && b.horaInicio.Some? && IsHoraText(b.horaInicio.value)
  }

  /** The rows the guard's query selects: same date and start time, `estado` other than 'A'. */
  function Occupants(rows: seq<CitaRow>, fecha: string, hora: string): seq<CitaRow>
  {
    Filter(rows, (r: CitaRow) => r.fecha == fecha && r.horaInicio == hora && r.estado != Cancelada)
  }

  /** `.maybeSingle()` returns the occupant only when there is exactly one. */
  predicate Taken(rows: seq<CitaRow>, fecha: string, hora: string)
  {
    |Occupants(rows, fecha, hora)| == 1
  }

  /** No two non-cancelled appointments share a date and start time. */
  predicate NoDoubleBooking(rows: seq<CitaRow>)
  {
    forall i, j :: 0 <= i < j < |rows| && rows[i].estado != Cancelada && rows[j].estado != Cancelada
      ==> rows[i].fecha != rows[j].fecha || rows[i].horaInicio != rows[j].horaInicio
  }

  /** The row the insert writes: the submitted fields, status 'P'. */
  function NewRow(b: CitaBody, id: string): CitaRow
    requires ValidBody(b)
  {
    CitaRow(id, b.cliente.value, b.servicio.value, b.fecha.value, b.horaInicio.value, b.notas, Pendiente)
  }

  /**
   * Without double bookings the guard's `maybeSingle()` rejects exactly
   * when some non-cancelled row holds the slot: cancelled rows never block.
   */
  lemma TakenIffActiveOccupant(rows: seq<CitaRow>, fecha: string, hora: string)
    requires NoDoubleBooking(rows)
    ensures Taken(rows, fecha, hora) <==>
      exists r :: r in rows && r.fecha == fecha && r.horaInicio == hora && r.estado != Cancelada
  {
    var p := (r: CitaRow) => r.fecha == fecha && r.horaInicio == hora && r.estado != Cancelada;
    FilterOfUnique(rows, p);
  }

  /** Appending a row for a slot no non-cancelled row holds keeps the table free of double bookings. */
  lemma AppendFreeSlot(rows: seq<CitaRow>, row: CitaRow)
    requires NoDoubleBooking(rows)
    requires Occupants(rows, row.fecha, row.horaInicio) == []
    ensures NoDoubleBooking(rows + [row])
  {
    var all := rows + [row];
    forall i, j | 0 <= i < j < |all| && all[i].estado != Cancelada && all[j].estado != Cancelada
      ensures all[i].fecha != all[j].fecha || all[i].horaInicio != all[j].horaInicio
    {
      if j == |rows| {
        assert all[i] in rows;
        assert all[i] !in Occupants(rows, row.fecha, row.horaInicio);
      }
    }
  }

  /** The guard keys on the exact start time: a booking that merely overlaps is not seen. */
  lemma OverlapWithOtherStartIsNotTaken(id: string, cliente: string, servicio: string)
    ensures !Taken([CitaRow(id, cliente, servicio, "2030-01-07", "10:00", None, Confirmada)], "2030-01-07", "10:30")
  {
  }

  class CitasTable {
    var rows: seq<CitaRow>

    constructor (initial: seq<CitaRow>)
      ensures rows == initial
    {
      rows := initial;
    }

    /**
     * The handler. `request` is the parsed JSON body (`None` when it is not
     * JSON, which throws into the catch), `newId` the id the store
     * generates, `storeFault` whether the insert fails; `resendConfigured`
     * and `emailFails` (the e-mail step) take no part in the outcome.
     */
    method Post(request: Option<CitaBody>, newId: string, storeFault: bool, resendConfigured: bool, emailFails: bool)
      returns (resp: CitaResponse)
      modifies this
      ensures request.None? ==> resp == ErrorAlCrear && rows == old(rows)
      ensures request.Some? ==> PostBody(request.value, newId, storeFault, old(rows), resp, rows)
      ensures NoDoubleBooking(old(rows)) ==> NoDoubleBooking(rows)
    {
      if request.None? {
        return ErrorAlCrear;
      }
      var body := request.value;
      if !ValidBody(body) {
        return DatosInvalidos;
      }
      var fecha, hora := body.fecha.value, body.horaInicio.value;
      if |Occupants(rows, fecha, hora)| == 1 {
        return HorarioNoDisponible;
      }
      if storeFault {
        return ErrorAlCrear;
      }
      var nueva := NewRow(body, newId);
      if NoDoubleBooking(rows) {
        FilterOfUnique(rows, (r: CitaRow) => r.fecha == fecha && r.horaInicio == hora && r.estado != Cancelada);
        AppendFreeSlot(rows, nueva);
      }
      rows := rows + [nueva];
      // The e-mails (when `resendConfigured`) are sent inside a try whose
      // catch only logs, so `emailFails` never reaches the response.
      return Created(nueva);
    }
  }

  /** The outcome of a parsed body against the table before and after. */
  ghost predicate PostBody(body: CitaBody, newId: string, storeFault: bool, before: seq<CitaRow>, resp: CitaResponse, after: seq<CitaRow>)
  {
      && (!ValidBody(body) ==> resp == DatosInvalidos && after == before)
      && (ValidBody(body) && Taken(before, body.fecha.value, body.horaInicio.value) ==>
            resp == HorarioNoDisponible && after == before)
      && (ValidBody(body) && !Taken(before, body.fecha.value, body.horaInicio.value) && storeFault ==>
            resp == ErrorAlCrear && after == before)
      && (ValidBody(body) && !Taken(before, body.fecha.value, body.horaInicio.value) && !storeFault ==>
            resp == Created(NewRow(body, newId)) && after == before + [NewRow(body, newId)])
  }

  /** The WhatsApp name: `cliente_nombre`, else the stored "nombre apellido" trimmed. */
  function NombreCliente(clienteNombre: Option<string>, nombre: string, apellido: Option<string>): (r: string)
    ensures clienteNombre.Some? && clienteNombre.value != [] ==> r == clienteNombre.value
    ensures (clienteNombre.None? || clienteNombre.value == []) ==>
      r == Trim(nombre + " " + (if apellido.Some? then apellido.value else ""))
  {
    if clienteNombre.Some? && clienteNombre.value != [] then clienteNombre.value
    else Trim(nombre + " " + (if apellido.Some? then apellido.value else ""))
  }

  /** Without `cliente_nombre` and `apellido`, the name is the stored `nombre` without the joining space. */
  lemma NombreWithoutApellido(nombre: string)
    requires nombre != [] ==> !IsSpace(nombre[0]) && !IsSpace(nombre[|nombre| - 1])
    ensures NombreCliente(None, nombre, None) == nombre
    ensures NombreCliente(Some(""), nombre, None) == nombre
  {
    assert nombre + " " + "" == nombre + " ";
    TrimDropsTrailingSpace(nombre);
  }

  /** The WhatsApp phone: `cliente_telefono`, else the stored `telefono`, else 'No indicado'. */
  function TelefonoCliente(clienteTelefono: Option<string>, telefono: Option<string>): (r: string)
    ensures r != []
    ensures clienteTelefono.Some? && clienteTelefono.value != [] ==> r == clienteTelefono.value
    ensures (clienteTelefono.None? || clienteTelefono.value == []) && telefono.Some? && telefono.value != [] ==>
      r == telefono.value
    ensures (clienteTelefono.None? || clienteTelefono.value == []) && (telefono.None? || telefono.value == []) ==>
      r == "No indicado"
  {
    if clienteTelefono.Some? && clienteTelefono.value != [] then clienteTelefono.value
    else if telefono.Some? && telefono.value != [] then telefono.value
    else "No indicado"
  }
}
