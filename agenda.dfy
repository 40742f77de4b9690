/**
 * The rows the availability calculators read, shared by the three of them:
 * appointment status, weekday schedule, services, blackout dates and the
 * appointments of a date joined with their service's duration. A `Store`
 * is one snapshot of those tables, passed in whole.
 */
module Agenda {
  import opened Wrappers
  import opened Calendar
  import opened Slots

  /** Appointment status: 'P' Pendiente, 'C' Confirmada, 'A' Cancelada. */
  datatype Estado = Pendiente | Confirmada | Cancelada

  /** The one-letter code the tables store. */
  function Code(e: Estado): char
  {
    match e
    case Pendiente => 'P'
    case Confirmada => 'C'
    case Cancelada => 'A'
  }

  /** Reads a stored code; any other letter is not a status. */
  function FromCode(c: char): (r: Option<Estado>)
    ensures r.Some? <==> c in {'P', 'C', 'A'}
  {
    if c == 'P' then Some(Pendiente)
    else if c == 'C' then Some(Confirmada)
    else if c == 'A' then Some(Cancelada)
    else None
  }

  /** Codes and statuses are in one-to-one correspondence. */
  lemma CodeRoundTrip(e: Estado, c: char)
    ensures FromCode(Code(e)) == Some(e)
    ensures FromCode(c) == Some(e) ==> Code(e) == c
  {
  }

  /** The status a new appointment gets when none is given. */
  const DefaultEstado: Estado := Pendiente

  /** One `configuracion_horario` row: a weekday's opening and closing, in minutes. */
  datatype ConfigRow = ConfigRow(diaSemana: int, activo: bool, apertura: int, cierre: int)

  /** One `servicios` row, reduced to what the calculators read. */
  datatype ServiceRow = ServiceRow(id: string, duracion: int, activo: bool)

  /** One `citas` row joined with its service's `duracion_minutos`. */
  datatype BookedRow = BookedRow(fecha: Date, horaInicio: int, estado: Estado, duracion: int)

  /** A snapshot of the tables a calculator reads. */
  datatype Store = Store(
    bloqueos: seq<Date>,
    configs: seq<ConfigRow>,
    servicios: seq<ServiceRow>,
    citas: seq<BookedRow>)

  /** What a TypeScript calculator returns, or the error it throws. */
  datatype SlotsOutcome = Available(slots: seq<int>) | ServicioNoEncontrado

  /** The appointment takes up time on `fecha`: it is on that date and not cancelled. */
  predicate Occupies(c: BookedRow, fecha: Date)
  {
    c.fecha == fecha && c.estado != Cancelada
  }

  /** The interval a booked row occupies. */
  function Interval(c: BookedRow): Busy
  {
    Busy(c.horaInicio, c.duracion)
  }

  /** The appointments query: the intervals of the non-cancelled appointments on `fecha`. */
  function Occupied(citas: seq<BookedRow>, fecha: Date): (r: seq<Busy>)
    ensures forall b :: b in r <==> exists c :: c in citas && Occupies(c, fecha) && b == Interval(c)
  {
    if citas == [] then []
    else (if Occupies(citas[0], fecha) then [Interval(citas[0])] else [])
         + Occupied(citas[1..], fecha)
  }

  /** A candidate `[s, s + dur)` overlaps some non-cancelled appointment on `fecha`. */
  predicate Collides(s: int, dur: int, citas: seq<BookedRow>, fecha: Date)
  {
    exists c :: c in citas && Occupies(c, fecha) && Overlaps(s, dur, Interval(c))
  }

  /** The conflict test over the queried intervals is the collision test over the rows. */
  lemma ConflictIsCollision(s: int, dur: int, citas: seq<BookedRow>, fecha: Date)
    ensures IsConflicting(s, dur, Occupied(citas, fecha)) <==> Collides(s, dur, citas, fecha)
  {
    var busy := Occupied(citas, fecha);
    if IsConflicting(s, dur, busy) {
      var i :| 0 <= i < |busy| && Overlaps(s, dur, busy[i]);
      assert busy[i] in busy;
    }
    if Collides(s, dur, citas, fecha) {
      var c :| c in citas && Occupies(c, fecha) && Overlaps(s, dur, Interval(c));
      assert Interval(c) in busy;
      var i :| 0 <= i < |busy| && busy[i] == Interval(c);
    }
  }

  /**
   * The first candidate of the slot walk: opening time, or on "today" the
   * opening advanced in 30-minute steps until it is no longer before now.
   */
  function FirstCandidate(apertura: int, fecha: Date, today: Date, now: int): int
  {
    if fecha == today then CutoffStart(apertura, now, 30) else apertura
  }

  /** At most one blackout row per date (`BloqueoHorario.fecha` is unique). */
  predicate UniqueBloqueos(bloqueos: seq<Date>)
  {
    forall i, j :: 0 <= i < j < |bloqueos| ==> bloqueos[i] != bloqueos[j]
  }

  /** At most one schedule row per weekday. */
  predicate UniqueWeekdays(configs: seq<ConfigRow>)
  {
    forall i, j :: 0 <= i < j < |configs| ==> configs[i].diaSemana != configs[j].diaSemana
  }

  /** Service ids are primary keys. */
  predicate UniqueServiceIds(servicios: seq<ServiceRow>)
  {
    forall i, j :: 0 <= i < j < |servicios| ==> servicios[i].id != servicios[j].id
  }
}
