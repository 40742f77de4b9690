/**
 * `getAvailableSlots` of frontend/lib/availability.ts, the calculator on
 * the Prisma store. Lookups are `findUnique` on unique keys (the first and
 * only matching row); a schedule row is looked up by weekday and its
 * `activo` flag checked afterwards; the slot walk steps by 30 minutes.
 */
module FrontendAvailability {
  import opened Wrappers
  import opened Calendar
  import opened Seqs
  import opened Slots
  import opened Agenda

  /** The slot walk's step, in minutes. */
  const SlotStep: int := 30

  /** `bloqueoHorario.findUnique({ where: { fecha } })`. */
  function Bloqueo(db: Store, fecha: Date): Option<Date>
  {
    Find(db.bloqueos, (d: Date) => d == fecha)
  }

  /** `configuracionHorario.findUnique({ where: { dia_semana } })` for the date's weekday. */
  function Config(db: Store, fecha: Date): Option<ConfigRow>
  {
    var dia := DiaSemana(JsGetDay(fecha));
    Find(db.configs, (c: ConfigRow) => c.diaSemana == dia)
  }

  /** `servicio.findUnique({ where: { id } })`. */
  function Servicio(db: Store, servicioId: string): Option<ServiceRow>
  {
    Find(db.servicios, (s: ServiceRow) => s.id == servicioId)
  }

  /** The schedule row is missing or inactive: `!config || !config.activo`. */
  predicate Closed(db: Store, fecha: Date)
  {
    Config(db, fecha).None? || !Config(db, fecha).value.activo
  }

  /** What the calculator returns for these inputs. */
  function AvailableSlots(servicioId: string, fecha: Date, today: Date, now: int, db: Store): SlotsOutcome
  {
    if fecha < today then Available([])
    else if Bloqueo(db, fecha).Some? then Available([])
    else if Closed(db, fecha) then Available([])
    else match Servicio(db, servicioId)
      case None => ServicioNoEncontrado
      case Some(svc) =>
        var cfg := Config(db, fecha).value;
        Available(Walk(FirstCandidate(cfg.apertura, fecha, today, now),
                       cfg.cierre, svc.duracion, SlotStep, Occupied(db.citas, fecha)))
  }

  /**
   * The calculator. `today` is the current date, `now` the current time of
   * day rounded up to the whole minute, `db` the rows the queries read.
   */
  method GetAvailableSlots(servicioId: string, fecha: Date, today: Date, now: int, db: Store)
    returns (r: SlotsOutcome)
    ensures r == AvailableSlots(servicioId, fecha, today, now, db)
    ensures fecha < today ==> r == Available([])
    ensures fecha >= today && Bloqueo(db, fecha).Some? ==> r == Available([])
    ensures fecha >= today && Bloqueo(db, fecha).None? && Closed(db, fecha) ==> r == Available([])
    ensures r == ServicioNoEncontrado <==>
      fecha >= today && Bloqueo(db, fecha).None? && !Closed(db, fecha) && Servicio(db, servicioId).None?
  {
    if fecha < today {
      return Available([]);
    }
    var bloqueo := Bloqueo(db, fecha);
    if bloqueo.Some? {
      return Available([]);
    }
    var config := Config(db, fecha);
    if config.None? || !config.value.activo {
      return Available([]);
    }
    var servicio := Servicio(db, servicioId);
    if servicio.None? {
      return ServicioNoEncontrado;
    }
    var citas := Occupied(db.citas, fecha);
    var duracion := servicio.value.duracion;
    var current := config.value.apertura;
    if fecha == today {
      current := AdvancePastNow(current, now);
    }
    var slots := CollectSlots(current, config.value.cierre, duracion, SlotStep, citas);
    return Available(slots);
  }

  /**
   * Once every guard passes, the slots are exactly the half-hour grid
   * points from the first candidate that end by closing and overlap no
   * non-cancelled appointment, in ascending order; on "today" none is
   * before now.
   */
  lemma SlotsMeetSpec(servicioId: string, fecha: Date, today: Date, now: int, db: Store)
    requires fecha >= today && Bloqueo(db, fecha).None? && !Closed(db, fecha)
    requires Servicio(db, servicioId).Some?
    ensures AvailableSlots(servicioId, fecha, today, now, db).Available?
    ensures
      var cfg, dur := Config(db, fecha).value, Servicio(db, servicioId).value.duracion;
      var start := FirstCandidate(cfg.apertura, fecha, today, now);
      var r := AvailableSlots(servicioId, fecha, today, now, db).slots;
      && Ascending(r)
      && (forall s :: s in r <==>
            start <= s && (s - start) % 30 == 0 && s + dur <= cfg.cierre && !Collides(s, dur, db.citas, fecha))
      && (fecha == today ==> forall s :: s in r ==> s >= now)
  {
    var cfg, dur := Config(db, fecha).value, Servicio(db, servicioId).value.duracion;
    var start := FirstCandidate(cfg.apertura, fecha, today, now);
    var busy := Occupied(db.citas, fecha);
    WalkAscending(start, cfg.cierre, dur, SlotStep, busy);
    forall s ensures s in Walk(start, cfg.cierre, dur, SlotStep, busy) <==>
      start <= s && (s - start) % 30 == 0 && s + dur <= cfg.cierre && !Collides(s, dur, db.citas, fecha)
    {
      WalkMembers(s, start, cfg.cierre, dur, SlotStep, busy);
      GridOf30(s, start);
      ConflictIsCollision(s, dur, db.citas, fecha);
    }
  }
}
