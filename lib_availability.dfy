/**
 * `getAvailableSlots` of lib/availability.ts, the calculator behind the
 * Supabase booking site. Its queries end in `.single()`, which yields a row
 * only when exactly one row matches; only active schedule rows are queried;
 * the "today" cutoff steps by 30 minutes but the slot walk steps by 60.
 */
module LibAvailability {
  import opened Wrappers
  import opened Calendar
  import opened Seqs
  import opened Slots
  import opened Agenda

  /** The slot walk's step, in minutes. */
  const SlotStep: int := 60

  /** The blackout query `.eq('fecha', fecha).single()` finds a row. */
  predicate Bloqueado(db: Store, fecha: Date)
  {
    |Filter(db.bloqueos, (d: Date) => d == fecha)| == 1
  }

  /** The schedule query: the active row for the date's weekday, when exactly one matches. */
  function Config(db: Store, fecha: Date): Option<ConfigRow>
  {
    var dia := DiaSemana(JsGetDay(fecha));
    var rows := Filter(db.configs, (c: ConfigRow) => c.diaSemana == dia && c.activo);
    if |rows| == 1 then Some(rows[0]) else None
  }

  /** The service query `.eq('id', servicioId).single()`. */
  function Servicio(db: Store, servicioId: string): Option<ServiceRow>
  {
    var rows := Filter(db.servicios, (s: ServiceRow) => s.id == servicioId);
    if |rows| == 1 then Some(rows[0]) else None
  }

  /** What the calculator returns for these inputs. */
  function AvailableSlots(servicioId: string, fecha: Date, today: Date, now: int, db: Store): SlotsOutcome
  {
    if fecha < today then Available([])
    else if Bloqueado(db, fecha) then Available([])
    else match Config(db, fecha)
      case None => Available([])
      case Some(cfg) =>
        match Servicio(db, servicioId)
        case None => ServicioNoEncontrado
        case Some(svc) =>
          Available(Walk(FirstCandidate(cfg.apertura, fecha, today, now),
                         cfg.cierre, svc.duracion, SlotStep, Occupied(db.citas, fecha)))
  }

  /**
   * The calculator. `today` is the current date, `now` the current time of
   * day rounded up to the whole minute, `db` the rows the queries read.
   */
  method GetAvailableSlots(servicioId: string, fecha: Date, today: Date, now: int, db: Store)
    returns (r: SlotsOutcome)
    ensures r == AvailableSlots(servicioId, fecha, today, now, db)
    ensures fecha < today ==> r == Available([])
    ensures fecha >= today && Bloqueado(db, fecha) ==> r == Available([])
    ensures fecha >= today && !Bloqueado(db, fecha) && Config(db, fecha).None? ==> r == Available([])
    ensures r == ServicioNoEncontrado <==>
      fecha >= today && !Bloqueado(db, fecha) && Config(db, fecha).Some? && Servicio(db, servicioId).None?
  {
    if fecha < today {
      return Available([]);
    }
    if Bloqueado(db, fecha) {
      return Available([]);
    }
    var config := Config(db, fecha);
    if config.None? {
      return Available([]);
    }
    var servicio := Servicio(db, servicioId);
    if servicio.None? {
      return ServicioNoEncontrado;
    }
    var citas := Occupied(db.citas, fecha);
    var duracion := servicio.value.duracion;
    var current := config.value.apertura;
    if fecha == today {
      current := AdvancePastNow(current, now);
    }
    var slots := CollectSlots(current, config.value.cierre, duracion, SlotStep, citas);
    return Available(slots);
  }

  /**
   * Once every guard passes, the slots are exactly the hourly grid points
   * from the first candidate that end by closing and overlap no
   * non-cancelled appointment, in ascending order; on "today" none is
   * before now.
   */
  lemma SlotsMeetSpec(servicioId: string, fecha: Date, today: Date, now: int, db: Store)
    requires fecha >= today && !Bloqueado(db, fecha)
    requires Config(db, fecha).Some? && Servicio(db, servicioId).Some?
    ensures AvailableSlots(servicioId, fecha, today, now, db).Available?
    ensures
      var cfg, dur := Config(db, fecha).value, Servicio(db, servicioId).value.duracion;
      var start := FirstCandidate(cfg.apertura, fecha, today, now);
      var r := AvailableSlots(servicioId, fecha, today, now, db).slots;
      && Ascending(r)
      && (forall s :: s in r <==>
            OnGrid(s, start, SlotStep) && s + dur <= cfg.cierre && !Collides(s, dur, db.citas, fecha))
      && (fecha == today ==> forall s :: s in r ==> s >= now)
  {
    var cfg, dur := Config(db, fecha).value, Servicio(db, servicioId).value.duracion;
    var start := FirstCandidate(cfg.apertura, fecha, today, now);
    var busy := Occupied(db.citas, fecha);
    WalkAscending(start, cfg.cierre, dur, SlotStep, busy);
    forall s ensures s in Walk(start, cfg.cierre, dur, SlotStep, busy) <==>
      OnGrid(s, start, SlotStep) && s + dur <= cfg.cierre && !Collides(s, dur, db.citas, fecha)
    {
      WalkMembers(s, start, cfg.cierre, dur, SlotStep, busy);
      ConflictIsCollision(s, dur, db.citas, fecha);
    }
  }
}
