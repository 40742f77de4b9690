/**
 * `ServicioViewSet.disponibilidad` of backend/gestion/views.py, the Django
 * calculator. The service comes from the view's queryset (active services
 * only) before the `fecha` parameter is read; blackout is an `exists()`;
 * the schedule row is a `get()`, so an inactive day and a missing day give
 * different reasons; the "today" cutoff runs only when now is past opening;
 * the conflict test is a `for` loop that breaks at the first overlap.
 */
module GestionDisponibilidad {
  import opened Wrappers
  import opened Calendar
  import opened Seqs
  import opened Slots
  import opened Agenda

  /** The `fecha` query parameter as sent, with what `strptime(fecha, '%Y-%m-%d')` makes of it. */
  datatype FechaParam = FechaParam(text: string, parsed: Option<Date>)

  /** The view's responses. */
  datatype Response =
    | Horarios(horarios: seq<int>, razon: Option<string>)  // 200
    | BadRequest(error: string)                            // 400
    | NotFound                                             // 404 from get_object()
    | ServerError                                          // an exception the view does not catch

  const FechaRequerida: string := "Parámetro fecha requerido"
  const FormatoInvalido: string := "Formato de fecha inválido. Use YYYY-MM-DD"
  const DiaNoLaboral: string := "Día no laboral"
  const DiaNoConfigurado: string := "Día no configurado"

  /** The slot walk's step, in minutes. */
  const SlotStep: int := 30

  /** `get_object()` on `Servicio.objects.filter(activo=True)`. */
  function ServicioActivo(db: Store, pk: string): Option<ServiceRow>
  {
    Find(db.servicios, (s: ServiceRow) => s.id == pk && s.activo)
  }

  /** `ConfiguracionHorario.objects.filter(dia_semana=fecha.weekday())`, which `get()` needs to be one row. */
  function ConfigRows(db: Store, fecha: Date): seq<ConfigRow>
  {
    var dia := PyWeekday(fecha);
    Filter(db.configs, (c: ConfigRow) => c.diaSemana == dia)
  }

  /** What the view responds for these inputs. */
  function DisponibilidadOf(pk: string, param: Option<FechaParam>, today: Date, now: int, db: Store): Response
  {
    match ServicioActivo(db, pk)
    case None => NotFound
    case Some(svc) =>
      if param.None? || param.value.text == [] then BadRequest(FechaRequerida)
      else match param.value.parsed
        case None => BadRequest(FormatoInvalido)
        case Some(fecha) =>
          if fecha < today then Horarios([], None)
          else if fecha in db.bloqueos then Horarios([], None)
          else
            var rows := ConfigRows(db, fecha);
            if |rows| == 0 then Horarios([], Some(DiaNoConfigurado))
            else if |rows| > 1 then ServerError
            else if !rows[0].activo then Horarios([], Some(DiaNoLaboral))
            else Horarios(Walk(FirstCandidate(rows[0].apertura, fecha, today, now),
                               rows[0].cierre, svc.duracion, SlotStep, Occupied(db.citas, fecha)), None)
  }

  /**
   * The "today" cutoff as the view writes it: the loop runs only when now
   * is past opening. The guard changes nothing: the result is the cutoff
   * of the unguarded loop.
   */
  method AdvancePastNowGuarded(apertura: int, now: int) returns (current: int)
    ensures current == CutoffStart(apertura, now, 30)
  {
    current := apertura;
    if now > apertura {
      while current < now
        invariant CutoffStart(current, now, 30) == CutoffStart(apertura, now, 30)
        decreases now - current
      {
        current := current + 30;
      }
    }
  }

  /** The inner `for cita in citas` loop: sets `conflicto` and breaks at the first overlap. */
  method HasConflict(inicio: int, duracion: int, citas: seq<Busy>) returns (conflicto: bool)
    ensures conflicto <==> exists i :: 0 <= i < |citas| && Overlaps(inicio, duracion, citas[i])
  {
    conflicto := false;
    var finSlot := inicio + duracion;
    var i := 0;
    while i < |citas|
      invariant 0 <= i <= |citas|
      invariant forall k :: 0 <= k < i ==> !Overlaps(inicio, duracion, citas[k])
    {
      var citaInicio := citas[i].start;
      var citaFin := citas[i].start + citas[i].duration;
      if inicio < citaFin && finSlot > citaInicio {
        conflicto := true;
        break;
      }
      i := i + 1;
    }
  }

  /** The outer `while current_dt + duracion <= cierre_dt` loop. */
  method GenerateSlots(start: int, cierre: int, duracion: int, citas: seq<Busy>) returns (slots: seq<int>)
    ensures slots == Walk(start, cierre, duracion, SlotStep, citas)
  {
    slots := [];
    var current := start;
    while current + duracion <= cierre
      invariant slots + Walk(current, cierre, duracion, SlotStep, citas)
                == Walk(start, cierre, duracion, SlotStep, citas)
      decreases cierre - duracion - current
    {
      var conflicto := HasConflict(current, duracion, citas);
      if !conflicto {
        slots := slots + [current];
      }
      current := current + SlotStep;
    }
  }

  /**
   * The view. `today` and `now` are `timezone.now()`'s date and its time of
   * day rounded up to the whole minute; `db` the rows the queries read.
   */
  method Disponibilidad(pk: string, param: Option<FechaParam>, today: Date, now: int, db: Store)
    returns (resp: Response)
    ensures resp == DisponibilidadOf(pk, param, today, now, db)
    ensures resp == NotFound <==> ServicioActivo(db, pk).None?
    ensures ServicioActivo(db, pk).Some? && (param.None? || param.value.text == []) ==>
      resp == BadRequest(FechaRequerida)
    ensures ServicioActivo(db, pk).Some? && param.Some? && param.value.text != [] && param.value.parsed.None? ==>
      resp == BadRequest(FormatoInvalido)
    ensures resp.BadRequest? ==> param.None? || param.value.parsed.None? || param.value.text == []
    ensures ServicioActivo(db, pk).Some? && param.Some? && param.value.text != [] && param.value.parsed.Some? ==>
      var fecha := param.value.parsed.value;
      && (fecha < today || fecha in db.bloqueos ==> resp == Horarios([], None))
      && (fecha >= today && fecha !in db.bloqueos && |ConfigRows(db, fecha)| == 0 ==>
            resp == Horarios([], Some(DiaNoConfigurado)))
      && (fecha >= today && fecha !in db.bloqueos && |ConfigRows(db, fecha)| == 1 && !ConfigRows(db, fecha)[0].activo ==>
            resp == Horarios([], Some(DiaNoLaboral)))
  {
    var servicio := ServicioActivo(db, pk);
    if servicio.None? {
      return NotFound;
    }
    if param.None? || param.value.text == [] {
      return BadRequest(FechaRequerida);
    }
    if param.value.parsed.None? {
      return BadRequest(FormatoInvalido);
    }
    var fecha := param.value.parsed.value;
    if fecha < today {
      return Horarios([], None);
    }
    if fecha in db.bloqueos {
      return Horarios([], None);
    }
    var rows := ConfigRows(db, fecha);
    if |rows| == 0 {
      return Horarios([], Some(DiaNoConfigurado));
    }
    if |rows| > 1 {
      return ServerError;
    }
    var configDia := rows[0];
    if !configDia.activo {
      return Horarios([], Some(DiaNoLaboral));
    }
    var citas := Occupied(db.citas, fecha);
    var current := configDia.apertura;
    if fecha == today {
      current := AdvancePastNowGuarded(current, now);
    }
    var slots := GenerateSlots(current, configDia.cierre, servicio.value.duracion, citas);
    return Horarios(slots, None);
  }

  /**
   * On a bookable day the slots are exactly the half-hour grid points from
   * the first candidate that end by closing and overlap no appointment
   * whose estado is not 'A', in ascending order; on "today" none is before
   * now.
   */
  lemma SlotsMeetSpec(pk: string, param: Option<FechaParam>, today: Date, now: int, db: Store)
    requires ServicioActivo(db, pk).Some? && param.Some? && param.value.text != []
    requires param.value.parsed.Some? && param.value.parsed.value >= today
    requires param.value.parsed.value !in db.bloqueos
    requires |ConfigRows(db, param.value.parsed.value)| == 1 && ConfigRows(db, param.value.parsed.value)[0].activo
    ensures
      var fecha := param.value.parsed.value;
      var cfg, dur := ConfigRows(db, fecha)[0], ServicioActivo(db, pk).value.duracion;
      var start := FirstCandidate(cfg.apertura, fecha, today, now);
      var resp := DisponibilidadOf(pk, param, today, now, db);
      && resp.Horarios? && resp.razon.None?
      && Ascending(resp.horarios)
      && (forall s :: s in resp.horarios <==>
            start <= s && (s - start) % 30 == 0 && s + dur <= cfg.cierre && !Collides(s, dur, db.citas, fecha))
      && (fecha == today ==> forall s :: s in resp.horarios ==> s >= now)
  {
    var fecha := param.value.parsed.value;
    var cfg, dur := ConfigRows(db, fecha)[0], ServicioActivo(db, pk).value.duracion;
    var start := FirstCandidate(cfg.apertura, fecha, today, now);
    var busy := Occupied(db.citas, fecha);
    WalkAscending(start, cfg.cierre, dur, SlotStep, busy);
    forall s ensures s in Walk(start, cfg.cierre, dur, SlotStep, busy) <==>
      start <= s && (s - start) % 30 == 0 && s + dur <= cfg.cierre && !Collides(s, dur, db.citas, fecha)
    {
      WalkMembers(s, start, cfg.cierre, dur, SlotStep, busy);
      GridOf30(s, start);
      ConflictIsCollision(s, dur, db.citas, fecha);
    }
  }
}
