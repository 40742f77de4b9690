/**
 * How the three calculators relate on one snapshot of the tables whose
 * keys are unique (one blackout row per date, one schedule row per
 * weekday, one service per id).
 */
module CalculatorVariants {
  import opened Wrappers
  import opened Calendar
  import opened Seqs
  import opened Slots
  import opened Agenda
  import Lib = LibAvailability
  import Front = FrontendAvailability
  import Django = GestionDisponibilidad

  /** A snapshot whose tables keep their keys unique. */
  predicate UniqueKeys(db: Store)
  {
    UniqueBloqueos(db.bloqueos) && UniqueWeekdays(db.configs) && UniqueServiceIds(db.servicios)
  }

  /** With unique blackout rows, `.single()` finds the date's row exactly when one exists. */
  lemma LibBloqueoIsMembership(db: Store, fecha: Date)
    requires UniqueBloqueos(db.bloqueos)
    ensures Lib.Bloqueado(db, fecha) <==> fecha in db.bloqueos
    ensures Front.Bloqueo(db, fecha).Some? <==> fecha in db.bloqueos
  {
    FilterOfUnique(db.bloqueos, (d: Date) => d == fecha);
  }

  /** With one schedule row per weekday, the active-only query and the lookup-then-check agree. */
  lemma ConfigLookupsAgree(db: Store, fecha: Date)
    requires UniqueWeekdays(db.configs)
    ensures Lib.Config(db, fecha).Some? <==> !Front.Closed(db, fecha)
    ensures Lib.Config(db, fecha).Some? ==> Lib.Config(db, fecha) == Front.Config(db, fecha)
  {
    var dia := DiaSemana(JsGetDay(fecha));
    var active := (c: ConfigRow) => c.diaSemana == dia && c.activo;
    FilterOfUnique(db.configs, active);
    var found := Front.Config(db, fecha);
    if found.Some? && found.value.activo {
      var i :| 0 <= i < |db.configs| && db.configs[i] == found.value;
      var hit := Find(db.configs, active);
      assert hit.Some?;
      var j :| 0 <= j < |db.configs| && db.configs[j] == hit.value;
      assert i == j;
    }
    if Lib.Config(db, fecha).Some? {
      var row := Find(db.configs, active).value;
      var i :| 0 <= i < |db.configs| && db.configs[i] == row;
      assert found.Some?;
      var j :| 0 <= j < |db.configs| && db.configs[j] == found.value;
      assert i == j;
    }
  }

  /** With unique service ids, `.single()` and `findUnique` find the same service. */
  lemma ServiceLookupsAgree(db: Store, servicioId: string)
    requires UniqueServiceIds(db.servicios)
    ensures Lib.Servicio(db, servicioId) == Front.Servicio(db, servicioId)
  {
    FilterOfUnique(db.servicios, (s: ServiceRow) => s.id == servicioId);
  }

  /**
   * The hourly calculator offers a subset of what the half-hour calculator
   * offers on the same snapshot, and fails on a missing service exactly
   * when the other does.
   */
  lemma LibSlotsWithinFrontend(servicioId: string, fecha: Date, today: Date, now: int, db: Store)
    requires UniqueKeys(db)
    ensures
      var lib := Lib.AvailableSlots(servicioId, fecha, today, now, db);
      var front := Front.AvailableSlots(servicioId, fecha, today, now, db);
      && (lib.ServicioNoEncontrado? <==> front.ServicioNoEncontrado?)
      && (lib.Available? ==> forall s :: s in lib.slots ==> s in front.slots)
  {
    LibBloqueoIsMembership(db, fecha);
    ConfigLookupsAgree(db, fecha);
    ServiceLookupsAgree(db, servicioId);
    var lib := Lib.AvailableSlots(servicioId, fecha, today, now, db);
    var front := Front.AvailableSlots(servicioId, fecha, today, now, db);
    if fecha >= today && fecha !in db.bloqueos && !Front.Closed(db, fecha) && Front.Servicio(db, servicioId).Some? {
      var cfg := Front.Config(db, fecha).value;
      var dur := Front.Servicio(db, servicioId).value.duracion;
      var start := FirstCandidate(cfg.apertura, fecha, today, now);
      var busy := Occupied(db.citas, fecha);
      forall s | s in lib.slots ensures s in front.slots {
        WalkMembers(s, start, cfg.cierre, dur, 60, busy);
        HourGridInHalfHourGrid(s, start);
        WalkMembers(s, start, cfg.cierre, dur, 30, busy);
      }
    }
  }

  /** With unique service ids, the active-service lookup and `findUnique` find the same active service. */
  lemma ActiveServiceIsFound(db: Store, pk: string)
    requires UniqueServiceIds(db.servicios)
    requires Django.ServicioActivo(db, pk).Some?
    ensures Front.Servicio(db, pk) == Django.ServicioActivo(db, pk)
  {
    var svc := Django.ServicioActivo(db, pk).value;
    assert svc in db.servicios && svc.id == pk;
    assert Front.Servicio(db, pk).Some?;
    var other := Front.Servicio(db, pk).value;
    var i :| 0 <= i < |db.servicios| && db.servicios[i] == svc;
    var j :| 0 <= j < |db.servicios| && db.servicios[j] == other;
    assert i == j;
  }

  /**
   * With one schedule row per weekday, Django's `get()` never meets two
   * rows, finds none exactly when `findUnique` finds none, and otherwise
   * finds the same row.
   */
  lemma ScheduleRowsAgree(db: Store, fecha: Date)
    requires UniqueWeekdays(db.configs)
    ensures |Django.ConfigRows(db, fecha)| <= 1
    ensures |Django.ConfigRows(db, fecha)| == 1 <==> Front.Config(db, fecha).Some?
    ensures |Django.ConfigRows(db, fecha)| == 1 ==> Django.ConfigRows(db, fecha)[0] == Front.Config(db, fecha).value
  {
    DiaSemanaIsPyWeekday(fecha);
    var dia := PyWeekday(fecha);
    FilterOfUnique(db.configs, (c: ConfigRow) => c.diaSemana == dia);
  }

  /**
   * Django answers every request that names an active service and a
   * parseable date with the same slot list as the Prisma calculator, the
   * guarded cutoff included; it differs only in the reason it attaches to
   * a closed day.
   */
  lemma DjangoAgreesWithFrontend(pk: string, text: string, fecha: Date, today: Date, now: int, db: Store)
    requires UniqueKeys(db)
    requires text != []
    requires Django.ServicioActivo(db, pk).Some?
    ensures
      var django := Django.DisponibilidadOf(pk, Some(Django.FechaParam(text, Some(fecha))), today, now, db);
      var front := Front.AvailableSlots(pk, fecha, today, now, db);
      && django.Horarios? && front.Available?
      && django.horarios == front.slots
  {
    ActiveServiceIsFound(db, pk);
    LibBloqueoIsMembership(db, fecha);
    ScheduleRowsAgree(db, fecha);
  }
}
