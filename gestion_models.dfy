/**
 * The Django records of backend/gestion/models.py that the write path
 * touches, with their table constraints: unique client e-mail, one
 * appointment per `(fecha, hora_inicio)` whatever its status, one blackout
 * row per date, and appointments listed by `(fecha, hora_inicio)`.
 */
module GestionModels {
  import opened Wrappers
  import opened Seqs
  import opened Calendar
  import opened Agenda

  datatype ClienteRecord = ClienteRecord(id: int, nombre: string, apellido: string, email: string, telefono: Option<string>)

  /** A `Cita`; `horaInicio` in minutes since midnight, `estado` one of the three choices. */
  datatype CitaRecord = CitaRecord(id: int, cliente: int, servicio: int, fecha: Date, horaInicio: int, estado: Estado)

  datatype BloqueoRecord = BloqueoRecord(id: int, fecha: Date, razon: string)

  /** `email = EmailField(unique=True)`. */
  predicate UniqueEmail(clientes: seq<ClienteRecord>)
  {
    forall i, j :: 0 <= i < j < |clientes| ==> clientes[i].email != clientes[j].email
  }

  /** `unique_together = ('fecha', 'hora_inicio')`: cancelled rows count too. */
  predicate UniqueTogether(citas: seq<CitaRecord>)
  {
    forall i, j :: 0 <= i < j < |citas| ==>
      citas[i].fecha != citas[j].fecha || citas[i].horaInicio != citas[j].horaInicio
  }

  /** `fecha = DateField(unique=True)` on `BloqueoHorario`. */
  predicate UniqueBloqueoFecha(bloqueos: seq<BloqueoRecord>)
  {
    forall i, j :: 0 <= i < j < |bloqueos| ==> bloqueos[i].fecha != bloqueos[j].fecha
  }

  /** `ordering = ['fecha', 'hora_inicio']`: `a` is listed before `b`. */
  predicate Precedes(a: CitaRecord, b: CitaRecord)
  {
    a.fecha < b.fecha || (a.fecha == b.fecha && a.horaInicio < b.horaInicio)
  }

  /** A listing in the declared order, with no ties. */
  predicate Ordered(citas: seq<CitaRecord>)
  {
    forall i, j :: 0 <= i < j < |citas| ==> Precedes(citas[i], citas[j])
  }

  /** A listing in the declared order, ties allowed: what `ORDER BY fecha, hora_inicio` returns. */
  predicate Sorted(citas: seq<CitaRecord>)
  {
    forall i, j :: 0 <= i < j < |citas| ==> !Precedes(citas[j], citas[i])
  }

  /**
   * Under `unique_together` the declared order has no ties: a sorted
   * listing is strictly ordered, and a strictly ordered one keeps the
   * constraint.
   */
  lemma SortedUniqueIsOrdered(citas: seq<CitaRecord>)
    ensures UniqueTogether(citas) && Sorted(citas) <==> Ordered(citas)
  {
  }

  /**
   * The listing is determined by the rows alone: two strictly ordered
   * listings of the same appointments are the same sequence.
   */
  lemma {:induction false} OrderedListingIsDeterministic(a: seq<CitaRecord>, b: seq<CitaRecord>)
    requires Ordered(a) && Ordered(b)
    requires forall c :: c in a <==> c in b
    ensures a == b
  {
    if a != [] {
      assert a[0] in a;
    }
    if b != [] {
      assert b[0] in b;
    }
    if a != [] && b != [] {
      assert a[0] == b[0] by {
        assert a[0] in b && b[0] in a;
        var i :| 0 <= i < |a| && a[i] == b[0];
        var j :| 0 <= j < |b| && b[j] == a[0];
      }
      forall c ensures c in a[1..] <==> c in b[1..] {
        if c in a[1..] {
          var i :| 1 <= i < |a| && a[i] == c;
          assert c in a && c in b;
          var j :| 0 <= j < |b| && b[j] == c;
          assert j != 0;
          assert b[1..][j - 1] == c;
        }
        if c in b[1..] {
          var j :| 1 <= j < |b| && b[j] == c;
          assert c in b && c in a;
          var i :| 0 <= i < |a| && a[i] == c;
          assert i != 0;
          assert a[1..][i - 1] == c;
        }
      }
      OrderedListingIsDeterministic(a[1..], b[1..]);
      assert a == [a[0]] + a[1..] && b == [b[0]] + b[1..];
    }
  }

  /** Under the unique date, `filter(fecha=...).exists()` and a single-row lookup agree. */
  lemma BloqueoLookupIsSingle(bloqueos: seq<BloqueoRecord>, fecha: Date)
    requires UniqueBloqueoFecha(bloqueos)
    ensures |Filter(bloqueos, (b: BloqueoRecord) => b.fecha == fecha)| <= 1
    ensures (exists b :: b in bloqueos && b.fecha == fecha) <==>
      |Filter(bloqueos, (b: BloqueoRecord) => b.fecha == fecha)| == 1
  {
    FilterOfUnique(bloqueos, (b: BloqueoRecord) => b.fecha == fecha);
  }

  /** Under the unique e-mail, an e-mail identifies at most one client. */
  lemma EmailIdentifiesCliente(clientes: seq<ClienteRecord>, a: ClienteRecord, b: ClienteRecord)
    requires UniqueEmail(clientes)
    requires a in clientes && b in clientes && a.email == b.email
    ensures a == b
  {
    var i :| 0 <= i < |clientes| && clientes[i] == a;
    var j :| 0 <= j < |clientes| && clientes[j] == b;
    assert i == j;
  }
}
