/**
 * `POST` of app/api/clientes/route.ts on the Supabase `clientes` table:
 * validate the name and the e-mail, then find the client by e-mail or
 * create it.
 */
module ClientesRoute {
  import opened Wrappers
  import opened Seqs

  /** The request body's fields; `None` is a missing field. */
  datatype ClienteBody = ClienteBody(
    nombre: Option<string>,
    apellido: Option<string>,
    email: Option<string>,
    telefono: Option<string>)

  /** One `clientes` row. */
  datatype ClienteRow = ClienteRow(id: string, nombre: string, apellido: string, email: string, telefono: Option<string>)

  datatype ClienteResponse =
    | Existing(id: string)        // 200, only the id column is selected
    | Created(cliente: ClienteRow) // 201
    | DatosInvalidos              // 400 'Datos inválidos'
    | ErrorAlProcesar             // 500 'Error al procesar cliente'

  /** The response and the table after the request. */
  datatype Outcome = Outcome(resp: ClienteResponse, rows: seq<ClienteRow>)

  /** The surname stored when none (or an empty one) is given. */
  const DefaultApellido := "ClienteWeb"

  function ApellidoOrDefault(apellido: Option<string>): (r: string)
    ensures r != []
    ensures apellido.Some? && apellido.value != [] ==> r == apellido.value
    ensures apellido.None? || apellido.value == [] ==> r == DefaultApellido
  {
    if apellido.Some? && apellido.value != [] then apellido.value else DefaultApellido
  }

  /**
   * `clienteSchema.safeParse(body).success`: a name of two or more
   * characters and an e-mail the validator accepts (`emailValid`, its
   * verdict on `email`).
   */
  predicate ValidBody(b: ClienteBody, emailValid: bool)
  {
    b.nombre.Some? && |b.nombre.value| >= 2 && b.email.Some? && emailValid
  }

  /** The rows the lookup selects. */
  function WithEmail(rows: seq<ClienteRow>, email: string): seq<ClienteRow>
  {
    Filter(rows, (c: ClienteRow) => c.email == email)
  }

  /** No two clients share an e-mail. */
  predicate UniqueEmails(rows: seq<ClienteRow>)
  {
    forall i, j :: 0 <= i < j < |rows| ==> rows[i].email != rows[j].email
  }

  function NewRow(b: ClienteBody, id: string): ClienteRow
    requires b.nombre.Some? && b.email.Some?
  {
    ClienteRow(id, b.nombre.value, ApellidoOrDefault(b.apellido), b.email.value, b.telefono)
  }

  /**
   * The handler. `request` is the parsed JSON (`None`: not JSON, which
   * throws into the catch), `newId` the id the store generates and
   * `insertFault` whether the insert fails. `.single()` yields the row
   * only when exactly one matches.
   */
  function PostOutcome(request: Option<ClienteBody>, emailValid: bool, newId: string, insertFault: bool, rows: seq<ClienteRow>): Outcome
  {
    if request.None? then Outcome(ErrorAlProcesar, rows)
    else if !ValidBody(request.value, emailValid) then Outcome(DatosInvalidos, rows)
    else
      var b := request.value;
      var found := WithEmail(rows, b.email.value);
      if |found| == 1 then Outcome(Existing(found[0].id), rows)
      else if insertFault then Outcome(ErrorAlProcesar, rows)
      else Outcome(Created(NewRow(b, newId)), rows + [NewRow(b, newId)])
  }

  /**
   * A body that is not JSON is a 500; a name shorter than two characters,
   * a missing name or e-mail, or an e-mail the validator refuses is a 400.
   * Neither touches the table.
   */
  lemma RejectsBeforeLookup(request: Option<ClienteBody>, emailValid: bool, newId: string, insertFault: bool, rows: seq<ClienteRow>)
    ensures request.None? ==> PostOutcome(request, emailValid, newId, insertFault, rows) == Outcome(ErrorAlProcesar, rows)
    ensures request.Some? && (request.value.nombre.None? || |request.value.nombre.value| < 2 || request.value.email.None? || !emailValid) ==>
      PostOutcome(request, emailValid, newId, insertFault, rows) == Outcome(DatosInvalidos, rows)
  {
  }

  /**
   * With unique e-mails, a valid request returns the client that has the
   * e-mail when there is one and leaves the table alone; otherwise it
   * adds exactly one row with the submitted fields (surname defaulted),
   * or answers 500. Either way the e-mails stay unique.
   */
  lemma FindOrCreate(b: ClienteBody, emailValid: bool, newId: string, insertFault: bool, rows: seq<ClienteRow>)
    requires UniqueEmails(rows)
    requires ValidBody(b, emailValid)
    ensures var o := PostOutcome(Some(b), emailValid, newId, insertFault, rows);
      && UniqueEmails(o.rows)
      && (o.resp.Existing? <==> exists c :: c in rows && c.email == b.email.value)
      && (o.resp.Existing? ==> o.rows == rows && exists c :: c in rows && c.email == b.email.value && c.id == o.resp.id)
      && (!o.resp.Existing? && !insertFault ==>
            o.resp == Created(NewRow(b, newId)) && o.rows == rows + [NewRow(b, newId)])
      && (!o.resp.Existing? && insertFault ==> o.resp == ErrorAlProcesar && o.rows == rows)
  {
    var p := (c: ClienteRow) => c.email == b.email.value;
    assert AtMostOne(rows, p);
    FilterOfUnique(rows, p);
    var o := PostOutcome(Some(b), emailValid, newId, insertFault, rows);
    if o.resp.Created? {
      var all := rows + [NewRow(b, newId)];
      forall i, j | 0 <= i < j < |all| ensures all[i].email != all[j].email {
        if j == |rows| {
          assert all[i] in rows;
        }
      }
    }
  }

  /**
   * Repeating a request is idempotent: once it has created or found the
   * client, the same request returns that client's id and adds nothing.
   */
  lemma PostIdempotent(b: ClienteBody, emailValid: bool, id1: string, id2: string, fault2: bool, rows: seq<ClienteRow>)
    requires UniqueEmails(rows)
    requires ValidBody(b, emailValid)
    requires PostOutcome(Some(b), emailValid, id1, false, rows).resp != ErrorAlProcesar
    ensures var first := PostOutcome(Some(b), emailValid, id1, false, rows);
      var second := PostOutcome(Some(b), emailValid, id2, fault2, first.rows);
      && second.rows == first.rows
      && second.resp == Existing(if first.resp.Existing? then first.resp.id else id1)
  {
    FindOrCreate(b, emailValid, id1, false, rows);
    var first := PostOutcome(Some(b), emailValid, id1, false, rows);
    var p := (c: ClienteRow) => c.email == b.email.value;
    assert AtMostOne(first.rows, p);
    FilterOfUnique(first.rows, p);
    if first.resp.Created? {
      assert NewRow(b, id1) in first.rows;
    }
    var c := Filter(first.rows, p)[0];
    assert c in first.rows && c.email == b.email.value;
    if first.resp.Existing? {
      var d :| d in rows && d.email == b.email.value && d.id == first.resp.id;
      assert d in Filter(first.rows, p);
    } else {
      assert NewRow(b, id1) in Filter(first.rows, p);
    }
  }

  class ClientesTable {
    var rows: seq<ClienteRow>

    constructor (initial: seq<ClienteRow>)
      ensures rows == initial
    {
      rows := initial;
    }

    method Post(request: Option<ClienteBody>, emailValid: bool, newId: string, insertFault: bool)
      returns (resp: ClienteResponse)
      modifies this
      ensures Outcome(resp, rows) == PostOutcome(request, emailValid, newId, insertFault, old(rows))
    {
      if request.None? {
        return ErrorAlProcesar;
      }
      var b := request.value;
      if !ValidBody(b, emailValid) {
        return DatosInvalidos;
      }
      var found := WithEmail(rows, b.email.value);
      if |found| == 1 {
        return Existing(found[0].id);
      }
      if insertFault {
        return ErrorAlProcesar;
      }
      var nuevo := NewRow(b, newId);
      rows := rows + [nuevo];
      return Created(nuevo);
    }
  }
}
