/**
 * `POST` of frontend/app/api/clientes/route.ts on the Prisma `cliente`
 * table, whose `email` is a unique key: return the client with the
 * e-mail, or create it from the body as given.
 */
module FrontendClientesRoute {
  import opened Wrappers
  import opened Seqs
  import Web = ClientesRoute

  datatype ClienteResponse =
    | Found(cliente: Web.ClienteRow)        // 200, the whole stored row
    | NuevoCliente(cliente: Web.ClienteRow) // 201
    | ErrorAlProcesar                        // 500 'Error al procesar cliente'

  /** The response and the table after the request. */
  datatype Outcome = Outcome(resp: ClienteResponse, rows: seq<Web.ClienteRow>)

  /** `findUnique({ where: { email } })`. */
  function ByEmail(rows: seq<Web.ClienteRow>, email: string): Option<Web.ClienteRow>
  {
    Find(rows, (c: Web.ClienteRow) => c.email == email)
  }

  /**
   * The handler. Nothing is validated: a missing e-mail makes the lookup
   * throw and a missing name makes `create` throw, both into the 500
   * catch; `createFault` is any other failure of `create`.
   */
  function PostOutcome(request: Option<Web.ClienteBody>, newId: string, createFault: bool, rows: seq<Web.ClienteRow>): Outcome
  {
    if request.None? || request.value.email.None? then Outcome(ErrorAlProcesar, rows)
    else
      var b := request.value;
      var existente := ByEmail(rows, b.email.value);
      if existente.Some? then Outcome(Found(existente.value), rows)
      else if b.nombre.None? || createFault then Outcome(ErrorAlProcesar, rows)
      else Outcome(NuevoCliente(Web.NewRow(b, newId)), rows + [Web.NewRow(b, newId)])
  }

  /**
   * An existing e-mail returns the stored client unchanged and adds
   * nothing; a new one adds exactly the submitted client (surname
   * defaulted, name, e-mail and phone as given) or fails with 500; the
   * e-mails stay unique. A second identical request finds the client.
   */
  lemma FindOrCreate(b: Web.ClienteBody, newId: string, createFault: bool, rows: seq<Web.ClienteRow>)
    requires Web.UniqueEmails(rows)
    requires b.email.Some?
    ensures var o := PostOutcome(Some(b), newId, createFault, rows);
      && Web.UniqueEmails(o.rows)
      && (o.resp.Found? <==> exists c :: c in rows && c.email == b.email.value)
      && (o.resp.Found? ==> o.resp.cliente in rows && o.resp.cliente.email == b.email.value && o.rows == rows)
      && (o.resp.NuevoCliente? ==>
            && o.resp.cliente == Web.ClienteRow(newId, b.nombre.value, Web.ApellidoOrDefault(b.apellido), b.email.value, b.telefono)
            && o.rows == rows + [o.resp.cliente]
            && PostOutcome(Some(b), newId, createFault, o.rows) == Outcome(Found(o.resp.cliente), o.rows))
      && (o.resp == ErrorAlProcesar ==> o.rows == rows)
      && (o.resp == ErrorAlProcesar <==>
            !(exists c :: c in rows && c.email == b.email.value) && (b.nombre.None? || createFault))
      && (!(exists c :: c in rows && c.email == b.email.value) && b.nombre.Some? && !createFault ==>
            o == Outcome(NuevoCliente(Web.NewRow(b, newId)), rows + [Web.NewRow(b, newId)]))
  {
    var o := PostOutcome(Some(b), newId, createFault, rows);
    if o.resp.NuevoCliente? {
      var all := rows + [o.resp.cliente];
      forall i, j | 0 <= i < j < |all| ensures all[i].email != all[j].email {
        if j == |rows| {
          assert all[i] in rows;
        }
      }
      FindAppended(rows, o.resp.cliente, (c: Web.ClienteRow) => c.email == b.email.value);
    }
  }

  class ClientesTable {
    var rows: seq<Web.ClienteRow>

    constructor (initial: seq<Web.ClienteRow>)
      ensures rows == initial
    {
      rows := initial;
    }

    method Post(request: Option<Web.ClienteBody>, newId: string, createFault: bool)
      returns (resp: ClienteResponse)
      modifies this
      ensures Outcome(resp, rows) == PostOutcome(request, newId, createFault, old(rows))
    {
      if request.None? || request.value.email.None? {
        return ErrorAlProcesar;
      }
      var b := request.value;
      var existente := ByEmail(rows, b.email.value);
      if existente.Some? {
        return Found(existente.value);
      }
      if b.nombre.None? || createFault {
        return ErrorAlProcesar;
      }
      var nuevo := Web.NewRow(b, newId);
      rows := rows + [nuevo];
      return NuevoCliente(nuevo);
    }
  }
}
