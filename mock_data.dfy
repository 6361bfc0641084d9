/**
 * The client catalogue the controller looks clients up in
 * (backend/src/data/mockData.ts): three fixed commercial policies keyed by
 * client id.
 */
module MockData {
  import opened Types

  const ClienteA: ClientData := ClientData(
    "clienteA", "Supermercados DelSur", "Cliente Premium - 50 pedidos en el último año",
    50000000.0, 20.0, Premium, 12.0)

  const ClienteB: ClientData := ClientData(
    "clienteB", "Restaurantes Gourmet SAS", "Cliente Regular - 25 pedidos en el último año",
    30000000.0, 15.0, Regular, 15.0)

  const ClienteC: ClientData := ClientData(
    "clienteC", "Distribuidora NorteCol", "Cliente Nuevo - Primer pedido",
    10000000.0, 10.0, Nuevo, 18.0)

  /** The keys of `MOCK_CLIENTS`. */
  predicate IsCatalogued(clienteId: string)
  {
    clienteId == "clienteA" || clienteId == "clienteB" || clienteId == "clienteC"
  }

  /**
   * `MOCK_CLIENTS[clienteId]`: the policy stored under that key, if any. Every
   * stored policy carries its own key as id and a positive credit limit, and
   * the three categories appear once each.
   */
  function FindClient(clienteId: string): (c: Option<ClientData>)
    ensures c.Some? <==> IsCatalogued(clienteId)
    ensures c.Some? ==> c.value.id == clienteId
    ensures c.Some? ==> c.value.limiteCredito > 0.0 && c.value.descuentoMaximo >= 0.0
    ensures c.Some? ==> (c.value.categoria == Premium <==> clienteId == "clienteA")
    ensures c.Some? ==> (c.value.categoria == Nuevo <==> clienteId == "clienteC")
  {
    if clienteId == "clienteA" then Some(ClienteA)
    else if clienteId == "clienteB" then Some(ClienteB)
    else if clienteId == "clienteC" then Some(ClienteC)
    else None
  }
}
