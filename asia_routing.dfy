/**
 * How `.asia` requests are routed: the extension class declares no handler
 * of its own, so the facade always uses the generic domain API.
 */
module AsiaRouting {
  import opened Wrappers
  import PhpArray
  import AsiaHandler
  import Registrar

  /** Every `.asia` registration, renewal and transfer goes to the generic API with the facade's parameters. */
  lemma AsiaUsesGenericApi(op: Registrar.Operation, params: PhpArray.Params)
    ensures Registrar.Route(Some(AsiaHandler.Flags), op, params) == Registrar.ToApi(Registrar.ApiCommand(op, params))
  {
  }
}
