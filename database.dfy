/**
 * The database front: its constructor checks its three collaborators, and
 * HandleQuery parses a query and dispatches it on the command identifier.
 */
module Database {
  import opened Wrappers
  import Compute

  /** The compute layer's Parse. */
  type Parser = string -> Result<Compute.Query, string>

  /** The three per-command handlers (their bodies are not part of this model). */
  datatype Handlers = Handlers(setHandler: Compute.Query -> string, getHandler: Compute.Query -> string, delHandler: Compute.Query -> string)

  datatype Database<S, L> = Database(computeLayer: Parser, storageLayer: S, logger: L)

  const ErrorPrefix := "[error] "
  const InternalError := "[error] internal error"

  /** NewDatabase: compute layer, then storage layer, then logger. */
  function NewDatabase<S, L>(computeLayer: Option<Parser>, storageLayer: Option<S>, logger: Option<L>)
    : (r: Result<Database<S, L>, string>)
    ensures computeLayer.None? ==> r.Failure? && r.error == "compute is invalid"
    ensures computeLayer.Some? && storageLayer.None? ==> r.Failure? && r.error == "storage is invalid"
    ensures computeLayer.Some? && storageLayer.Some? && logger.None? ==>
      r.Failure? && r.error == "logger is invalid"
    ensures r.Success? <==> computeLayer.Some? && storageLayer.Some? && logger.Some?
    ensures r.Success? ==>
      && r.value.computeLayer == computeLayer.value
      && r.value.storageLayer == storageLayer.value
      && r.value.logger == logger.value
  {
    if computeLayer.None? then Failure("compute is invalid")
    else if storageLayer.None? then Failure("storage is invalid")
    else if logger.None? then Failure("logger is invalid")
    else Success(Database(computeLayer.value, storageLayer.value, logger.value))
  }

  /** HandleQuery: a parse error is reported, SET/GET/DEL are dispatched, any other identifier is an internal error. */
  function HandleQuery<S, L>(d: Database<S, L>, handlers: Handlers, queryStr: string): (out: string)
    ensures d.computeLayer(queryStr).Failure? ==> out == ErrorPrefix + d.computeLayer(queryStr).error
    ensures d.computeLayer(queryStr).Success? ==>
      var q := d.computeLayer(queryStr).value;
      && (q.commandId == Compute.SetCommandID ==> out == handlers.setHandler(q))
      && (q.commandId == Compute.GetCommandID ==> out == handlers.getHandler(q))
      && (q.commandId == Compute.DelCommandID ==> out == handlers.delHandler(q))
      && (q.commandId !in {Compute.SetCommandID, Compute.GetCommandID, Compute.DelCommandID} ==> out == InternalError)
  {
    match d.computeLayer(queryStr)
    case Failure(err) => ErrorPrefix + err
    case Success(query) =>
      if query.commandId == Compute.SetCommandID then handlers.setHandler(query)
      else if query.commandId == Compute.GetCommandID then handlers.getHandler(query)
      else if query.commandId == Compute.DelCommandID then handlers.delHandler(query)
      else InternalError
  }

  /** Neither a handler's answer nor a reported parse error is the internal-error answer. */
  ghost predicate Distinguishable(d: Parser, handlers: Handlers) {
    && (forall q :: handlers.setHandler(q) != InternalError && handlers.getHandler(q) != InternalError && handlers.delHandler(q) != InternalError)
    && (forall s :: d(s).Failure? ==> d(s).error != "internal error")
  }

  /**
   * When the answers are distinguishable, the internal error is produced
   * exactly for a query that parses to an identifier other than SET, GET, DEL;
   * with a parser that only yields known-or-unknown identifiers, exactly for
   * the unknown one.
   */
  lemma InternalErrorExactlyForUnknownIds<S, L>(d: Database<S, L>, handlers: Handlers, queryStr: string)
    requires Distinguishable(d.computeLayer, handlers)
    ensures HandleQuery(d, handlers, queryStr) == InternalError <==>
      d.computeLayer(queryStr).Success? &&
      d.computeLayer(queryStr).value.commandId !in {Compute.SetCommandID, Compute.GetCommandID, Compute.DelCommandID}
    ensures d.computeLayer(queryStr).Success? && Compute.IsCommandID(d.computeLayer(queryStr).value.commandId) ==>
      (HandleQuery(d, handlers, queryStr) == InternalError <==>
       d.computeLayer(queryStr).value.commandId == Compute.UnknownCommandID)
  {
    var r := d.computeLayer(queryStr);
    assert InternalError == ErrorPrefix + "internal error";
    if r.Failure? {
      assert (ErrorPrefix + r.error)[|ErrorPrefix|..] == r.error;
    }
  }
}
