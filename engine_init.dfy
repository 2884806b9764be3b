/**
 * Engine initialisation: the logger is required, a missing configuration
 * builds the default engine, an unsupported engine type is rejected, and a
 * non-zero partition count becomes the one WithPartitions option.
 */
module EngineInit {
  import opened Wrappers
  import InMemory

  /** The engine section of the configuration file. */
  datatype EngineConfig = EngineConfig(engineType: string, partitionsNumber: nat)

  /** The engine types the initialiser accepts. */
  const SupportedTypes: set<string> := {"in_memory"}

  /** The call to the engine's constructor: the options it is given. Its own result is not modelled. */
  datatype NewEngineCall = NewEngine(options: seq<InMemory.EngineOption>)

  function CreateEngine<L>(cfg: Option<EngineConfig>, logger: Option<L>): (r: Result<NewEngineCall, string>)
    ensures logger.None? ==> r == Failure("logger is invalid")
    ensures logger.Some? && cfg.None? ==> r == Success(NewEngine([]))
    ensures logger.Some? && cfg.Some? ==>
      (r.Failure? <==> cfg.value.engineType != "" && cfg.value.engineType !in SupportedTypes)
    ensures logger.Some? && r.Failure? ==> r.error == "engine type is incorrect"
    ensures cfg.Some? && r.Success? ==>
      && |r.value.options| <= 1
      && (|r.value.options| == 1 <==> cfg.value.partitionsNumber != 0)
      && (forall o :: o in r.value.options ==> o == InMemory.WithPartitions(cfg.value.partitionsNumber))
  {
    if logger.None? then Failure("logger is invalid")
    else if cfg.None? then Success(NewEngine([]))
    else if cfg.value.engineType != "" && cfg.value.engineType !in SupportedTypes then
      Failure("engine type is incorrect")
    else
      var options := if cfg.value.partitionsNumber != 0 then [InMemory.WithPartitions(cfg.value.partitionsNumber)] else [];
      Success(NewEngine(options))
  }

  /** An empty engine type and "in_memory" are accepted alike; anything else non-empty is not. */
  lemma AcceptedTypes<L>(logger: L, partitions: nat, engineType: string)
    ensures CreateEngine(Some(EngineConfig("", partitions)), Some(logger)).Success?
    ensures CreateEngine(Some(EngineConfig("in_memory", partitions)), Some(logger))
         == CreateEngine(Some(EngineConfig("", partitions)), Some(logger))
    ensures engineType != "" && engineType != "in_memory" ==>
      CreateEngine(Some(EngineConfig(engineType, partitions)), Some(logger)) == Failure("engine type is incorrect")
  {
  }
}
