/**
 * The partition option of the in-memory engine: it replaces the engine's
 * partition list by a new one of the requested length, every slot holding
 * a freshly created, empty hash table.
 */
module InMemory {
  /** One partition's table; its operations are not part of this model. */
  class HashTable {
    var data: map<string, string>

    /** NewHashTable: an empty table. */
    constructor ()
      ensures data == map[]
    {
      data := map[];
    }
  }

  /** The engine; only its partition list is touched by the option modelled here. */
  class Engine {
    var partitions: array<HashTable?>

    /** The engine as allocated before its options are applied: no partitions yet. */
    constructor ()
      ensures partitions.Length == 0
    {
      partitions := new HashTable?[0];
    }
  }

  /** An option passed to the engine's constructor (the source's closure over *Engine). */
  datatype EngineOption = WithPartitions(partitionsNum: nat)

  /**
   * Applying WithPartitions(n): a new list of exactly n partitions, each
   * non-nil, fresh, empty and distinct from the others; nothing else changes.
   */
  method Apply(option: EngineOption, e: Engine)
    modifies e`partitions
    ensures fresh(e.partitions) && e.partitions.Length == option.partitionsNum
    ensures forall i :: 0 <= i < e.partitions.Length ==>
      e.partitions[i] != null && fresh(e.partitions[i]) && e.partitions[i].data == map[]
    ensures forall i, j :: 0 <= i < j < e.partitions.Length ==> e.partitions[i] != e.partitions[j]
  {
    var n := option.partitionsNum;
    e.partitions := new HashTable?[n](_ => null);
    var i := 0;
    while i < n
      invariant 0 <= i <= n == e.partitions.Length
      invariant fresh(e.partitions)
      invariant forall k :: 0 <= k < i ==>
        e.partitions[k] != null && fresh(e.partitions[k]) && e.partitions[k].data == map[]
      invariant forall k, l :: 0 <= k < l < i ==> e.partitions[k] != e.partitions[l]
      modifies e.partitions
    {
      var table := new HashTable();
      e.partitions[i] := table;
      i := i + 1;
    }
  }
}
