/** Staging over many servers: each keeps blocks in nested maps, and together
    they act as one flat store. */
module Staging {
  import opened Words

  datatype Block = Block(data: seq<char>, dimensions: seq<u64>, offsets: seq<int>, elementType: int)

  type Blocks = map<u64, Block>
  type Datasets = map<string, Blocks>
  type Nested = map<u64, Datasets>

  datatype Key = Key(iteration: u64, dataset: string, block: u64)

  predicate Has(n: Nested, key: Key) {
    && key.iteration in n
    && key.dataset in n[key.iteration]
    && key.block in n[key.iteration][key.dataset]
  }

  function Lookup(n: Nested, key: Key): Block
    requires Has(n, key)
  {
    n[key.iteration][key.dataset][key.block]
  }

  /** `n[iteration][dataset][block] = value`, creating the levels that are missing. */
  function Insert(n: Nested, key: Key, value: Block): Nested {
    var datasets: Datasets := if key.iteration in n then n[key.iteration] else map[];
    var blocks: Blocks := if key.dataset in datasets then datasets[key.dataset] else map[];
    n[key.iteration := datasets[key.dataset := blocks[key.block := value]]]
  }

  /** The dummy backend. */
  class DummyPipeline {
    var m_datasets: Nested

    constructor ()
      ensures m_datasets == map[]
    {
      m_datasets := map[];
    }

    /** `transferred` tells whether the data could be pulled from the sender. */
    method Stage(key: Key, value: Block, transferred: bool) returns (success: bool)
      modifies this
      ensures success <==> !Has(old(m_datasets), key) && transferred
      ensures m_datasets == if success then Insert(old(m_datasets), key, value) else old(m_datasets)
    {
      if key.iteration in m_datasets && key.dataset in m_datasets[key.iteration] &&
         key.block in m_datasets[key.iteration][key.dataset] {
        return false;
      }
      success := transferred;
      if success {
        m_datasets := Insert(m_datasets, key, value);
      }
    }

    method Cleanup(iteration: u64)
      modifies this
      ensures m_datasets == old(m_datasets) - {iteration}
    {
      m_datasets := m_datasets - {iteration};
    }

    /** abort only writes a log line: what was staged stays. */
    method Abort(iteration: u64)
      ensures unchanged(this)
    {
    }
  }

  // ----- Many servers -----

  type HashFunction = (string, u64, u64) -> u64

  /** The routing function that a handle is created with. */
  function DefaultHash(dataset: string, iteration: u64, block: u64): u64 {
    block
  }

  /** The server that a block is sent to. */
  function Route(hash: HashFunction, servers: nat, key: Key): (i: nat)
    requires servers > 0
    ensures i < servers
  {
    hash(key.dataset, key.iteration, key.block) % servers
  }

  ghost function Contents(servers: seq<DummyPipeline>): seq<Nested>
    reads servers
  {
    seq(|servers|, i requires 0 <= i < |servers| reads servers => servers[i].m_datasets)
  }

  ghost predicate DistinctServers(servers: seq<DummyPipeline>) {
    forall i, j :: 0 <= i < j < |servers| ==> servers[i] != servers[j]
  }

  datatype StageError = EmptyView | Rejected

  function StageAll(stores: seq<Nested>, hash: HashFunction, key: Key, value: Block, transferred: bool): seq<Nested> {
    if stores == [] then stores
    else
      var i := Route(hash, |stores|, key);
      if Has(stores[i], key) || !transferred then stores else stores[i := Insert(stores[i], key, value)]
  }

  function CleanupAll(stores: seq<Nested>, iteration: u64): seq<Nested> {
    seq(|stores|, i requires 0 <= i < |stores| => stores[i] - {iteration})
  }

  /** DistributedPipelineHandle::stage: pick the server and stage there. */
  method Stage(servers: seq<DummyPipeline>, hash: HashFunction, key: Key, value: Block, transferred: bool)
    returns (error: Option<StageError>)
    requires DistinctServers(servers)
    modifies servers
    ensures Contents(servers) == StageAll(old(Contents(servers)), hash, key, value, transferred)
    ensures error == Some(EmptyView) <==> servers == []
    ensures servers != [] ==>
              (error == None <==> !Has(old(Contents(servers))[Route(hash, |servers|, key)], key) && transferred)
  {
    if |servers| == 0 {
      return Some(EmptyView);
    }
    var i := Route(hash, |servers|, key);
    ghost var before := Contents(servers);
    var success := servers[i].Stage(key, value, transferred);
    error := if success then None else Some(Rejected);
    assert Contents(servers)[i] == servers[i].m_datasets;
    assert forall j :: 0 <= j < |servers| && j != i ==> servers[j].m_datasets == before[j];
  }

  /** cleanup on every server of the view. */
  method Cleanup(servers: seq<DummyPipeline>, iteration: u64)
    requires DistinctServers(servers)
    modifies servers
    ensures Contents(servers) == CleanupAll(old(Contents(servers)), iteration)
  {
    ghost var before := Contents(servers);
    for i := 0 to |servers|
      invariant forall j :: 0 <= j < i ==> servers[j].m_datasets == before[j] - {iteration}
      invariant forall j :: i <= j < |servers| ==> servers[j].m_datasets == before[j]
    {
      servers[i].Cleanup(iteration);
    }
  }

  // ----- One flat store -----

  type Flat = map<Key, Block>

  /** Server i holds exactly the blocks of the flat store that are routed to it. */
  ghost predicate Refines(stores: seq<Nested>, flat: Flat, hash: HashFunction) {
    && stores != []
    && forall i, key :: 0 <= i < |stores| ==> Holds(stores, flat, hash, i, key)
  }

  ghost predicate Holds(stores: seq<Nested>, flat: Flat, hash: HashFunction, i: nat, key: Key)
    requires stores != [] && i < |stores|
  {
    && (Has(stores[i], key) <==> key in flat && Route(hash, |stores|, key) == i)
    && (Has(stores[i], key) ==> Lookup(stores[i], key) == flat[key])
  }

  datatype Op =
    | StageOp(key: Key, value: Block, transferred: bool)
    | CleanupOp(iteration: u64)
    | AbortOp(iteration: u64)

  function Do(stores: seq<Nested>, hash: HashFunction, op: Op): seq<Nested> {
    match op
    case StageOp(key, value, transferred) => StageAll(stores, hash, key, value, transferred)
    case CleanupOp(iteration) => CleanupAll(stores, iteration)
    case AbortOp(_) => stores
  }

  function DoFlat(flat: Flat, op: Op): Flat {
    match op
    case StageOp(key, value, transferred) => if key in flat || !transferred then flat else flat[key := value]
    case CleanupOp(iteration) => map key | key in flat && key.iteration != iteration :: flat[key]
    case AbortOp(_) => flat
  }

  /** Whether the system accepts a stage request. */
  predicate Accepts(stores: seq<Nested>, hash: HashFunction, op: Op)
    requires stores != []
  {
    op.StageOp? ==> op.transferred && !Has(stores[Route(hash, |stores|, op.key)], op.key)
  }

  lemma {:induction false} InsertHas(n: Nested, key: Key, value: Block, other: Key)
    ensures Has(Insert(n, key, value), other) <==> other == key || Has(n, other)
    ensures other == key ==> Lookup(Insert(n, key, value), other) == value
    ensures other != key && Has(n, other) ==> Lookup(Insert(n, key, value), other) == Lookup(n, other)
  {
  }

  lemma {:induction false} OpRefines(stores: seq<Nested>, flat: Flat, hash: HashFunction, op: Op)
    requires Refines(stores, flat, hash)
    ensures Refines(Do(stores, hash, op), DoFlat(flat, op), hash)
    ensures op.StageOp? ==> (Accepts(stores, hash, op) <==> op.transferred && op.key !in flat)
  {
    var after, flat' := Do(stores, hash, op), DoFlat(flat, op);
    if op.StageOp? {
      assert Holds(stores, flat, hash, Route(hash, |stores|, op.key), op.key);
    }
    forall i, key | 0 <= i < |after|
      ensures Holds(after, flat', hash, i, key)
    {
      assert Holds(stores, flat, hash, i, key);
      if op.StageOp? {
        InsertHas(stores[i], op.key, op.value, key);
      }
    }
  }

  function DoSeq(stores: seq<Nested>, hash: HashFunction, ops: seq<Op>): seq<Nested>
    decreases |ops|
  {
    if ops == [] then stores else DoSeq(Do(stores, hash, ops[0]), hash, ops[1..])
  }

  function DoFlatSeq(flat: Flat, ops: seq<Op>): Flat
    decreases |ops|
  {
    if ops == [] then flat else DoFlatSeq(DoFlat(flat, ops[0]), ops[1..])
  }

  /** In any sequence of stages from any ranks, cleanups and aborts, the servers
      together are the flat store. */
  lemma {:induction false} ManyServersRefineOneStore(stores: seq<Nested>, flat: Flat, hash: HashFunction, ops: seq<Op>)
    requires Refines(stores, flat, hash)
    ensures Refines(DoSeq(stores, hash, ops), DoFlatSeq(flat, ops), hash)
    decreases |ops|
  {
    if ops != [] {
      OpRefines(stores, flat, hash, ops[0]);
      ManyServersRefineOneStore(Do(stores, hash, ops[0]), DoFlat(flat, ops[0]), hash, ops[1..]);
    }
  }

  /** Starting from empty servers: a stage is accepted exactly when the flat
      store lacks the key and the data came through; each block is on exactly
      one server; a cleanup empties its iteration. */
  lemma {:induction false} OneStore(n: nat, hash: HashFunction, ops: seq<Op>, op: Op, key: Key)
    requires n > 0
    ensures var stores, flat := DoSeq(seq(n, _ => map[]), hash, ops), DoFlatSeq(map[], ops);
            && |stores| == n
            && (op.StageOp? ==> (Accepts(stores, hash, op) <==> op.transferred && op.key !in flat))
            && (forall i :: 0 <= i < n ==> (Has(stores[i], key) <==> key in flat && i == Route(hash, n, key)))
            && (forall i :: 0 <= i < n ==> !Has(CleanupAll(stores, key.iteration)[i], key))
  {
    var empty := seq(n, _ => map[]);
    var stores, flat := DoSeq(empty, hash, ops), DoFlatSeq(map[], ops);
    ManyServersRefineOneStore(empty, map[], hash, ops);
    SameCount(empty, hash, ops);
    OpRefines(stores, flat, hash, op);
    forall i | 0 <= i < n
      ensures Has(stores[i], key) <==> key in flat && Route(hash, n, key) == i
    {
      assert Holds(stores, flat, hash, i, key);
    }
  }

  lemma {:induction false} SameCount(stores: seq<Nested>, hash: HashFunction, ops: seq<Op>)
    ensures |DoSeq(stores, hash, ops)| == |stores|
    decreases |ops|
  {
    if ops != [] {
      SameCount(Do(stores, hash, ops[0]), hash, ops[1..]);
    }
  }

  /** The first request that brings a block of that key; |ops| if there is none. */
  function FirstFor(ops: seq<Op>, key: Key): (j: nat)
    ensures j <= |ops|
    ensures j < |ops| ==> ops[j].StageOp? && ops[j].key == key && ops[j].transferred
    ensures forall i :: 0 <= i < j ==> !(ops[i].StageOp? && ops[i].key == key && ops[i].transferred)
    decreases |ops|
  {
    if ops == [] || (ops[0].StageOp? && ops[0].key == key && ops[0].transferred) then 0
    else 1 + FirstFor(ops[1..], key)
  }

  /** As long as nothing is cleaned up, the first block staged under a key stays. */
  lemma {:induction false} FirstStageWins(flat: Flat, ops: seq<Op>, key: Key)
    requires forall i :: 0 <= i < |ops| ==> !ops[i].CleanupOp?
    ensures var after, j := DoFlatSeq(flat, ops), FirstFor(ops, key);
            if key in flat then key in after && after[key] == flat[key]
            else if j < |ops| then key in after && after[key] == ops[j].value
            else key !in after
    decreases |ops|
  {
    if ops != [] {
      FirstStageWins(DoFlat(flat, ops[0]), ops[1..], key);
    }
  }

  /** Two ranks that route by different functions store one block twice. */
  lemma {:induction false} DifferentFunctionsDuplicate(stores: seq<Nested>, hash: HashFunction, other: HashFunction,
                                                       key: Key, a: Block, b: Block)
    requires stores != [] && forall i :: 0 <= i < |stores| ==> !Has(stores[i], key)
    ensures var once := StageAll(stores, hash, key, a, true);
            Accepts(once, other, StageOp(key, b, true)) <==> Route(hash, |stores|, key) != Route(other, |stores|, key)
  {
    var i := Route(hash, |stores|, key);
    InsertHas(stores[i], key, a, key);
  }

  // ----- The default routing is balanced -----

  /** How many of the blocks 0..n-1 of a dataset, in an iteration, go to server i of m. */
  function CountTo(dataset: string, iteration: u64, n: nat, m: nat, i: nat): nat
    requires m > 0 && n <= TWO64
  {
    if n == 0 then 0
    else
      CountTo(dataset, iteration, n - 1, m, i) +
      if Route(DefaultHash, m, Key(iteration, dataset, n - 1)) == i then 1 else 0
  }

  /** A block that its server lacks is stored on server b % m, whatever its dataset
      and iteration, and on that one only. */
  lemma {:induction false} DefaultPlacement(stores: seq<Nested>, key: Key, value: Block, i: nat)
    requires stores != [] && i < |stores| && !Has(stores[key.block % |stores|], key)
    ensures Accepts(stores, DefaultHash, StageOp(key, value, true))
    ensures var after := StageAll(stores, DefaultHash, key, value, true);
            |after| == |stores| &&
            if i == key.block % |stores| then Has(after[i], key) && Lookup(after[i], key) == value
            else after[i] == stores[i]
  {
    InsertHas(stores[key.block % |stores|], key, value, key);
  }

  lemma {:induction false} NextBlock(n: nat, m: nat)
    requires m > 0
    ensures if n % m == m - 1 then (n + 1) / m == n / m + 1 && (n + 1) % m == 0
            else (n + 1) / m == n / m && (n + 1) % m == n % m + 1
  {
    var q, r := n / m, n % m;
    assert n == q * m + r;
    if r == m - 1 {
      assert n + 1 == (q + 1) * m;
      DivModUnique(n + 1, m, q + 1, 0);
    } else {
      DivModUnique(n + 1, m, q, r + 1);
    }
  }

  lemma {:induction false} DivModUnique(n: nat, m: nat, q: nat, r: nat)
    requires m > 0 && n == q * m + r && r < m
    ensures n / m == q && n % m == r
  {
    var q' := n / m;
    assert n == q' * m + n % m;
    MulGap(q', q, m);
    MulGap(q, q', m);
  }

  lemma {:induction false} MulGap(a: nat, b: nat, m: nat)
    ensures a < b ==> a * m + m <= b * m
    decreases b
  {
    if a < b {
      MulGap(a, b - 1, m);
      assert b * m == (b - 1) * m + m;
    }
  }

  lemma {:induction false} RoutingIsBalanced(dataset: string, iteration: u64, n: nat, m: nat, i: nat)
    requires 0 < m && n <= TWO64 && i < m
    ensures CountTo(dataset, iteration, n, m, i) == n / m + if i < n % m then 1 else 0
  {
    if n == 0 {
      DivModUnique(0, m, 0, 0);
    } else {
      RoutingIsBalanced(dataset, iteration, n - 1, m, i);
      NextBlock(n - 1, m);
    }
  }

  function SumCounts(dataset: string, iteration: u64, n: nat, m: nat, upTo: nat): nat
    requires 0 < m && n <= TWO64 && upTo <= m
  {
    if upTo == 0 then 0
    else SumCounts(dataset, iteration, n, m, upTo - 1) + CountTo(dataset, iteration, n, m, upTo - 1)
  }

  lemma {:induction false} SumOfParts(dataset: string, iteration: u64, n: nat, m: nat, upTo: nat, q: nat, r: nat)
    requires 0 < m && n <= TWO64 && upTo <= m
    requires forall i :: 0 <= i < m ==> CountTo(dataset, iteration, n, m, i) == q + if i < r then 1 else 0
    ensures SumCounts(dataset, iteration, n, m, upTo) == upTo * q + if upTo <= r then upTo else r
  {
    if upTo > 0 {
      SumOfParts(dataset, iteration, n, m, upTo - 1, q, r);
      OneTimesMore(upTo - 1, q);
    }
  }

  lemma {:induction false} OneTimesMore(a: nat, q: nat)
    ensures (a + 1) * q == a * q + q
  {
  }

  lemma {:induction false} Parts(dataset: string, iteration: u64, n: nat, m: nat) returns (q: nat, r: nat)
    requires 0 < m && n <= TWO64
    ensures n == m * q + r && r < m
    ensures forall i :: 0 <= i < m ==> CountTo(dataset, iteration, n, m, i) == q + if i < r then 1 else 0
  {
    q, r := n / m, n % m;
    forall i | 0 <= i < m
      ensures CountTo(dataset, iteration, n, m, i) == q + if i < r then 1 else 0
    {
      RoutingIsBalanced(dataset, iteration, n, m, i);
    }
  }

  /** All blocks are counted. */
  lemma {:induction false} CountsAddUp(dataset: string, iteration: u64, n: nat, m: nat)
    requires 0 < m && n <= TWO64
    ensures SumCounts(dataset, iteration, n, m, m) == n
  {
    var q, r := Parts(dataset, iteration, n, m);
    SumOfParts(dataset, iteration, n, m, m, q, r);
  }
}
