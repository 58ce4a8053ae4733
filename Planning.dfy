/** What DaRPCServer.run derives from the configuration before it hands over to the
    RPC runtime: one CPU-affinity mask per worker, the queue capacities passed to
    the server group, and the fixed bind parameters. */
module Planning {
  import opened JavaInt
  import opened Options

  /** The listening port and the accept backlog are fixed constants of run. */
  const PORT: int := 1919
  const BACKLOG: int := 1000

  /** The constant third argument of createServerGroup. */
  const GROUP_FIXED_ARG: int := -1

  /** Java's `1L << i` for a worker index `i`: the shift distance of a `long` is
      masked to its low six bits, so worker `i` is bound to the single logical CPU
      `i mod 64`, and index 64 gets the same mask as index 0. */
  function AffinityMask(i: nat): (m: bv64)
    ensures OnlyBit(m, i % 64)
  {
    ShiftedOnlyBit(i % 64);
    (1 as bv64) << (i % 64)
  }

  /** Bit `k` of a 64-bit mask. */
  predicate BitSet(m: bv64, k: nat)
    requires k < 64
  {
    (m >> k) & 1 == 1
  }

  /** `m` has exactly one bit set, namely bit `k`. */
  predicate OnlyBit(m: bv64, k: nat) {
    k < 64 && forall j :: 0 <= j < 64 ==> (BitSet(m, j) <==> j == k)
  }

  lemma ShiftedOnlyBit(k: nat)
    requires k < 64
    ensures OnlyBit((1 as bv64) << k, k)
  {
    var m := (1 as bv64) << k;
    forall j | 0 <= j < 64 ensures BitSet(m, j) <==> j == k {
      ShiftedOneBit(k, j);
    }
  }

  lemma ShiftedOneBit(k: nat, j: nat)
    requires k < 64 && j < 64
    ensures BitSet((1 as bv64) << k, j) <==> j == k
  {
  }

  /** The affinity array, as a sequence: one mask per worker, and worker `i` owns
      exactly the CPU bit `i mod 64`. */
  function AffinityPlan(n: nat): (r: seq<bv64>)
    ensures |r| == n
    ensures forall i :: 0 <= i < n ==> OnlyBit(r[i], i % 64)
  {
    seq(n, i requires 0 <= i => AffinityMask(i))
  }

  /** No logical CPU is in both masks. */
  predicate SharesNoCpu(m: bv64, m': bv64) {
    forall t :: 0 <= t < 64 ==> !(BitSet(m, t) && BitSet(m', t))
  }

  /** For a pool of at most 64 workers, no two workers share a CPU, so in particular
      no two masks are equal. */
  lemma AffinityPlanDisjoint(n: nat)
    requires n <= 64
    ensures |AffinityPlan(n)| == n
    ensures forall i, j :: 0 <= i < j < n ==>
              SharesNoCpu(AffinityPlan(n)[i], AffinityPlan(n)[j]) && AffinityPlan(n)[i] != AffinityPlan(n)[j]
  {
    forall i, j | 0 <= i < j < n
      ensures SharesNoCpu(AffinityPlan(n)[i], AffinityPlan(n)[j]) && AffinityPlan(n)[i] != AffinityPlan(n)[j]
    {
      assert OnlyBit(AffinityPlan(n)[i], i % 64) && OnlyBit(AffinityPlan(n)[j], j % 64);
      assert BitSet(AffinityPlan(n)[i], i) && !BitSet(AffinityPlan(n)[j], i);
    }
  }

  /** With more than 64 workers the shift wraps: worker 64 shares worker 0's CPU. */
  lemma AffinityPlanWraps(n: nat)
    requires n > 64
    ensures AffinityPlan(n)[64] == AffinityPlan(n)[0]
  {
  }

  /** The loop of run that fills the affinity array. */
  method FillAffinities(n: nat) returns (a: array<bv64>)
    ensures a.Length == n
    ensures a[..] == AffinityPlan(n)
  {
    a := new bv64[n];
    for i := 0 to n
      invariant forall j :: 0 <= j < i ==> a[j] == AffinityMask(j)
    {
      var cpu := AffinityMask(i);
      a[i] := cpu;
    }
  }

  /** The completion-queue size `queueSize*connections*2`, evaluated as Java does:
      two `int` multiplications, each wrapping around. */
  function CompletionQueueSize(queueSize: int32, connections: int32): (r: int32)
    ensures r == Wrap32(queueSize * connections * 2)
    ensures INT_MIN <= queueSize * connections * 2 <= INT_MAX ==> r == queueSize * connections * 2
  {
    Wrap32Mul(queueSize * connections, 2);
    Wrap32(Wrap32(queueSize * connections) * 2)
  }

  /** Without overflow and for positive inputs, the completion queue holds two entries
      per request slot of every connection, so it is at least the request queue depth. */
  lemma CompletionQueueCoversDemand(queueSize: int32, connections: int32)
    requires queueSize >= 1 && connections >= 1
    requires queueSize * connections * 2 <= INT_MAX
    ensures CompletionQueueSize(queueSize, connections) == 2 * (queueSize * connections)
    ensures CompletionQueueSize(queueSize, connections) >= queueSize
  {
    MulAtLeast(queueSize, connections);
    assert queueSize * connections * 2 == 2 * (queueSize * connections);
  }

  lemma MulAtLeast(a: int, b: int)
    requires a >= 1 && b >= 1
    ensures a * b >= a
  {
  }

  /** Nothing guards against overflow: 32768 queue slots and 32768 connections give a
      negative completion-queue size. */
  lemma CompletionQueueOverflows()
    ensures CompletionQueueSize(32768, 32768) == INT_MIN
  {
  }

  /** The arguments of createServerGroup, in its order after the RPC service. */
  datatype GroupParams = GroupParams(
    affinities: seq<bv64>,
    fixedArg: int,
    maxinline: int32,
    polling: bool,
    queueDepth: int32,
    cqSize: int32,
    wqSize: int32)

  /** What run sets up before its accept loop: the service timeout of the RPC service,
      the server group's parameters, and the bound endpoint. */
  datatype ServerPlan = ServerPlan(
    serviceTimeout: int32,
    group: GroupParams,
    bindAddress: string,
    port: int,
    backlog: int)

  /** How run ends: an exception before the group exists, or a bound endpoint whose
      accept loop never returns. */
  datatype RunOutcome = UnknownHostException | NegativeArraySizeException | Serving(plan: ServerPlan)

  /** run as a function of the configuration; `resolve` stands for
      InetAddress.getByName, None when it throws. Address resolution fails first;
      only a resolved address gets as far as allocating the affinity array. */
  function Bootstrap(c: Config, resolve: Option<string> -> Option<string>): (r: RunOutcome)
    ensures r == UnknownHostException <==> resolve(c.ipAddress).None?
    ensures r == NegativeArraySizeException <==> resolve(c.ipAddress).Some? && c.poolsize < 0
  {
    match resolve(c.ipAddress)
    case None => UnknownHostException
    case Some(addr) =>
      if c.poolsize < 0 then NegativeArraySizeException
      else Serving(ServerPlan(
        c.servicetimeout,
        GroupParams(AffinityPlan(c.poolsize), GROUP_FIXED_ARG, c.maxinline, c.polling,
                    c.queueSize, CompletionQueueSize(c.queueSize, c.connections), c.wqSize),
        addr, PORT, BACKLOG))
  }

  /** A successful run passes every configuration value through unvalidated. */
  lemma BootstrapOutcome(c: Config, resolve: Option<string> -> Option<string>)
    ensures Bootstrap(c, resolve).Serving? ==>
      var p := Bootstrap(c, resolve).plan;
      && Some(p.bindAddress) == resolve(c.ipAddress)
      && p.port == 1919 && p.backlog == 1000
      && p.serviceTimeout == c.servicetimeout
      && |p.group.affinities| == c.poolsize
      && (forall i :: 0 <= i < c.poolsize ==> p.group.affinities[i] == (1 as bv64) << (i % 64))
      && (c.poolsize <= 64 ==> forall i :: 0 <= i < c.poolsize ==> OnlyBit(p.group.affinities[i], i))
      && (c.poolsize <= 64 ==> forall i, j :: 0 <= i < j < c.poolsize ==>
                                 SharesNoCpu(p.group.affinities[i], p.group.affinities[j]))
      && p.group.fixedArg == -1
      && p.group.maxinline == c.maxinline && p.group.polling == c.polling
      && p.group.queueDepth == c.queueSize
      && p.group.cqSize == Wrap32(c.queueSize * c.connections * 2)
      && p.group.wqSize == c.wqSize
  {
    if resolve(c.ipAddress).Some? && c.poolsize >= 0 && c.poolsize <= 64 {
      var plan := AffinityPlan(c.poolsize);
      forall i | 0 <= i < c.poolsize ensures OnlyBit(plan[i], i) {
        assert i % 64 == i;
      }
      AffinityPlanDisjoint(c.poolsize);
    }
  }
}
