# DaRPCServer: option resolution and server dimensioning

This project models the sequential core of DaRPC's example RPC server,
`DaRPCServer`, and proves properties of that model. The core has three parts:

- **Option resolution (`launch`).** An empty argument list ends the process with
  `System.exit(0)` before any option is read. Otherwise an optional leading program
  name is stripped from the arguments, and the option parser produces a stream of
  events. Each event either updates one configuration field of the server object,
  or, for `-s`, sets the static `SERIALIZED_SIZE` fields of `RdmaRpcRequest` and
  `RdmaRpcResponse`, or ends the process with `System.exit(1)` or an uncaught
  `NumberFormatException`.
- **Affinity planning (`run`).** A `long[poolsize]` array is filled with
  `1L << i` for worker `i`. A negative pool size makes the allocation throw.
- **Capacity parameters (`run`).** These are the values handed to the server group:
  request queue depth `queueSize`, completion-queue size `queueSize*connections*2`
  in wrapping 32-bit `int` arithmetic, work-queue size `wqSize`, `maxinline`,
  `polling` and the fixed `-1`. The endpoint is bound on port 1919 with
  backlog 1000.

Files:

- `JavaInt.dfy` (module `JavaInt`): Java's `int` range and its wrap-around modulo 2^32.
- `Options.dfy` (module `Options`): the server's fields as a value (`Config`) and the
  option events. `Apply` is one pass of the dispatch loop and `ResolveAll` is the whole
  loop. The lemmas about them cover last-occurrence-wins, one field per option,
  halting, and polling and work-queue monotonicity.
- `Planning.dfy` (module `Planning`): the affinity masks and the loop that fills the
  affinity array, the completion-queue size, and `Bootstrap`, which is `run` as a
  function of the configuration.
- `Server.dfy` (module `Server`): class `DaRPCServer`, whose mutable fields are those
  of the Java class, with its constructor, `Run` and `Launch`. It also holds class
  `SerializedSizes` for the two process-wide `SERIALIZED_SIZE` statics and the copy
  loop `StripProgramName`.
- `Scenarios.dfy` (module `Scenarios`): concrete command lines evaluated in the model.

External calls are parameters:

- The option parser `GetOpt` is a function `getopt` from the stripped arguments to
  the event sequence.
- `Integer.parseInt` is the `number` part of an event. `None` means the call would
  throw.
- `InetAddress.getByName` is a function `resolve`. `None` means it throws.
- Java's `long` masks are `bv64`. The shift distance is taken modulo 64, as the JVM
  does, so the one-bit-per-worker facts are proved for pools of at most 64 workers.
  Lemma `AffinityPlanWraps` shows that worker 64 gets worker 0's mask.

The code has these behaviours, which a reader may not expect:

- No capacity is validated. A zero or negative queue size, connection count or
  work-queue size passes straight through. There is no InvalidCapacity error: see
  `Scenarios.ZeroQueueAccepted`.
- `wqSize` is copied from the initial `queueSize` (16) once, when the object is built.
  `-q` never changes it. So `-a 127.0.0.1 -p 4 -q 32 -c 8` gives a work-queue size
  of 16, not 32: see `Scenarios.QueueOptionKeepsWorkQueue`.
- The `t` branch of the dispatch loop is modelled as written. It sets
  `servicetimeout` whenever the parser emits a `t` event. Whether it can emit one
  depends on the option string, and that is parser behaviour not modelled here.
- The completion-queue size is computed in 32-bit arithmetic and can wrap to a
  negative value: see `Planning.CompletionQueueOverflows`. The "at least the demand"
  property holds only when there is no overflow: see
  `Planning.CompletionQueueCoversDemand`.

## Model

| member | source | states |
|---|---|---|
| `Server.DaRPCServer.constructor` | src/test/java/com/ibm/darpc/examples/server/DaRPCServer.java:35-42 | A new server has poolsize 3, queueSize 16, wqSize 16 (the initial queueSize), servicetimeout 0, polling false, maxinline 0, connections 16 and no address |
| `Server.StripProgramName` | src/test/java/com/ibm/darpc/examples/server/DaRPCServer.java:64-72 | If the first argument is the class's canonical name, the option input is exactly the remaining arguments in their order; otherwise it is the arguments unchanged |
| `Server.DaRPCServer.Launch` | src/test/java/com/ibm/darpc/examples/server/DaRPCServer.java:63-105 | Empty arguments exit with code 0 and change nothing. Otherwise the new fields and message sizes are the resolution of the parser's events over the stripped arguments. The outcome is the halt of the first rejected event, or `run` on the resolved fields |
| `Server.SerializedSizes.constructor` | src/test/java/com/ibm/darpc/examples/server/DaRPCServer.java:83-84 | Stands for the two process-wide statics `RdmaRpcRequest.SERIALIZED_SIZE` and `RdmaRpcResponse.SERIALIZED_SIZE` that `-s` assigns. A new holder has exactly the given request and response sizes |
| `Server.DaRPCServer.Run` | src/test/java/com/ibm/darpc/examples/server/DaRPCServer.java:44-57 | `run` up to its accept loop yields exactly what `Bootstrap` prescribes for the current fields, and changes no field |
| `Options.Apply` | src/test/java/com/ibm/darpc/examples/server/DaRPCServer.java:79-101 | An event is processed without stopping exactly when its character has a branch and, for a numeric option, its argument parses. A halting event leaves the settings untouched. It is `System.exit(1)` exactly when the character has no branch |
| `Options.ResolveAll` | src/test/java/com/ibm/darpc/examples/server/DaRPCServer.java:78-102 | The dispatch loop applies the events in order until one halts. A halt is always caused by an event the loop did not accept, and it is that event's halt: exit 1 for an unknown character, NumberFormatException otherwise |
| `Options.ApplyChangesOnlyItsSlot` | src/test/java/com/ibm/darpc/examples/server/DaRPCServer.java:79-101 | An accepted event stores its argument in its own field and leaves every other option's field unchanged. `-d` stores true, and `-s` gives both message sizes the same value |
| `Options.SlotsCoverSettings` | src/test/java/com/ibm/darpc/examples/server/DaRPCServer.java:35-42 | The per-option fields cover all settings: two settings that agree on every option's field are equal, so "every other field unchanged" leaves nothing out |
| `Options.HaltPersists` | src/test/java/com/ibm/darpc/examples/server/DaRPCServer.java:99-100 | Once an event halts the process, later events change neither the outcome nor the settings |
| `Options.ResolvedIff` | src/test/java/com/ibm/darpc/examples/server/DaRPCServer.java:78-102 | The loop reaches `run` if and only if every event is accepted |
| `Options.HaltedAtFirstRejected` | src/test/java/com/ibm/darpc/examples/server/DaRPCServer.java:78-102 | A halted loop stopped at the first rejected event. Its halt is exit 1 for an unknown character and NumberFormatException otherwise, and its settings were built from the events before that one |
| `Options.UnknownOptionExits` | src/test/java/com/ibm/darpc/examples/server/DaRPCServer.java:99-100 | Resolution ends in `System.exit(1)` if and only if the first rejected event has a character with no branch |
| `Options.LastEventWins` | src/test/java/com/ibm/darpc/examples/server/DaRPCServer.java:78-101 | After a resolved loop, each option's field holds the value of that option's last event, or its initial value when the option never occurs |
| `Options.PollingNeverCleared` | src/test/java/com/ibm/darpc/examples/server/DaRPCServer.java:89-90 | Once polling is true, no event sequence sets it back to false, whether or not resolution halts |
| `Options.WqSizeOnlyByW` | src/test/java/com/ibm/darpc/examples/server/DaRPCServer.java:95-98 | Whether or not the loop halts, the work-queue size differs from its starting value only if some `-w` event supplied the new value. `-q` does not move it |
| `Options.SerializedSizesAgree` | src/test/java/com/ibm/darpc/examples/server/DaRPCServer.java:81-84 | After a loop that gets through all its events and contains `-s`, the request and response serialized sizes are equal |
| `JavaInt.Wrap32` | src/test/java/com/ibm/darpc/examples/server/DaRPCServer.java:55 | Java's `int` result of an exact value `x` is congruent to `x` modulo 2^32, lies in the `int` range, and equals `x` when `x` fits |
| `JavaInt.Wrap32Mul` | src/test/java/com/ibm/darpc/examples/server/DaRPCServer.java:55 | Wrapping the intermediate `int` product does not change the wrapped final product |
| `Planning.CompletionQueueSize` | src/test/java/com/ibm/darpc/examples/server/DaRPCServer.java:55 | Java's `queueSize*connections*2` equals the exact product reduced modulo 2^32 into the `int` range, and equals the exact product when that fits |
| `Planning.CompletionQueueCoversDemand` | src/test/java/com/ibm/darpc/examples/server/DaRPCServer.java:55 | For positive inputs without overflow, the completion queue is twice queueSize*connections and at least the request queue depth |
| `Planning.CompletionQueueOverflows` | src/test/java/com/ibm/darpc/examples/server/DaRPCServer.java:55 | 32768 queue slots and 32768 connections wrap to Integer.MIN_VALUE |
| `Planning.AffinityMask` | src/test/java/com/ibm/darpc/examples/server/DaRPCServer.java:50 | `1L << i` has exactly one bit set, namely bit `i mod 64` |
| `Planning.FillAffinities` | src/test/java/com/ibm/darpc/examples/server/DaRPCServer.java:48-52 | The filled array has length poolsize, and element `i` is the mask of worker `i` |
| `Planning.AffinityPlan` | src/test/java/com/ibm/darpc/examples/server/DaRPCServer.java:48-52 | The affinity array has one mask per worker, and worker `i`'s mask has exactly bit `i mod 64` set, so exactly bit `i` for pools of at most 64 |
| `Planning.AffinityPlanDisjoint` | src/test/java/com/ibm/darpc/examples/server/DaRPCServer.java:48-52 | For at most 64 workers, the masks of two different workers have no CPU bit in common and are distinct |
| `Planning.AffinityPlanWraps` | src/test/java/com/ibm/darpc/examples/server/DaRPCServer.java:50 | With more than 64 workers the shift distance wraps, and worker 64 gets worker 0's mask |
| `Planning.Bootstrap` | src/test/java/com/ibm/darpc/examples/server/DaRPCServer.java:44-57 | `run` up to its accept loop: it ends in UnknownHostException exactly when the address does not resolve, and in NegativeArraySizeException exactly when it resolves and the pool size is negative. Address resolution comes first |
| `Planning.BootstrapOutcome` | src/test/java/com/ibm/darpc/examples/server/DaRPCServer.java:44-57 | When `run` gets past both exceptions, the group gets the affinity masks, -1, maxinline, polling, queueSize, the wrapped completion-queue size and wqSize, all unvalidated, and the endpoint binds the resolved address on port 1919 with backlog 1000 |
| `Scenarios.QueueOptionKeepsWorkQueue` | src/test/java/com/ibm/darpc/examples/server/DaRPCServer.java:78-101 | `-a 127.0.0.1 -p 4 -q 32 -c 8` gives pool 4, queue 32, connections 8 and work queue 16, with completion queue 512 and masks 1, 2, 4, 8 |
| `Scenarios.WorkQueueOverride` | src/test/java/com/ibm/darpc/examples/server/DaRPCServer.java:95-96 | `-a 127.0.0.1 -w 64` sets the work queue to 64, and the completion queue stays 16*16*2 = 512 |
| `Scenarios.ZeroQueueAccepted` | src/test/java/com/ibm/darpc/examples/server/DaRPCServer.java:97-98 | `-q 0` is accepted without validation and gives a completion-queue size of 0 |
| `Scenarios.UnknownFlagExitsOne` | src/test/java/com/ibm/darpc/examples/server/DaRPCServer.java:99-100 | An unknown option after `-a` exits with code 1, with the address already set |

## Left out

- Network and RDMA calls are not modelled: the RPC service, `createServerGroup`,
  `createServerEndpoint`, `bind` and `accept` belong to libraries that are not part of
  this model. `run`'s success is the record of values passed to them (`ServerPlan`).
- `InetAddress.getByName` is the parameter `resolve`. What it does with an unset
  (null) address is its own behaviour and is not modelled.
- The `while(true) accept()` loop (lines 58-60) is left out. It never terminates, so
  the `Serving` outcome stands for "bound, and accepting forever". Accept failures are
  not modelled.
- Failures of `createServerGroup`, `createServerEndpoint` and `bind` (for example a
  port already in use) are not modelled. `Serving` assumes all three succeed, because
  they happen inside the runtime libraries.
- `GetOpt` is not modelled: option-string parsing, `optErr` handling, and which
  characters it emits (including whether `-t` can ever arrive). The model consumes its
  event sequence through the parameter `getopt`.
- `Integer.parseInt` is not modelled. Its result is given in each event, and a failed
  parse is the uncaught NumberFormatException.
- The `System.out.println` at line 53 is left out. The value it shows as the
  completion-queue size is the same expression that is passed to the group, and both
  are `CompletionQueueSize`.
- `main` (lines 107-110) is represented by the constructor followed by `Launch`: it
  only builds a default server and calls `launch`.
- `System.exit` is an outcome (`Stopped(Exit(code))`). The model does not show that
  the rest of the process stops.
- Server.DaRPCServer.Run: it returns its plan instead of running forever, because the
  accept loop and the runtime it hands connections to are outside the model.
