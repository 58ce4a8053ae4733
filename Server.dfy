/** The example server DaRPCServer: its mutable configuration fields, `launch`, which
    strips the program name and dispatches the parser's option events onto those
    fields, and `run`, which dimensions the server group and binds it. */
module Server {
  import opened JavaInt
  import opened Options
  import opened Planning

  /** DaRPCServer.class.getCanonicalName(). */
  const CANONICAL_NAME: string := "com.ibm.darpc.examples.server.DaRPCServer"

  /** The arguments the option parser sees: `args` without a leading program name. */
  ghost function OptionInput(args: seq<string>): seq<string> {
    if |args| > 0 && args[0] == CANONICAL_NAME then args[1..] else args
  }

  /** The copy loop of launch: when the first argument is the class's canonical name,
      the remaining arguments are copied, in order, into a fresh array. */
  method StripProgramName(args: seq<string>) returns (input: seq<string>)
    ensures |args| > 0 && args[0] == CANONICAL_NAME ==> input == args[1..]
    ensures !(|args| > 0 && args[0] == CANONICAL_NAME) ==> input == args
  {
    input := args;
    if |args| > 0 && args[0] == CANONICAL_NAME {
      var copy := new string[|args| - 1];
      for i := 0 to copy.Length
        invariant forall j :: 0 <= j < i ==> copy[j] == args[j + 1]
      {
        copy[i] := args[i + 1];
      }
      input := copy[..];
    }
  }

  /** The two process-wide static fields RdmaRpcRequest.SERIALIZED_SIZE and
      RdmaRpcResponse.SERIALIZED_SIZE, which `-s` sets. */
  class SerializedSizes {
    var request: int32
    var response: int32

    constructor (request: int32, response: int32)
      ensures this.request == request && this.response == response
    {
      this.request := request;
      this.response := response;
    }
  }

  /** How launch ends: halted during option resolution, or in run. */
  datatype LaunchOutcome = Stopped(halt: Halt) | Ran(run: RunOutcome)

  class DaRPCServer {
    var ipAddress: Option<string>
    var poolsize: int32
    var queueSize: int32
    var wqSize: int32
    var servicetimeout: int32
    var polling: bool
    var maxinline: int32
    var connections: int32

    /** The field initialisers. */
    constructor ()
      ensures Current() == DefaultConfig
    {
      ipAddress := None;
      poolsize := 3;
      queueSize := 16;
      wqSize := queueSize;
      servicetimeout := 0;
      polling := false;
      maxinline := 0;
      connections := 16;
    }

    /** The fields as a value. */
    function Current(): Config
      reads this
    {
      Config(ipAddress, poolsize, queueSize, wqSize, servicetimeout, polling, maxinline, connections)
    }

    /** The fields together with the two message sizes. */
    function State(sizes: SerializedSizes): Settings
      reads this, sizes
    {
      Settings(Current(), sizes.request, sizes.response)
    }

    /** run up to its accept loop: resolve the address, fill the affinity array (which
        throws for a negative pool size), and compute the server group's parameters.
        It changes no field. */
    method Run(resolve: Option<string> -> Option<string>) returns (r: RunOutcome)
      ensures r == Bootstrap(Current(), resolve)
    {
      var localHost := resolve(ipAddress);
      if localHost.None? {
        return UnknownHostException;
      }
      if poolsize < 0 {
        return NegativeArraySizeException;
      }
      var clusterAffinities := FillAffinities(poolsize);
      var cqSize := CompletionQueueSize(queueSize, connections);
      var group := GroupParams(clusterAffinities[..], GROUP_FIXED_ARG, maxinline, polling,
                               queueSize, cqSize, wqSize);
      r := Serving(ServerPlan(servicetimeout, group, localHost.value, PORT, BACKLOG));
    }

    /** launch: an empty argument list exits with code 0 and changes nothing; otherwise
        the parser's events over the stripped arguments update the fields one by one,
        and either one of them halts the process, leaving the fields as they were at
        that event, or run is reached with the resolved fields. `getopt` stands for the
        option parser. */
    method Launch(args: seq<string>, getopt: seq<string> -> seq<OptEvent>,
                  sizes: SerializedSizes, resolve: Option<string> -> Option<string>)
      returns (outcome: LaunchOutcome)
      modifies this, sizes
      ensures |args| == 0 ==> outcome == Stopped(Exit(0)) && State(sizes) == old(State(sizes))
      ensures |args| > 0 ==>
        var r := ResolveAll(old(State(sizes)), getopt(OptionInput(args)));
        && State(sizes) == r.settings
        && outcome == (if r.Halted? then Stopped(r.halt) else Ran(Bootstrap(r.settings.server, resolve)))
    {
      if |args| < 1 {
        return Stopped(Exit(0));
      }
      var input := StripProgramName(args);
      var events := getopt(input);
      ghost var start := State(sizes);
      var i := 0;
      while i < |events|
        invariant 0 <= i <= |events|
        invariant ResolveAll(start, events[..i]) == Resolved(State(sizes))
      {
        var e := events[i];
        ResolveStep(start, events, i);
        if e.ch == 'a' {
          ipAddress := Some(e.arg);
        } else if e.ch == 's' {
          if e.number.None? {
            HaltPersists(start, events, i + 1);
            return Stopped(NumberFormatException);
          }
          sizes.request := e.number.value;
          sizes.response := e.number.value;
        } else if e.ch == 'p' {
          if e.number.None? {
            HaltPersists(start, events, i + 1);
            return Stopped(NumberFormatException);
          }
          poolsize := e.number.value;
        } else if e.ch == 't' {
          if e.number.None? {
            HaltPersists(start, events, i + 1);
            return Stopped(NumberFormatException);
          }
          servicetimeout := e.number.value;
        } else if e.ch == 'd' {
          polling := true;
        } else if e.ch == 'i' {
          if e.number.None? {
            HaltPersists(start, events, i + 1);
            return Stopped(NumberFormatException);
          }
          maxinline := e.number.value;
        } else if e.ch == 'c' {
          if e.number.None? {
            HaltPersists(start, events, i + 1);
            return Stopped(NumberFormatException);
          }
          connections := e.number.value;
        } else if e.ch == 'w' {
          if e.number.None? {
            HaltPersists(start, events, i + 1);
            return Stopped(NumberFormatException);
          }
          wqSize := e.number.value;
        } else if e.ch == 'q' {
          if e.number.None? {
            HaltPersists(start, events, i + 1);
            return Stopped(NumberFormatException);
          }
          queueSize := e.number.value;
        } else {
          HaltPersists(start, events, i + 1);
          return Stopped(Exit(1));
        }
        i := i + 1;
      }
      assert events[..i] == events;
      var r := Run(resolve);
      outcome := Ran(r);
    }
  }
}
