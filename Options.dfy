/** Option resolution in DaRPCServer.launch: the stream of option events that the
    command-line parser produces, and what each event does to the server's
    configuration. These functions are the specification of the loop in
    Server.DaRPCServer.Launch. */
module Options {
  import opened JavaInt

  datatype Option<+T> = None | Some(value: T)

  /** The fields of a DaRPCServer object. */
  datatype Config = Config(
    ipAddress: Option<string>,
    poolsize: int32,
    queueSize: int32,
    wqSize: int32,
    servicetimeout: int32,
    polling: bool,
    maxinline: int32,
    connections: int32)

  /** The field initialisers of DaRPCServer; wqSize copies the initial queueSize. */
  const DefaultConfig: Config := Config(None, 3, 16, 16, 0, false, 0, 16)

  /** Everything option resolution can change: the server's fields together with the
      two process-wide message sizes RdmaRpcRequest.SERIALIZED_SIZE and
      RdmaRpcResponse.SERIALIZED_SIZE. */
  datatype Settings = Settings(server: Config, requestSize: int32, responseSize: int32)

  /** One event of the parser: the option character, its raw argument, and what
      Integer.parseInt makes of that argument (None when it would throw
      NumberFormatException). */
  datatype OptEvent = OptEvent(ch: char, arg: string, number: Option<int32>)

  /** The options whose argument is parsed as an integer. */
  const NumericOptions: set<char> := {'s', 'p', 't', 'i', 'c', 'w', 'q'}

  /** Every option character the dispatch loop has a branch for. */
  const HandledOptions: set<char> := NumericOptions + {'a', 'd'}

  /** An event the loop processes without stopping the process. */
  predicate Accepted(e: OptEvent) {
    e.ch in HandledOptions && (e.ch in NumericOptions ==> e.number.Some?)
  }

  /** How option resolution can end the process: System.exit, or the exception
      Integer.parseInt throws, which nothing catches. */
  datatype Halt = Exit(code: int) | NumberFormatException

  /** The state after some events: still resolving, or halted, with the settings as
      they were when the process stopped. */
  datatype Resolution = Resolved(settings: Settings) | Halted(halt: Halt, settings: Settings)

  /** The value of an accepted numeric option, stored where its branch stores it. */
  function SetNumber(s: Settings, c: char, n: int32): Settings
    requires c in NumericOptions
  {
    if c == 's' then s.(requestSize := n, responseSize := n)
    else if c == 'p' then s.(server := s.server.(poolsize := n))
    else if c == 't' then s.(server := s.server.(servicetimeout := n))
    else if c == 'i' then s.(server := s.server.(maxinline := n))
    else if c == 'c' then s.(server := s.server.(connections := n))
    else if c == 'w' then s.(server := s.server.(wqSize := n))
    else s.(server := s.server.(queueSize := n))
  }

  /** One pass of the dispatch loop. */
  function Apply(s: Settings, e: OptEvent): (r: Resolution)
    ensures r.Resolved? <==> Accepted(e)
    ensures r.Halted? ==> r.settings == s
    ensures r.Halted? ==> (r.halt == Exit(1) <==> e.ch !in HandledOptions)
  {
    if e.ch == 'a' then Resolved(s.(server := s.server.(ipAddress := Some(e.arg))))
    else if e.ch == 'd' then Resolved(s.(server := s.server.(polling := true)))
    else if e.ch !in NumericOptions then Halted(Exit(1), s)
    else if e.number.None? then Halted(NumberFormatException, s)
    else Resolved(SetNumber(s, e.ch, e.number.value))
  }

  /** The whole loop: the events are applied in order until one of them halts, so a
      halt always comes from an event the loop did not accept, and is that event's. */
  function ResolveAll(s: Settings, events: seq<OptEvent>): (r: Resolution)
    ensures r.Halted? ==> exists k :: 0 <= k < |events| && !Accepted(events[k]) && r.halt == HaltFor(events[k])
    decreases |events|
  {
    if events == [] then Resolved(s)
    else
      var p := events[..|events| - 1];
      assert forall k :: 0 <= k < |p| ==> p[k] == events[k];
      match ResolveAll(s, p)
      case Halted(h, t) => Halted(h, t)
      case Resolved(t) => Apply(t, events[|events| - 1])
  }

  /** The last event with option character `c`, if there is one. */
  function LastOf(events: seq<OptEvent>, c: char): (r: Option<OptEvent>)
    ensures r.None? <==> forall k :: 0 <= k < |events| ==> events[k].ch != c
    ensures r.Some? ==> r.value.ch == c
    ensures r.Some? ==> exists k :: 0 <= k < |events| && events[k] == r.value &&
                                    forall j :: k < j < |events| ==> events[j].ch != c
    decreases |events|
  {
    if events == [] then None
    else if events[|events| - 1].ch == c then Some(events[|events| - 1])
    else
      var r := LastOf(events[..|events| - 1], c);
      assert forall k :: 0 <= k < |events| - 1 ==> events[..|events| - 1][k] == events[k];
      r
  }

  /** The configuration value an option determines, one per handled option character. */
  datatype Value = Text(text: Option<string>) | Flag(flag: bool) | Number(n: int32)
                 | Sizes(request: int32, response: int32)

  function Slot(s: Settings, c: char): Value
    requires c in HandledOptions
  {
    if c == 'a' then Text(s.server.ipAddress)
    else if c == 'd' then Flag(s.server.polling)
    else if c == 's' then Sizes(s.requestSize, s.responseSize)
    else if c == 'p' then Number(s.server.poolsize)
    else if c == 't' then Number(s.server.servicetimeout)
    else if c == 'i' then Number(s.server.maxinline)
    else if c == 'c' then Number(s.server.connections)
    else if c == 'w' then Number(s.server.wqSize)
    else Number(s.server.queueSize)
  }

  /** The value an accepted event stores in its slot. */
  function EventValue(e: OptEvent): Value
    requires Accepted(e)
  {
    if e.ch == 'a' then Text(Some(e.arg))
    else if e.ch == 'd' then Flag(true)
    else if e.ch == 's' then Sizes(e.number.value, e.number.value)
    else Number(e.number.value)
  }

  /** The slots cover every field: settings that agree on every slot are equal. */
  lemma SlotsCoverSettings(s: Settings, t: Settings)
    requires forall c :: c in HandledOptions ==> Slot(s, c) == Slot(t, c)
    ensures s == t
  {
  }

  /** An accepted event sets its own slot from its argument and leaves every other
      slot as it was; `-s` gives both message sizes the same value. */
  lemma ApplyChangesOnlyItsSlot(s: Settings, e: OptEvent)
    requires Accepted(e)
    ensures Apply(s, e).Resolved?
    ensures forall c :: c in HandledOptions && c != e.ch ==> Slot(Apply(s, e).settings, c) == Slot(s, c)
    ensures Slot(Apply(s, e).settings, e.ch) == EventValue(e)
  {
  }

  /** One more event: the resolution of a longer prefix is one step from the shorter one. */
  lemma ResolveStep(s: Settings, events: seq<OptEvent>, i: nat)
    requires i < |events|
    ensures ResolveAll(s, events[..i + 1]) ==
              match ResolveAll(s, events[..i])
              case Halted(h, t) => Halted(h, t)
              case Resolved(t) => Apply(t, events[i])
  {
    assert events[..i + 1][..i] == events[..i];
  }

  /** Once an event halts, nothing after it is processed. */
  lemma {:induction false} HaltPersists(s: Settings, events: seq<OptEvent>, k: nat)
    requires k <= |events|
    requires ResolveAll(s, events[..k]).Halted?
    ensures ResolveAll(s, events) == ResolveAll(s, events[..k])
    decreases |events| - k
  {
    if k < |events| {
      ResolveStep(s, events, k);
      HaltPersists(s, events, k + 1);
    } else {
      assert events[..k] == events;
    }
  }

  /** Resolution gets through all events exactly when every event is accepted. */
  lemma {:induction false} ResolvedIff(s: Settings, events: seq<OptEvent>)
    ensures ResolveAll(s, events).Resolved? <==> forall k :: 0 <= k < |events| ==> Accepted(events[k])
    decreases |events|
  {
    if events != [] {
      var n := |events| - 1;
      var p := events[..n];
      ResolvedIff(s, p);
      assert forall k :: 0 <= k < n ==> p[k] == events[k];
    }
  }

  /** Event `k` is the first one the loop does not accept. */
  predicate FirstRejectedAt(events: seq<OptEvent>, k: int) {
    0 <= k < |events| && !Accepted(events[k]) &&
    forall j :: 0 <= j < k ==> Accepted(events[j])
  }

  /** How the first unaccepted event halts the process. */
  function HaltFor(e: OptEvent): Halt {
    if e.ch !in HandledOptions then Exit(1) else NumberFormatException
  }

  /** A halted resolution stopped at the first unaccepted event, with the halt that
      event causes and the settings built from the events before it. */
  lemma {:induction false} HaltedAtFirstRejected(s: Settings, events: seq<OptEvent>)
    requires ResolveAll(s, events).Halted?
    ensures exists k :: FirstRejectedAt(events, k) &&
              ResolveAll(s, events) == Halted(HaltFor(events[k]), ResolveAll(s, events[..k]).settings)
    decreases |events|
  {
    var n := |events| - 1;
    var p := events[..n];
    assert forall j :: 0 <= j < n ==> p[j] == events[j];
    match ResolveAll(s, p)
    case Halted(_, _) =>
      HaltedAtFirstRejected(s, p);
      var k :| FirstRejectedAt(p, k) &&
               ResolveAll(s, p) == Halted(HaltFor(p[k]), ResolveAll(s, p[..k]).settings);
      assert p[..k] == events[..k];
      assert FirstRejectedAt(events, k);
    case Resolved(t) =>
      ResolvedIff(s, p);
      assert FirstRejectedAt(events, n);
  }

  /** An event whose character has no branch ends the process with exit code 1
      exactly when every event before it was accepted. */
  lemma UnknownOptionExits(s: Settings, events: seq<OptEvent>)
    ensures (ResolveAll(s, events).Halted? && ResolveAll(s, events).halt == Exit(1)) <==>
            exists k :: FirstRejectedAt(events, k) && events[k].ch !in HandledOptions
  {
    if ResolveAll(s, events).Halted? {
      HaltedAtFirstRejected(s, events);
      var k :| FirstRejectedAt(events, k) &&
               ResolveAll(s, events) == Halted(HaltFor(events[k]), ResolveAll(s, events[..k]).settings);
      forall k' | FirstRejectedAt(events, k') ensures k' == k {
      }
    } else {
      ResolvedIff(s, events);
    }
  }

  /** After a resolution that got through all events, the slot of every handled
      option holds the value of the last event for that option, or its earlier value
      when there is none: the last occurrence wins. */
  lemma {:induction false} LastEventWins(s: Settings, events: seq<OptEvent>, c: char)
    requires c in HandledOptions
    requires ResolveAll(s, events).Resolved?
    ensures LastOf(events, c).None? ==> Slot(ResolveAll(s, events).settings, c) == Slot(s, c)
    ensures LastOf(events, c).Some? ==>
              Accepted(LastOf(events, c).value) &&
              Slot(ResolveAll(s, events).settings, c) == EventValue(LastOf(events, c).value)
    decreases |events|
  {
    if events != [] {
      var n := |events| - 1;
      var p := events[..n];
      LastEventWins(s, p, c);
      var t := ResolveAll(s, p).settings;
      ApplyChangesOnlyItsSlot(t, events[n]);
    }
  }

  /** No event clears the polling flag, whether or not resolution halts. */
  lemma {:induction false} PollingNeverCleared(s: Settings, events: seq<OptEvent>)
    requires s.server.polling
    ensures ResolveAll(s, events).settings.server.polling
    decreases |events|
  {
    if events != [] {
      PollingNeverCleared(s, events[..|events| - 1]);
    }
  }

  /** The work-queue size moves only with a `-w` event, which supplies the new value;
      `-q` never touches it. This holds whether or not resolution halts. */
  lemma WqSizeOnlyByW(s: Settings, events: seq<OptEvent>)
    ensures var t := ResolveAll(s, events).settings;
      t.server.wqSize != s.server.wqSize ==>
        exists k :: 0 <= k < |events| && events[k].ch == 'w' && events[k].number == Some(t.server.wqSize)
  {
    if ResolveAll(s, events).Resolved? {
      LastEventWins(s, events, 'w');
    } else {
      HaltedAtFirstRejected(s, events);
      var k :| FirstRejectedAt(events, k) &&
               ResolveAll(s, events) == Halted(HaltFor(events[k]), ResolveAll(s, events[..k]).settings);
      var p := events[..k];
      assert forall j :: 0 <= j < k ==> p[j] == events[j];
      ResolvedIff(s, p);
      LastEventWins(s, p, 'w');
    }
  }

  /** When `-s` occurs and the loop gets through all events, both message sizes end
      up equal. (A halt can leave them apart: an unknown option before any `-s`.) */
  lemma SerializedSizesAgree(s: Settings, events: seq<OptEvent>)
    requires ResolveAll(s, events).Resolved?
    requires exists k :: 0 <= k < |events| && events[k].ch == 's'
    ensures ResolveAll(s, events).settings.requestSize == ResolveAll(s, events).settings.responseSize
  {
    LastEventWins(s, events, 's');
  }
}
