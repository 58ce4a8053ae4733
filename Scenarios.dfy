/** Concrete command lines evaluated in the model, starting from a fresh server. */
module Scenarios {
  import opened JavaInt
  import opened Options
  import opened Planning

  /** `-a 127.0.0.1 -p 4 -q 32 -c 8`: the work-queue size keeps its initial 16, because
      it was copied from queueSize when the object was built and `-q` does not touch it;
      the completion queue gets 32 * 8 * 2 = 512 entries and the four workers get the
      masks 1, 2, 4 and 8. */
  lemma QueueOptionKeepsWorkQueue(request: int32, response: int32)
    ensures var events := [OptEvent('a', "127.0.0.1", None), OptEvent('p', "4", Some(4)),
                           OptEvent('q', "32", Some(32)), OptEvent('c', "8", Some(8))];
      ResolveAll(Settings(DefaultConfig, request, response), events) ==
        Resolved(Settings(Config(Some("127.0.0.1"), 4, 32, 16, 0, false, 0, 8), request, response))
    ensures CompletionQueueSize(32, 8) == 512
    ensures AffinityPlan(4) == [1, 2, 4, 8]
  {
    var events := [OptEvent('a', "127.0.0.1", None), OptEvent('p', "4", Some(4)),
                   OptEvent('q', "32", Some(32)), OptEvent('c', "8", Some(8))];
    var s := Settings(DefaultConfig, request, response);
    assert events[..0] == [];
    assert events[..3][..2] == events[..2] && events[..2][..1] == events[..1] && events[..1][..0] == events[..0];
    assert ResolveAll(s, events[..1]) == Resolved(s.(server := s.server.(ipAddress := Some("127.0.0.1"))));
    assert events[..4] == events;
  }

  /** `-a 127.0.0.1 -w 64`: the override reaches the work queue, and the completion
      queue, 16 * 16 * 2 = 512, is not affected by it. */
  lemma WorkQueueOverride(request: int32, response: int32)
    ensures var events := [OptEvent('a', "127.0.0.1", None), OptEvent('w', "64", Some(64))];
      ResolveAll(Settings(DefaultConfig, request, response), events) ==
        Resolved(Settings(DefaultConfig.(ipAddress := Some("127.0.0.1"), wqSize := 64), request, response))
    ensures CompletionQueueSize(DefaultConfig.queueSize, DefaultConfig.connections) == 512
  {
    var events := [OptEvent('a', "127.0.0.1", None), OptEvent('w', "64", Some(64))];
    assert events[..1][..0] == [];
    assert events[..2] == events;
  }

  /** `-q 0`: nothing validates capacities, so a zero queue size is accepted and gives an
      empty completion queue. */
  lemma ZeroQueueAccepted(request: int32, response: int32)
    ensures ResolveAll(Settings(DefaultConfig, request, response), [OptEvent('q', "0", Some(0))]) ==
              Resolved(Settings(DefaultConfig.(queueSize := 0), request, response))
    ensures CompletionQueueSize(0, DefaultConfig.connections) == 0
  {
    assert [OptEvent('q', "0", Some(0))][..0] == [];
  }

  /** `-a 127.0.0.1 -z`: the unknown option exits with code 1 after the address was set. */
  lemma UnknownFlagExitsOne(request: int32, response: int32)
    ensures ResolveAll(Settings(DefaultConfig, request, response),
                       [OptEvent('a', "127.0.0.1", None), OptEvent('z', "", None)]) ==
              Halted(Exit(1), Settings(DefaultConfig.(ipAddress := Some("127.0.0.1")), request, response))
  {
    var events := [OptEvent('a', "127.0.0.1", None), OptEvent('z', "", None)];
    assert events[..1][..0] == [];
    assert events[..2] == events;
  }
}
