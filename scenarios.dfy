/**
  The calls exercised by test/stats.js, replayed on the model: the labels
  the test client uses, the outcomes its mocked server produces, and the
  metrics the test expects. Clock readings stay symbolic.
*/
module Scenarios {
  import opened Wrappers
  import opened Sanitizer
  import opened Decimal
  import opened EscapeCache
  import opened Hooks
  import opened Plugin

  lemma StatusCodes()
    ensures DecimalString(200) == "200"
    ensures DecimalString(201) == "201"
    ensures DecimalString(404) == "404"
    ensures DecimalString(500) == "500"
  {
  }

  /** With both labels escaping to non-empty names, the call is tracked under their join. */
  lemma NamedCall(client: Label, op: Label, a: string, b: string)
    requires Escaped(client) == Some(a) && Escaped(op) == Some(b)
    requires a != "" && b != ""
    ensures IsTrackable(client, op) && CallName(client, op) == a + "." + b
  {
  }

  lemma JoinExampleOrgTest()
    ensures "example_org" + "." + "test" == "example_org.test"
  {
  }

  lemma JoinExampleOrgHelloWorld()
    ensures "example_org" + "." + "hello_world" == "example_org.hello_world"
  {
  }

  /** test/stats.js:179-197: the client "example.org" and the operation "test" are tracked as `example_org.test`. */
  lemma ExampleOrgTestName(client: Label, op: Label)
    requires client == Some("example.org") && op == Some("test")
    ensures IsTrackable(client, op)
    ensures CallName(client, op) == "example_org.test"
  {
    SanitizeExampleOrg();
    SanitizeTest();
    NamedCall(client, op, "example_org", "test");
    JoinExampleOrgTest();
  }

  /** test/stats.js:281-309: the operation "hello!world" is tracked as `example_org.hello_world`. */
  lemma ExampleOrgHelloWorldName(client: Label, op: Label)
    requires client == Some("example.org") && op == Some("hello!world")
    ensures IsTrackable(client, op)
    ensures CallName(client, op) == "example_org.hello_world"
  {
    SanitizeExampleOrg();
    SanitizeHelloWorld();
    NamedCall(client, op, "example_org", "hello_world");
    JoinExampleOrgHelloWorld();
  }

  lemma ReplayStep(s: Stats, client: Label, op: Label, events: seq<Event>)
    requires events != []
    ensures var e := events[0];
      var s' := if e.Request? then RequestStep(s, client, op, e.at) else s;
      var ms := if e.Complete? then ResponseMetrics(s, e.outcome, e.at) else [];
      Replay(s, client, op, events) == Trace(Replay(s', client, op, events[1..]).stats, ms + Replay(s', client, op, events[1..]).emitted)
  {
  }

  /** One attempt of a trackable call sends one timing, named after the outcome, valued at the elapsed time. */
  lemma SingleAttempt(client: Label, op: Label, o: Outcome, t0: nat, t1: nat)
    requires IsTrackable(client, op)
    ensures Replay(Unset, client, op, [Request(t0), Complete(o, t1)]).emitted
            == [Timing(CallName(client, op) + "." + Suffix(o), t1 - t0)]
  {
    var name := CallName(client, op);
    var s1 := Tracked(name, t0, false);
    var events := [Request(t0), Complete(o, t1)];
    assert events[1..] == [Complete(o, t1)];
    assert events[1..][1..] == [];
    calc {
      Replay(Unset, client, op, events).emitted;
      Replay(s1, client, op, events[1..]).emitted;
      ResponseMetrics(s1, o, t1) + Replay(s1, client, op, []).emitted;
      [Timing(name + "." + Suffix(o), t1 - t0)];
    }
  }

  lemma JoinTestSuffixes()
    ensures "example_org.test" + "." + "201" == "example_org.test.201"
    ensures "example_org.test" + "." + "500" == "example_org.test.500"
    ensures "example_org.test" + "." + "timeout" == "example_org.test.timeout"
    ensures "example_org.test" + "." + "error" == "example_org.test.error"
  {
  }

  /**
    test/stats.js:179-279: one attempt of `test` on the client named
    "example.org" gives `example_org.test.201`, `.500`, `.timeout` or
    `.error`.
  */
  lemma SingleAttemptExamples(t0: nat, t1: nat)
    ensures Replay(Unset, Some("example.org"), Some("test"), [Request(t0), Complete(Response(201), t1)]).emitted
            == [Timing("example_org.test.201", t1 - t0)]
    ensures Replay(Unset, Some("example.org"), Some("test"), [Request(t0), Complete(Response(500), t1)]).emitted
            == [Timing("example_org.test.500", t1 - t0)]
    ensures Replay(Unset, Some("example.org"), Some("test"), [Request(t0), Complete(NoResponse(true), t1)]).emitted
            == [Timing("example_org.test.timeout", t1 - t0)]
    ensures Replay(Unset, Some("example.org"), Some("test"), [Request(t0), Complete(NoResponse(false), t1)]).emitted
            == [Timing("example_org.test.error", t1 - t0)]
  {
    var client, op := Some("example.org"), Some("test");
    ExampleOrgTestName(client, op);
    StatusCodes();
    JoinTestSuffixes();
    SingleAttempt(client, op, Response(201), t0, t1);
    SingleAttempt(client, op, Response(500), t0, t1);
    SingleAttempt(client, op, NoResponse(true), t0, t1);
    SingleAttempt(client, op, NoResponse(false), t0, t1);
  }

  /**
    A trackable call that gets one response, is retried and gets another
    sends both timings, each measured from its own attempt, then the retry
    counter.
  */
  lemma RetriedCall(client: Label, op: Label, o1: Outcome, o2: Outcome, t0: nat, t1: nat, t2: nat, t3: nat)
    requires IsTrackable(client, op)
    ensures var name := CallName(client, op);
      Replay(Unset, client, op, [Request(t0), Complete(o1, t1), Request(t2), Complete(o2, t3)]).emitted
      == [Timing(name + "." + Suffix(o1), t1 - t0), Timing(name + "." + Suffix(o2), t3 - t2), Count(name + ".retry", 1)]
  {
    var name := CallName(client, op);
    var s1, s2 := Tracked(name, t0, false), Tracked(name, t2, true);
    var events := [Request(t0), Complete(o1, t1), Request(t2), Complete(o2, t3)];
    var e1 := events[1..];
    var e2 := e1[1..];
    var e3 := e2[1..];
    assert e1 == [Complete(o1, t1), Request(t2), Complete(o2, t3)];
    assert e2 == [Request(t2), Complete(o2, t3)];
    assert e3 == [Complete(o2, t3)];
    assert e3[1..] == [];
    calc {
      Replay(Unset, client, op, events).emitted;
      Replay(s1, client, op, e1).emitted;
      ResponseMetrics(s1, o1, t1) + Replay(s1, client, op, e2).emitted;
      ResponseMetrics(s1, o1, t1) + Replay(s2, client, op, e3).emitted;
      { assert Replay(s2, client, op, e3).emitted == ResponseMetrics(s2, o2, t3) + Replay(s2, client, op, []).emitted; }
      ResponseMetrics(s1, o1, t1) + ResponseMetrics(s2, o2, t3);
      [Timing(name + "." + Suffix(o1), t1 - t0)] + [Timing(name + "." + Suffix(o2), t3 - t2), Count(name + ".retry", 1)];
    }
  }

  lemma JoinHelloWorldSuffixes()
    ensures "example_org.hello_world" + "." + "500" == "example_org.hello_world.500"
    ensures "example_org.hello_world" + "." + "404" == "example_org.hello_world.404"
    ensures "example_org.hello_world" + ".retry" == "example_org.hello_world.retry"
  {
  }

  /** test/stats.js:311-336: `hello!world` gets 500, is retried, gets 404. */
  lemma RetriedCallExample(t0: nat, t1: nat, t2: nat, t3: nat)
    ensures Replay(Unset, Some("example.org"), Some("hello!world"),
                   [Request(t0), Complete(Response(500), t1), Request(t2), Complete(Response(404), t3)]).emitted
            == [Timing("example_org.hello_world.500", t1 - t0),
                Timing("example_org.hello_world.404", t3 - t2),
                Count("example_org.hello_world.retry", 1)]
  {
    var client, op := Some("example.org"), Some("hello!world");
    ExampleOrgHelloWorldName(client, op);
    StatusCodes();
    JoinHelloWorldSuffixes();
    RetriedCall(client, op, Response(500), Response(404), t0, t1, t2, t3);
  }

  /**
    test/stats.js:131-177: an absent client name, an absent operation name,
    or a client name with nothing left after escaping, and no metric at all.
  */
  lemma UnnamedCallsAreSilent(events: seq<Event>)
    ensures Replay(Unset, None, Some("test"), events).emitted == []
    ensures Replay(Unset, Some("example.org"), None, events).emitted == []
    ensures Replay(Unset, Some("!!!"), Some("test"), events).emitted == []
  {
    UntrackableCallIsSilent(None, Some("test"), Unset, events);
    UntrackableCallIsSilent(Some("example.org"), None, Unset, events);
    SanitizeBangs();
    UntrackableCallIsSilent(Some("!!!"), Some("test"), Unset, events);
  }

  /** test/stats.js:338-353: an unnamed client's call that is retried sends nothing either. */
  lemma UnnamedRetriesAreSilent(t0: nat, t1: nat, t2: nat, t3: nat)
    ensures Replay(Unset, None, Some("hello!world"),
                   [Request(t0), Complete(Response(500), t1), Request(t2), Complete(Response(200), t3)]).emitted == []
  {
    UntrackableCallIsSilent(None, Some("hello!world"), Unset,
                            [Request(t0), Complete(Response(500), t1), Request(t2), Complete(Response(200), t3)]);
  }

  /**
    The host's side of one call: each attempt runs `onRequest`, each
    completed attempt `onResponse`. Driving the hooks this way sends what
    `Replay` says and leaves the context in the state it names.
  */
  method RunCall(tracker: Tracker, ctx: CallContext, events: seq<Event>)
    requires tracker.Valid()
    modifies tracker, tracker.cache, ctx
    ensures tracker.Valid()
    ensures tracker.emitted == old(tracker.emitted) + Replay(old(ctx.stats), ctx.clientName, ctx.opName, events).emitted
    ensures ctx.stats == Replay(old(ctx.stats), ctx.clientName, ctx.opName, events).stats
  {
    ghost var whole := Replay(ctx.stats, ctx.clientName, ctx.opName, events);
    var i := 0;
    while i < |events|
      invariant 0 <= i <= |events|
      invariant tracker.Valid()
      invariant old(tracker.emitted) + whole.emitted
                == tracker.emitted + Replay(ctx.stats, ctx.clientName, ctx.opName, events[i..]).emitted
      invariant whole.stats == Replay(ctx.stats, ctx.clientName, ctx.opName, events[i..]).stats
    {
      ReplayStep(ctx.stats, ctx.clientName, ctx.opName, events[i..]);
      assert events[i..][1..] == events[i + 1..];
      match events[i] {
        case Request(at) =>
          tracker.OnRequest(ctx, at);
        case Complete(outcome, at) =>
          tracker.OnResponse(ctx, outcome, at);
      }
      i := i + 1;
    }
    assert events[i..] == [];
  }

  /** The retried call of test/stats.js:311-336, driven through `Register` and the hooks. */
  method RetriedCallOnHooks(t0: nat, t1: nat, t2: nat, t3: nat) returns (log: seq<Metric>)
    ensures log == [Timing("example_org.hello_world.500", t1 - t0),
                    Timing("example_org.hello_world.404", t3 - t2),
                    Count("example_org.hello_world.retry", 1)]
  {
    var cache := new NameCache();
    var registered := Register(Options(true, true), cache);
    var tracker := registered.value;
    var ctx := new CallContext(Some("example.org"), Some("hello!world"));
    RunCall(tracker, ctx, [Request(t0), Complete(Response(500), t1), Request(t2), Complete(Response(404), t3)]);
    RetriedCallExample(t0, t1, t2, t3);
    log := tracker.emitted;
  }

  /** test/stats.js:112-127: the missing sink is reported, `count` before `timing`. */
  method RegisterWithoutSinks() returns (noCount: Result<Tracker, string>, noTiming: Result<Tracker, string>)
    ensures noCount == Failure("count is required")
    ensures noTiming == Failure("timing is required")
  {
    var cache := new NameCache();
    noCount := Register(Options(false, false), cache);
    noTiming := Register(Options(true, false), cache);
  }

}
