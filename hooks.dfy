/**
  The per-call state machine behind the two hooks that `register` installs
  (lib/index.js:41-93), as pure functions of the state, the call's labels,
  the outcome and the clock reading.
*/
module Hooks {
  import opened Wrappers
  import opened Sanitizer
  import opened Decimal
  import opened EscapeCache

  /**
    `ctx.state.stats`: Unset while the property is missing, Untracked once it
    is `null`, Tracked while it holds `{name, time, retry}`; a missing
    `retry` is false.
  */
  datatype Stats = Unset | Untracked | Tracked(name: string, time: nat, retry: bool)

  /** A response (`ctx.res`) with its status code, or none, with `ctx.err.isTimeout`. */
  datatype Outcome = Response(statusCode: nat) | NoResponse(isTimeout: bool)

  /** One call into the `timing` or `count` sink, with its arguments. */
  datatype Metric = Timing(name: string, value: int) | Count(name: string, value: int)

  /** Whether both labels survive escaping, so that the call gets a metric name. */
  predicate IsTrackable(client: Label, op: Label) {
    !IsFalsy(Escaped(client)) && !IsFalsy(Escaped(op))
  }

  /** `client + '.' + name` after escaping both. */
  function CallName(client: Label, op: Label): string
    requires IsTrackable(client, op)
  {
    Escaped(client).value + "." + Escaped(op).value
  }

  /** The state `onRequest` leaves (lib/index.js:43-63); `now` is `+new Date()`. */
  function RequestStep(s: Stats, client: Label, op: Label, now: nat): Stats {
    match s
    case Unset => if IsTrackable(client, op) then Tracked(CallName(client, op), now, false) else Untracked
    case Untracked => Untracked
    case Tracked(name, _, _) => Tracked(name, now, true)
  }

  /** The metric-name suffix for an outcome (lib/index.js:76-80). */
  function Suffix(o: Outcome): string {
    match o
    case Response(code) => DecimalString(code)
    case NoResponse(isTimeout) => if isTimeout then "timeout" else "error"
  }

  /** What `onResponse` sends to the sinks, in order (lib/index.js:73-86). */
  function ResponseMetrics(s: Stats, o: Outcome, now: nat): seq<Metric> {
    match s
    case Tracked(name, time, retry) =>
      [Timing(name + "." + Suffix(o), now - time)] + (if retry then [Count(name + ".retry", 1)] else [])
    case _ => []
  }

  // ---------------------------------------------------------------------
  // One step at a time
  // ---------------------------------------------------------------------

  /**
    The first `onRequest` decides once: untracked when either label is
    absent or has no letter, digit or `-`; otherwise tracked under the two
    escaped labels joined by a dot, timed from now, not yet a retry.
  */
  lemma FirstRequest(client: Label, op: Label, now: nat)
    ensures var r := RequestStep(Unset, client, op, now);
      && r != Unset
      && (r == Untracked <==> client == None || !HasWordChar(client.value) || op == None || !HasWordChar(op.value))
      && (r.Tracked? ==> r == Tracked(Sanitize(client.value) + "." + Sanitize(op.value), now, false))
  {
    EscapedFalsyIff(client);
    EscapedFalsyIff(op);
  }

  /** A tracked call's name is two metric names joined by its only dot. */
  lemma CallNameShape(client: Label, op: Label)
    requires IsTrackable(client, op)
    ensures var name := CallName(client, op);
      var k := |Escaped(client).value|;
      && 0 < k < |name| - 1
      && name[k] == '.'
      && IsMetricName(name[..k]) && IsMetricName(name[k + 1..])
      && (forall i :: 0 <= i < |name| && i != k ==> name[i] != '.')
  {
    var a, b := Escaped(client).value, Escaped(op).value;
    SanitizeIsMetricName(client.value);
    SanitizeIsMetricName(op.value);
    var name := a + "." + b;
    assert name[..|a|] == a;
    assert name[|a| + 1..] == b;
    forall i | 0 <= i < |name| && i != |a| ensures name[i] != '.' {
      if i < |a| {
        assert name[i] == a[i] && IsSafeChar(a[i]);
      } else {
        assert name[i] == b[i - |a| - 1] && IsSafeChar(b[i - |a| - 1]);
      }
    }
  }

  /** Two calls share a metric name only when both escaped labels agree. */
  lemma CallNameInjective(c1: Label, o1: Label, c2: Label, o2: Label)
    requires IsTrackable(c1, o1) && IsTrackable(c2, o2)
    ensures CallName(c1, o1) == CallName(c2, o2) <==> Escaped(c1) == Escaped(c2) && Escaped(o1) == Escaped(o2)
  {
    if CallName(c1, o1) == CallName(c2, o2) {
      CallNameShape(c1, o1);
      CallNameShape(c2, o2);
      var name := CallName(c1, o1);
      var k1, k2 := |Escaped(c1).value|, |Escaped(c2).value|;
      assert name[k1] == '.' && name[k2] == '.';
      assert name[..k1] == Escaped(c1).value && name[k1 + 1..] == Escaped(o1).value;
      assert name[..k2] == Escaped(c2).value && name[k2 + 1..] == Escaped(o2).value;
    }
  }

  /** Later `onRequest` calls: an untracked call stays so; a tracked one keeps its name, restarts its timer and becomes a retry. */
  lemma LaterRequest(s: Stats, client: Label, op: Label, now: nat)
    requires s != Unset
    ensures var r := RequestStep(s, client, op, now);
      && (s == Untracked ==> r == Untracked)
      && (s.Tracked? ==> r.Tracked? && r.name == s.name && r.time == now && r.retry)
  {
  }

  /** Status codes are digits only, so they never read as `timeout`, `error` or `retry`. */
  lemma SuffixIsNotAWord(code: nat)
    ensures Suffix(Response(code)) != "timeout"
    ensures Suffix(Response(code)) != "error"
    ensures Suffix(Response(code)) != "retry"
  {
    var r := DecimalString(code);
    assert IsDigit(r[0]);
    assert "timeout"[0] == 't' && "error"[0] == 'e' && "retry"[0] == 'r';
  }

  /** Different outcomes give different timing names, and none is the retry counter's. */
  lemma SuffixInjective(o1: Outcome, o2: Outcome)
    ensures Suffix(o1) == Suffix(o2) <==> o1 == o2
    ensures Suffix(o1) != "retry"
  {
    match o1
    case Response(c1) =>
      SuffixIsNotAWord(c1);
      if o2.Response? {
        DecimalStringInjective(c1, o2.statusCode);
      }
    case NoResponse(_) =>
      if o2.Response? {
        SuffixIsNotAWord(o2.statusCode);
      }
  }

  /**
    `onResponse` on a tracked call sends one timing, named after the outcome
    and valued at the time since the last attempt started, then the retry
    counter if the call was retried; on any other state it sends nothing.
  */
  lemma ResponseEmits(s: Stats, o: Outcome, now: nat)
    ensures var ms := ResponseMetrics(s, o, now);
      && (!s.Tracked? ==> ms == [])
      && (s.Tracked? ==>
            && |ms| == (if s.retry then 2 else 1)
            && ms[0] == Timing(s.name + "." + Suffix(o), now - s.time)
            && (s.retry ==> ms[1] == Count(s.name + ".retry", 1)))
  {
  }

  // ---------------------------------------------------------------------
  // A whole call
  // ---------------------------------------------------------------------

  /** A hook invocation, with the clock reading at that moment. */
  datatype Event = Request(at: nat) | Complete(outcome: Outcome, at: nat)

  datatype Trace = Trace(stats: Stats, emitted: seq<Metric>)

  /** Runs the hooks over a call's events, collecting what the sinks receive. */
  function Replay(s: Stats, client: Label, op: Label, events: seq<Event>): Trace
    decreases |events|
  {
    if events == [] then Trace(s, [])
    else
      var e := events[0];
      var s' := if e.Request? then RequestStep(s, client, op, e.at) else s;
      var ms := if e.Complete? then ResponseMetrics(s, e.outcome, e.at) else [];
      var rest := Replay(s', client, op, events[1..]);
      Trace(rest.stats, ms + rest.emitted)
  }

  function CountCompletes(events: seq<Event>): nat {
    if events == [] then 0 else (if events[0].Complete? then 1 else 0) + CountCompletes(events[1..])
  }

  predicate HasRequest(events: seq<Event>) {
    exists i :: 0 <= i < |events| && events[i].Request?
  }

  function CountTimings(ms: seq<Metric>): nat {
    if ms == [] then 0 else (if ms[0].Timing? then 1 else 0) + CountTimings(ms[1..])
  }

  lemma CountTimingsAppend(a: seq<Metric>, b: seq<Metric>)
    ensures CountTimings(a + b) == CountTimings(a) + CountTimings(b)
  {
    if a != [] {
      assert (a + b)[1..] == a[1..] + b;
      CountTimingsAppend(a[1..], b);
    } else {
      assert a + b == b;
    }
  }

  /** Once untracked, a call stays untracked and sends nothing, whatever happens next. */
  lemma {:induction false} UntrackedStaysSilent(client: Label, op: Label, events: seq<Event>)
    ensures Replay(Untracked, client, op, events) == Trace(Untracked, [])
    decreases |events|
  {
    if events != [] {
      UntrackedStaysSilent(client, op, events[1..]);
    }
  }

  /** A call whose labels do not both survive escaping sends nothing, retries included. */
  lemma {:induction false} UntrackableCallIsSilent(client: Label, op: Label, s: Stats, events: seq<Event>)
    requires !IsTrackable(client, op)
    requires s == Unset || s == Untracked
    ensures Replay(s, client, op, events).emitted == []
    ensures Replay(s, client, op, events).stats == Unset <==> s == Unset && !HasRequest(events)
    decreases |events|
  {
    if events != [] {
      var e := events[0];
      var s' := if e.Request? then Untracked else s;
      UntrackableCallIsSilent(client, op, s', events[1..]);
      HasRequestTail(events);
    }
  }

  lemma HasRequestTail(events: seq<Event>)
    requires events != []
    ensures HasRequest(events) <==> events[0].Request? || HasRequest(events[1..])
  {
    if HasRequest(events[1..]) {
      var i :| 0 <= i < |events[1..]| && events[1..][i].Request?;
      assert events[i + 1].Request?;
    }
    if HasRequest(events) && !events[0].Request? {
      var i :| 0 <= i < |events| && events[i].Request?;
      assert events[1..][i - 1].Request?;
    }
  }

  /**
    Once tracked, a call stays tracked under the same name, and it is a
    retry at the end exactly when it was one already or was requested again.
  */
  lemma {:induction false} TrackedCallState(name: string, time: nat, retry: bool, client: Label, op: Label, events: seq<Event>)
    ensures var t := Replay(Tracked(name, time, retry), client, op, events);
      && t.stats.Tracked? && t.stats.name == name
      && t.stats.retry == (retry || HasRequest(events))
    decreases |events|
  {
    if events != [] {
      var e := events[0];
      var s' := if e.Request? then Tracked(name, e.at, true) else Tracked(name, time, retry);
      TrackedCallState(name, s'.time, s'.retry, client, op, events[1..]);
      HasRequestTail(events);
    }
  }

  /** A tracked call sends exactly one timing per completion. */
  lemma {:induction false} TrackedCallTimings(name: string, time: nat, retry: bool, client: Label, op: Label, events: seq<Event>)
    ensures CountTimings(Replay(Tracked(name, time, retry), client, op, events).emitted) == CountCompletes(events)
    decreases |events|
  {
    if events != [] {
      var e := events[0];
      var s := Tracked(name, time, retry);
      var s' := if e.Request? then Tracked(name, e.at, true) else s;
      var ms := if e.Complete? then ResponseMetrics(s, e.outcome, e.at) else [];
      TrackedCallTimings(name, s'.time, s'.retry, client, op, events[1..]);
      CountTimingsAppend(ms, Replay(s', client, op, events[1..]).emitted);
      if e.Complete? && retry {
        assert ms == [ms[0]] + [ms[1]];
      }
    }
  }

  /** The dot-separated prefix every metric of a call starts with. */
  predicate IsUnder(metricName: string, name: string) {
    |metricName| > |name| && metricName[..|name| + 1] == name + "."
  }

  /** Everything a tracked call sends is named `<name>.<something>`. */
  lemma {:induction false} TrackedCallNames(name: string, time: nat, retry: bool, client: Label, op: Label, events: seq<Event>)
    ensures forall m :: m in Replay(Tracked(name, time, retry), client, op, events).emitted ==> IsUnder(m.name, name)
    decreases |events|
  {
    if events != [] {
      var e := events[0];
      var s := Tracked(name, time, retry);
      var s' := if e.Request? then Tracked(name, e.at, true) else s;
      var ms := if e.Complete? then ResponseMetrics(s, e.outcome, e.at) else [];
      TrackedCallNames(name, s'.time, s'.retry, client, op, events[1..]);
      if e.Complete? {
        var sfx := Suffix(e.outcome);
        assert (name + "." + sfx)[..|name| + 1] == name + ".";
        assert (name + ".retry")[..|name| + 1] == name + ".";
      }
      assert Replay(s, client, op, events).emitted == ms + Replay(s', client, op, events[1..]).emitted;
    }
  }

}
