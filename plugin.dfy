/**
  `register` of lib/index.js:30-94: option checks, then the two hooks as
  methods that change the call's context and append to the sinks.

  The `count` and `timing` sinks are modelled by one log, `emitted`, of the
  calls made to them in order. The clock (`+new Date()`) is the `now`
  argument of each hook. The module-level cache is an object passed to
  `Register`, so that several registrations can share it as they do in the
  source.
*/
module Plugin {
  import opened Wrappers
  import opened EscapeCache
  import opened Hooks

  /** Of each sink option, whether `typeof` gives `'function'`. */
  datatype Options = Options(countIsFunction: bool, timingIsFunction: bool)

  /** The error `register` throws for these options, if any (lib/index.js:34-39). */
  function OptionsError(options: Options): Option<string> {
    if !options.countIsFunction then Some("count is required")
    else if !options.timingIsFunction then Some("timing is required")
    else None
  }

  /** Registration fails exactly when a sink is missing, and names `count` first when both are. */
  lemma OptionsErrorCases(options: Options)
    ensures OptionsError(options) == None <==> options.countIsFunction && options.timingIsFunction
    ensures !options.countIsFunction ==> OptionsError(options) == Some("count is required")
    ensures options.countIsFunction && !options.timingIsFunction ==> OptionsError(options) == Some("timing is required")
  {
  }

  /** The host's per-call context: the two labels and the `ctx.state.stats` slot. */
  class CallContext {
    /** `ctx._client._opts.name` */
    const clientName: Label
    /** `ctx.opts.name` */
    const opName: Label
    var stats: Stats

    constructor (clientName: Label, opName: Label)
      ensures this.clientName == clientName && this.opName == opName && stats == Unset
    {
      this.clientName := clientName;
      this.opName := opName;
      stats := Unset;
    }
  }

  /** The hook pair `register` installs, with the sinks' log. */
  class Tracker {
    const cache: NameCache
    var emitted: seq<Metric>

    ghost predicate Valid()
      reads this, cache
    {
      cache.Valid()
    }

    constructor (cache: NameCache)
      requires cache.Valid()
      ensures Valid() && this.cache == cache && emitted == []
    {
      this.cache := cache;
      emitted := [];
    }

    /**
      The `onRequest` hook (lib/index.js:41-69). The first attempt escapes
      both labels, writing the cache, and decides tracked or untracked;
      later attempts of a tracked call restart its timer and mark it retried.
    */
    method OnRequest(ctx: CallContext, now: nat)
      requires Valid()
      modifies ctx, cache
      ensures Valid()
      ensures ctx.stats == RequestStep(old(ctx.stats), ctx.clientName, ctx.opName, now)
      ensures cache.entries == if old(ctx.stats) == Unset
                               then Remember(Remember(old(cache.entries), ctx.clientName), ctx.opName)
                               else old(cache.entries)
    {
      match ctx.stats
      case Unset =>
        var client := cache.Escape(ctx.clientName);
        var name := cache.Escape(ctx.opName);
        if IsFalsy(client) || IsFalsy(name) {
          ctx.stats := Untracked;
          return;
        }
        ctx.stats := Tracked(client.value + "." + name.value, now, false);
      case Untracked =>
      case Tracked(_, _, _) =>
        ctx.stats := ctx.stats.(retry := true, time := now);
    }

    /**
      The `onResponse` hook (lib/index.js:71-93): for a tracked call, the
      timing of this attempt and, if it was retried, the retry counter.
    */
    method OnResponse(ctx: CallContext, outcome: Outcome, now: nat)
      modifies this
      ensures emitted == old(emitted) + ResponseMetrics(ctx.stats, outcome, now)
    {
      if ctx.stats.Tracked? {
        var stats := ctx.stats;
        var postfix := Suffix(outcome);
        emitted := emitted + [Timing(stats.name + "." + postfix, now - stats.time)];
        if stats.retry {
          emitted := emitted + [Count(stats.name + ".retry", 1)];
        }
      }
    }
  }

  /**
    `register(client, options)`: the option checks, in order, then a fresh
    hook pair over the given cache with nothing sent yet.
  */
  method Register(options: Options, cache: NameCache) returns (r: Result<Tracker, string>)
    requires cache.Valid()
    ensures r.Failure? <==> OptionsError(options).Some?
    ensures r.Failure? ==> OptionsError(options) == Some(r.error)
    ensures r.Success? ==> fresh(r.value) && r.value.Valid() && r.value.cache == cache && r.value.emitted == []
  {
    if !options.countIsFunction {
      return Failure("count is required");
    }
    if !options.timingIsFunction {
      return Failure("timing is required");
    }
    var tracker := new Tracker(cache);
    r := Success(tracker);
  }

}
