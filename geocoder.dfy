/** The multi-provider fallback resolver of the geocoder integration layer:
    `geocode` and `reverse` walk an ordered list of provider plugin ids, create
    each provider through the plugin factory, return the first successful
    result, log every failure, and give up with `FALSE` and one final message
    when no provider succeeds.

    The model is in two layers. `Resolve` is a recursive specification of one
    whole resolution: its answer, the log entries it appends, and the factory
    calls it makes. The methods `Geocode` and `Reverse` are the two loops of
    the source, proved against `Resolve`; the lemmas below `Resolve` state
    what the source promises about it. */
module Geocoder {
  import opened Text

  datatype Option<T> = None | Some(value: T)

  /** The options of one provider: configuration keys to (opaque) values. */
  type Options = map<string, string>

  /** One resolved address, opaque to this layer and passed through unchanged. */
  datatype Address = Address(components: map<string, string>)
  type AddressCollection = seq<Address>

  /** A latitude or longitude, as the text it prints as. */
  type Coordinate = string

  /** The two exception classes the loop catches. */
  datatype FailureKind = InvalidCredentials | OtherException

  /** What one call of a provider does: return addresses, throw an
      exception the loop catches, or raise a PHP `\Error` (a type error, a
      method call on null), which neither catch clause catches. */
  datatype Outcome =
    | Ok(addresses: AddressCollection)
    | Err(kind: FailureKind, message: string)
    | Uncaught(message: string)

  /** What the plugin factory hands back for one id: `NotFound` when it
      throws (the plugin-not-found exception, or any other exception raised
      while creating the provider), or a provider whose two operations are
      given as functions. */
  datatype Instance =
    | NotFound
    | Provider(geocode: string -> Outcome, reverse: (Coordinate, Coordinate) -> Outcome)

  /** A plugin definition as the plugin manager lists it. */
  datatype Definition = Definition(id: string, name: Option<string>)

  /** The provider plugin manager of the host framework: its factory, applied
      to an already lowered id and the options, and its definitions. */
  datatype PluginManager = PluginManager(
    createInstance: (string, Options) -> Instance,
    definitions: seq<Definition>)

  /** The `$plugins` argument: one id, or a list of ids. */
  datatype Plugins = One(id: string) | List(ids: seq<string>)

  /** What is being resolved: a free-text address or a coordinate pair. */
  datatype Query =
    | AddressQuery(data: string)
    | CoordinateQuery(latitude: Coordinate, longitude: Coordinate)

  /** What the caller sees: a result, the `FALSE` sentinel, the factory's
      exception, which escapes the loop uncaught, or a provider's uncaught `\Error`. */
  datatype Answer =
    | Success(addresses: AddressCollection)
    | Failure
    | PluginNotFound(pluginId: string)
    | Thrown(message: string)

  /** One message shown on screen, with its severity. */
  datatype LogEntry = LogEntry(message: string, severity: string)

  /** One record in the database log. */
  datatype WatchdogEntry = WatchdogEntry(channel: string, severity: string, message: string)

  /** One call of the plugin factory: the id it was given and the options. */
  datatype Attempt = Attempt(id: string, options: Options)

  /** The outcome of trying one provider id. */
  datatype Trial = Missing | Succeeded(addresses: AddressCollection) | Failed(message: string) | Escaped(message: string)

  /** One whole resolution: the answer, the log entries appended in order,
      and the factory calls made in order. */
  datatype Run = Run(answer: Answer, log: seq<LogEntry>, attempts: seq<Attempt>)

  const ERROR := "error"
  const CHANNEL := "geocoder"

  /** The two sinks every logged message goes to: `watchdog` is the database
      log, `screen` the record of the calls made to the on-screen messenger. */
  class Sinks {
    var watchdog: seq<WatchdogEntry>
    var screen: seq<LogEntry>

    /** The database log holds exactly the records of the messenger calls, in
        the same order; true of fresh sinks, and kept by every `Log`. */
    ghost predicate Valid()
      reads this
    {
      watchdog == Watchdog(screen)
    }

    constructor ()
      ensures Valid() && watchdog == [] && screen == []
    {
      watchdog := [];
      screen := [];
    }
  }

  /** The database records that a sequence of logged messages leaves. */
  function Watchdog(log: seq<LogEntry>): seq<WatchdogEntry> {
    seq(|log|, i requires 0 <= i < |log| => WatchdogEntry(CHANNEL, log[i].severity, log[i].message))
  }

  lemma WatchdogAppend(log: seq<LogEntry>, entry: LogEntry)
    ensures Watchdog(log + [entry]) == Watchdog(log) + [WatchdogEntry(CHANNEL, entry.severity, entry.message)]
  {
  }

  /** Logging two batches of messages one after the other leaves the records
      of logging them all at once: sinks that are in step before a lookup
      are in step after it. */
  lemma WatchdogConcat(a: seq<LogEntry>, b: seq<LogEntry>)
    ensures Watchdog(a + b) == Watchdog(a) + Watchdog(b)
  {
  }

  /** Logs one message: a database record on the geocoder channel and one on-screen message. */
  method Log(sinks: Sinks, message: string, severity: string)
    modifies sinks
    ensures old(sinks.Valid()) ==> sinks.Valid()
    ensures sinks.watchdog == old(sinks.watchdog) + [WatchdogEntry(CHANNEL, severity, message)]
    ensures sinks.screen == old(sinks.screen) + [LogEntry(message, severity)]
  {
    WatchdogAppend(sinks.screen, LogEntry(message, severity));
    sinks.watchdog := sinks.watchdog + [WatchdogEntry(CHANNEL, severity, message)];
    sinks.screen := sinks.screen + [LogEntry(message, severity)];
  }

  /** The ids to try, in order: a single id is a one-element list. */
  function Candidates(plugins: Plugins): seq<string> {
    match plugins
    case One(id) => [id]
    case List(ids) => ids
  }

  /** The options of one provider, looked up under the id exactly as given. */
  function PluginOptions(options: map<string, Options>, plugin: string): Options {
    if plugin in options then options[plugin] else map[]
  }

  /** Creates a provider: the id is lower-cased before the factory sees it. */
  function GetPlugin(manager: PluginManager, plugin: string, options: Options): Instance {
    manager.createInstance(LowerCase(plugin), options)
  }

  /** The factory call made for one id. */
  function AttemptFor(options: map<string, Options>, plugin: string): Attempt {
    Attempt(LowerCase(plugin), PluginOptions(options, plugin))
  }

  const GEOCODE_PREFIX := "No plugin could geocode: \""
  const REVERSE_PREFIX := "No plugin could reverse geocode: \""
  const MESSAGE_END := "\"."

  /** The message logged when no provider could resolve the query; it
      carries the query text verbatim between its fixed prefix and suffix. */
  function NoResultMessage(query: Query): (msg: string)
    ensures query.AddressQuery? ==>
      && |msg| == |GEOCODE_PREFIX| + |query.data| + |MESSAGE_END|
      && msg[..|GEOCODE_PREFIX|] == GEOCODE_PREFIX
      && msg[|GEOCODE_PREFIX|..|msg| - |MESSAGE_END|] == query.data
      && msg[|msg| - |MESSAGE_END|..] == MESSAGE_END
    ensures query.CoordinateQuery? ==>
      && |msg| == |REVERSE_PREFIX| + |query.latitude| + 1 + |query.longitude| + |MESSAGE_END|
      && msg[..|REVERSE_PREFIX|] == REVERSE_PREFIX
      && msg[|REVERSE_PREFIX|..|msg| - |MESSAGE_END|] == query.latitude + " " + query.longitude
      && msg[|msg| - |MESSAGE_END|..] == MESSAGE_END
  {
    match query
    case AddressQuery(data) => GEOCODE_PREFIX + data + MESSAGE_END
    case CoordinateQuery(latitude, longitude) => REVERSE_PREFIX + latitude + " " + longitude + MESSAGE_END
  }

  /** Different addresses give different final messages. */
  lemma NoResultMessageInjective(a: string, b: string)
    requires NoResultMessage(AddressQuery(a)) == NoResultMessage(AddressQuery(b))
    ensures a == b
  {
  }

  /** The provider operation the query calls for. */
  function Call(provider: Instance, query: Query): Outcome
    requires provider.Provider?
  {
    match query
    case AddressQuery(data) => provider.geocode(data)
    case CoordinateQuery(latitude, longitude) => provider.reverse(latitude, longitude)
  }

  /** Tries one id: create the provider with its options, then call it. */
  function Try(manager: PluginManager, options: map<string, Options>, plugin: string, query: Query): (trial: Trial)
  {
    var instance := GetPlugin(manager, plugin, PluginOptions(options, plugin));
    if instance.NotFound? then Missing
    else match Call(instance, query)
      case Ok(addresses) => Succeeded(addresses)
      case Err(_, message) => Failed(message)
      case Uncaught(message) => Escaped(message)
  }

  /** A run with some log entries and factory calls in front of it. */
  function Prefixed(log: seq<LogEntry>, attempts: seq<Attempt>, run: Run): Run {
    Run(run.answer, log + run.log, attempts + run.attempts)
  }

  /** The rest of a resolution, from the id at index `i` on. */
  function ResolveFrom(manager: PluginManager, options: map<string, Options>, plugins: seq<string>, query: Query, i: nat): Run
    requires i <= |plugins|
    decreases |plugins| - i
  {
    if i == |plugins| then
      Run(Failure, [LogEntry(NoResultMessage(query), ERROR)], [])
    else
      var attempt := AttemptFor(options, plugins[i]);
      match Try(manager, options, plugins[i], query)
      case Missing => Run(PluginNotFound(attempt.id), [], [attempt])
      case Succeeded(addresses) => Run(Success(addresses), [], [attempt])
      case Escaped(message) => Run(Thrown(message), [], [attempt])
      case Failed(message) =>
        Prefixed([LogEntry(message, ERROR)], [attempt], ResolveFrom(manager, options, plugins, query, i + 1))
  }

  /** One resolution over the ids `plugins`, in order. */
  function Resolve(manager: PluginManager, options: map<string, Options>, plugins: seq<string>, query: Query): Run {
    ResolveFrom(manager, options, plugins, query, 0)
  }

  /** Every factory call but the last one that ends the walk logs exactly one entry;
      when the list runs out every id was tried and one more entry follows. */
  lemma {:induction false} ResolveShape(manager: PluginManager, options: map<string, Options>, plugins: seq<string>, query: Query, i: nat)
    requires i <= |plugins|
    ensures var run := ResolveFrom(manager, options, plugins, query, i);
      && |run.attempts| <= |plugins| - i
      && (run.answer.Failure? ==> |run.attempts| == |plugins| - i && |run.log| == |run.attempts| + 1)
      && (!run.answer.Failure? ==> |run.log| + 1 == |run.attempts|)
    decreases |plugins| - i
  {
    if i < |plugins| && Try(manager, options, plugins[i], query).Failed? {
      ResolveShape(manager, options, plugins, query, i + 1);
    }
  }

  /** Every one of the first `k` ids created a provider whose call threw. */
  ghost predicate FailsBefore(manager: PluginManager, options: map<string, Options>, plugins: seq<string>, query: Query, k: nat) {
    k <= |plugins| && forall j :: 0 <= j < k ==> Try(manager, options, plugins[j], query).Failed?
  }

  /** The entries the first `k` failures log: each provider's own message, at severity error. */
  ghost function FailureLog(manager: PluginManager, options: map<string, Options>, plugins: seq<string>, query: Query, k: nat): (log: seq<LogEntry>)
    requires FailsBefore(manager, options, plugins, query, k)
    ensures |log| == k
  {
    if k == 0 then []
    else FailureLog(manager, options, plugins, query, k - 1) + [LogEntry(Try(manager, options, plugins[k - 1], query).message, ERROR)]
  }

  /** Entry `j` of the failure log is the message of provider `j`, at severity error. */
  lemma {:induction false} FailureLogEntries(manager: PluginManager, options: map<string, Options>, plugins: seq<string>, query: Query, k: nat)
    requires FailsBefore(manager, options, plugins, query, k)
    ensures forall j :: 0 <= j < k ==>
      FailureLog(manager, options, plugins, query, k)[j] == LogEntry(Try(manager, options, plugins[j], query).message, ERROR)
  {
    if k > 0 {
      assert FailsBefore(manager, options, plugins, query, k - 1);
      FailureLogEntries(manager, options, plugins, query, k - 1);
    }
  }

  /** The factory calls made for the first `k` ids. */
  function Attempts(options: map<string, Options>, plugins: seq<string>, k: nat): (attempts: seq<Attempt>)
    requires k <= |plugins|
    ensures |attempts| == k
  {
    if k == 0 then [] else Attempts(options, plugins, k - 1) + [AttemptFor(options, plugins[k - 1])]
  }

  /** Factory call `j` receives id `j` lower-cased, and the options stored
      under id `j` exactly as given, or none. */
  lemma {:induction false} AttemptsEntries(options: map<string, Options>, plugins: seq<string>, k: nat)
    requires k <= |plugins|
    ensures forall j :: 0 <= j < k ==>
      && Attempts(options, plugins, k)[j].id == LowerCase(plugins[j])
      && (plugins[j] in options ==> Attempts(options, plugins, k)[j].options == options[plugins[j]])
      && (plugins[j] !in options ==> Attempts(options, plugins, k)[j].options == map[])
  {
    if k > 0 {
      AttemptsEntries(options, plugins, k - 1);
    }
  }

  /** The loop's step for a provider whose call threw. */
  lemma FallThrough(manager: PluginManager, options: map<string, Options>, plugins: seq<string>, query: Query,
                    k: nat, instance: Instance)
    requires FailsBefore(manager, options, plugins, query, k) && k < |plugins|
    requires instance == GetPlugin(manager, plugins[k], PluginOptions(options, plugins[k]))
    requires instance.Provider? && Call(instance, query).Err?
    ensures FailsBefore(manager, options, plugins, query, k + 1)
    ensures FailureLog(manager, options, plugins, query, k + 1)
         == FailureLog(manager, options, plugins, query, k) + [LogEntry(Call(instance, query).message, ERROR)]
    ensures Attempts(options, plugins, k + 1) == Attempts(options, plugins, k) + [Attempt(LowerCase(plugins[k]), PluginOptions(options, plugins[k]))]
  {
  }

  lemma PrefixedTwice(log: seq<LogEntry>, attempts: seq<Attempt>, entry: LogEntry, attempt: Attempt, run: Run)
    ensures Prefixed(log, attempts, Prefixed([entry], [attempt], run)) == Prefixed(log + [entry], attempts + [attempt], run)
  {
  }

  /** The providers that fail fall through: a run whose first `k` providers
      fail is their failure entries and factory calls, followed by the run
      from id `k` on. */
  lemma {:induction false} ResolveSkipsFailures(manager: PluginManager, options: map<string, Options>, plugins: seq<string>, query: Query, k: nat)
    requires FailsBefore(manager, options, plugins, query, k)
    ensures Resolve(manager, options, plugins, query)
         == Prefixed(FailureLog(manager, options, plugins, query, k), Attempts(options, plugins, k),
                     ResolveFrom(manager, options, plugins, query, k))
  {
    if k == 0 {
      var run := ResolveFrom(manager, options, plugins, query, 0);
      assert [] + run.log == run.log && [] + run.attempts == run.attempts;
    } else {
      assert FailsBefore(manager, options, plugins, query, k - 1);
      ResolveSkipsFailures(manager, options, plugins, query, k - 1);
      assert Try(manager, options, plugins[k - 1], query).Failed?;
      PrefixedTwice(FailureLog(manager, options, plugins, query, k - 1), Attempts(options, plugins, k - 1),
                    LogEntry(Try(manager, options, plugins[k - 1], query).message, ERROR), AttemptFor(options, plugins[k - 1]),
                    ResolveFrom(manager, options, plugins, query, k));
    }
  }

  /** The result is that of the first provider in list order whose call
      succeeds; every provider before it logged exactly its own message, and
      no provider after it was created. */
  lemma ResolveSucceedsAt(manager: PluginManager, options: map<string, Options>, plugins: seq<string>, query: Query,
                          k: nat, addresses: AddressCollection)
    requires FailsBefore(manager, options, plugins, query, k) && k < |plugins|
    requires Try(manager, options, plugins[k], query) == Succeeded(addresses)
    ensures Resolve(manager, options, plugins, query)
         == Run(Success(addresses), FailureLog(manager, options, plugins, query, k), Attempts(options, plugins, k + 1))
  {
    ResolveSkipsFailures(manager, options, plugins, query, k);
  }

  /** If the first provider succeeds, its result comes back unchanged, nothing is logged and no other provider is created. */
  lemma ResolveFirstSucceeds(manager: PluginManager, options: map<string, Options>, plugins: seq<string>, query: Query,
                             addresses: AddressCollection)
    requires plugins != [] && Try(manager, options, plugins[0], query) == Succeeded(addresses)
    ensures Resolve(manager, options, plugins, query) == Run(Success(addresses), [], [AttemptFor(options, plugins[0])])
  {
  }

  /** A plugin id the factory does not know ends the resolution at once:
      its exception escapes, nothing is logged for it and no later id is tried. */
  lemma ResolveNotFoundAt(manager: PluginManager, options: map<string, Options>, plugins: seq<string>, query: Query, k: nat)
    requires FailsBefore(manager, options, plugins, query, k) && k < |plugins|
    requires Try(manager, options, plugins[k], query) == Missing
    ensures Resolve(manager, options, plugins, query)
         == Run(PluginNotFound(LowerCase(plugins[k])), FailureLog(manager, options, plugins, query, k), Attempts(options, plugins, k + 1))
  {
    ResolveSkipsFailures(manager, options, plugins, query, k);
  }

  /** An `\Error` from provider `k` is not caught: it escapes at once, nothing
      is logged for it and no later id is tried. */
  lemma ResolveEscapesAt(manager: PluginManager, options: map<string, Options>, plugins: seq<string>, query: Query,
                         k: nat, message: string)
    requires FailsBefore(manager, options, plugins, query, k) && k < |plugins|
    requires Try(manager, options, plugins[k], query) == Escaped(message)
    ensures Resolve(manager, options, plugins, query)
         == Run(Thrown(message), FailureLog(manager, options, plugins, query, k), Attempts(options, plugins, k + 1))
  {
    ResolveSkipsFailures(manager, options, plugins, query, k);
  }

  /** When every provider fails, or there is none, the answer is `FALSE` and
      exactly one entry follows the providers' own: the no-result message. */
  lemma ResolveAllFail(manager: PluginManager, options: map<string, Options>, plugins: seq<string>, query: Query)
    requires FailsBefore(manager, options, plugins, query, |plugins|)
    ensures Resolve(manager, options, plugins, query)
         == Run(Failure,
                FailureLog(manager, options, plugins, query, |plugins|) + [LogEntry(NoResultMessage(query), ERROR)],
                Attempts(options, plugins, |plugins|))
  {
    ResolveSkipsFailures(manager, options, plugins, query, |plugins|);
    assert Attempts(options, plugins, |plugins|) + [] == Attempts(options, plugins, |plugins|);
  }

  /** An empty list tries nothing and logs only the no-result message. */
  lemma ResolveEmpty(manager: PluginManager, options: map<string, Options>, query: Query)
    ensures Resolve(manager, options, [], query) == Run(Failure, [LogEntry(NoResultMessage(query), ERROR)], [])
  {
  }

  /** Geocodes `data` with the first provider of `plugins` that succeeds.
      `attempts` are the factory calls made, in order. */
  method Geocode(sinks: Sinks, plugins: Plugins, data: string, options: map<string, Options>, manager: PluginManager)
    returns (answer: Answer, ghost attempts: seq<Attempt>)
    modifies sinks
    ensures var run := Resolve(manager, options, Candidates(plugins), AddressQuery(data));
      && answer == run.answer
      && attempts == run.attempts
      && sinks.screen == old(sinks.screen) + run.log
      && sinks.watchdog == old(sinks.watchdog) + Watchdog(run.log)
  {
    var ids := Candidates(plugins);
    ghost var query := AddressQuery(data);
    ghost var logged: seq<LogEntry> := [];
    attempts := [];
    var i := 0;
    while i < |ids|
      invariant 0 <= i <= |ids|
      invariant FailsBefore(manager, options, ids, query, i)
      invariant logged == FailureLog(manager, options, ids, query, i)
      invariant attempts == Attempts(options, ids, i)
      invariant sinks.screen == old(sinks.screen) + logged
      invariant sinks.watchdog == old(sinks.watchdog) + Watchdog(logged)
    {
      var plugin := ids[i];
      var pluginOptions := PluginOptions(options, plugin);
      var instance := GetPlugin(manager, plugin, pluginOptions);
      attempts := attempts + [Attempt(LowerCase(plugin), pluginOptions)];
      if instance.NotFound? {
        ResolveNotFoundAt(manager, options, ids, query, i);
        answer := PluginNotFound(LowerCase(plugin));
        return;
      }
      var outcome := instance.geocode(data);
      assert outcome == Call(instance, query);
      var message: string;
      match outcome {
        case Ok(addresses) =>
          ResolveSucceedsAt(manager, options, ids, query, i, addresses);
          answer := Success(addresses);
          return;
        case Uncaught(error) =>
          ResolveEscapesAt(manager, options, ids, query, i, error);
          answer := Thrown(error);
          return;
        case Err(InvalidCredentials, caught) =>
          message := caught;
        case Err(OtherException, caught) =>
          message := caught;
      }
      // Both catch clauses log the exception's message at severity error.
      FallThrough(manager, options, ids, query, i, instance);
      Log(sinks, message, ERROR);
      WatchdogAppend(logged, LogEntry(message, ERROR));
      logged := logged + [LogEntry(message, ERROR)];
      i := i + 1;
    }
    ResolveAllFail(manager, options, ids, query);
    Log(sinks, NoResultMessage(AddressQuery(data)), ERROR);
    WatchdogAppend(logged, LogEntry(NoResultMessage(AddressQuery(data)), ERROR));
    answer := Failure;
  }

  /** Reverse geocodes a coordinate pair with the first provider of `plugins`
      that succeeds: the loop of `Geocode`, calling `reverse` instead. */
  method Reverse(sinks: Sinks, plugins: Plugins, latitude: Coordinate, longitude: Coordinate,
                 options: map<string, Options>, manager: PluginManager)
    returns (answer: Answer, ghost attempts: seq<Attempt>)
    modifies sinks
    ensures var run := Resolve(manager, options, Candidates(plugins), CoordinateQuery(latitude, longitude));
      && answer == run.answer
      && attempts == run.attempts
      && sinks.screen == old(sinks.screen) + run.log
      && sinks.watchdog == old(sinks.watchdog) + Watchdog(run.log)
  {
    var ids := Candidates(plugins);
    ghost var query := CoordinateQuery(latitude, longitude);
    ghost var logged: seq<LogEntry> := [];
    attempts := [];
    var i := 0;
    while i < |ids|
      invariant 0 <= i <= |ids|
      invariant FailsBefore(manager, options, ids, query, i)
      invariant logged == FailureLog(manager, options, ids, query, i)
      invariant attempts == Attempts(options, ids, i)
      invariant sinks.screen == old(sinks.screen) + logged
      invariant sinks.watchdog == old(sinks.watchdog) + Watchdog(logged)
    {
      var plugin := ids[i];
      var pluginOptions := PluginOptions(options, plugin);
      var instance := GetPlugin(manager, plugin, pluginOptions);
      attempts := attempts + [Attempt(LowerCase(plugin), pluginOptions)];
      if instance.NotFound? {
        ResolveNotFoundAt(manager, options, ids, query, i);
        answer := PluginNotFound(LowerCase(plugin));
        return;
      }
      var outcome := instance.reverse(latitude, longitude);
      assert outcome == Call(instance, query);
      var message: string;
      match outcome {
        case Ok(addresses) =>
          ResolveSucceedsAt(manager, options, ids, query, i, addresses);
          answer := Success(addresses);
          return;
        case Uncaught(error) =>
          ResolveEscapesAt(manager, options, ids, query, i, error);
          answer := Thrown(error);
          return;
        case Err(InvalidCredentials, caught) =>
          message := caught;
        case Err(OtherException, caught) =>
          message := caught;
      }
      // Both catch clauses log the exception's message at severity error.
      FallThrough(manager, options, ids, query, i, instance);
      Log(sinks, message, ERROR);
      WatchdogAppend(logged, LogEntry(message, ERROR));
      logged := logged + [LogEntry(message, ERROR)];
      i := i + 1;
    }
    ResolveAllFail(manager, options, ids, query);
    Log(sinks, NoResultMessage(CoordinateQuery(latitude, longitude)), ERROR);
    WatchdogAppend(logged, LogEntry(NoResultMessage(CoordinateQuery(latitude, longitude)), ERROR));
    answer := Failure;
  }

  /** Where the walk stops: the first index from `i` on whose provider does
      not fail, or the end of the list. */
  ghost function FirstStop(manager: PluginManager, options: map<string, Options>, plugins: seq<string>, query: Query, i: nat): (k: nat)
    requires i <= |plugins|
    ensures i <= k <= |plugins|
    ensures forall j :: i <= j < k ==> Try(manager, options, plugins[j], query).Failed?
    ensures k < |plugins| ==> !Try(manager, options, plugins[k], query).Failed?
    decreases |plugins| - i
  {
    if i == |plugins| || !Try(manager, options, plugins[i], query).Failed? then i
    else FirstStop(manager, options, plugins, query, i + 1)
  }

  /** The whole run is decided by the first provider that does not fail. */
  lemma ResolveDecidedByFirstStop(manager: PluginManager, options: map<string, Options>, plugins: seq<string>, query: Query)
    ensures var k := FirstStop(manager, options, plugins, query, 0);
      && FailsBefore(manager, options, plugins, query, k)
      && Resolve(manager, options, plugins, query)
         == if k == |plugins| then
              Run(Failure, FailureLog(manager, options, plugins, query, k) + [LogEntry(NoResultMessage(query), ERROR)],
                  Attempts(options, plugins, k))
            else if Try(manager, options, plugins[k], query).Missing? then
              Run(PluginNotFound(LowerCase(plugins[k])), FailureLog(manager, options, plugins, query, k), Attempts(options, plugins, k + 1))
            else if Try(manager, options, plugins[k], query).Escaped? then
              Run(Thrown(Try(manager, options, plugins[k], query).message), FailureLog(manager, options, plugins, query, k),
                  Attempts(options, plugins, k + 1))
            else
              Run(Success(Try(manager, options, plugins[k], query).addresses), FailureLog(manager, options, plugins, query, k),
                  Attempts(options, plugins, k + 1))
  {
    var k := FirstStop(manager, options, plugins, query, 0);
    assert FailsBefore(manager, options, plugins, query, k);
    if k == |plugins| {
      ResolveAllFail(manager, options, plugins, query);
    } else if Try(manager, options, plugins[k], query).Missing? {
      ResolveNotFoundAt(manager, options, plugins, query, k);
    } else if Try(manager, options, plugins[k], query).Escaped? {
      ResolveEscapesAt(manager, options, plugins, query, k, Try(manager, options, plugins[k], query).message);
    } else {
      ResolveSucceedsAt(manager, options, plugins, query, k, Try(manager, options, plugins[k], query).addresses);
    }
  }

  /** `FALSE` comes back exactly when every provider was created and failed. */
  lemma ResolveFailsIff(manager: PluginManager, options: map<string, Options>, plugins: seq<string>, query: Query)
    ensures Resolve(manager, options, plugins, query).answer == Failure <==> FailsBefore(manager, options, plugins, query, |plugins|)
  {
    ResolveDecidedByFirstStop(manager, options, plugins, query);
    var k := FirstStop(manager, options, plugins, query, 0);
    if k < |plugins| {
      assert !Try(manager, options, plugins[k], query).Failed?;
    }
  }

  /** A result comes back exactly when some provider succeeds after all the
      ones before it failed, and it is that provider's result. */
  lemma ResolveSucceedsIff(manager: PluginManager, options: map<string, Options>, plugins: seq<string>, query: Query,
                           addresses: AddressCollection)
    ensures Resolve(manager, options, plugins, query).answer == Success(addresses)
        <==> exists k: nat :: k < |plugins| && FailsBefore(manager, options, plugins, query, k)
                              && Try(manager, options, plugins[k], query) == Succeeded(addresses)
  {
    ResolveDecidedByFirstStop(manager, options, plugins, query);
    var k := FirstStop(manager, options, plugins, query, 0);
    if exists k': nat :: k' < |plugins| && FailsBefore(manager, options, plugins, query, k')
                       && Try(manager, options, plugins[k'], query) == Succeeded(addresses) {
      var k': nat :| k' < |plugins| && FailsBefore(manager, options, plugins, query, k')
                    && Try(manager, options, plugins[k'], query) == Succeeded(addresses);
      ResolveSucceedsAt(manager, options, plugins, query, k', addresses);
    }
  }

  /** The plugin-not-found exception escapes exactly when the factory does
      not know an id that is reached, and it names that id lower-cased. */
  lemma ResolveNotFoundIff(manager: PluginManager, options: map<string, Options>, plugins: seq<string>, query: Query, id: string)
    ensures Resolve(manager, options, plugins, query).answer == PluginNotFound(id)
        <==> exists k: nat :: k < |plugins| && FailsBefore(manager, options, plugins, query, k)
                              && Try(manager, options, plugins[k], query) == Missing && LowerCase(plugins[k]) == id
  {
    ResolveDecidedByFirstStop(manager, options, plugins, query);
    if exists k': nat :: k' < |plugins| && FailsBefore(manager, options, plugins, query, k')
                       && Try(manager, options, plugins[k'], query) == Missing && LowerCase(plugins[k']) == id {
      var k': nat :| k' < |plugins| && FailsBefore(manager, options, plugins, query, k')
                    && Try(manager, options, plugins[k'], query) == Missing && LowerCase(plugins[k']) == id;
      ResolveNotFoundAt(manager, options, plugins, query, k');
    }
  }

  /** A provider's `\Error` escapes exactly when that provider is reached
      after all the ones before it failed, and it is that error. */
  lemma ResolveThrownIff(manager: PluginManager, options: map<string, Options>, plugins: seq<string>, query: Query, message: string)
    ensures Resolve(manager, options, plugins, query).answer == Thrown(message)
        <==> exists k: nat :: k < |plugins| && FailsBefore(manager, options, plugins, query, k)
                              && Try(manager, options, plugins[k], query) == Escaped(message)
  {
    ResolveDecidedByFirstStop(manager, options, plugins, query);
    if exists k': nat :: k' < |plugins| && FailsBefore(manager, options, plugins, query, k')
                       && Try(manager, options, plugins[k'], query) == Escaped(message) {
      var k': nat :| k' < |plugins| && FailsBefore(manager, options, plugins, query, k')
                    && Try(manager, options, plugins[k'], query) == Escaped(message);
      ResolveEscapesAt(manager, options, plugins, query, k', message);
    }
  }

  /** A run with its final no-result message replaced by that of `query`;
      a run that did not end in `FALSE` is left alone. */
  function Retitled(run: Run, query: Query): Run {
    if run.answer.Failure? && |run.log| >= 1 then
      Run(run.answer, run.log[..|run.log| - 1] + [LogEntry(NoResultMessage(query), ERROR)], run.attempts)
    else run
  }

  lemma RetitledPrefixed(entry: LogEntry, attempt: Attempt, r1: Run, r2: Run, query: Query)
    requires r1.answer.Failure? ==> |r1.log| >= 1
    requires r2 == Retitled(r1, query)
    ensures Prefixed([entry], [attempt], r2) == Retitled(Prefixed([entry], [attempt], r1), query)
  {
    if r1.answer.Failure? {
      var t := LogEntry(NoResultMessage(query), ERROR);
      assert ([entry] + r1.log)[..|r1.log|] + [t] == [entry] + (r1.log[..|r1.log| - 1] + [t]);
    }
  }

  /** The query reaches the run only through what each provider does with it
      and through the final message: two queries on which every provider
      behaves alike give the same answer, the same factory calls and the same
      log, except for the no-result message at its end. */
  lemma {:induction false} ResolveDependsOnTrials(manager: PluginManager, options: map<string, Options>, plugins: seq<string>,
                                                 q1: Query, q2: Query, i: nat)
    requires i <= |plugins|
    requires forall j :: i <= j < |plugins| ==> Try(manager, options, plugins[j], q1) == Try(manager, options, plugins[j], q2)
    ensures ResolveFrom(manager, options, plugins, q2, i) == Retitled(ResolveFrom(manager, options, plugins, q1, i), q2)
    decreases |plugins| - i
  {
    if i < |plugins| && Try(manager, options, plugins[i], q1).Failed? {
      assert Try(manager, options, plugins[i], q1) == Try(manager, options, plugins[i], q2);
      ResolveDependsOnTrials(manager, options, plugins, q1, q2, i + 1);
      ResolveShape(manager, options, plugins, q1, i + 1);
      var r1 := ResolveFrom(manager, options, plugins, q1, i + 1);
      var e := LogEntry(Try(manager, options, plugins[i], q1).message, ERROR);
      var a := AttemptFor(options, plugins[i]);
      assert ResolveFrom(manager, options, plugins, q1, i) == Prefixed([e], [a], r1);
      assert ResolveFrom(manager, options, plugins, q2, i) == Prefixed([e], [a], ResolveFrom(manager, options, plugins, q2, i + 1));
      RetitledPrefixed(e, a, r1, ResolveFrom(manager, options, plugins, q2, i + 1), q2);
    } else if i < |plugins| {
      assert Try(manager, options, plugins[i], q1) == Try(manager, options, plugins[i], q2);
      assert ResolveFrom(manager, options, plugins, q1, i) == ResolveFrom(manager, options, plugins, q2, i);
    }
  }

  /** A caught provider failure re-raised as the given exception class, message kept. */
  function Recast(outcome: Outcome, kind: FailureKind): Outcome {
    match outcome
    case Ok(addresses) => Ok(addresses)
    case Err(_, message) => Err(kind, message)
    case Uncaught(message) => Uncaught(message)
  }

  /** The same plugin manager, except that every provider throws `kind` where it threw before. */
  function RecastManager(manager: PluginManager, kind: FailureKind): PluginManager {
    PluginManager(
      (id, options) =>
        match manager.createInstance(id, options)
        case NotFound => NotFound
        case Provider(geocode, reverse) =>
          Provider(data => Recast(geocode(data), kind), (latitude, longitude) => Recast(reverse(latitude, longitude), kind)),
      manager.definitions)
  }

  /** Invalid-credential failures and all other failures are handled alike:
      re-raising every failure as one exception class changes nothing. */
  lemma {:induction false} ResolveIgnoresFailureKind(manager: PluginManager, kind: FailureKind, options: map<string, Options>,
                                                    plugins: seq<string>, query: Query, i: nat)
    requires i <= |plugins|
    ensures ResolveFrom(RecastManager(manager, kind), options, plugins, query, i) == ResolveFrom(manager, options, plugins, query, i)
    decreases |plugins| - i
  {
    if i < |plugins| {
      var recast := RecastManager(manager, kind);
      var pluginOptions := PluginOptions(options, plugins[i]);
      var instance := GetPlugin(manager, plugins[i], pluginOptions);
      assert GetPlugin(recast, plugins[i], pluginOptions).NotFound? == instance.NotFound?;
      if instance.Provider? {
        assert Call(GetPlugin(recast, plugins[i], pluginOptions), query) == Recast(Call(instance, query), kind);
      }
      assert Try(recast, options, plugins[i], query) == Try(manager, options, plugins[i], query);
      ResolveIgnoresFailureKind(manager, kind, options, plugins, query, i + 1);
    }
  }

  /** The factory lookup ignores the case of the id. */
  lemma GetPluginIgnoresCase(manager: PluginManager, a: string, b: string, options: Options)
    requires LowerCase(a) == LowerCase(b)
    ensures GetPlugin(manager, a, options) == GetPlugin(manager, b, options)
    ensures GetPlugin(manager, LowerCase(a), options) == GetPlugin(manager, a, options)
  {
    LowerCaseIdempotent(a);
  }

  /** A single id behaves exactly like the one-element list holding it. */
  lemma SingleIdIsList(manager: PluginManager, options: map<string, Options>, id: string, query: Query)
    ensures Resolve(manager, options, Candidates(One(id)), query) == Resolve(manager, options, Candidates(List([id])), query)
  {
  }

  /** Two providers "a" and "b": "a" throws, "b" finds one address. One error
      is logged, carrying the message of "a", and the address comes back. */
  lemma FallbackScenario(address: Address)
    ensures var manager := PluginManager(
              (id, options) =>
                if id == "a" then Provider(data => Err(OtherException, "quota exceeded"), (latitude, longitude) => Err(OtherException, "quota exceeded"))
                else if id == "b" then Provider(data => Ok([address]), (latitude, longitude) => Ok([address]))
                else NotFound,
              []);
      Resolve(manager, map["a" := map["key" := "X"]], ["a", "b"], AddressQuery("221B Baker Street"))
        == Run(Success([address]), [LogEntry("quota exceeded", ERROR)], [Attempt("a", map["key" := "X"]), Attempt("b", map[])])
  {
    assert LowerCase("a") == "a";
    assert LowerCase("b") == "b";
  }
}
