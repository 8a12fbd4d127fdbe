# Geocoder fallback resolver

This project models the provider-fallback core of a Drupal geocoder
integration module (`src/Geocoder.php`, class `Geocoder`). Address lookups
and coordinate lookups both take an ordered list of provider plugin ids and walk
it. For each id the module does three things. It looks up the options stored
under the id exactly as given. It lower-cases the id and asks the provider
plugin manager to create the provider. It then calls the provider. The first
result that comes back is returned at once. When the call throws an exception
(an invalid-credentials exception, or any other subclass of `\Exception`), the
module logs the exception message at severity `error` and moves to the next id.
A PHP `\Error` (a type error, a method call on null) is not caught by either
clause: it leaves the loop at once, unlogged. When the list runs out, the module
logs one final "No plugin could ..." message and returns `FALSE`. Provider
creation happens outside the `try`, so a plugin-not-found exception, or any
other exception from the factory, escapes at once. Every logged message goes
to two places: the database log, on channel `geocoder`, and the on-screen
messenger. A second operation lists the plugins of a type as an id →
display-name table sorted by display name.

The project has three modules:

- `Text` (`text.dfy`):
  - ASCII lower-casing, used on plugin ids;
  - the character-code string order, used to sort the plugin list.
- `Geocoder` (`geocoder.dfy`):
  - the entities: plugin manager, provider instance, provider outcome, the
    answer, and log entries;
  - the class `Sinks`, which holds the database log and the calls made to the
    messenger, and which `Log` updates in place;
  - a recursive specification `Resolve`, which gives the answer, the log
    entries appended and the factory calls made by one resolution;
  - the two loops `Geocode` and `Reverse`, each proved to do exactly what
    `Resolve` says;
  - the lemmas that characterise `Resolve`.
- `PluginList` (`plugin_list.dfy`):
  - the PHP ordered-array assignment;
  - the table that the `foreach` of `getPlugins` fills;
  - the sort by display name;
  - the method `GetPlugins`.

A PHP array with string keys is modelled as a sequence of (key, value) rows
with distinct keys. The host framework's services enter as values:
- the plugin manager is a datatype holding the factory `createInstance`, a
  function of the lowered id and the options, and the list of definitions;
- each provider is a pair of functions, one for `geocode` and one for
  `reverse`.

## Model

| member | source | states |
|---|---|---|
| Geocoder.Geocode | src/Geocoder.php:21-39 | Whatever the two sinks held before, the answer and the factory calls are those of the resolution of the address over the candidate ids. The messenger gets exactly that run's log entries appended, and the database log gets exactly their records on channel `geocoder` appended. The two catch clauses each bind the message and go on to the same logging step |
| Geocoder.Reverse | src/Geocoder.php:55-73 | The same loop as `Geocode`, with the provider's reverse operation on (latitude, longitude) and the coordinate no-result message; each sink gets exactly that run's entries or records appended |
| Geocoder.Candidates | src/Geocoder.php:22 | Definition of the `(array)` cast: a single id becomes the one-element list holding it, a list is kept as it is. What this means for a lookup is stated by `Geocoder.SingleIdIsList` |
| Geocoder.PluginOptions | src/Geocoder.php:23 | Definition of the options lookup under the id exactly as given, with the empty map when none are stored. The factory calls that result are stated by `Geocoder.AttemptsEntries` |
| Geocoder.GetPlugin | src/Geocoder.php:88-91 | Definition: the factory applied to the lower-cased id and the options. Its consequence, that letter case in an id does not matter, is stated by `Geocoder.GetPluginIgnoresCase` |
| Geocoder.Call | src/Geocoder.php:27 | Definition: an address query calls the provider's geocode operation, a coordinate query its reverse operation (line 61). That the rest of the loop does not depend on which was called is stated by `Geocoder.ResolveDependsOnTrials` |
| Geocoder.Try | src/Geocoder.php:24-32 | Trying one id: the factory either gives no provider, or the provider's call returns addresses, throws a caught exception (only its message is kept), or raises an uncaught error |
| Geocoder.ResolveFrom | src/Geocoder.php:22-38 | The walk from id `i` on: a miss, a success or an uncaught error ends it with one factory call and no entry; a caught failure logs one error entry and goes on; the end of the list logs the no-result message and answers `FALSE` |
| Geocoder.Resolve | src/Geocoder.php:22-38 | One resolution over the ids, from the first |
| Geocoder.ResolveShape | src/Geocoder.php:22-38 | A run makes at most one factory call per id. When it answers `FALSE`, every id was tried and the log has one entry more than there were calls. Otherwise the log has one entry fewer than the calls |
| Geocoder.Watchdog | src/Geocoder.php:124 | The database records left by a sequence of logged messages |
| Geocoder.WatchdogConcat | src/Geocoder.php:124 | Logging two batches one after the other leaves the same database records as logging them at once, so sinks that were in step before a lookup are in step after it |
| Geocoder.Log | src/Geocoder.php:123-126 | Whatever the sinks held before, one call appends exactly one database record on channel `geocoder` and one messenger call, each with the given message and severity; sinks in step stay in step |
| Geocoder.Sinks.constructor | src/Geocoder.php:123-126 | Both sinks start empty, hence in step |
| Text.LowerCase | src/Geocoder.php:89 | The same length; every ASCII capital becomes its lower-case letter; every other character is kept; no capital is left |
| Text.LowerCaseIdempotent | src/Geocoder.php:89 | Lower-casing an already lowered id changes nothing |
| Geocoder.GetPluginIgnoresCase | src/Geocoder.php:88-91 | Ids that differ only in letter case create the same provider, which is also the provider of the lowered id |
| Geocoder.NoResultMessage | src/Geocoder.php:35-36 | The final message is the fixed prefix, then the address (or latitude, a space, longitude) verbatim, then the closing quote and period |
| Geocoder.NoResultMessageInjective | src/Geocoder.php:35-36 | Different addresses give different final messages |
| Geocoder.AttemptsEntries | src/Geocoder.php:23-24 | Factory call `j` receives id `j` lower-cased and the options stored under id `j` exactly as given, or the empty map when none are stored |
| Geocoder.FailureLogEntries | src/Geocoder.php:28-31 | Log entry `j` of a run of failures is provider `j`'s own exception message at severity `error` |
| Geocoder.ResolveSkipsFailures | src/Geocoder.php:22-33 | A run whose first `k` providers throw is their `k` error entries and `k` factory calls, followed by the run from id `k` on |
| Geocoder.ResolveFirstSucceeds | src/Geocoder.php:22-27 | If the first provider succeeds, its result is returned unchanged, nothing is logged and only that provider is created |
| Geocoder.ResolveSucceedsAt | src/Geocoder.php:22-32 | When providers `0..k-1` throw and provider `k` succeeds, that result is returned. Exactly the `k` error entries are logged. Exactly the factory calls for ids `0..k` are made |
| Geocoder.ResolveNotFoundAt | src/Geocoder.php:24 | When the factory does not know id `k`, its exception (naming the lowered id) ends the run. Nothing is logged for that id and no later id is tried |
| Geocoder.ResolveEscapesAt | src/Geocoder.php:26-32 | When providers `0..k-1` throw caught exceptions and provider `k` raises an uncaught error, that error escapes: only the `k` error entries are logged and no id after `k` is tried |
| Geocoder.ResolveAllFail | src/Geocoder.php:35-38 | When every provider throws, the answer is `FALSE`. The log is the providers' error entries followed by exactly one no-result entry at severity `error`. Every id was tried, in order |
| Geocoder.ResolveEmpty | src/Geocoder.php:35-38 | An empty list creates no provider and logs only the no-result message |
| Geocoder.FirstStop | src/Geocoder.php:22-33 | The index where the walk stops: every provider before it throws, and the one at it (if any) does not |
| Geocoder.ResolveDecidedByFirstStop | src/Geocoder.php:22-38 | The whole run (answer, log, factory calls) is determined by the first id whose trial is not a caught failure. It covers each of the four ways the run can end |
| Geocoder.ResolveFailsIff | src/Geocoder.php:22-38 | `FALSE` comes back if and only if every provider was created and threw |
| Geocoder.ResolveSucceedsIff | src/Geocoder.php:22-32 | A result comes back if and only if some provider succeeds after all earlier ones threw, and it is that provider's result |
| Geocoder.ResolveNotFoundIff | src/Geocoder.php:24 | The plugin-not-found exception naming `id` escapes if and only if an id that lowers to `id` is reached and the factory does not know it |
| Geocoder.ResolveThrownIff | src/Geocoder.php:26-32 | A provider's uncaught error escapes if and only if that provider is reached after all earlier ones threw caught exceptions |
| Geocoder.ResolveDependsOnTrials | src/Geocoder.php:55-72 | Two queries on which every provider behaves alike give the same answer, the same factory calls and the same log, apart from the final no-result message, which is replaced by that of the second query; address and coordinate lookups share one control flow |
| Geocoder.ResolveIgnoresFailureKind | src/Geocoder.php:28-31 | Re-raising every caught provider failure as an invalid-credentials exception, or as a generic one, leaves the whole run unchanged. `Try` keeps only the message of a caught failure, so this holds by construction. The loops show the handling directly: both catch arms of `Geocode` and `Reverse` log the message the same way |
| Geocoder.SingleIdIsList | src/Geocoder.php:22 | A single id behaves exactly like the one-element list that holds it |
| Geocoder.FallbackScenario | src/Geocoder.php:21-39 | Two providers, the first throwing and the second succeeding: the second's result comes back and exactly one error entry, with the first's message, is logged |
| PluginList.DisplayName | src/Geocoder.php:107 | Definition: a definition is listed under its name, or under its id when it has no name. The table rows it yields are stated by `PluginList.FillEntries` and `PluginList.GetPlugins` |
| PluginList.IndexOf | src/Geocoder.php:108 | The position of a key in the table, or the table's length when the key is absent |
| PluginList.Assign | src/Geocoder.php:108 | Keys keep their places; the table grows by at most one row, and only by appending the new row |
| PluginList.AssignRows | src/Geocoder.php:108 | After an assignment the table holds the new row and every earlier row with another key, and nothing else |
| PluginList.AssignDistinct | src/Geocoder.php:108 | An assignment keeps the keys distinct |
| PluginList.Fill | src/Geocoder.php:106-109 | The filled table has distinct keys |
| PluginList.FillEntries | src/Geocoder.php:106-109 | A row is in the filled table if and only if it is (id, display name) of the last definition with that id |
| PluginList.FillKeys | src/Geocoder.php:106-109 | The keys of the filled table are exactly the definition ids |
| PluginList.Insert | src/Geocoder.php:110 | Inserting into a sorted table gives a sorted table holding one more copy of the row |
| PluginList.SortByName | src/Geocoder.php:110 | The result is sorted by display name and is a permutation of the input |
| PluginList.SameRows | src/Geocoder.php:110 | A permuted table holds the same rows |
| PluginList.HeadKeyNew | src/Geocoder.php:108 | With distinct keys, the first key does not occur again |
| PluginList.InsertKeys | src/Geocoder.php:110 | Inserting a row adds its key and no other |
| PluginList.InsertDistinct | src/Geocoder.php:110 | Inserting a row under a new key keeps the keys distinct |
| PluginList.SortKeys | src/Geocoder.php:110 | Sorting keeps the set of keys, and keeps distinct keys distinct |
| PluginList.SortedPairwise | src/Geocoder.php:110 | In a sorted table, every earlier display name is at most every later one |
| PluginList.GetPlugins | src/Geocoder.php:102-113 | The table is sorted by display name, has distinct keys, and its keys are exactly the definition ids. A row is present if and only if it is (id, display name) of the last definition with that id |
| Text.LessEq | src/Geocoder.php:110 | Definition of the display-name order: character codes compared from the first character on, a prefix first. It agrees with `asort` except when both names are numeric strings, which `asort` compares as numbers |
| Text.LessEqPrefix | src/Geocoder.php:110 | A prefix sorts before every string it starts, and a string sorts before another only if its first character is not greater |
| Text.LessEqReflexive | src/Geocoder.php:110 | The name order is reflexive |
| Text.LessEqTotal | src/Geocoder.php:110 | Any two names are comparable |
| Text.LessEqTransitive | src/Geocoder.php:110 | The name order is transitive |
| Text.LessEqAntisymmetric | src/Geocoder.php:110 | Names that are each at most the other are equal |

## Left out

- The host framework's service container is not modelled. It provides `\Drupal::service`, the provider and dumper plugin managers, `createInstance` and `getDefinitions`. The plugin manager is a parameter: a factory function together with a definition list.
- The plugin type argument of `getPlugin` and `getPlugins` is not modelled. The service name is built from it with `drupal_ucfirst`. The type is always `Provider` in the modelled loops, and the plugin manager of the chosen type is passed in directly.
- The database logger and the messenger are reduced to two sequences in `Sinks`. Their own storage, formatting and display are I/O.
- The third-party geocoding library and its HTTP adapters are not modelled. A provider is a pair of functions that return addresses or throw. Address collections are opaque values.
- The plugin-not-found exception ends the model's run as the answer `PluginNotFound`. What the caller does with the exception is outside this class.
- `drupal_strtolower` is modelled on ASCII only. Lower-casing of letters beyond ASCII is not modelled.
- Latitude and longitude are carried as the strings they print as. The floating-point formatting that `sprintf` applies is not modelled.
- Options are keyed by id, and each id's options are an opaque map of strings. PHP's `isset` is false for a key whose value is `null`, so such a key gets the empty options. That case does not arise: options are maps, never `null`.
- The options are never of the wrong type. A stored value that is not an array would make the `array $options` type hint of `getPlugin` raise a `TypeError`, which escapes the loop uncaught. That case cannot arise either.
- Geocoder.Instance: the factory's `NotFound` stands for any exception `createInstance` raises, not only plugin-not-found. The model's answer records the lowered id, not the exception's class or message.
- Geocoder.Sinks: `screen` records the calls to the messenger, one per logged message. The messenger itself does not show a message again that is already queued under the same type: `addMessage` is called without its `repeat` flag. So two providers failing with the same message leave two database records but one message on screen. That suppression is not modelled.
- The default values `'googlemaps'` of the `$plugins` parameters are not modelled. They precede required parameters, so PHP never applies them.
- `src/Plugin/Geocoder/Provider/OpenStreetMap.php` is not part of this model. It is an annotation-only provider class with no behaviour.
- Text.LessEq: two numeric strings are compared by character codes, so "10" sorts before "9"; PHP's `asort` with its default flags compares them as numbers and puts "9" first.
- PluginList.SortByName: it orders names by character codes and leaves ties in any order. PHP's `asort` with its default flags compares numeric strings as numbers and keeps ties in a particular order; neither is modelled.
- PluginList.SortByName: it computes the sorted table as a new value. The in-place update that `asort` performs on `$options`, and any aliasing of that array, are not modelled.
- Geocoder.Geocode and Geocoder.Reverse: the factory calls they make are returned as a ghost trace. That trace is a model of the factory's inputs, not something the source returns.
