# Profiler event recorder and graphql patch dispatch, modelled in Dafny

This project models two small pieces of dd-trace-py, Datadog's Python tracer.

**The profiler's event recorder** (`ddtrace/profiling/recorder.py`). A
`Recorder` keeps one `collections.deque` of events per event class. The deques
live in a `_defaultdictkey`, a dictionary that builds a missing deque from the
class on first lookup. Each deque's bound comes from `max_events`, or from
`default_max_events` (16384) when the class has no entry there.
- `push_events` extends the deque of the class of the batch's *first* event.
- `reset` hands the whole dictionary to the caller and installs a fresh one.
- After a fork, `push_events` is replaced by a no-op.

Files:
- `recorder.dfy`: the recorder is a `class` whose `events` field points to a
  `DefaultDictKey` object. Its methods are proved against the specification
  function `Pushed`, and lemmas about `Pushed` state what a push does.
- `deque.dfy`: the bounded deque, as a value.
- `wrappers.dfy`: `Option`, `Result` and the Python exceptions that can escape.
- `sequences.dfy`: small generic facts about slicing and concatenation.

**The graphql integration's version dispatch and resource name**
(`ddtrace/contrib/graphql/patch.py`).
- When the module is imported, the installed graphql-core version string is
  split on dots and turned into an integer tuple.
- `patch()` returns at once when the module is already flagged or when the
  version is below (2, 0). Otherwise it flags the module, picks the five
  functions to wrap by comparing tuples Python's way, wraps them and attaches
  a `Pin`.
- `_get_source_str` turns a query into a span resource. It collapses every
  run of whitespace into one space and strips the ends.

Files:
- `graphql_patch.dfy`: `str.split`, `int()`, the tuple ordering, the target
  table, and `patch()` as a method on a class holding the module state it
  touches.
- `graphql_text.dfy`: the whitespace normalisation.

The recorder does not validate its bounds when it is constructed:
- A bound of 0 gives a deque that stays empty (`collections.deque(maxlen=0)`
  is valid).
- A bound of None gives an unbounded deque.
- A negative bound is accepted by the constructor. `deque` itself raises
  `ValueError`, on every push of that class, since the failed deque is never
  stored. Each such push fails and leaves the store unchanged.
- A bound outside the range of a C `Py_ssize_t` (64-bit here) makes `deque`
  raise `OverflowError` in the same way.

## Model

| member | source | states |
|---|---|---|
| Recording.KeyOf | ddtrace/profiling/recorder.py:74 | an event's key is its class |
| Recording.DefaultDictKey.constructor | ddtrace/profiling/recorder.py:16-17 | a new dictionary is empty and keeps the given factory |
| Recording.DefaultDictKey.Missing | ddtrace/profiling/recorder.py:19-23 | without a factory the lookup raises KeyError. With one, the factory's value is stored under the key and returned. A factory that raises leaves the dictionary unchanged |
| Recording.DefaultDictKey.SetItem | ddtrace/profiling/recorder.py:21 | `self[key] = v` stores v under the key and leaves every other entry as it was |
| Recording.MaxLenFor | ddtrace/profiling/recorder.py:80 | the bound is the class's `max_events` entry when there is one, and `default_max_events` otherwise |
| Recording.DequeFactory | ddtrace/profiling/recorder.py:79-80 | the factory's deque is empty and fits, and the factory succeeds exactly when `deque` accepts the class's bound |
| Recording.FactoryBound | ddtrace/profiling/recorder.py:79-80 | the factory's deque has exactly the class's bound. The factory raises ValueError exactly for a negative bound and OverflowError exactly for one outside `Py_ssize_t` |
| Recording.DefaultDictKey.GetItem | ddtrace/profiling/recorder.py:13-23 | a present key yields its value and changes nothing. An absent key goes through `__missing__`, with exactly its outcome and effect |
| Deques.NewDeque | ddtrace/profiling/recorder.py:79-80 | `deque(maxlen=m)` is empty and has bound m. It has no bound for None. It raises OverflowError exactly when m is outside the 64-bit `Py_ssize_t` range, and ValueError exactly when m is negative but within that range |
| Deques.Deque.Append | ddtrace/profiling/recorder.py:77 | appending keeps the deque within its bound, and the items are the last `maxlen` of old items plus the new one |
| Deques.Deque.Extend | ddtrace/profiling/recorder.py:77 | an extended deque fits its bound. It holds a suffix of old items plus new ones: all of them when that fits, and with a bound exactly min(old count + new count, bound) of them |
| Deques.ExtendIsRepeatedAppend | ddtrace/profiling/recorder.py:77 | extending by a sequence equals appending its items one at a time, each dropping the oldest item once full |
| Deques.ExtendTwice | ddtrace/profiling/recorder.py:77 | two extends in a row equal one extend by both sequences |
| Recording.Pushed | ddtrace/profiling/recorder.py:65-80 | an empty batch changes nothing. A push raises exactly when the first event's class has no deque yet and creating it raises. The exception is ValueError for a negative bound and OverflowError for a bound outside `Py_ssize_t` |
| Recording.PushedTouchesOneClass | ddtrace/profiling/recorder.py:73-77 | a push leaves every other class's deque unchanged and adds at most the first event's class to the keys |
| Recording.PushedKeepsLimits | ddtrace/profiling/recorder.py:76-80 | a push keeps every deque at its class's configured bound. The first class's deque holds the last events of what it held plus the batch |
| Recording.PushedFromLookup | ddtrace/profiling/recorder.py:75-77 | a push is the lookup `self.events[event_type]` followed by an extend. A raising lookup is the push raising |
| Recording.BatchIsOneAtATime | ddtrace/profiling/recorder.py:65-77 | for a batch of one class, as the docstring requires, pushing it whole equals pushing its events one per call |
| Recording.CapacityExample | ddtrace/profiling/recorder.py:76-80 | with a bound of 3, pushing a, b, c, d leaves exactly [b, c, d] |
| Recording.FirstPushWithinBound | ddtrace/profiling/recorder.py:76-80 | a first batch that fits in its class's bound is recorded whole |
| Recording.TwoClassesExample | ddtrace/profiling/recorder.py:73-77 | batches of two classes, each within the default bound, are drained as exactly those two batches |
| Recording.Recorder.constructor | ddtrace/profiling/recorder.py:33-47 | the bounds default to 16384 and {}. The store starts empty, with the deque factory installed, and the recorder has not forked |
| Recording.Recorder.AfterFork | ddtrace/profiling/recorder.py:49-53 | after the fork hook, the recorder is marked forked |
| Recording.Recorder.PushEventsNoop | ddtrace/profiling/recorder.py:55-56 | the no-op push returns normally |
| Recording.Recorder.PushEvent | ddtrace/profiling/recorder.py:58-63 | pushing one event is pushing the batch [e] |
| Recording.Recorder.PushEvents | ddtrace/profiling/recorder.py:53-77 | once forked, nothing changes. Otherwise the store becomes `Pushed(old store, es)`, or stays as it was when that raises, and the outcome reports the exception. The store stays within its limits |
| Recording.Recorder.ResetEvents | ddtrace/profiling/recorder.py:82-83 | installs a fresh, empty dictionary whose factory builds deques with the recorder's bounds |
| Recording.Recorder.Reset | ddtrace/profiling/recorder.py:85-96 | returns the very dictionary held until now, with its contents untouched, and leaves a fresh empty one in its place |
| Recording.ResetTwice | ddtrace/profiling/recorder.py:85-96 | the first reset drains what was recorded, and a second one right after drains nothing |
| Recording.PushAfterFork | ddtrace/profiling/recorder.py:49-56 | after the fork hook, pushes change nothing, across a reset too |
| GraphqlPatch.Split | ddtrace/contrib/graphql/patch.py:23 | `split(".")` yields at least one piece, and no piece contains the separator |
| GraphqlPatch.JoinSplit | ddtrace/contrib/graphql/patch.py:23 | joining the pieces of a split gives back the text |
| GraphqlPatch.SplitJoin | ddtrace/contrib/graphql/patch.py:23 | splitting joined separator-free pieces gives back the pieces |
| GraphqlPatch.ParseInt | ddtrace/contrib/graphql/patch.py:23 | `int(piece)` raises only ValueError with CPython's message, and raises on a blank piece |
| GraphqlPatch.ParseLiteral | ddtrace/contrib/graphql/patch.py:23 | an empty text or a bare sign is rejected, and an unsigned literal is non-negative |
| GraphqlPatch.ParseIntToString | ddtrace/contrib/graphql/patch.py:23 | `int(str(i)) == i` for every integer |
| GraphqlPatch.TryAllEach | ddtrace/contrib/graphql/patch.py:23 | the list comprehension has a value exactly when every piece parses. It then holds each piece's value in order; otherwise it raises what the first failing piece raises |
| GraphqlPatch.ParseVersion | ddtrace/contrib/graphql/patch.py:23 | the version has one integer per dot-separated piece, or the parse raises ValueError |
| GraphqlPatch.ParseRenderedVersion | ddtrace/contrib/graphql/patch.py:22-23 | parsing the dotted form of any non-empty integer tuple gives back the tuple |
| GraphqlPatch.VersionString | ddtrace/contrib/graphql/patch.py:22-23 | the version string is `__version__` when present. Without it, the string is one that parses to (0, 0, 0) |
| GraphqlPatch.PreReleaseRaises | ddtrace/contrib/graphql/patch.py:22-23 | a pre-release version string such as "3.2.0rc1" makes the parse raise ValueError |
| GraphqlPatch.TupleLess | ddtrace/contrib/graphql/patch.py:27 | a tuple is below only a non-empty tuple different from itself |
| GraphqlPatch.TupleLessIrreflexive | ddtrace/contrib/graphql/patch.py:27 | no version tuple is below itself |
| GraphqlPatch.TupleLessTransitive | ddtrace/contrib/graphql/patch.py:27 | the tuple ordering is transitive |
| GraphqlPatch.TupleLessTotal | ddtrace/contrib/graphql/patch.py:27 | any two tuples are equal or ordered one way or the other |
| GraphqlPatch.CompareWithPair | ddtrace/contrib/graphql/patch.py:27-55 | v < (major, minor) exactly when v is empty, or its major is smaller, or its major is equal and its minor is smaller or missing |
| GraphqlPatch.ShouldPatch | ddtrace/contrib/graphql/patch.py:27 | `patch()` goes on exactly when the module is not flagged and the version is at least (2, 0): a major above 2, or a major of 2 with a non-negative minor |
| GraphqlPatch.SelectTargets | ddtrace/contrib/graphql/patch.py:32-55 | the graphql entry point is in `graphql` or `graphql.graphql`. The resolver is `resolve_field` exactly for versions below (3, 0) |
| GraphqlPatch.SelectTargetsByRelease | ddtrace/contrib/graphql/patch.py:32-55 | for a version with a major and a non-negative minor, the targets are those of its release line: 2.0, 2.1+, 3.0-3.1, or 3.2 and later |
| GraphqlPatch.ResolverByVersion | ddtrace/contrib/graphql/patch.py:48-55 | the resolver is `resolve_field` in the executor module before 3.0, `ExecutionContext.resolve_field` in 3.0-3.1, and `ExecutionContext.execute_field` from 3.2 on |
| GraphqlPatch.ShortVersionIsOld | ddtrace/contrib/graphql/patch.py:34-55 | a one-number version (3,) sorts below (3, 0) and gets the targets of the 2.1+ line |
| GraphqlPatch.PlannedWraps | ddtrace/contrib/graphql/patch.py:57-61 | five wraps: the entry point, parse, validate and execute with the operation wrapper, and the resolver. Parse and execute are in the same module |
| GraphqlPatch.GraphqlModule.constructor | ddtrace/contrib/graphql/patch.py:26-30 | an unpatched module has no flag, no wrappers and no Pin |
| GraphqlPatch.Patch | ddtrace/contrib/graphql/patch.py:26-63 | a flagged module or a version below (2, 0) is left untouched. Otherwise the module is flagged, gains the five planned wraps in order, and gets a Pin |
| GraphqlPatch.PatchTwice | ddtrace/contrib/graphql/patch.py:26-30 | a second `patch()` adds nothing: each target is wrapped at most once |
| GraphqlPatch.PatchWithoutVersion | ddtrace/contrib/graphql/patch.py:22-28 | without `__version__`, `patch()` leaves the module untouched |
| GraphqlText.QueryText | ddtrace/contrib/graphql/patch.py:141-144 | a `Source` yields its body, and a plain string yields itself |
| GraphqlText.AsciiWhitespace | ddtrace/contrib/graphql/patch.py:146 | among ASCII characters, `\s` matches exactly space, tab to carriage return, and the separators 0x1C-0x1F. No whitespace is a dot or a digit |
| GraphqlText.TrimStart | ddtrace/contrib/graphql/patch.py:146 | the result is a suffix of the text that does not start with whitespace |
| GraphqlText.TrimEnd | ddtrace/contrib/graphql/patch.py:146 | the result is a prefix of the text that does not end with whitespace |
| GraphqlText.Strip | ddtrace/contrib/graphql/patch.py:146 | `strip()` leaves no whitespace at either end and never lengthens the text |
| GraphqlText.StripKeepsNonSpace | ddtrace/contrib/graphql/patch.py:146 | `strip()` removes only whitespace |
| GraphqlText.StripKeepsSingleSpaced | ddtrace/contrib/graphql/patch.py:146 | stripping single-spaced text keeps it single-spaced |
| GraphqlText.CollapseSpaces | ddtrace/contrib/graphql/patch.py:146 | `re.sub(r"\s+", " ", s)` is empty exactly when s is, and starts with whitespace exactly when s does |
| GraphqlText.CollapseSingleSpaced | ddtrace/contrib/graphql/patch.py:146 | after the substitution, the only whitespace is single plain spaces |
| GraphqlText.CollapseKeepsNonSpace | ddtrace/contrib/graphql/patch.py:146 | the substitution keeps every non-whitespace character, in order |
| GraphqlText.WordEnd | ddtrace/contrib/graphql/patch.py:146 | helper of `Words`, the reference `text.split()` behind `" ".join(text.split())`: the first word ends at the first whitespace character |
| GraphqlText.GetSourceStr | ddtrace/contrib/graphql/patch.py:138-146 | the resource has no whitespace at its ends and only single plain spaces inside. It keeps every non-whitespace character of the query, in order |
| GraphqlText.GetSourceStrJoinsWords | ddtrace/contrib/graphql/patch.py:146 | the resource is the query's words joined by single spaces, i.e. `" ".join(text.split())` |
| GraphqlText.GetSourceStrIdempotent | ddtrace/contrib/graphql/patch.py:146 | normalising a resource again changes nothing |
| GraphqlText.SourceAndTextAgree | ddtrace/contrib/graphql/patch.py:140-144 | a `Source` object and its body given as a plain string yield the same resource |

## Left out

- The recorder's lock (`nogevent.DoubleLock`) is not modelled. Each recorder method is one atomic step, which is what the lock provides between threads.
- `forksafe.register(self._after_fork)` is not modelled. The fork hook is `Recorder.AfterFork`, called directly. Replacing the bound method `push_events` with `_push_events_noop` is modelled as a `forked` flag that `PushEvents` tests.
- Deques are values. `q.extend(events)` updates the deque in place, and the model stores the extended value back under its key. Aliasing of a deque held elsewhere is therefore not captured.
- The recorder's `max_events` and `default_max_events` are constants. Python lets a caller reassign them after construction, and a changed bound then applies only to deques created afterwards.
- `Py_ssize_t` is taken to be 64 bits wide, as on the usual 64-bit builds. On a 32-bit build `deque` raises OverflowError from 2**31 on.
- A `maxlen` that is not an integer or None raises `TypeError` in `deque`. Bounds are `Option<int>` here, so that case cannot arise.
- `Recorder.Reset` returns the old dictionary object. The model's clients read it through `Contents`, the map from class to events.
- Events carry only their class and an opaque payload. The recorder never looks inside them.
- `int()` is modelled for ASCII digits with an optional sign and surrounding whitespace. Underscores between digits and non-ASCII decimal digits, which CPython also accepts, are not modelled.
- `get_argument_value` is not part of this model. `GraphqlText.GetSourceStr` takes the argument it would have found.
- `Pin`, `wrap_function_wrapper` and the wrappers `_traced_graphql`, `_traced_operation` and `_traced_resolver` are not modelled. `Patch` records which function each wrap targets and that a Pin was attached, not what the wrappers do when called.
- `Patch` sets the flag before wrapping. That order matters only when a wrap raises (for example, on a missing module), and raising wraps are not modelled.
- `unpatch()` does nothing in the source, so it has no counterpart here.
- Span tagging, analytics sample rates, service configuration and telemetry are not modelled; they are outside the version dispatch and the resource name.
- GraphqlPatch.ParseInt: the ValueError message is CPython's fixed prefix only. CPython appends the offending text, and the model leaves that part out. The limit on decimal digits in string conversion (`sys.int_max_str_digits`, 4300 by default since CPython 3.11, 3.10.7, 3.9.14, 3.8.14 and 3.7.14) is not modelled either: the model is `int()` with that limit off, or on an older CPython. On a limited interpreter a piece of more than 4300 digits raises ValueError, where the model parses it.
- GraphqlPatch.ParseIntToString: holds for every integer only without that digit limit. With the limit on, `str(i)` itself raises for an integer of more than 4300 digits.
- GraphqlPatch.SelectTargetsByRelease: requires a non-negative minor version. A tuple such as (3, -1) sorts below (3, 0) and does not follow its release line. `int()` accepts "-1", but no release has a negative component.
- GraphqlPatch.ResolverByVersion: requires a non-negative minor version, for the same reason.
