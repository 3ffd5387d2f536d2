# MediaGetCore extractor adapter — a Dafny model

MediaGetCore extracts media information from web pages through site-specific
extractors. `ExtractorAdapter` is the piece that ties them together. It keeps
an ordered list of extractor types. It answers whether a URL is supported. It
dispatches an extraction to the first registered type whose instance accepts
the URL. The adapter's own progress and completion subscribers are attached to
that instance's events, and its result is handed back unchanged. When no type
accepts the URL, the adapter throws `NotSupportedException`.

Files:

- `wrappers.dfy` — `Option` (for null) and `Result` (a value or a thrown exception).
- `extractors.dfy` — module `Extractors`: what the adapter relies on from an extractor.
  A registered type is a `Kind`. It records whether its instances implement the
  extractor interface, and what an instance's `IsMatch` and `GetMediaInfosAsync`
  answer, as deterministic functions of the URL. `Extractor` is an instantiated
  kind. Its state is the invocation lists of its two events.
- `adapter.dfy` — module `MediaGetCore`. It holds the first-match search
  `FirstIndex`, the selection query `Select`, the result of dispatch `Dispatch`,
  and the class `ExtractorAdapter`. The class has the registered list and the
  adapter's own two event invocation lists as fields. It also holds the lemmas
  that relate these.

The LINQ queries of the source (`Select`/`Exists` in `IsMatch`,
`where`/`FirstOrDefault` in dispatch) are modelled as functions. The
constructor's `AddRange` and dispatch's `+=` on the chosen instance's events
change object state and are modelled as methods. A C# event is modelled by its
invocation list, a `seq<Handler>`; a null delegate is the empty list. Combining
delegates with `+=` concatenates their lists. So dispatch appends the adapter's
subscribers *as they are at the moment of the call* to the instance's events.

Two casts behave differently in the source, and the model keeps both.
`IsMatch` instantiates every registered type and hard-casts each instance
before asking any of them. So one registered type that is not an extractor makes
it throw `InvalidCastException` (the first such type is named), whatever the
other types answer. Dispatch uses a soft `as` cast, and it skips such a type.
`IsMatchAgreesWithDispatch` proves that the two agree whenever `IsMatch`
answers, and that `IsMatch` answers whenever every registered type is an
extractor. `IsMatch` calls an instance's `IsMatch` with a string (line 23),
and dispatch calls it with a `Uri` (line 26). The model has one `matches` per
kind for both calls. So the agreement assumes that an instance's `IsMatch(Uri)`
answers what its `IsMatch(string)` answers for the same URL text. `HardCastDivergence` exhibits a case where they part.

### Behaviour of the code worth knowing

- When no type accepts the URL, the code throws a plain `NotSupportedException`
  with a fixed message and without the URL. It therefore looks the same as that
  exception thrown by the selected extractor itself
  (`NotSupportedIndistinguishable`).
- The handlers that dispatch attaches to the selected instance are never
  detached. The instance is simply no longer referenced after the call.
- The lazy query of dispatch creates an instance of every type up to and
  including the selected one, and `IsMatch` creates an instance of every type.
  The model allocates only the selected instance, since the others have no
  observable effect.

## Model

| member | source | states |
|---|---|---|
| `Extractors.Extractor.constructor` | src/MediaGetCore/ExtractorAdapter.cs:26 | an instance exists only for a kind whose instances implement the extractor interface (`as IExtractor` non-null); it has the kind's behaviour and no subscribers yet |
| `Extractors.Extractor.AddOnProcess` | src/MediaGetCore/ExtractorAdapter.cs:29 | `OnProcess += d` appends d's invocation list to the instance's and leaves the completion event alone |
| `Extractors.Extractor.AddOnCompleted` | src/MediaGetCore/ExtractorAdapter.cs:30 | `OnCompleted += d` appends d's invocation list to the instance's and leaves the progress event alone |
| `MediaGetCore.FirstIndex` | src/MediaGetCore/ExtractorAdapter.cs:23-26 | the front-to-back scan finds the least position satisfying the predicate, with none before it, and finds nothing exactly when no position satisfies it |
| `MediaGetCore.FirstIndexAppend` | src/MediaGetCore/ExtractorAdapter.cs:26 | scanning `a + b` finds the hit in `a` when there is one, otherwise the hit in `b` shifted by the length of `a`, otherwise nothing |
| `MediaGetCore.Selectable` | src/MediaGetCore/ExtractorAdapter.cs:26 | a kind qualifies iff its instance survives the soft cast and reports a match; a failed cast counts as no match |
| `MediaGetCore.Select` | src/MediaGetCore/ExtractorAdapter.cs:26 | dispatch picks the smallest position whose kind is an extractor and matches the URL; no earlier kind is both; a non-extractor kind is never picked; nothing is picked exactly when no kind qualifies |
| `MediaGetCore.Dispatch` | src/MediaGetCore/ExtractorAdapter.cs:25-32 | with no qualifying kind the result is `NotSupported` with the fixed message; otherwise it is exactly the first qualifying kind's extraction result, success or exception, unwrapped |
| `MediaGetCore.ExtractorAdapter.constructor` | src/MediaGetCore/ExtractorAdapter.cs:13-21 | the registered list is exactly the supplied types in the supplied order; both events start without subscribers |
| `MediaGetCore.ExtractorAdapter.AddRange` | src/MediaGetCore/ExtractorAdapter.cs:20 | the registered list becomes the previous list followed by the new types, in order |
| `MediaGetCore.ExtractorAdapter.IsMatch` | src/MediaGetCore/ExtractorAdapter.cs:23 | throws exactly when some registered type is not an extractor, naming the first such type; otherwise true iff some registered kind's instance matches the URL |
| `MediaGetCore.ExtractorAdapter.GetMediaInfos` | src/MediaGetCore/ExtractorAdapter.cs:25-33 | returns `Dispatch` of the registered list; when nothing is selected no instance is created; otherwise exactly one fresh instance of the selected kind is created, and its events hold the adapter's current subscribers; the adapter's own state is unchanged |
| `MediaGetCore.SelectAppend` | src/MediaGetCore/ExtractorAdapter.cs:19-26 | types registered later never override a selection made by types registered earlier; they are consulted only when no earlier type qualifies |
| `MediaGetCore.IsMatchAgreesWithDispatch` | src/MediaGetCore/ExtractorAdapter.cs:23-27 | if every type is an extractor, IsMatch answers; whenever it answers, it is true iff dispatch selects a kind, and false implies dispatch throws `NotSupported` |
| `MediaGetCore.HardCastDivergence` | src/MediaGetCore/ExtractorAdapter.cs:23-26 | with a matching extractor registered before a non-extractor type, IsMatch throws `InvalidCast` for the latter while dispatch returns the former's result |
| `MediaGetCore.NotSupportedIndistinguishable` | src/MediaGetCore/ExtractorAdapter.cs:27-32 | a selected extractor that throws `NotSupported` with the same message gives the same result as having no extractor at all |

## Left out

- `MediaGetCore/Helpers/DownloadHelper.cs`: HTTP downloads and the JSON and HTML parsers. They are network I/O used only by the site extractors, which are not part of this model.
- The site extractors, `IExtractor` and `ExtractorBase` are not part of this model. Their `IsMatch` and `GetMediaInfosAsync` are represented by each `Kind`'s deterministic `matches` and `extract`.
- Reflection: `Activator.CreateInstance` is assumed to succeed for every registered type. A type without a public parameterless constructor, or a constructor that throws, is not modelled. Only whether the instance implements the extractor interface is.
- The transient instances that the queries create just to ask `IsMatch` are not allocated in the model. It is assumed that constructing them has no observable effect.
- `async`/`await` and `Task`: dispatch is a synchronous method whose result is a value or an exception.
- `Uri` versus `string`: the model has one URL type. The conversion done by the `IsMatch(Uri)` overload used at line 26 belongs to `ExtractorBase`, which is not part of this model.
- The raising and delivery of progress and completion notifications: the model records which handlers are attached to which event. It does not record when an extractor invokes them.
- A `null` list: a `null` array passed to the constructor makes `AddRange` throw, and the public setter of `EntityList` (line 13) lets a caller set the list to `null`, after which both `IsMatch` and dispatch throw. A Dafny sequence cannot be null, so neither is modelled.
- Exceptions thrown by an extractor's `IsMatch`: `matches` is total.
- Concurrent dispatches on one adapter, and the adapter used as an extractor inside another adapter.
