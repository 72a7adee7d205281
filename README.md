# Backstage request mediation, modelled in Dafny

Backstage is a small Python 2 WSGI gateway. The deployment registers APIs, each with:

- a context pattern;
- the HTTP methods it supports;
- resources, each with an HTTP method, an optional uri-template and three step lists (the in-, out- and fault-sequences).

The steps are "mediators" such as Property, Switch/Case/Default, Payload/Use, ResponseMediator and ProcessResponseMediator. For each request, `application`:

1. Routes the request. It answers 404 when no API matches, handles OPTIONS, and answers 405 for an unsupported method.
2. Builds one `Context` around the request and a fresh `Response`.
3. Runs the resource's in-sequence, checking `break_sequence` before every step.
4. Runs the out-sequence when a step raises `RunOutSequence`, and the fault-sequence on any other exception.
5. In its `finally` block, builds the status line, headers and message from the response object.

The project models this engine:

- `strings.dfy`: the Python string operations the engine relies on (`split`, `join`, `replace`, `upper`, `lstrip`, `startswith`).
- `values.dfy`: the values a step can store (string, dict, bool, None, and any other object known by its `str()`, such as the routed API), `Result`, and the outcome of a step. The outcome is Continue, RunOut (the `RunOutSequence` exception) or Fail (any other exception).
- `steps.dfy`: the step tree, with the kinds taken from the `HANDLERS` table and each step's XML attributes kept as a string map.
- `headers.dfy`: the read-only `RequestHeader` view over the WSGI environ.
- `query.dfy`: `_parse_qsl`, written as a loop and proved against its specification, and the `GET` dictionary.
- `http.dfy`: the `Request` built from the environ, and the `Response` object as a class whose fields steps update in place.
- `routing.dfy`: `get_url_api` (the last match wins), `match_url`, `match_method` and `sequence_for_uri` (the first serving resource wins).
- `contexts.dfy`: the per-request `Context` as a class, plus a value snapshot of everything a step can read or change.
- `semantics.dfy`: the meaning of every step as a function from a snapshot to an outcome and a new snapshot (`Exec`, `ExecSeq`).
- `mediators.dfy`: the imperative `mediate` methods on the `Context`. Each is proved to do what `Exec` says.
- `engine.dfy`: `application`, as phase functions and the methods that implement them.
- `sequencing.dfy`, `step_lemmas.dfy`, `property_lemmas.dfy`, `engine_lemmas.dfy`: the properties.

Several abstractions apply throughout:

- **Calls into code outside the model are parameters.** This covers `re.match`, `urlunquote`, the converters, the `uuid` source, the module logger and `str()` of a dict.
- **Python's call stack is a depth bound.** Every step run with no depth left fails with the recursion error.
- **`urls_and_apis` is a sequence in registration order.**
- **`expression_dict` keeps its entries in first-insertion order.**

## Model

| member | source | states |
|---|---|---|
| Steps.KindOfTag | backstage/conf/settings.py:5-22 | a tag is recognised only as the kind the handler table maps it to |
| Steps.TagRoundTrip | backstage/conf/settings.py:5-22 | every step kind is reached by its own tag in the handler table |
| Headers.Canonical | backstage/core.py:42-43 | key canonicalisation maps `-` to `_` and upper-cases, character by character |
| Headers.GetItem | backstage/core.py:49-50 | `headers[key]` succeeds exactly when the translated key is in the environ, and yields that entry |
| Headers.SetItem | backstage/core.py:52-53 | assigning through the view always raises the read-only error |
| Headers.DelItem | backstage/core.py:55-56 | deleting through the view always raises the read-only error |
| Headers.Raw | backstage/core.py:71-72 | `raw` reads the environ entry itself, or the default when absent |
| Headers.TranslateKeyShape | backstage/core.py:42-46 | a translated key is `CONTENT_LENGTH`, `CONTENT_TYPE` or `HTTP_` + the canonical key, and contains no `-` and no lower-case letter |
| Headers.TranslateKeySameEntry | backstage/core.py:42-46 | two keys translate alike exactly when their canonical forms agree |
| Headers.SpellingsAgree | backstage/core.py:42-50 | spellings differing only in case and `-`/`_` look up, and contain, the same entry |
| Headers.ContentTypeSpellings | backstage/core.py:42-50 | `content-type` and `Content-Type` both read `CONTENT_TYPE` |
| Headers.NamesExactly | backstage/core.py:58-63 | iteration yields exactly the `HTTP_` keys with the prefix stripped, plus the two bare content keys |
| Headers.NamesAreContained | backstage/core.py:58-78 | on an upper-case environ every iterated name is contained and readable |
| Headers.HttpNameTranslates | backstage/core.py:42-46 | the name of an upper-case `HTTP_` entry translates back to that entry |
| Headers.KeysStartingWithHttp | backstage/core.py:65-66 | for an ordinary prefix, `keys_starting_with` returns exactly the environ entries under the translated prefix, with `HTTP_` cut off |
| Headers.KeysStartingWithContent | backstage/core.py:65-66 | for a `content-type` or `content-length` prefix, it returns the bare content entries with their first five characters (`CONTE`) cut off |
| Query.Segments | backstage/core.py:244 | no segment contains `&` or `;` |
| Query.ParseQsl | backstage/core.py:242-251 | the loop appends exactly the pairs of the specification, in order |
| Query.PairsFollowSegments | backstage/core.py:244-250 | one pair per non-empty segment, the i-th pair parsed from the i-th non-empty segment |
| Query.NonEmptyKeepsOrder | backstage/core.py:244-245 | skipping empty segments keeps the order of the others |
| Query.SeparatorCutsPairs | backstage/core.py:244-251 | `;` and `&` both separate pairs: a query string cut at either yields the pairs before it followed by the pairs after it |
| Query.Qsl | backstage/core.py:242-251 | the specification of `_parse_qsl`, which `ParseQsl` is proved to compute and the lemmas above describe |
| Query.ToDict | backstage/core.py:104-109 | the specification of `dict(pairs)`, described by `ToDictLastWins` |
| Query.PairCutsAtFirstEquals | backstage/core.py:246-249 | a pair splits at its first `=`; the value keeps later `=`s |
| Query.PairWithoutEquals | backstage/core.py:246-249 | a segment without `=` gets the empty value |
| Query.PlusBecomesSpace | backstage/core.py:246-249 | no `+` of a segment reaches `urlunquote`: both halves are handed over with every `+` turned into a space |
| Query.ToDictLastWins | backstage/core.py:104-109 | `GET` has exactly the parsed keys, and a later duplicate overrides an earlier one |
| Http.FromEnviron | backstage/core.py:82-95 | method, path and content type come from the environ; only GET/DELETE/POST/PUT/PATCH read a query string, and only POST/PUT/PATCH a body |
| Http.RequestAttr | backstage/core.py:81-109 | the request's own attributes; `GET` exists exactly when a query string was read, and is then that query string parsed; `headers` is a dict whose own storage is empty |
| Http.SetRespAttrReadBack | backstage/core.py:112-118 | a response attribute reads back as last written, and the others are unaffected |
| Http.SetHeader | backstage/core.py:120-122 | one header write succeeds exactly while `headers` is a dict, and adds or overwrites that one entry |
| Http.Response.constructor | backstage/core.py:113-118 | a fresh response has empty headers and empty-string status code, status message, body and message |
| Http.Response.SetAttr | backstage/core.py:112-118 | `setattr` on the response changes that attribute only |
| Http.Response.SetHeaders | backstage/core.py:120-122 | `set_headers` adds every given header over the existing ones and changes nothing else; it fails on non-dict headers unless given none |
| Contexts.RequestValue | backstage/core.py:81-109 | a request attribute set by a step shadows the request's own attribute; `GET` is parsed from the `query_string` current at the read, a step's value included, and is missing when that value is not a string |
| Contexts.GetFollowsQueryString | backstage/core.py:103-109 | `GET` exists exactly when `query_string` reads as a string, and is then that string parsed |
| Contexts.FromRequest | backstage/core.py:154-155 | `from_request` is the request attribute, or `""` when it is missing |
| Contexts.FromContext | backstage/core.py:157-158 | `from_context` is the context attribute, or `""` when it is missing |
| Contexts.Context.constructor | backstage/core.py:125-127 | a fresh context holds the request and response and no attributes of its own |
| Contexts.Context.SetAttr | backstage/core.py:124-127 | `setattr(context, …)` changes that one attribute |
| Contexts.Context.SetRequestAttr | backstage/mediators.py:127-128 | `setattr(context.request, …)` changes that one request attribute |
| Contexts.Context.DrawId | backstage/mediators.py:133-135 | `random_id` returns the next id of the source and advances it by one |
| Routing.RoutedPath | backstage/core.py:169-171 | the routed path is the path with leading `/`s stripped, with `/` appended when APPEND_SLASH is on and it is missing |
| Routing.GetUrlApi | backstage/core.py:166-176 | the loop returns the last API in registry order whose pattern matches the routed path |
| Routing.MatchUrl | backstage/core.py:178-183 | the 404 error is raised exactly when no API matches |
| Routing.MatchMethod | backstage/core.py:185-192 | the matched API is returned exactly when it supports the method, else the 405 error; with no API at all the lookup itself fails |
| Routing.SequenceForUri | backstage/core.py:198-226 | the loop returns the requested sequence of the first serving resource, or raises |
| Routing.FirstServingResource | backstage/core.py:208-222 | the resource loop returns the first resource whose method is the request's and whose template, if any, matches |
| Routing.LastMatch | backstage/core.py:166-176 | the specification of `get_url_api`, which `GetUrlApi` computes and `LastMatchWins` describes |
| Routing.FirstServing | backstage/core.py:208-222 | the specification of the resource loop, which `FirstServingResource` computes and `FirstServingIsFirst` describes |
| Routing.SequenceFor | backstage/core.py:198-226 | the specification of `sequence_for_uri`, which `SequenceForUri` computes and `SequenceForSameResource` describes |
| Routing.LastMatchWins | backstage/core.py:172-176 | no API is found exactly when none matches; otherwise the API found matches and no later one does |
| Routing.LaterRegistrationShadows | backstage/core.py:172-176 | of two overlapping registrations the later one is chosen |
| Routing.FirstServingIsFirst | backstage/core.py:208-222 | a resource is chosen exactly when one serves the request; it serves it, and no earlier resource does |
| Routing.SequenceForSameResource | backstage/core.py:198-226 | the in-, out- and fault-sequence lookups fail together, exactly when no API matches or no resource serves the request |
| Semantics.Exec | backstage/mediators.py:28-264 | the meaning of one step, which every `mediate` method is proved to implement and the step lemmas describe |
| Semantics.ExecSeq | backstage/core.py:30-32 | the meaning of a list of steps, which `RunInternalSequences` implements and the sequencing lemmas describe |
| Semantics.Zip | backstage/mediators.py:88 | `zip` pairs items by position and is as long as the shorter list |
| Mediators.RunInternalSequences | backstage/core.py:30-32 | the loop runs the children in order and stops at the first exception, as `ExecSeq` says |
| Mediators.Mediate | backstage/mediators.py:28-264 | `mediate` on any step does what `Exec` says |
| Mediators.NamedSequenceMediate | backstage/mediators.py:28-31 | a named sequence runs the registered steps, as `Exec` says |
| Mediators.ProcessResponseMediate | backstage/mediators.py:62-69 | sets `break_sequence` or raises RunOutSequence, as `ProcessResponse` says |
| Mediators.SwitchMediate | backstage/mediators.py:160-169 | Switch updates the context, as `Exec` says |
| Mediators.CaseMediate | backstage/mediators.py:176-188 | Case updates the context, as `Exec` says |
| Mediators.DefaultMediate | backstage/mediators.py:195-199 | Default updates the context, as `Exec` says |
| Mediators.PayloadMediate | backstage/mediators.py:202-204 | Payload updates the context, as `Exec` says |
| Mediators.UseMediate | backstage/mediators.py:208-225 | Use changes the context exactly as `UseRun` says, and changes nothing when it raises |
| Mediators.UseSourceValue | backstage/mediators.py:213-220 | the source Use reads, as `UseSource` says: a context attribute, a request attribute or a header, else None |
| Mediators.ResponseMediate | backstage/mediators.py:229-244 | ResponseMediator updates the context, as `Exec` says |
| Mediators.ResponseWrites | backstage/mediators.py:230-243 | the message, status code and status message writes, as `ResponseSetup` says |
| Mediators.HttpHeaderMediate | backstage/mediators.py:263-264 | the header write, as `HeaderRun` says |
| Mediators.PropertyMediate | backstage/mediators.py:88-131 | the loop over `expression_dict`, carrying `get_element`, does what `PropertyRun` says |
| Mediators.PropertyEntry | backstage/mediators.py:91-131 | one iteration, as `PropStep` says |
| Mediators.ResolveValue | backstage/mediators.py:106-125 | the value of an entry, as `Resolve` says |
| Mediators.SetTarget | backstage/mediators.py:127-131 | the `set` write, as `WriteTarget` says |
| Sequencing.ExecSeqAppend | backstage/core.py:30-32 | running `a + b` is running `a`, then `b` if `a` ended normally |
| Sequencing.ExecSeqStops | backstage/core.py:30-32 | an exception from a child stops the remaining children and propagates unchanged |
| Sequencing.PropLoopAppend | backstage/mediators.py:90-131 | the Property entries compose the same way, with `get_element` carried over |
| Sequencing.PropLoopStops | backstage/mediators.py:90-131 | a failing entry stops the remaining entries |
| StepLemmas.ProcessResponseBreakOrJump | backstage/mediators.py:62-69 | ends normally exactly for `type == "break"`, having set `break_sequence`; otherwise jumps to the out-sequence with the context unchanged |
| StepLemmas.SwitchRecordsCondition | backstage/mediators.py:160-169 | sets `is_default`, records the condition with `from_header` before `from_context` (else leaves it alone), touches nothing else, then runs the children |
| StepLemmas.CaseSemantics | backstage/mediators.py:176-188 | raises without a condition; on inequality changes nothing; on equality runs the children, then clears `is_default` |
| StepLemmas.LogOnlyReports | backstage/mediators.py:142-151 | Log never changes the context; it ends normally exactly when its category names a logger attribute that accepts one message and it has a `value`; a category the logger lacks raises first |
| StepLemmas.DefaultRunsIff | backstage/mediators.py:195-199 | Default runs its children exactly when `is_default` exists and is true |
| StepLemmas.CasesDecideDefault | backstage/mediators.py:176-199 | after a run of cases the condition is unchanged, and `is_default` is false exactly if some case matched |
| StepLemmas.DefaultAfterCases | backstage/mediators.py:160-199 | a Default after a run of cases runs its children exactly when no case matched |
| StepLemmas.PayloadBindsEmptyDict | backstage/mediators.py:202-204 | Payload replaces any earlier binding by an empty dict, then runs its children |
| StepLemmas.UseWritesOneKey | backstage/mediators.py:213-225 | Use writes one key of the payload dict and keeps the dict's other keys, or creates `{key: value}`; a non-dict payload raises |
| StepLemmas.UseNeedsAttributes | backstage/mediators.py:215-225 | Use raises when `value`, `payload` or `key` is missing |
| StepLemmas.UseUnknownPrefixIsNone | backstage/mediators.py:213-220 | an unrecognised source stores None |
| StepLemmas.UseHeaderYieldsNone | backstage/mediators.py:219-220 | a `$header.` source yields None whatever the environ holds |
| StepLemmas.HeaderSetsOne | backstage/mediators.py:263-264 | sets exactly one header and leaves the other headers and the rest of the context unchanged |
| StepLemmas.HeaderFailsWithoutDict | backstage/mediators.py:263-264 | raises exactly when an attribute is missing or the headers are not a dict |
| StepLemmas.ResponseWritesThenRuns | backstage/mediators.py:229-244 | a literal value, status code and status message are written before the children run |
| StepLemmas.ResponseUsesPayload | backstage/mediators.py:232-241 | without a literal value the message is the `use_payload` attribute, converted unless `convert` is absent or `'False'`; an unknown converter raises |
| StepLemmas.NamedSequenceExpands | backstage/mediators.py:28-31 | a named sequence runs the registered steps; an unregistered name raises |
| StepLemmas.SelfReferenceExhaustsStack | backstage/mediators.py:28-31 | with no cycle check, a self-invoking sequence fails with the recursion error at any depth and changes nothing |
| StepLemmas.ResolveDraws | backstage/mediators.py:106-108 | resolving `$random_id` draws exactly one id, and any other value draws none |
| StepLemmas.PropStepDraws | backstage/mediators.py:106-108 | a Property entry never moves the id source back, and a `$random_id` entry draws one id |
| StepLemmas.PropLoopDraws | backstage/mediators.py:90-135 | the Property loop never moves the id source back |
| StepLemmas.ExecDrawsForward | backstage/mediators.py:133-135 | no step moves the id source back, so each `$random_id` comes from a fresh position |
| StepLemmas.ExecSeqDrawsForward | backstage/mediators.py:133-135 | the same for a list of steps |
| PropertyLemmas.AssocUpdates | backstage/mediators.py:88 | `d[k] = v` adds `k`, maps it to `v`, leaves other keys alone and keeps keys distinct |
| PropertyLemmas.DictOfLastWins | backstage/mediators.py:88 | `dict(pairs)` has each key once, exactly the keys of the pairs, and each key's last value |
| PropertyLemmas.EntriesPairByPosition | backstage/mediators.py:88 | the i-th expression gets the i-th parameter unless a later expression repeats it |
| PropertyLemmas.EntriesKeys | backstage/mediators.py:88 | only the first min(n, m) expressions become entries |
| PropertyLemmas.SetQueryStringRefreshesGet | backstage/mediators.py:127-128 | after `set` of `$request.query_string`, `$request.GET` reads the pairs of the new query string |
| PropertyLemmas.ParseTargetRoundTrip | backstage/mediators.py:92-102 | `$scope.name` names that scope and that attribute |
| PropertyLemmas.ParseTargetNeedsDot | backstage/mediators.py:92 | an expression without `.` raises |
| PropertyLemmas.ParseTargetUnknownScope | backstage/mediators.py:93-104 | a scope outside context/request/response/header raises |
| PropertyLemmas.LiteralSetWritesTarget | backstage/mediators.py:127-130 | `set` writes a context, request or response attribute, or one response header; `GET` is read-only and non-dict headers raise |
| PropertyLemmas.ContextValueBinds | backstage/mediators.py:110-123 | a `$context.` value reads the attribute (None if absent) and binds `get_element` to the context |
| PropertyLemmas.RequestValueUsesPreviousElement | backstage/mediators.py:110-123 | a `$request.` value reads through the previous binding, and raises when none exists |
| PropertyLemmas.FirstRequestValueRaises | backstage/mediators.py:90-123 | a first entry reading `$request.` raises before anything is written |
| PropertyLemmas.OtherActionWritesNothing | backstage/mediators.py:127-130 | an action other than `set` writes nothing; only ids are drawn |
| Engine.Lookup | backstage/core.py:345 | the specification of the sequence lookup on the request as the steps left it, which `SequenceLookup` computes |
| Engine.RunIn | backstage/core.py:347-353 | the specification of the in-sequence loop, which `RunInSequence` computes and `RunInSettled` and `BreakStopsInSequence` describe |
| Engine.RunPhases | backstage/core.py:331-368 | the specification of the `try` block, which `RunAllPhases` computes and `PhaseExclusivity` describes |
| Engine.Finalize | backstage/core.py:374-392 | the specification of the `finally` block, which `FinalReply` computes and `FinalizeEmitsEveryHeader` describes |
| Engine.RespondTo | backstage/core.py:295-329 | the specification of `application` on a built request, which `Dispatch` computes and `RouteReplies` describes |
| Engine.Start | backstage/core.py:333-337 | the context the sequences start from: a fresh one holding the routed API as `_api_object` |
| Engine.RunInSettled | backstage/core.py:347-353 | once an exception or a break request stopped the loop, later steps change nothing |
| Engine.RunInSequence | backstage/core.py:347-353 | the in-sequence loop checks the break flag before each step, as `RunIn` says |
| Engine.SequenceLookup | backstage/core.py:345 | looks up a sequence on the request as the steps left it |
| Engine.RunOutPhase | backstage/core.py:354-360 | the out handler, as `OutPhase` says |
| Engine.RunFaultPhase | backstage/core.py:361-368 | the fault handler, as `FaultPhase` says |
| Engine.RunAllPhases | backstage/core.py:331-368 | the `try` block with both handlers, as `RunPhases` says |
| Engine.CollectHeaders | backstage/core.py:385-387 | the header loop emits every header with its value stringified |
| Engine.Application | backstage/core.py:292-392 | `application` answers as `Respond` says |
| Engine.Dispatch | backstage/core.py:295-329 | the routing part of `application`, as `RespondTo` says |
| Engine.HandleRequest | backstage/core.py:331-392 | a fresh context and response with the routed API stored as `_api_object`, the phases, then `finally`, as `Handle` says |
| Engine.FinalReply | backstage/core.py:380-392 | the `finally` block, as `Finalize` says |
| EngineLemmas.RouteReplies | backstage/core.py:295-329 | 404 exactly when no API matches; OPTIONS handled exactly when one does; 405 exactly when it lacks the method; else the sequences run |
| EngineLemmas.PhaseExclusivity | backstage/core.py:344-368 | only the in-sequence runs on normal completion or break; the out-sequence runs exactly on RunOutSequence; the fault-sequence runs exactly on a failed lookup or any other exception |
| EngineLemmas.OnlyFinallyRaises | backstage/core.py:374-392 | `application` raises only from `finally`, on an empty status code or non-dict headers; exceptions from the out- or fault-sequence are discarded |
| EngineLemmas.FinalizeEmitsEveryHeader | backstage/core.py:380-392 | the status line is `"<code> <message>"`, every header is emitted stringified, and the message is stringified |
| EngineLemmas.InitialLookup | backstage/core.py:333-345 | before any step runs, the context holds the routed API as `_api_object`, whose `str()` is its name and context, and the lookup uses the request's own method and path |
| EngineLemmas.UnservedRequestRaises | backstage/core.py:345-381 | when no resource serves the request, the fault lookup fails too and `application` raises "No status code" |
| EngineLemmas.LiteralResponseRoundTrip | backstage/core.py:344-392 | a single literal ResponseMediator answers with its status line and message and no headers |
| EngineLemmas.BreakStopsInSequence | backstage/core.py:347-353 | after a break step no later in-sequence step runs |

## Left out

- `backstage/serve.py`, `setup.py`, `parse_services_xml` and `run`: server start-up, packaging and XML loading. The model takes the step tree and the API registry as inputs.
- Reading the request body from `wsgi.input`, and the failure of `int(CONTENT_LENGTH)` on a malformed length: the body is a parameter.
- Http.RequestAttr: the `input` and `content_length` attributes a POST, PUT or PATCH request gets (backstage/core.py:88-89) read as missing. They are a stream object and an integer, which no step value here represents; a step reading `$request.content_length` or `$request.input` gets None instead.
- `Request.__str__`: diagnostic text only.
- The OPTIONS branch answers `Preflight` without modelling its CORS header list. The settings file as given defines no `CORS_ALLOWED_HEADERS`, so the real branch would fail on that lookup.
- The 404 and 405 replies are `NoRoute` and `WrongMethod`, without their fixed text and content-type header.
- `re.match`, `re.split` and `urlunquote` are opaque parameters.
- Http.RequestAttr: `view_args`, which `sequence_for_uri` sets on the request when a uri-template matches (backstage/core.py:215-216), reads as missing. It is the list of `re.split` pieces, and lists are not among the values modelled; a step reading `$request.view_args`, or a Switch `from_header` naming it, gets None or `""` instead of the list.
- `Context.add_to_context`, `get_payload`, `APIS.match_named_sequence`, `RequestHeader.keys` and `__len__` are not modelled. The engine never calls them.
- Log: the message and its formatting are output only. The logger is a parameter: the attribute names it has, each with whether calling it with one message returns normally. This covers the logging methods and also methods such as `getChild`, which return normally too. What the call does besides returning is not modelled.
- PDBMediator is a no-op. ViewMediator is not part of this model, because it calls user-supplied view classes.
- `CONVERTERS` and `uuid4` are parameters: a map of converter functions, and an id source indexed by the number of ids drawn so far.
- Request processors are taken to be the empty list of the shipped settings.
- Context attributes named `request` or `response` are kept apart from the context's own request and response. A step that rebinds them is not modelled.
- Dict values are values, so one dict bound under two names is not shared.
- `str()` of a string is the string itself; `str()` of a dict is a parameter. Non-ASCII text is not distinguished.
- Python 2 dict order is modelled as follows: `urls_and_apis` is a registration-ordered sequence; `expression_dict` iterates in first-insertion order; response headers are a map.
- Python's recursion limit is a depth parameter.
- StepLemmas.CasesDecideDefault: only covers cases whose children keep `switch_condition` and `is_default` when they end normally. A case body that rewrites them is left to `Exec` itself.
- StepLemmas.DefaultAfterCases: carries the same restriction. The cases before the Default must be plain: a case body that ends normally must keep `switch_condition` and `is_default`, so for example a nested Switch inside a case body is not covered.
