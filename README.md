# Salt state engine: compiler, validator and requisite executor

A Dafny model of the core of Salt's early state system, `salt/state.py`, and of two data-shaping helpers from its CherryPy REST front-end.

- **High data** is a document `name -> state module -> run list`. The compiler flattens it into low-data **chunks** (`{state, name, fun, ...}`) and sorts them by `state + name + fun`.
- The validator checks each chunk against the **action catalog**. The catalog maps `state.fun` to the action's declared signature.
- `format_call` binds a chunk to a positional argument list.
- The **requisite executor** runs chunks in order. It threads a ledger `running` (tag `state.name.fun` -> `{changes, result, comment}`) through the calls. A chunk with a `require` list runs what it requires first, recursively, when that has not run yet. It records a synthetic failure when a requirement failed.
- The `HighState` helpers normalise the top-file location, collect the matching state names per environment, and merge rendered documents.
- The REST helpers pair repeated form parameters into chunks and build the server's `global` configuration section.

The model keeps the behaviour of the code as written, including its quirks:

- **Aliased chunks.** One dict per name is appended once per function. All those entries are the same object and carry the last function: `Compiler.AliasedEntries`.
- **Leaked rule name.** The alternate `names` of one rule leak into the next rule of the same body: `Compiler.NameShadowing`.
- **Dict keys copied whole.** A dict that also has a key other than `names` is copied whole, `names` included: `Compiler.AbsorbKeys`.
- **First non-met status wins.** `check_requires` returns the first status that is not met: `Executor.CheckRequiresSpec`.
- **Re-execution.** `call_chunks` runs a chunk again after it ran as a requirement: `Executor.ReExecution`. Once one requirement is unmet, `call_chunk` runs every requirement again, including those that already succeeded: `Executor.RequireReruns`.
- **No cycle guard.** A self-requiring chunk exhausts the stack: `Executor.SelfRequireExhausts`.
- **Parameter 0 never takes its default.** See `Binding.VerifiedButUnbindable`.

Modules (one file each):

- `Values`: Python values, errors, string order.
- `Validate`: `verify_data`, `verify_chunks`.
- `Binding`: `format_call`.
- `Compiler`: `compile_high_data`.
- `Executor`: `check_requires`, `call`, `call_chunk`, `call_chunks`, `call_high`.
- `HighState`: `__gen_opts`, `top_matches`, `render_highstate`.
- `Rest`: `fmt_lowdata`, `get_conf`.

How the model represents what Python leaves open or does by side effect:

- **Iteration order.**
  - The dicts the code iterates (high data, top file, request body) are association lists in iteration order.
  - The two Python sets in `compile_high_data` are Dafny sets. The imperative compiler enumerates them in some order and reports that order as a ghost `Order`. The specification `Compiler.Compile(high, orders)` holds for every admissible order.
- **Actions and collaborators.**
  - The actions are an abstract function `(full name, args) -> Ret`.
  - The matcher, `os.path.relpath` and a dict's key order are function parameters.
  - `render_highstate` takes the documents the renderer produced; the renderer itself is not modelled.
  - The catalog is a parameter. It stands for what the plugin loader registers.
- **Recursion depth.** Python's recursion limit is a `fuel` bound. Exhausting it raises `RecursionLimit`.
- **Mutation and aliasing.**
  - `Compiler.Live` is a class: one shared object per name, so the aliasing of appended chunks is explicit.
  - `Executor.Runner` holds the ledger as a field and logs every action call.
  - `HighState.Options` and `Rest.Api` hold the dicts their methods update in place.

`HighState` is declared with `def` in `salt/state.py:281`, so its nested functions can never be called. Inside the intended class, `__init__` calls `__gen_opts` before it assigns the `self.client` that `__gen_opts` reads. The three helpers are therefore modelled as standalone operations that take their collaborators as parameters.

## Model

| member | source | states |
|---|---|---|
| Validate.MissingFields | salt/state.py:44-52 | one message per absent field among `state`, `fun`, `name`, in that order and nothing else; empty exactly when all three are present |
| Validate.MissingParams | salt/state.py:64-67 | exactly one `Missing paramater p for state full` per absent parameter, in declaration order: the message of an absent parameter sits at the position counting the absent parameters before it, and there are no others; empty iff all are present |
| Validate.VerifyData | salt/state.py:40-68 | `Ok([])` iff the chunk is valid (three fields, known action, every no-default parameter supplied); missing fields stop early with exactly their messages; an unknown action gives the single "unavailable" message; for a known action the errors are exactly `MissingParams` of its no-default parameters (one message per absent parameter, in order); a non-string `state`/`fun` raises TypeError |
| Validate.VerifyChunks | salt/state.py:70-77 | the concatenated errors are empty iff every chunk is valid; the call raises iff some chunk's check raises |
| Validate.VerifyChunksCons | salt/state.py:70-77 | the errors of `[c] + rest` are the errors of `c` followed by those of `rest`, so the list holds each chunk's messages in chunk order; it raises iff `c` or some later chunk raises |
| Validate.VerifyChunksSingle | salt/state.py:70-77 | a one-chunk list gives exactly that chunk's errors |
| Validate.MissingNameOnly | salt/state.py:45-52 | a chunk lacking only `name` gets exactly the one message `Missing "name" data` |
| Binding.BoundPrefixShape | salt/state.py:111-115 | the argument list has one entry per parameter, each the bound value; binding fails exactly at the first parameter with neither a chunk value nor a usable default, with a KeyError naming it |
| Binding.BindArgs | salt/state.py:93-116 | `full == state + '.' + fun`; `args` has one entry per declared parameter in order; a chunk value overrides a default; an absent parameter takes its tail-aligned default |
| Binding.BindMissing | salt/state.py:104-115 | a no-default parameter absent from the chunk fails with a KeyError; an absent parameter 0 fails even when it has a default |
| Binding.VerifiedBinds | salt/state.py:64-67 | a chunk that `verify_data` accepts binds whenever it supplies the action's first parameter |
| Binding.VerifiedButUnbindable | salt/state.py:104-115 | an action whose only parameter has a default: the chunk without it passes validation, and binding raises KeyError |
| Binding.Bind | salt/state.py:93-116 | `format_call` succeeds iff `state` and `fun` are strings, the action is in the catalog and every parameter is bound; the result names `state.fun` and has one argument per parameter; a non-string `state` raises TypeError before `fun` is read; an unknown action raises KeyError |
| Binding.FormatCall | salt/state.py:79-116 | the imperative `format_call` returns exactly the binding `Bind` specifies |
| Binding.TailDefaults | salt/state.py:103-107 | the defaults dict holds the tail-aligned default of every parameter except parameter 0, and nothing else |
| Binding.Overlay | salt/state.py:108-110 | same keys; every defaulted parameter the chunk supplies takes the chunk's value |
| Binding.PrefixErrPersists | salt/state.py:111-115 | once an argument is missing, every longer prefix fails with the same KeyError |
| Compiler.Insert | salt/state.py:154 | insertion keeps the multiset of chunks and adds one |
| Compiler.InsertSorted | salt/state.py:154 | inserting into a list sorted by `state+name+fun` keeps it sorted |
| Compiler.Sort | salt/state.py:154 | the sort is a permutation of its input |
| Compiler.SortSorted | salt/state.py:154 | the sort's result is non-decreasing in `state+name+fun` |
| Compiler.InsertStable | salt/state.py:154 | an inserted chunk goes before every chunk with the same key |
| Compiler.SortStable | salt/state.py:154 | the sort is stable: chunks with equal `state+name+fun` keep their input order |
| Compiler.SortByKey | salt/state.py:154 | raises iff some chunk lacks a string `state`, `name` or `fun`; otherwise returns a permutation of the chunks, sorted by `state+name+fun` |
| Compiler.Snapshot | salt/state.py:143-152 | the chunk list as seen through its (possibly shared) references, entry by entry |
| Compiler.AppendEach | salt/state.py:145-147 | the same object is appended once per function, and ends up carrying the last function |
| Compiler.Scan | salt/state.py:126-140 | the chunk template, the function set and the name set the run-list loop builds; a non-iterable `names` value raises |
| Compiler.ExpandNames | salt/state.py:141-147 | one fresh copy per alternate name, each appended once per function; the snapshot equals the specification `Expand` |
| Compiler.CompileRule | salt/state.py:126-152 | one rule of the loop equals `Rule` for the iteration order it chose, including the name it leaks to the next rule |
| Compiler.CompileBody | salt/state.py:125-152 | the rules of one name, in body order, equal `BodyRun`; an exception is the first rule's exception |
| Compiler.CompileHighData | salt/state.py:118-154 | the imperative compiler equals the specification `Compile(high, orders)` for the iteration orders it chose, whose rule entries `RuleCount` and `RuleEntry` describe and whose sort `SortByKey` describes |
| Compiler.ExpandLength | salt/state.py:141-147 | `|names| * |funcs|` entries |
| Compiler.ExpandMember | salt/state.py:142-147 | every entry is the template renamed to one alternate name, with the last function |
| Compiler.CopiesCount | salt/state.py:141-152 | `k` appends of one aliased dict hold that dict exactly `k` times and nothing else |
| Compiler.ExpandCount | salt/state.py:142-147 | with distinct alternate names, each name's entry occurs exactly `k` times: no name is left out or doubled |
| Compiler.RuleCovers | salt/state.py:141-152 | every alternate name of a rule gets exactly `|funcs|` entries, each the template renamed to it with the last-iterated function |
| Compiler.AbsorbLastWins | salt/state.py:134-140 | a key copied by `chunk.update` holds the value of the last copied dict that has it |
| Compiler.AbsorbKeeps | salt/state.py:127-140 | a key no copied dict has keeps its value from `{state, name}` |
| Compiler.AbsorbKeys | salt/state.py:127-140 | every key of a dict with a non-`names` key lands in the chunk, `names` included; every added key comes from such a dict; each key holds the value of the last such dict that has it, wherever that dict sits in the run; other keys keep their starting value |
| Compiler.RuleCount | salt/state.py:141-152 | a rule yields `|funcs| * |names|` entries, or `|funcs|` without names, or none without functions |
| Compiler.RuleEntry | salt/state.py:126-152 | every entry carries the rule's last-iterated function; its name is an alternate name when there are any; without alternate names the entry is exactly the template with `fun` set to the last function; the template's other keys are preserved |
| Compiler.AliasedEntries | salt/state.py:149-152 | two functions, no names: two entries that are the same chunk, both with the second function |
| Compiler.NameShadowing | salt/state.py:124-147 | a `names` rule followed by a plain rule: the plain rule's chunk is named after the last alternate name |
| Compiler.SingleRule | salt/state.py:118-154 | `{"/etc/foo": {"file": ["managed", {"source": "salt://foo"}]}}` compiles to the one chunk `{state: file, name: /etc/foo, fun: managed, source: salt://foo}` |
| Compiler.NamesInErrPrefix | salt/state.py:130-138 | the first non-iterable `names` value decides the exception, whatever follows it |
| Executor.TagOf | salt/state.py:211 | the tag can be formed iff `state`, `name` and `fun` are strings |
| Executor.KeyOf | salt/state.py:206-207 | the only key of a one-key requirement dict |
| Executor.FirstNonMetSpec | salt/state.py:216-221 | `met` iff every status is met; otherwise the status at the first position that is not met |
| Executor.StatsSpec | salt/state.py:209-215 | one status per required chunk, in order: `unmet` if its tag is absent, `met`/`fail` by its result; raises iff some required chunk cannot be tagged |
| Executor.MatchRowSpec | salt/state.py:204-208 | a requirement `{state: name}` selects exactly the chunks with that name and that state, each as many times as it occurs in the list |
| Executor.MatchRowConcat | salt/state.py:204-208 | selecting from `a + b` gives the selection from `a` followed by that from `b`: the selected chunks keep list order |
| Executor.NoChunksNoMatches | salt/state.py:204-208 | with no chunks, no requirement selects anything |
| Executor.NothingRequiredIsMet | salt/state.py:216-221 | a requirement list that selects no chunk is met |
| Executor.CheckRequiresSpec | salt/state.py:196-221 | `CheckRequires`, the specification of `check_requires`, returns `met` iff every selected chunk ran with a truthy result; otherwise the first selected chunk that did not decides: `unmet` if absent, `fail` if falsy |
| Executor.Runner.Call | salt/state.py:176-185 | bind, call the action, record its return under the tag |
| Executor.Runner.CallChunk | salt/state.py:223-249 | the in-place ledger and call log after `call_chunk` equal the specification `Execute` |
| Executor.Runner.CallEach | salt/state.py:238-239 | running every chunk of a list in order equals `ExecuteAll` |
| Executor.Runner.CallChunks | salt/state.py:187-194 | a fresh ledger, then every chunk in list order |
| Executor.Runner.CallHigh | salt/state.py:251-261 | an exception while compiling or validating aborts; validation errors are returned with the ledger and the call log untouched; otherwise the result is `call_chunks` of the compiled chunks |
| Executor.ExecuteGrows | salt/state.py:223-249 | `Execute`, the specification of `call_chunk`, never removes a ledger key, leaves the chunk's own tag present, and only appends to the call log |
| Executor.ExecuteAllGrows | salt/state.py:187-194 | the same for `ExecuteAll` over a list of chunks, with every chunk's tag present |
| Executor.ExecuteWrites | salt/state.py:241-248 | with no requirement or on `met`: the action's return under the tag and one logged call; on `fail`: the record `{None, False, 'One or more require failed'}` and no call; other keys unchanged |
| Executor.PresentIsNotUnmet | salt/state.py:209-221 | when every selected chunk is in the ledger, the status is never `unmet`, so the retry does not recurse again |
| Executor.ExecuteCompletes | salt/state.py:223-249 | with acyclic requirements and enough stack, `call_chunk` returns |
| Executor.ExecuteAllCompletes | salt/state.py:238-239 | the same for a list of chunks |
| Executor.CallChunksCovers | salt/state.py:187-194 | with acyclic requirements, `call_chunks` returns a ledger with an entry for every chunk's tag |
| Executor.SelfRequireExhausts | salt/state.py:229-240 | no cycle guard: a chunk requiring only itself recurses until the stack runs out |
| Executor.RequireReruns | salt/state.py:229-240 | a service requiring a package that already succeeded and a file that has not run: `call_chunk` calls the package again, then the file, then the service |
| Executor.ReExecution | salt/state.py:187-240 | a config file sorted before the package it requires: the package runs, then the file, then the package again |
| HighState.TopLocationScheme | salt/state.py:311-319 | `TopLocation`, the location normalisation of `__gen_opts`: every accepted top-file location is in `salt://` form |
| HighState.TopLocationIdempotent | salt/state.py:311-319 | normalising an already normalised location returns it unchanged |
| HighState.TopLocationRejects | salt/state.py:311-319 | `StateError('Invalid top file location')` exactly for an absolute path that is neither `salt://` nor under the master's file root |
| HighState.JoinScheme | salt/state.py:314-318 | joining `salt://` with a relative path is plain concatenation |
| HighState.GenOpts | salt/state.py:293-320 | truthy `local_state` leaves the options untouched; otherwise the master's renderer is written first, then the normalised `state_top`, or the exception is raised with the renderer already written |
| HighState.StrItems | salt/state.py:343-345 | the kept items are exactly the `str` elements of the target list, and there are no more of them than elements |
| HighState.StrItemsConcat | salt/state.py:343-345 | the `str` items of a concatenation are those of each part in order, duplicates kept |
| HighState.StrItemsSingle | salt/state.py:344-345 | one element contributes itself exactly when it is a `str` |
| HighState.EnvMatchesSome | salt/state.py:337-342 | an environment contributes exactly when one of its targets is confirmed |
| HighState.ListTargetItems | salt/state.py:341-345 | a confirmed list target adds its `str` items, in order, after the earlier targets' items |
| HighState.TopMatchesSpec | salt/state.py:329-346 | `TopMatches`, the specification of `top_matches`: environments with a confirmed target are exactly the keys of the result, each with its confirmed targets' items; no other keys |
| HighState.RenderHighstateKeys | salt/state.py:360-367 | `RenderHighstate`, the merge of `render_highstate`: the merged highstate has the union of the documents' keys |
| HighState.RenderHighstateLastWins | salt/state.py:360-367 | every key takes its value from the last document that defines it |
| Rest.Longest | saltapi/netapi/rest_cherrypy/__init__.py:157 | the length of the longest pair list: at least every list's length and equal to one of them |
| Rest.Shortest | saltapi/netapi/rest_cherrypy/__init__.py:157-160 | the shortest value-list length: a lower bound attained by some parameter |
| Rest.DictOfRow | saltapi/netapi/rest_cherrypy/__init__.py:161 | `dict(row)` of distinct-key pairs has exactly those keys and their values |
| Rest.RowOfPairs | saltapi/netapi/rest_cherrypy/__init__.py:157-160 | the tuple at position `i` is complete iff `i` is below the shortest list's length |
| Rest.RowIsPadded | saltapi/netapi/rest_cherrypy/__init__.py:157 | the tuple at `i` holds each parameter's `i`-th pair, or `None` past its end |
| Rest.FirstPaddedRow | saltapi/netapi/rest_cherrypy/__init__.py:157-160 | the first padded tuple is at the shortest length and proves the lengths differ |
| Rest.CompleteRowChunk | saltapi/netapi/rest_cherrypy/__init__.py:161 | a complete tuple becomes the chunk mapping every parameter to its `i`-th value |
| Rest.ZipParams | saltapi/netapi/rest_cherrypy/__init__.py:150-154 | one `(key, value)` list per parameter; a scalar counts as a one-element list |
| Rest.FmtLowdata | saltapi/netapi/rest_cherrypy/__init__.py:143-163 | succeeds iff every parameter has as many values as the first, and then yields that many chunks, chunk `i` mapping every key to its `i`-th value; empty input gives no chunks; otherwise raises with the first padded tuple |
| Rest.GlobalDefaults | saltapi/netapi/rest_cherrypy/__init__.py:266-270 | in `GlobalSection`, the `global` section: port defaults to 8000 and debug to False; the listen address is `0.0.0.0` unless supplied; an explicit `server.socket_port` option overrides `port` |
| Rest.GlobalMerge | saltapi/netapi/rest_cherrypy/__init__.py:264-288 | every option other than `port`/`debug` is copied unchanged, and the section has nothing else |
| Rest.RepeatFallsBack | saltapi/netapi/rest_cherrypy/__init__.py:269-270 | after the pops, a second section falls back to debug False and, unless `server.socket_port` was given, port 8000 |
| Rest.Api.GetConf | saltapi/netapi/rest_cherrypy/__init__.py:262-289 | the `global` section for the stored options, with `port` and `debug` popped from the stored dict; a stored list raises TypeError (its `pop` takes one argument); any other non-dict entry has no `pop` |

## Left out

- The plugin loader (`State.__init__`): the catalog of action signatures and the actions themselves are parameters.
- Template compilation (`compile_template`, `compile_template_str`, `call_template`, `call_template_str`): these need the filesystem, temporary files and renderer plugins. `render_highstate` takes the rendered documents.
- The action bodies: an abstract function from the full name and the arguments to a `{changes, result, comment}` record. The `result` field is a bool, so Python truthiness of other result values is not modelled.
- `get_top`, `gather_states` and `HighState.__init__`: file-client and matcher transport. The matcher's `confirm_top` is an uninterpreted predicate and `os.path.relpath` is a parameter.
- Executor.Execute: a `require` entry that is a dict with several keys raises `MalformedRequire`, because the key `req.keys()[0]` picks depends on Python's dict order. A requirement list that is itself a dict is iterated as placeholder items, whose key order is likewise unobservable.
- Executor.Execute: the recursion limit is a `fuel` bound, so the depth at which Python raises is not modelled. Cycles are not detected, as in the source.
- Compiler.Compile: a run list is a list of values, and a body is a dict. In Python a string run list would be iterated character by character, a dict run list by its keys, and a number would raise TypeError; a body that is not a dict would raise AttributeError on `items()`. Rendered YAML gives lists and dicts there, so the model's types exclude these inputs.
- Python set and dict iteration order is not fixed. The compiler is specified for every admissible order, and `top_matches` takes a dict's key order as a parameter.
- Executor.CheckRequires: requirement names are compared with Dafny value equality, so Python's `1 == True` and `1 == 1.0` coincidences are not modelled. Floating-point values are not modelled at all.
- Rest.Api.GetConf: the `'/'` section of the CherryPy configuration holds framework objects, so it is treated as a fixed constant and not returned.
- The REST plumbing (CherryPy tools, sessions, login, templates, the API client, certificate checks, server start) is I/O.
