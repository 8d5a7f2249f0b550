/** The requisite executor: `State.check_requires`, `call_chunk`,
    `call_chunks` and `call_high`. The ledger `running` maps the tag
    `state.name.fun` of every executed chunk to the record its action
    returned. Actions are an abstract function from the full action name and
    the bound arguments to a record; Python's recursion limit is the `fuel`
    of the recursion, and exhausting it raises `RecursionLimit`. */
module Executor {
  import opened Values
  import opened Validate
  import opened Binding
  import opened Compiler

  /** `{'changes': ..., 'result': ..., 'comment': ...}` */
  datatype Ret = Ret(changes: Value, result: bool, comment: string)

  /** The synthetic record of a chunk whose requirement failed. */
  const RequireFailed := Ret(Null, false, "One or more require failed")

  datatype Status = Met | Unmet | Fail

  type Ledger = map<string, Ret>

  /** `state + '.' + name + '.' + fun`, evaluated left to right. */
  function TagOf(c: Chunk): (r: Result<string>)
    ensures r.Ok? <==> Tagged(c)
  {
    if "state" !in c then Err(KeyError("state"))
    else if !c["state"].Str? then Err(TypeError("cannot concatenate 'str' and non-str objects"))
    else if "name" !in c then Err(KeyError("name"))
    else if !c["name"].Str? then Err(TypeError("cannot concatenate 'str' and non-str objects"))
    else if "fun" !in c then Err(KeyError("fun"))
    else if !c["fun"].Str? then Err(TypeError("cannot concatenate 'str' and non-str objects"))
    else Ok(c["state"].s + "." + c["name"].s + "." + c["fun"].s)
  }

  /** What `for req in low['require']` iterates over: the items of a list,
      the characters of a string, the keys of a dict. Each key of a dict is
      a string, on which `.keys()` then raises; which string it is cannot
      be observed, so the model lists one empty string per key. */
  function ReqItems(v: Value): Result<seq<Value>>
  {
    match v
    case List(items) => Ok(items)
    case Str(s) => Ok(seq(|s|, i requires 0 <= i < |s| => Str([s[i]])))
    case Dict(fields) => Ok(seq(|fields|, _ => Str("")))
    case _ => Err(TypeError("object is not iterable"))
  }

  /** The key of a one-key dict. */
  function KeyOf(fields: map<string, Value>): (k: string)
    requires |fields| == 1
    ensures fields.Keys == {k}
  {
    assert exists k :: fields.Keys == {k} by {
      var k :| k in fields.Keys;
      assert |fields.Keys - {k}| == 0;
    }
    var k :| fields.Keys == {k}; k
  }

  /** `req.keys()[0]` and `req[req.keys()[0]]`: a requirement is a one-key
      dict `{state: name}`. An empty dict raises IndexError, a value without
      `keys` raises AttributeError; for a dict with several keys the first
      key depends on Python's hash order, which is not modelled. */
  function ReqPair(req: Value): Result<(string, Value)>
  {
    if !req.Dict? then Err(AttributeError("keys"))
    else if req.fields == map[] then Err(IndexError)
    else if |req.fields| > 1 then Err(MalformedRequire)
    else
      var k := KeyOf(req.fields);
      Ok((k, req.fields[k]))
  }

  /** `chunk['name'] == req[key]` and then `chunk['state'] == key`. */
  function Matches(req: Value, chunk: Chunk): Result<bool>
  {
    if "name" !in chunk then Err(KeyError("name"))
    else match ReqPair(req)
      case Err(e) => Err(e)
      case Ok(p) =>
        if chunk["name"] != p.1 then Ok(false)
        else if "state" !in chunk then Err(KeyError("state"))
        else Ok(chunk["state"] == Str(p.0))
  }

  /** The chunks one requirement selects, in list order. */
  function MatchRow(req: Value, chunks: seq<Chunk>): Result<seq<Chunk>>
  {
    if chunks == [] then Ok([])
    else match Matches(req, chunks[0])
      case Err(e) => Err(e)
      case Ok(b) =>
        match MatchRow(req, chunks[1..])
        case Err(e) => Err(e)
        case Ok(rest) => Ok(if b then [chunks[0]] + rest else rest)
  }

  /** The `reqs` list: the selections of all requirements, concatenated. */
  function Matching(reqs: seq<Value>, chunks: seq<Chunk>): Result<seq<Chunk>>
  {
    if reqs == [] then Ok([])
    else match MatchRow(reqs[0], chunks)
      case Err(e) => Err(e)
      case Ok(row) =>
        match Matching(reqs[1..], chunks)
        case Err(e) => Err(e)
        case Ok(rest) => Ok(row + rest)
  }

  function Required(low: Chunk, chunks: seq<Chunk>): Result<seq<Chunk>>
    requires "require" in low
  {
    match ReqItems(low["require"])
    case Err(e) => Err(e)
    case Ok(items) => Matching(items, chunks)
  }

  /** The status of one required chunk. */
  function StatusOf(c: Chunk, running: Ledger): Result<Status>
  {
    match TagOf(c)
    case Err(e) => Err(e)
    case Ok(tag) => Ok(if tag !in running then Unmet else if running[tag].result then Met else Fail)
  }

  /** `fun_stats`: every status is computed before any is looked at. */
  function Stats(reqs: seq<Chunk>, running: Ledger): Result<seq<Status>>
  {
    if reqs == [] then Ok([])
    else match StatusOf(reqs[0], running)
      case Err(e) => Err(e)
      case Ok(s) =>
        match Stats(reqs[1..], running)
        case Err(e) => Err(e)
        case Ok(rest) => Ok([s] + rest)
  }

  /** The first status that is not `Met`, in requirement order. */
  function FirstNonMet(stats: seq<Status>): Status
  {
    if stats == [] then Met
    else if stats[0] != Met then stats[0]
    else FirstNonMet(stats[1..])
  }

  /** `State.check_requires`. */
  function CheckRequires(low: Chunk, running: Ledger, chunks: seq<Chunk>): Result<Status>
  {
    if "require" !in low then Ok(Met)
    else match Required(low, chunks)
      case Err(e) => Err(e)
      case Ok(reqs) =>
        match Stats(reqs, running)
        case Err(e) => Err(e)
        case Ok(stats) => Ok(FirstNonMet(stats))
  }

  // ---------------------------------------------------------------------
  // Execution, as a function of the ledger and the log of action calls

  /** The ledger, and the log of the action calls made so far. */
  datatype Exec = Exec(running: Ledger, log: seq<Call>)

  type Action = (string, seq<Value>) -> Ret

  /** `running[tag] = self.call(low)`: bind, then run the action. */
  function Invoke(states: Catalog, act: Action, low: Chunk, ex: Exec, tag: string): Result<Exec>
    requires WellFormedCatalog(states)
  {
    match Bind(states, low)
    case Err(e) => Err(e)
    case Ok(c) => Ok(Exec(ex.running[tag := act(c.full, c.args)], ex.log + [c]))
  }

  /** `State.call_chunk`. */
  function Execute(states: Catalog, act: Action, low: Chunk, ex: Exec, chunks: seq<Chunk>, fuel: nat): Result<Exec>
    requires WellFormedCatalog(states)
    decreases fuel, 0
  {
    if fuel == 0 then Err(RecursionLimit)
    else match TagOf(low)
      case Err(e) => Err(e)
      case Ok(tag) =>
        if "require" !in low then Invoke(states, act, low, ex, tag)
        else match CheckRequires(low, ex.running, chunks)
          case Err(e) => Err(e)
          case Ok(Met) => Invoke(states, act, low, ex, tag)
          case Ok(Fail) => Ok(Exec(ex.running[tag := RequireFailed], ex.log))
          case Ok(Unmet) =>
            match Required(low, chunks)
            case Err(e) => Err(e)
            case Ok(reqs) =>
              match ExecuteAll(states, act, reqs, ex, chunks, fuel - 1)
              case Err(e) => Err(e)
              case Ok(ex2) => Execute(states, act, low, ex2, chunks, fuel - 1)
  }

  /** `for chunk in todo: running = self.call_chunk(chunk, running, chunks)` */
  function ExecuteAll(states: Catalog, act: Action, todo: seq<Chunk>, ex: Exec, chunks: seq<Chunk>, fuel: nat): Result<Exec>
    requires WellFormedCatalog(states)
    decreases fuel, 1, |todo|
  {
    if todo == [] then Ok(ex)
    else match Execute(states, act, todo[0], ex, chunks, fuel)
      case Err(e) => Err(e)
      case Ok(ex2) => ExecuteAll(states, act, todo[1..], ex2, chunks, fuel)
  }

  /** How a method's outcome and final state read as a `Result<Exec>`. */
  datatype Outcome = Done | Raised(error: Error)

  function Observe(out: Outcome, running: Ledger, log: seq<Call>): Result<Exec>
  {
    match out
    case Done => Ok(Exec(running, log))
    case Raised(e) => Err(e)
  }

  /** What `call_high` returns: the validation messages, or the ledger. */
  datatype HighOutcome = Errors(messages: seq<string>) | Finished(ledger: Ledger) | Aborted(error: Error)

  // ---------------------------------------------------------------------
  // The imperative executor

  /** The state object: the catalog and the actions are fixed; the ledger
      of the current `call_chunks` and the log of action calls change. */
  class Runner {
    const states: Catalog
    const act: Action
    var running: Ledger
    ghost var log: seq<Call>

    constructor (states: Catalog, act: Action)
      ensures this.states == states && this.act == act
      ensures running == map[] && log == []
    {
      this.states := states;
      this.act := act;
      running := map[];
      log := [];
    }

    /** `State.call`: `format_call`, then the action. */
    method Call(low: Chunk, tag: string) returns (out: Outcome)
      requires WellFormedCatalog(states)
      modifies this
      ensures Observe(out, running, log) == Invoke(states, act, low, Exec(old(running), old(log)), tag)
    {
      var cdata := FormatCall(states, low);
      if cdata.Err? {
        return Raised(cdata.error);
      }
      var ret := act(cdata.value.full, cdata.value.args);
      log := log + [cdata.value];
      running := running[tag := ret];
      return Done;
    }

    /** `State.call_chunk`. */
    method CallChunk(low: Chunk, chunks: seq<Chunk>, fuel: nat) returns (out: Outcome)
      requires WellFormedCatalog(states)
      modifies this
      ensures Observe(out, running, log) == Execute(states, act, low, Exec(old(running), old(log)), chunks, fuel)
      decreases fuel, 0
    {
      if fuel == 0 {
        return Raised(RecursionLimit);
      }
      var t := TagOf(low);
      if t.Err? {
        return Raised(t.error);
      }
      var tag := t.value;
      if "require" !in low {
        out := Call(low, tag);
        return;
      }
      var status := CheckRequires(low, running, chunks);
      if status.Err? {
        return Raised(status.error);
      }
      match status.value
      case Met =>
        out := Call(low, tag);
      case Fail =>
        running := running[tag := RequireFailed];
        out := Done;
      case Unmet =>
        // the `reqs` loop again; it succeeded inside check_requires
        var reqs := Required(low, chunks);
        assert reqs.Ok?;
        out := CallEach(reqs.value, chunks, fuel - 1);
        if out.Done? {
          out := CallChunk(low, chunks, fuel - 1);
        }
    }

    /** `for chunk in todo: running = self.call_chunk(chunk, running, chunks)` */
    method CallEach(todo: seq<Chunk>, chunks: seq<Chunk>, fuel: nat) returns (out: Outcome)
      requires WellFormedCatalog(states)
      modifies this
      ensures Observe(out, running, log) == ExecuteAll(states, act, todo, Exec(old(running), old(log)), chunks, fuel)
      decreases fuel, 1
    {
      ghost var start := Exec(running, log);
      var i := 0;
      while i < |todo|
        invariant 0 <= i <= |todo|
        invariant ExecuteAll(states, act, todo, start, chunks, fuel) == ExecuteAll(states, act, todo[i..], Exec(running, log), chunks, fuel)
      {
        assert todo[i..][1..] == todo[i + 1..];
        var o := CallChunk(todo[i], chunks, fuel);
        if o.Raised? {
          return o;
        }
        i := i + 1;
      }
      return Done;
    }

    /** `State.call_chunks`: a fresh ledger, every chunk in list order. */
    method CallChunks(chunks: seq<Chunk>, fuel: nat) returns (out: Outcome)
      requires WellFormedCatalog(states)
      modifies this
      ensures Observe(out, running, log) == ExecuteAll(states, act, chunks, Exec(map[], old(log)), chunks, fuel)
    {
      running := map[];
      out := CallEach(chunks, chunks, fuel);
    }

    /** `State.call_high`: compile, validate, and run only if validation
        found nothing. */
    method CallHigh(high: High, fuel: nat) returns (out: HighOutcome, ghost orders: seq<seq<Order>>)
      requires WellFormedCatalog(states)
      modifies this
      ensures Shaped(high, orders) && Admissible(high, orders)
      ensures Compile(high, orders).Err? ==> out == Aborted(Compile(high, orders).error)
      ensures Compile(high, orders).Ok? ==>
                var checked := VerifyChunks(states, Compile(high, orders).value);
                && (checked.Err? ==> out == Aborted(checked.error))
                && (checked.Ok? && checked.value != [] ==>
                      out == Errors(checked.value) && running == old(running) && log == old(log))
                && (checked == Ok([]) ==>
                      var ran := ExecuteAll(states, act, Compile(high, orders).value, Exec(map[], old(log)),
                                        Compile(high, orders).value, fuel);
                      && (ran.Err? ==> out == Aborted(ran.error))
                      && (ran.Ok? ==> out == Finished(running) && ran.value == Exec(running, log)))
    {
      var compiled;
      compiled, orders := CompileHighData(high);
      if compiled.Err? {
        return Aborted(compiled.error), orders;
      }
      var chunks := compiled.value;
      var errors := VerifyChunks(states, chunks);
      if errors.Err? {
        return Aborted(errors.error), orders;
      }
      if errors.value != [] {
        return Errors(errors.value), orders;
      }
      var o := CallChunks(chunks, fuel);
      if o.Raised? {
        return Aborted(o.error), orders;
      }
      return Finished(running), orders;
    }
  }

  // ---------------------------------------------------------------------
  // Properties of check_requires

  /** The first non-met status wins, whatever comes after it: the result is
      `Met` exactly when every status is, and otherwise the status at the
      first position that is not `Met`. */
  lemma {:induction false} FirstNonMetSpec(stats: seq<Status>)
    ensures FirstNonMet(stats) == Met <==> forall i :: 0 <= i < |stats| ==> stats[i] == Met
    ensures forall i :: 0 <= i < |stats| && stats[i] != Met && (forall j :: 0 <= j < i ==> stats[j] == Met)
              ==> FirstNonMet(stats) == stats[i]
  {
    if stats != [] {
      FirstNonMetSpec(stats[1..]);
      forall i | 0 < i < |stats| ensures stats[i] == stats[1..][i - 1] { }
      forall i | 0 <= i < |stats| && stats[i] != Met && (forall j :: 0 <= j < i ==> stats[j] == Met)
        ensures FirstNonMet(stats) == stats[i]
      {
        if i > 0 {
          assert stats[0] == Met;
          forall j | 0 <= j < i - 1 ensures stats[1..][j] == Met { assert stats[j + 1] == Met; }
        }
      }
    }
  }

  /** Every status is computed (so one untaggable required chunk makes the
      call raise), one per required chunk, in order. */
  lemma {:induction false} StatsSpec(reqs: seq<Chunk>, running: Ledger)
    ensures Stats(reqs, running).Ok? <==> forall i :: 0 <= i < |reqs| ==> Tagged(reqs[i])
    ensures Stats(reqs, running).Ok? ==>
              var stats := Stats(reqs, running).value;
              && |stats| == |reqs|
              && forall i :: 0 <= i < |reqs| ==>
                   var tag := TagOf(reqs[i]).value;
                   stats[i] == if tag !in running then Unmet else if running[tag].result then Met else Fail
  {
    if reqs != [] {
      StatsSpec(reqs[1..], running);
      forall i | 0 < i < |reqs| ensures reqs[i] == reqs[1..][i - 1] { }
    }
  }

  /** The selections of one requirement `{key: val}`, when every chunk has
      a `name` and a `state`: exactly the chunks with that name and that
      state, in list order. */
  lemma {:induction false} MatchRowSpec(req: Value, chunks: seq<Chunk>, key: string, val: Value)
    requires ReqPair(req) == Ok((key, val))
    requires forall c :: c in chunks ==> "name" in c && "state" in c
    ensures MatchRow(req, chunks).Ok?
    ensures forall c :: c in MatchRow(req, chunks).value <==>
              c in chunks && c["name"] == val && c["state"] == Str(key)
    ensures forall c :: c in chunks && c["name"] == val && c["state"] == Str(key) ==>
              multiset(MatchRow(req, chunks).value)[c] == multiset(chunks)[c]
  {
    if chunks != [] {
      MatchRowSpec(req, chunks[1..], key, val);
      assert chunks == [chunks[0]] + chunks[1..];
    }
  }

  /** Selection keeps list order: the selections of a concatenation are
      the selections of each part, one after the other. */
  lemma {:induction false} MatchRowConcat(req: Value, a: seq<Chunk>, b: seq<Chunk>)
    requires MatchRow(req, a).Ok? && MatchRow(req, b).Ok?
    ensures MatchRow(req, a + b) == Ok(MatchRow(req, a).value + MatchRow(req, b).value)
  {
    if a == [] {
      assert a + b == b;
      assert MatchRow(req, a).value == [];
      assert [] + MatchRow(req, b).value == MatchRow(req, b).value;
    } else {
      assert (a + b)[0] == a[0] && (a + b)[1..] == a[1..] + b;
      assert Matches(req, a[0]).Ok? && MatchRow(req, a[1..]).Ok?;
      MatchRowConcat(req, a[1..], b);
      var ra, rb := MatchRow(req, a[1..]).value, MatchRow(req, b).value;
      if Matches(req, a[0]).value {
        assert MatchRow(req, a) == Ok([a[0]] + ra);
        assert MatchRow(req, a + b) == Ok([a[0]] + (ra + rb));
        assert [a[0]] + (ra + rb) == ([a[0]] + ra) + rb;
      } else {
        assert MatchRow(req, a) == Ok(ra);
        assert MatchRow(req, a + b) == Ok(ra + rb);
      }
    }
  }

  lemma {:induction false} NoChunksNoMatches(items: seq<Value>)
    ensures Matching(items, []) == Ok([])
  {
    if items != [] {
      NoChunksNoMatches(items[1..]);
      assert MatchRow(items[0], []) == Ok([]);
      var none: seq<Chunk> := [];
      assert none + none == none;
    }
  }

  /** A requirement list that selects nothing is met; with no chunks to
      scan, even a malformed requirement is never looked at. */
  lemma NothingRequiredIsMet(low: Chunk, running: Ledger, chunks: seq<Chunk>)
    requires "require" in low && ReqItems(low["require"]).Ok?
    requires chunks == [] || Required(low, chunks) == Ok([])
    ensures CheckRequires(low, running, chunks) == Ok(Met)
  {
    if chunks == [] {
      NoChunksNoMatches(ReqItems(low["require"]).value);
    }
  }

  /** A required chunk whose tag is in the ledger with a truthy result. */
  predicate MetIn(c: Chunk, running: Ledger)
    requires Tagged(c)
  {
    TagOf(c).value in running && running[TagOf(c).value].result
  }

  /** `check_requires` on a well-formed requirement list: `Met` exactly
      when every selected chunk has run with a truthy result, and otherwise
      decided by the FIRST selected chunk that has not: `Unmet` when it is
      absent from the ledger, `Fail` when it ran with a falsy result, even
      if a later one is absent. */
  lemma CheckRequiresSpec(low: Chunk, running: Ledger, chunks: seq<Chunk>)
    requires "require" in low && Required(low, chunks).Ok?
    requires forall c :: c in Required(low, chunks).value ==> Tagged(c)
    ensures CheckRequires(low, running, chunks).Ok?
    ensures var reqs := Required(low, chunks).value;
            CheckRequires(low, running, chunks).value == Met <==> forall i :: 0 <= i < |reqs| ==> MetIn(reqs[i], running)
    ensures var reqs := Required(low, chunks).value;
            forall i :: 0 <= i < |reqs| && !MetIn(reqs[i], running) && (forall j :: 0 <= j < i ==> MetIn(reqs[j], running))
              ==> CheckRequires(low, running, chunks).value == if TagOf(reqs[i]).value !in running then Unmet else Fail
  {
    var reqs := Required(low, chunks).value;
    assert forall i :: 0 <= i < |reqs| ==> Tagged(reqs[i]) by {
      forall i | 0 <= i < |reqs| ensures Tagged(reqs[i]) { assert reqs[i] in reqs; }
    }
    StatsSpec(reqs, running);
    var stats := Stats(reqs, running).value;
    FirstNonMetSpec(stats);
    assert forall i :: 0 <= i < |reqs| ==> (stats[i] == Met <==> MetIn(reqs[i], running));
  }

  // ---------------------------------------------------------------------
  // Properties of call_chunk and call_chunks

  /** `call_chunk` only adds to the ledger and the call log: no key is
      removed, the chunk's own tag is present afterwards, and earlier
      calls stay logged. The same holds for a sequence of chunks, each of
      whose tags is present afterwards. */
  lemma {:induction false} ExecuteGrows(states: Catalog, act: Action, low: Chunk, ex: Exec, chunks: seq<Chunk>, fuel: nat)
    requires WellFormedCatalog(states)
    requires Execute(states, act, low, ex, chunks, fuel).Ok?
    ensures var r := Execute(states, act, low, ex, chunks, fuel).value;
            && ex.running.Keys <= r.running.Keys
            && Tagged(low) && TagOf(low).value in r.running
            && ex.log <= r.log
    decreases fuel, 0
  {
    var tag := TagOf(low).value;
    if "require" in low && CheckRequires(low, ex.running, chunks) == Ok(Unmet) {
      var reqs := Required(low, chunks).value;
      ExecuteAllGrows(states, act, reqs, ex, chunks, fuel - 1);
      var ex2 := ExecuteAll(states, act, reqs, ex, chunks, fuel - 1).value;
      ExecuteGrows(states, act, low, ex2, chunks, fuel - 1);
    }
  }

  lemma {:induction false} ExecuteAllGrows(states: Catalog, act: Action, todo: seq<Chunk>, ex: Exec, chunks: seq<Chunk>, fuel: nat)
    requires WellFormedCatalog(states)
    requires ExecuteAll(states, act, todo, ex, chunks, fuel).Ok?
    ensures var r := ExecuteAll(states, act, todo, ex, chunks, fuel).value;
            && ex.running.Keys <= r.running.Keys
            && (forall c :: c in todo ==> Tagged(c) && TagOf(c).value in r.running)
            && ex.log <= r.log
    decreases fuel, 1, |todo|
  {
    if todo != [] {
      ExecuteGrows(states, act, todo[0], ex, chunks, fuel);
      var ex2 := Execute(states, act, todo[0], ex, chunks, fuel).value;
      ExecuteAllGrows(states, act, todo[1..], ex2, chunks, fuel);
      assert forall c :: c in todo ==> c == todo[0] || c in todo[1..];
    }
  }

  /** The ledger entry `call_chunk` writes when it does not recurse: with
      no `require`, or when the requirements are met, the action's return,
      logged as one call; when one failed, the synthetic failure record,
      with the action not called. */
  lemma ExecuteWrites(states: Catalog, act: Action, low: Chunk, ex: Exec, chunks: seq<Chunk>, fuel: nat)
    requires WellFormedCatalog(states)
    requires fuel > 0 && Tagged(low)
    requires CheckRequires(low, ex.running, chunks).Ok? && CheckRequires(low, ex.running, chunks).value != Unmet
    ensures var r := Execute(states, act, low, ex, chunks, fuel);
            var tag := TagOf(low).value;
            && (CheckRequires(low, ex.running, chunks).value == Met ==>
                  && (Bind(states, low).Err? ==> r == Err(Bind(states, low).error))
                  && (Bind(states, low).Ok? ==>
                        var c := Bind(states, low).value;
                        r.Ok? && r.value.running[tag] == act(c.full, c.args) && r.value.log == ex.log + [c]))
            && (CheckRequires(low, ex.running, chunks).value == Fail ==>
                  r.Ok? && r.value.running[tag] == RequireFailed && r.value.log == ex.log)
            && (r.Ok? ==> forall k :: k in ex.running && k != tag ==> r.value.running[k] == ex.running[k])
  {
  }

  lemma {:induction false} FirstNonMetIn(stats: seq<Status>)
    ensures FirstNonMet(stats) == Met || FirstNonMet(stats) in stats
  {
    if stats != [] && stats[0] == Met {
      FirstNonMetIn(stats[1..]);
    }
  }

  /** When every chunk a requirement selects is already in the ledger, the
      status is never `Unmet`. */
  lemma PresentIsNotUnmet(low: Chunk, running: Ledger, chunks: seq<Chunk>)
    requires "require" in low && Required(low, chunks).Ok?
    requires forall c :: c in Required(low, chunks).value ==> Tagged(c) && TagOf(c).value in running
    ensures CheckRequires(low, running, chunks).Ok? && CheckRequires(low, running, chunks).value != Unmet
  {
    var reqs := Required(low, chunks).value;
    StatsSpec(reqs, running);
    var stats := Stats(reqs, running).value;
    forall i | 0 <= i < |stats| ensures stats[i] != Unmet {
      assert reqs[i] in reqs;
      assert TagOf(reqs[i]).value in running;
    }
    FirstNonMetIn(stats);
  }

  /** The chunks `call_chunk` can run without raising: taggable, bindable,
      with well-formed requirement lists. */
  predicate Runnable(states: Catalog, chunks: seq<Chunk>)
    requires WellFormedCatalog(states)
  {
    forall c :: c in chunks ==>
      && Tagged(c) && Bind(states, c).Ok?
      && ("require" in c ==>
            Required(c, chunks).Ok? && forall r :: r in Required(c, chunks).value ==> r in chunks)
  }

  /** An acyclic `require` graph: every required chunk ranks below the
      chunk requiring it. */
  predicate Ranked(chunks: seq<Chunk>, rank: Chunk -> nat)
  {
    forall c :: c in chunks && "require" in c && Required(c, chunks).Ok? ==>
      forall r :: r in Required(c, chunks).value ==> rank(r) < rank(c)
  }

  /** With acyclic requirements and enough stack, `call_chunk` finishes. */
  lemma {:induction false} ExecuteCompletes(states: Catalog, act: Action, chunks: seq<Chunk>, rank: Chunk -> nat,
                                            low: Chunk, ex: Exec, fuel: nat)
    requires WellFormedCatalog(states) && Runnable(states, chunks) && Ranked(chunks, rank)
    requires low in chunks && fuel > rank(low)
    ensures Execute(states, act, low, ex, chunks, fuel).Ok?
    decreases fuel, 0
  {
    var tag := TagOf(low).value;
    if "require" in low {
      var reqs := Required(low, chunks).value;
      StatsSpec(reqs, ex.running);
      var stats := Stats(reqs, ex.running).value;
      if FirstNonMet(stats) == Unmet {
        FirstNonMetSpec(stats);
        assert reqs != [];
        assert rank(reqs[0]) < rank(low);
        ExecuteAllCompletes(states, act, chunks, rank, reqs, ex, fuel - 1);
        ExecuteAllGrows(states, act, reqs, ex, chunks, fuel - 1);
        var ex2 := ExecuteAll(states, act, reqs, ex, chunks, fuel - 1).value;
        PresentIsNotUnmet(low, ex2.running, chunks);
      }
    }
  }

  lemma {:induction false} ExecuteAllCompletes(states: Catalog, act: Action, chunks: seq<Chunk>, rank: Chunk -> nat,
                                               todo: seq<Chunk>, ex: Exec, fuel: nat)
    requires WellFormedCatalog(states) && Runnable(states, chunks) && Ranked(chunks, rank)
    requires forall c :: c in todo ==> c in chunks && fuel > rank(c)
    ensures ExecuteAll(states, act, todo, ex, chunks, fuel).Ok?
    decreases fuel, 1, |todo|
  {
    if todo != [] {
      ExecuteCompletes(states, act, chunks, rank, todo[0], ex, fuel);
      var ex2 := Execute(states, act, todo[0], ex, chunks, fuel).value;
      assert forall c :: c in todo[1..] ==> c in todo;
      ExecuteAllCompletes(states, act, chunks, rank, todo[1..], ex2, fuel);
    }
  }

  /** `call_chunks` with acyclic requirements and enough stack returns a
      ledger with an entry for every chunk's tag. */
  lemma CallChunksCovers(states: Catalog, act: Action, chunks: seq<Chunk>, rank: Chunk -> nat, log: seq<Call>, fuel: nat)
    requires WellFormedCatalog(states) && Runnable(states, chunks) && Ranked(chunks, rank)
    requires forall c :: c in chunks ==> fuel > rank(c)
    ensures ExecuteAll(states, act, chunks, Exec(map[], log), chunks, fuel).Ok?
    ensures forall c :: c in chunks ==>
              TagOf(c).Ok? && TagOf(c).value in ExecuteAll(states, act, chunks, Exec(map[], log), chunks, fuel).value.running
  {
    ExecuteAllCompletes(states, act, chunks, rank, chunks, Exec(map[], log), fuel);
    ExecuteAllGrows(states, act, chunks, Exec(map[], log), chunks, fuel);
  }

  /** No cycle guard: a chunk whose requirements select only itself, and
      that has not run yet, recurses until the stack is exhausted. */
  lemma {:induction false} SelfRequireExhausts(states: Catalog, act: Action, low: Chunk, ex: Exec, chunks: seq<Chunk>, fuel: nat)
    requires WellFormedCatalog(states)
    requires Tagged(low) && "require" in low && Required(low, chunks) == Ok([low])
    requires TagOf(low).value !in ex.running
    ensures Execute(states, act, low, ex, chunks, fuel) == Err(RecursionLimit)
    decreases fuel
  {
    if fuel > 0 {
      assert [low][1..] == [];
      assert StatusOf(low, ex.running) == Ok(Unmet);
      assert Stats([low], ex.running) == Ok([Unmet] + []);
      SelfRequireExhausts(states, act, low, ex, chunks, fuel - 1);
      assert ExecuteAll(states, act, [low], ex, chunks, fuel - 1) == Err(RecursionLimit);
    }
  }

  // ---------------------------------------------------------------------
  // Re-execution, on the smallest example

  function NtpConf(): Chunk
  {
    map["state" := Str("file"), "name" := Str("/etc/ntp.conf"), "fun" := Str("managed"),
        "require" := List([Dict(map["pkg" := Str("ntp")])])]
  }

  function NtpPkg(): Chunk
  {
    map["state" := Str("pkg"), "name" := Str("ntp"), "fun" := Str("installed")]
  }

  function NtpCatalog(): Catalog
  {
    map["file.managed" := Signature(["name"], []), "pkg.installed" := Signature(["name"], [])]
  }

  lemma NtpBinds()
    ensures WellFormedCatalog(NtpCatalog())
    ensures Bind(NtpCatalog(), NtpConf()) == Ok(Call("file.managed", [Str("/etc/ntp.conf")]))
    ensures Bind(NtpCatalog(), NtpPkg()) == Ok(Call("pkg.installed", [Str("ntp")]))
  {
    var sig := Signature(["name"], []);
    var a, b := NtpConf(), NtpPkg();
    assert FullName(a) == "file.managed" && FullName(b) == "pkg.installed";
    assert NtpCatalog()["file.managed"] == sig && NtpCatalog()["pkg.installed"] == sig;
    assert BoundArg(sig, a, 0) == Some(Str("/etc/ntp.conf"));
    assert BoundArg(sig, b, 0) == Some(Str("ntp"));
    assert BoundPrefix(sig, a, 0) == Ok([]);
    assert BoundPrefix(sig, a, 1) == Ok([] + [Str("/etc/ntp.conf")]);
    assert BoundPrefix(sig, b, 1) == Ok([] + [Str("ntp")]);
    assert [] + [Str("ntp")] == [Str("ntp")] && [] + [Str("/etc/ntp.conf")] == [Str("/etc/ntp.conf")];
  }

  lemma NtpTags()
    ensures TagOf(NtpConf()) == Ok("file./etc/ntp.conf.managed")
    ensures TagOf(NtpPkg()) == Ok("pkg.ntp.installed")
  {
    var a, b := NtpConf(), NtpPkg();
    assert a["state"].s == "file" && a["name"].s == "/etc/ntp.conf" && a["fun"].s == "managed";
    assert b["state"].s == "pkg" && b["name"].s == "ntp" && b["fun"].s == "installed";
    assert "file" + "." + "/etc/ntp.conf" + "." + "managed" == "file./etc/ntp.conf.managed";
    assert "pkg" + "." + "ntp" + "." + "installed" == "pkg.ntp.installed";
  }

  lemma NtpFacts()
    ensures WellFormedCatalog(NtpCatalog())
    ensures Bind(NtpCatalog(), NtpConf()) == Ok(Call("file.managed", [Str("/etc/ntp.conf")]))
    ensures Bind(NtpCatalog(), NtpPkg()) == Ok(Call("pkg.installed", [Str("ntp")]))
    ensures TagOf(NtpConf()) == Ok("file./etc/ntp.conf.managed")
    ensures TagOf(NtpPkg()) == Ok("pkg.ntp.installed")
    ensures Required(NtpConf(), [NtpConf(), NtpPkg()]) == Ok([NtpPkg()])
  {
    var a, b := NtpConf(), NtpPkg();
    var req := Dict(map["pkg" := Str("ntp")]);
    assert KeyOf(req.fields) == "pkg";
    assert Matches(req, a) == Ok(false) && Matches(req, b) == Ok(true);
    assert [a, b][1..] == [b] && [b][1..] == [] && [req][1..] == [];
    assert MatchRow(req, [b]) == Ok([b] + []);
    assert [b] + [] == [b];
    assert MatchRow(req, [a, b]) == Ok([b]);
    assert Matching([req], [a, b]) == Ok([b] + []);
    NtpBinds();
    NtpTags();
  }

  /** `call_chunks` does not skip chunks that have already run: a config
      file listed (in sorted order) before the package it requires runs
      the package first, then itself, and then the package runs AGAIN. */
  lemma ReExecution(act: Action, fuel: nat)
    requires fuel >= 2
    requires act("pkg.installed", [Str("ntp")]).result
    ensures WellFormedCatalog(NtpCatalog())
    ensures var r := ExecuteAll(NtpCatalog(), act, [NtpConf(), NtpPkg()], Exec(map[], []), [NtpConf(), NtpPkg()], fuel);
            r.Ok? && r.value.log == [Call("pkg.installed", [Str("ntp")]),
                                     Call("file.managed", [Str("/etc/ntp.conf")]),
                                     Call("pkg.installed", [Str("ntp")])]
  {
    NtpFacts();
    var states, a, b := NtpCatalog(), NtpConf(), NtpPkg();
    var chunks := [a, b];
    var ca, cb := Call("file.managed", [Str("/etc/ntp.conf")]), Call("pkg.installed", [Str("ntp")]);
    var ra, rb := act(ca.full, ca.args), act(cb.full, cb.args);
    var ta, tb := "file./etc/ntp.conf.managed", "pkg.ntp.installed";
    var ex0 := Exec(map[], []);
    // the package has not run: the config file's requirement is unmet
    assert Stats([b], map[]) == Ok([Unmet] + []);
    assert CheckRequires(a, map[], chunks) == Ok(Unmet);
    var ex1 := Exec(map[tb := rb], [cb]);
    assert "require" !in b;
    assert ex0.running[tb := rb] == ex1.running && ex0.log + [cb] == ex1.log;
    assert Invoke(states, act, b, ex0, tb) == Ok(ex1);
    assert Execute(states, act, b, ex0, chunks, fuel - 1) == Ok(ex1);
    assert ExecuteAll(states, act, [b], ex0, chunks, fuel - 1) == Ok(ex1);
    // now it has, with a truthy result: met
    assert tb in ex1.running && ex1.running[tb].result;
    assert StatusOf(b, ex1.running) == Ok(Met);
    assert Stats([b], ex1.running) == Ok([Met] + []);
    assert [Met] + [] == [Met] && FirstNonMet([Met]) == Met;
    assert CheckRequires(a, ex1.running, chunks) == Ok(Met);
    var ex2 := Exec(map[tb := rb, ta := ra], [cb, ca]);
    assert ex1.running[ta := ra] == ex2.running && ex1.log + [ca] == ex2.log;
    assert Invoke(states, act, a, ex1, ta) == Ok(ex2);
    assert Execute(states, act, a, ex1, chunks, fuel - 1) == Ok(ex2);
    assert Execute(states, act, a, ex0, chunks, fuel) == Ok(ex2);
    // and the package runs again
    var ex3 := Exec(map[tb := rb, ta := ra], [cb, ca, cb]);
    assert ex2.running[tb := rb] == ex3.running && ex2.log + [cb] == ex3.log;
    assert Invoke(states, act, b, ex2, tb) == Ok(ex3);
    assert Execute(states, act, b, ex2, chunks, fuel) == Ok(ex3);
    assert chunks[1..] == [b] && [b][1..] == [];
    assert ExecuteAll(states, act, [b], ex2, chunks, fuel) == Ok(ex3);
  }

  // ---------------------------------------------------------------------
  // Re-execution inside call_chunk, on a service with two requirements

  function NtpFile(): Chunk
  {
    map["state" := Str("file"), "name" := Str("/etc/ntp.conf"), "fun" := Str("managed")]
  }

  function NtpService(): Chunk
  {
    map["state" := Str("service"), "name" := Str("ntpd"), "fun" := Str("running"),
        "require" := List([Dict(map["pkg" := Str("ntp")]), Dict(map["file" := Str("/etc/ntp.conf")])])]
  }

  /** The three chunks in sorted order. */
  function ServiceChunks(): seq<Chunk>
  {
    [NtpFile(), NtpPkg(), NtpService()]
  }

  function ServiceCatalog(): Catalog
  {
    map["file.managed" := Signature(["name"], []), "pkg.installed" := Signature(["name"], []),
        "service.running" := Signature(["name"], [])]
  }

  lemma ServiceBinds()
    ensures WellFormedCatalog(ServiceCatalog())
    ensures Bind(ServiceCatalog(), NtpFile()) == Ok(Call("file.managed", [Str("/etc/ntp.conf")]))
    ensures Bind(ServiceCatalog(), NtpPkg()) == Ok(Call("pkg.installed", [Str("ntp")]))
    ensures Bind(ServiceCatalog(), NtpService()) == Ok(Call("service.running", [Str("ntpd")]))
  {
    var sig := Signature(["name"], []);
    var f, p, v := NtpFile(), NtpPkg(), NtpService();
    assert FullName(f) == "file.managed" && FullName(p) == "pkg.installed" && FullName(v) == "service.running";
    assert ServiceCatalog()["file.managed"] == sig && ServiceCatalog()["pkg.installed"] == sig;
    assert ServiceCatalog()["service.running"] == sig;
    assert BoundPrefix(sig, f, 1) == Ok([] + [Str("/etc/ntp.conf")]);
    assert BoundPrefix(sig, p, 1) == Ok([] + [Str("ntp")]);
    assert BoundPrefix(sig, v, 1) == Ok([] + [Str("ntpd")]);
    assert [] + [Str("ntp")] == [Str("ntp")] && [] + [Str("/etc/ntp.conf")] == [Str("/etc/ntp.conf")];
    assert [] + [Str("ntpd")] == [Str("ntpd")];
  }

  lemma ServiceTags()
    ensures TagOf(NtpFile()) == Ok("file./etc/ntp.conf.managed")
    ensures TagOf(NtpPkg()) == Ok("pkg.ntp.installed")
    ensures TagOf(NtpService()) == Ok("service.ntpd.running")
  {
    var f, v := NtpFile(), NtpService();
    assert f["state"].s == "file" && f["name"].s == "/etc/ntp.conf" && f["fun"].s == "managed";
    assert v["state"].s == "service" && v["name"].s == "ntpd" && v["fun"].s == "running";
    assert "file" + "." + "/etc/ntp.conf" + "." + "managed" == "file./etc/ntp.conf.managed";
    assert "service" + "." + "ntpd" + "." + "running" == "service.ntpd.running";
    NtpTags();
  }

  /** Each requirement selects one chunk: the package, then the file. */
  lemma ServiceRequired()
    ensures Required(NtpService(), ServiceChunks()) == Ok([NtpPkg(), NtpFile()])
  {
    var f, p, v := NtpFile(), NtpPkg(), NtpService();
    var cs := ServiceChunks();
    var rp, rf := Dict(map["pkg" := Str("ntp")]), Dict(map["file" := Str("/etc/ntp.conf")]);
    assert KeyOf(rp.fields) == "pkg" && KeyOf(rf.fields) == "file";
    assert Matches(rp, f) == Ok(false) && Matches(rp, p) == Ok(true) && Matches(rp, v) == Ok(false);
    assert Matches(rf, f) == Ok(true) && Matches(rf, p) == Ok(false) && Matches(rf, v) == Ok(false);
    assert cs[1..] == [p, v] && [p, v][1..] == [v] && [v][1..] == [];
    assert MatchRow(rp, [v]) == Ok([]);
    assert MatchRow(rp, [p, v]) == Ok([p] + []);
    assert [p] + [] == [p] && [f] + [] == [f];
    assert MatchRow(rp, cs) == Ok([p]);
    assert MatchRow(rf, [p, v]) == Ok([]);
    assert MatchRow(rf, cs) == Ok([f]);
    assert [rp, rf][1..] == [rf] && [rf][1..] == [];
    assert Matching([], cs) == Ok([]);
    assert Matching([rf], cs) == Ok([f] + []);
    assert Matching([rp, rf], cs) == Ok([p] + [f]);
    assert [p] + [f] == [p, f];
  }

  /** `call_chunk` re-runs EVERY requirement once one is unmet: the service
      requires the package, which has already run and succeeded, and the
      file, which has not; the package is called again, then the file, then
      the service. */
  lemma RequireReruns(act: Action, prior: Ret, fuel: nat)
    requires fuel >= 2 && prior.result
    requires act("pkg.installed", [Str("ntp")]).result && act("file.managed", [Str("/etc/ntp.conf")]).result
    ensures WellFormedCatalog(ServiceCatalog())
    ensures var r := Execute(ServiceCatalog(), act, NtpService(), Exec(map["pkg.ntp.installed" := prior], []), ServiceChunks(), fuel);
            r.Ok? && r.value.log == [Call("pkg.installed", [Str("ntp")]),
                                     Call("file.managed", [Str("/etc/ntp.conf")]),
                                     Call("service.running", [Str("ntpd")])]
  {
    ServiceBinds();
    ServiceTags();
    ServiceRequired();
    var states, f, p, v := ServiceCatalog(), NtpFile(), NtpPkg(), NtpService();
    var cs := ServiceChunks();
    var cf, cp, cv := Call("file.managed", [Str("/etc/ntp.conf")]), Call("pkg.installed", [Str("ntp")]), Call("service.running", [Str("ntpd")]);
    var rf, rp, rv := act(cf.full, cf.args), act(cp.full, cp.args), act(cv.full, cv.args);
    var tf, tp, tv := "file./etc/ntp.conf.managed", "pkg.ntp.installed", "service.ntpd.running";
    var ex0 := Exec(map[tp := prior], []);
    // the package is met, the file is not: unmet
    assert StatusOf(p, ex0.running) == Ok(Met) && StatusOf(f, ex0.running) == Ok(Unmet);
    assert [p, f][1..] == [f] && [f][1..] == [];
    assert Stats([f], ex0.running) == Ok([Unmet] + []);
    assert Stats([p, f], ex0.running) == Ok([Met] + ([Unmet] + []));
    assert FirstNonMet([Met, Unmet]) == Unmet;
    assert [Met] + ([Unmet] + []) == [Met, Unmet];
    assert CheckRequires(v, ex0.running, cs) == Ok(Unmet);
    // both requirements run, the package again
    var ex1 := Exec(map[tp := rp], [cp]);
    assert ex0.running[tp := rp] == ex1.running && ex0.log + [cp] == ex1.log;
    assert Invoke(states, act, p, ex0, tp) == Ok(ex1);
    assert Execute(states, act, p, ex0, cs, fuel - 1) == Ok(ex1);
    var ex2 := Exec(map[tp := rp, tf := rf], [cp, cf]);
    assert ex1.running[tf := rf] == ex2.running && ex1.log + [cf] == ex2.log;
    assert Invoke(states, act, f, ex1, tf) == Ok(ex2);
    assert Execute(states, act, f, ex1, cs, fuel - 1) == Ok(ex2);
    assert ExecuteAll(states, act, [f], ex1, cs, fuel - 1) == Ok(ex2);
    assert ExecuteAll(states, act, [p, f], ex0, cs, fuel - 1) == Ok(ex2);
    // then the service itself, now met
    assert StatusOf(p, ex2.running) == Ok(Met) && StatusOf(f, ex2.running) == Ok(Met);
    assert Stats([f], ex2.running) == Ok([Met] + []);
    assert Stats([p, f], ex2.running) == Ok([Met] + ([Met] + []));
    assert [Met] + ([Met] + []) == [Met, Met];
    assert FirstNonMet([Met, Met]) == Met;
    assert CheckRequires(v, ex2.running, cs) == Ok(Met);
    var ex3 := Exec(ex2.running[tv := rv], [cp, cf, cv]);
    assert ex2.log + [cv] == ex3.log;
    assert Invoke(states, act, v, ex2, tv) == Ok(ex3);
    assert Execute(states, act, v, ex2, cs, fuel - 1) == Ok(ex3);
  }
}
