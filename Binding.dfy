/** The call binder, `State.format_call`: from a chunk and the declared
    signature of its action, the positional argument list the action is
    called with. */
module Binding {
  import opened Values
  import opened Validate

  /** `{'full': 'state.fun', 'args': [...]}` */
  datatype Call = Call(full: string, args: seq<Value>)

  /** Whether parameter `i` gets a default: the loop
      `for ind in range(arglen - 1, 0, -1)` gives defaults only to the
      tail-aligned parameters, and never to parameter 0. */
  predicate TakesDefault(sig: Signature, i: nat)
  {
    1 <= i < |sig.params| && |sig.params| - |sig.defaults| <= i
  }

  function DefaultOf(sig: Signature, i: nat): Value
    requires TakesDefault(sig, i) && |sig.defaults| <= |sig.params|
  {
    sig.defaults[i - (|sig.params| - |sig.defaults|)]
  }

  /** The value bound to parameter `i`: the chunk's own value if it has
      one, otherwise the default if parameter `i` takes one; `None` is the
      KeyError of `data[arg]`. */
  function BoundArg(sig: Signature, data: Chunk, i: nat): Option<Value>
    requires i < |sig.params| && |sig.defaults| <= |sig.params|
  {
    var p := sig.params[i];
    if p in data then Some(data[p])
    else if TakesDefault(sig, i) then Some(DefaultOf(sig, i))
    else None
  }

  /** The first `n` arguments, or the KeyError of the first parameter that
      has neither a chunk value nor a default. */
  function BoundPrefix(sig: Signature, data: Chunk, n: nat): Result<seq<Value>>
    requires n <= |sig.params| && |sig.defaults| <= |sig.params|
  {
    if n == 0 then Ok([])
    else match BoundPrefix(sig, data, n - 1)
      case Err(e) => Err(e)
      case Ok(a) =>
        match BoundArg(sig, data, n - 1)
        case None => Err(KeyError(sig.params[n - 1]))
        case Some(v) => Ok(a + [v])
  }

  /** What `format_call` returns or raises. The exceptions come in the
      order Python meets them: `data['state'] + '.'` before `data['fun']`,
      then the catalog lookup, then the first unbound parameter. */
  function Bind(states: Catalog, data: Chunk): (r: Result<Call>)
    requires WellFormedCatalog(states)
    ensures r.Ok? <==>
              && "state" in data && data["state"].Str? && "fun" in data && data["fun"].Str?
              && FullName(data) in states
              && forall i :: 0 <= i < |states[FullName(data)].params| ==> BoundArg(states[FullName(data)], data, i).Some?
    ensures r.Ok? ==> r.value.full == FullName(data) && |r.value.args| == |states[FullName(data)].params|
    ensures "state" in data && !data["state"].Str? ==> r.Err? && r.error.TypeError?
    ensures "state" in data && data["state"].Str? && "fun" in data && data["fun"].Str? && FullName(data) !in states
            ==> r == Err(KeyError(FullName(data)))
  {
    if "state" !in data then Err(KeyError("state"))
    else if !data["state"].Str? then Err(TypeError("cannot concatenate 'str' and non-str objects"))
    else if "fun" !in data then Err(KeyError("fun"))
    else if !data["fun"].Str? then Err(TypeError("cannot concatenate 'str' and non-str objects"))
    else
      var full := FullName(data);
      if full !in states then Err(KeyError(full))
      else
        var sig := states[full];
        BoundPrefixShape(sig, data, |sig.params|);
        match BoundPrefix(sig, data, |sig.params|)
        case Err(e) => Err(e)
        case Ok(args) => Ok(Call(full, args))
  }

  /** A bound prefix has one argument per parameter, each the bound value;
      it fails exactly when some parameter in it is unbound, naming the
      first such parameter. */
  lemma {:induction false} BoundPrefixShape(sig: Signature, data: Chunk, n: nat)
    requires n <= |sig.params| && |sig.defaults| <= |sig.params|
    ensures BoundPrefix(sig, data, n).Ok? <==> forall i :: 0 <= i < n ==> BoundArg(sig, data, i).Some?
    ensures BoundPrefix(sig, data, n).Ok? ==>
              var a := BoundPrefix(sig, data, n).value;
              |a| == n && forall i :: 0 <= i < n ==> a[i] == BoundArg(sig, data, i).value
    ensures BoundPrefix(sig, data, n).Err? ==>
              exists k :: 0 <= k < n && BoundArg(sig, data, k).None?
                && (forall i :: 0 <= i < k ==> BoundArg(sig, data, i).Some?)
                && BoundPrefix(sig, data, n).error == KeyError(sig.params[k])
  {
    if n > 0 {
      BoundPrefixShape(sig, data, n - 1);
    }
  }

  /** `format_call`'s promise: `full` is `state.fun` and `args` has one
      entry per declared parameter, in declaration order; a chunk value
      overrides a default; a tail-aligned default fills an absent parameter
      other than parameter 0. */
  lemma BindArgs(states: Catalog, data: Chunk)
    requires WellFormedCatalog(states)
    requires Bind(states, data).Ok?
    ensures "state" in data && "fun" in data
    ensures data["state"].Str? && data["fun"].Str?
    ensures Bind(states, data).value.full == data["state"].s + "." + data["fun"].s
    ensures FullName(data) in states
    ensures var sig := states[FullName(data)];
            var args := Bind(states, data).value.args;
            && |args| == |sig.params|
            && (forall i :: 0 <= i < |sig.params| && sig.params[i] in data ==> args[i] == data[sig.params[i]])
            && (forall i :: 0 <= i < |sig.params| && sig.params[i] !in data ==> TakesDefault(sig, i) && args[i] == DefaultOf(sig, i))
  {
    var sig := states[FullName(data)];
    BoundPrefixShape(sig, data, |sig.params|);
    var args := Bind(states, data).value.args;
    assert BoundPrefix(sig, data, |sig.params|) == Ok(args);
    forall i | 0 <= i < |sig.params|
      ensures sig.params[i] in data ==> args[i] == data[sig.params[i]]
      ensures sig.params[i] !in data ==> TakesDefault(sig, i) && args[i] == DefaultOf(sig, i)
    {
      assert BoundArg(sig, data, i).Some? && args[i] == BoundArg(sig, data, i).value;
    }
  }

  /** A parameter with no default and no chunk value fails binding with a
      KeyError; parameter 0 never takes its default, so it fails whenever it
      is absent, default or not. */
  lemma BindMissing(states: Catalog, data: Chunk, i: nat)
    requires WellFormedCatalog(states)
    requires "state" in data && "fun" in data && data["state"].Str? && data["fun"].Str?
    requires FullName(data) in states
    requires i < |states[FullName(data)].params|
    requires states[FullName(data)].params[i] !in data
    requires i == 0 || i < states[FullName(data)].RequiredCount()
    ensures Bind(states, data).Err?
    ensures i == 0 ==> Bind(states, data) == Err(KeyError(states[FullName(data)].params[0]))
  {
    var sig := states[FullName(data)];
    BoundPrefixShape(sig, data, |sig.params|);
    assert BoundArg(sig, data, i).None?;
    if i == 0 {
      var k :| 0 <= k < |sig.params| && BoundArg(sig, data, k).None?
                && (forall j :: 0 <= j < k ==> BoundArg(sig, data, j).Some?)
                && BoundPrefix(sig, data, |sig.params|).error == KeyError(sig.params[k]);
      assert k == 0;
    }
  }

  /** Validation and binding agree, except for the parameter-0 default:
      a chunk that `verify_data` accepts binds whenever it supplies its
      action's first parameter. */
  lemma VerifiedBinds(states: Catalog, data: Chunk)
    requires WellFormedCatalog(states)
    requires ValidChunk(states, data)
    requires |states[FullName(data)].params| == 0 || states[FullName(data)].params[0] in data
    ensures Bind(states, data).Ok?
  {
    var sig := states[FullName(data)];
    BoundPrefixShape(sig, data, |sig.params|);
    forall i | 0 <= i < |sig.params| ensures BoundArg(sig, data, i).Some? {
    }
  }

  /** The parameter-0 quirk on an example: an action whose only parameter
      has a default passes validation without it, and binding then raises. */
  lemma VerifiedButUnbindable()
    ensures var states := map["file.managed" := Signature(["source"], [Str("salt://foo")])];
            var data := map["state" := Str("file"), "fun" := Str("managed"), "name" := Str("/etc/foo")];
            && VerifyData(states, data) == Ok([])
            && Bind(states, data) == Err(KeyError("source"))
  {
    var states := map["file.managed" := Signature(["source"], [Str("salt://foo")])];
    var data := map["state" := Str("file"), "fun" := Str("managed"), "name" := Str("/etc/foo")];
    assert FullName(data) == "file.managed";
    assert ValidChunk(states, data);
    assert BoundArg(states["file.managed"], data, 0).None?;
  }

  /** `format_call` itself: the defaults dict built by walking the
      parameters from the last down to index 1, the chunk's values copied
      over it, then the argument list assembled in declaration order. */
  method FormatCall(states: Catalog, data: Chunk) returns (r: Result<Call>)
    requires WellFormedCatalog(states)
    ensures r == Bind(states, data)
  {
    if "state" !in data { return Err(KeyError("state")); }
    if !data["state"].Str? {
      return Err(TypeError("cannot concatenate 'str' and non-str objects"));
    }
    if "fun" !in data { return Err(KeyError("fun")); }
    if !data["fun"].Str? {
      return Err(TypeError("cannot concatenate 'str' and non-str objects"));
    }
    var full := data["state"].s + "." + data["fun"].s;
    if full !in states { return Err(KeyError(full)); }
    var sig := states[full];
    var params := sig.params;
    var arglen := |params|;
    var kwargs := TailDefaults(sig);
    kwargs := Overlay(kwargs, data);

    var args: seq<Value> := [];
    var i := 0;
    while i < arglen
      invariant 0 <= i <= arglen
      invariant BoundPrefix(sig, data, i) == Ok(args)
    {
      var arg := params[i];
      if arg in kwargs {
        var j :| 0 <= j < arglen && TakesDefault(sig, j) && arg == params[j];
        assert j == i;
        args := args + [kwargs[arg]];
      } else if arg in data {
        args := args + [data[arg]];
      } else {
        assert BoundPrefix(sig, data, i + 1) == Err(KeyError(arg));
        PrefixErrPersists(sig, data, i + 1);
        assert BoundPrefix(sig, data, arglen) == Err(KeyError(arg));
        return Err(KeyError(arg));
      }
      i := i + 1;
    }
    return Ok(Call(full, args));
  }

  /** The first loop of `format_call`: `for ind in range(arglen - 1, 0,
      -1)`, recording `aspec[3][-minus]` for every parameter that has a
      default, except parameter 0. */
  method TailDefaults(sig: Signature) returns (kwargs: map<string, Value>)
    requires sig.WellFormed()
    ensures forall j :: 0 <= j < |sig.params| && TakesDefault(sig, j) ==>
              sig.params[j] in kwargs && kwargs[sig.params[j]] == DefaultOf(sig, j)
    ensures forall k :: k in kwargs ==> exists j :: 0 <= j < |sig.params| && TakesDefault(sig, j) && k == sig.params[j]
  {
    var params := sig.params;
    var arglen := |params|;
    var deflen := |sig.defaults|;
    kwargs := map[];
    var ind := arglen - 1;
    while ind > 0
      invariant -1 <= ind < arglen
      invariant forall j :: ind < j < arglen && TakesDefault(sig, j) ==>
                  params[j] in kwargs && kwargs[params[j]] == DefaultOf(sig, j)
      invariant forall k :: k in kwargs ==> exists j :: ind < j < arglen && TakesDefault(sig, j) && k == params[j]
    {
      var minus := arglen - ind;
      if deflen - minus > -1 {
        kwargs := kwargs[params[ind] := sig.defaults[deflen - minus]];
      }
      ind := ind - 1;
    }
  }

  /** The second loop of `format_call`: every defaulted name the chunk
      supplies takes the chunk's value. */
  method Overlay(defaults: map<string, Value>, data: Chunk) returns (kwargs: map<string, Value>)
    ensures kwargs.Keys == defaults.Keys
    ensures forall k :: k in kwargs ==> kwargs[k] == if k in data then data[k] else defaults[k]
  {
    kwargs := defaults;
    var pending := kwargs.Keys;
    while pending != {}
      invariant pending <= defaults.Keys && kwargs.Keys == defaults.Keys
      invariant forall k :: k in kwargs ==>
                  kwargs[k] == if k !in pending && k in data then data[k] else defaults[k]
      decreases |pending|
    {
      var arg :| arg in pending;
      if arg in data {
        kwargs := kwargs[arg := data[arg]];
      }
      pending := pending - {arg};
    }
  }

  /** Once a prefix fails, every longer prefix fails with the same error. */
  lemma {:induction false} PrefixErrPersists(sig: Signature, data: Chunk, m: nat)
    requires m <= |sig.params| && |sig.defaults| <= |sig.params|
    requires BoundPrefix(sig, data, m).Err?
    ensures forall n :: m <= n <= |sig.params| ==> BoundPrefix(sig, data, n) == BoundPrefix(sig, data, m)
  {
    forall n | m <= n <= |sig.params|
      ensures BoundPrefix(sig, data, n) == BoundPrefix(sig, data, m)
    {
      var k := m;
      while k < n
        invariant m <= k <= n
        invariant BoundPrefix(sig, data, k) == BoundPrefix(sig, data, m)
      {
        k := k + 1;
      }
    }
  }
}
