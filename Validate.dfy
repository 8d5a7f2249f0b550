/** The chunk validator: `State.verify_data` and `State.verify_chunks`.
    The action catalog (what the loader registers) is a parameter: each
    action `state.fun` comes with its declared signature, the parameter names
    in order and the default values aligned to the tail. */
module Validate {
  import opened Values

  datatype Signature = Signature(params: seq<string>, defaults: seq<Value>)
  {
    /** What any Python signature satisfies: no more defaults than
        parameters, no parameter named twice. */
    predicate WellFormed()
    {
      |defaults| <= |params| && Distinct(params)
    }

    /** The leading parameters that carry no default; `range(arglen -
        deflen)` is empty when the difference is negative. */
    function RequiredCount(): (n: nat)
      ensures n <= |params|
      ensures |defaults| <= |params| ==> n + |defaults| == |params|
    {
      if |defaults| <= |params| then |params| - |defaults| else 0
    }
  }

  /** The loader's action catalog: `"state.fun"` to its signature. */
  type Catalog = map<string, Signature>

  predicate WellFormedCatalog(states: Catalog)
  {
    forall full :: full in states ==> states[full].WellFormed()
  }

  function FullName(data: Chunk): string
    requires "state" in data && data["state"].Str? && "fun" in data && data["fun"].Str?
  {
    data["state"].s + "." + data["fun"].s
  }

  function ParamError(p: string, full: string): string
  {
    "Missing paramater " + p + " for state " + full
  }

  /** The independent reading of "the chunk is valid": the three fields,
      a known action, and every parameter without a default supplied. */
  predicate ValidChunk(states: Catalog, data: Chunk)
  {
    && "state" in data && data["state"].Str?
    && "fun" in data && data["fun"].Str?
    && "name" in data
    && FullName(data) in states
    && var sig := states[FullName(data)];
       forall i :: 0 <= i < sig.RequiredCount() ==> sig.params[i] in data
  }

  /** How many of `keys` the chunk lacks. */
  function AbsentCount(keys: seq<string>, data: Chunk): (n: nat)
    ensures n <= |keys|
  {
    if keys == [] then 0
    else (if keys[0] in data then 0 else 1) + AbsentCount(keys[1..], data)
  }

  /** `errs` reports the keys the chunk lacks, one message each and in the
      order of `keys`: the message `msgs[i]` for an absent `keys[i]` sits
      at the position given by the number of absent keys before it, and
      there are no other messages. */
  ghost predicate ReportsAbsent(keys: seq<string>, msgs: seq<string>, data: Chunk, errs: seq<string>)
    requires |msgs| == |keys|
  {
    && |errs| == AbsentCount(keys, data)
    && forall i :: 0 <= i < |keys| && keys[i] !in data ==>
         AbsentCount(keys[..i], data) < |errs| && errs[AbsentCount(keys[..i], data)] == msgs[i]
  }

  /** Counting the absent keys of a non-empty prefix starts with its head. */
  lemma AbsentCountPrefix(keys: seq<string>, data: Chunk, i: nat)
    requires 0 < i <= |keys|
    ensures AbsentCount(keys[..i], data)
            == (if keys[0] in data then 0 else 1) + AbsentCount(keys[1..][..i - 1], data)
  {
    assert keys[..i][1..] == keys[1..][..i - 1];
  }

  /** The three fields `verify_data` checks first, and their messages. */
  const Fields: seq<string> := ["state", "fun", "name"]
  const FieldMessages: seq<string> := ["Missing \"state\" data", "Missing \"fun\" data", "Missing \"name\" data"]

  /** The messages for absent `state`, `fun`, `name`, in that order. */
  function MissingFields(data: Chunk): (errs: seq<string>)
    ensures errs == [] <==> "state" in data && "fun" in data && "name" in data
    ensures ReportsAbsent(Fields, FieldMessages, data, errs)
  {
    assert Fields[..0] == [] && Fields[..1] == ["state"] && Fields[..2] == ["state", "fun"];
    assert Fields[1..] == ["fun", "name"] && Fields[1..][1..] == ["name"] && Fields[1..][1..][1..] == [];
    assert ["state"][1..] == [] && ["state", "fun"][1..] == ["fun"] && ["fun"][1..] == [];
    assert AbsentCount(["name"], data) == if "name" in data then 0 else 1;
    assert AbsentCount(["fun", "name"], data) == (if "fun" in data then 0 else 1) + AbsentCount(["name"], data);
    assert AbsentCount(Fields, data) == (if "state" in data then 0 else 1) + AbsentCount(["fun", "name"], data);
    (if "state" !in data then [FieldMessages[0]] else [])
    + (if "fun" !in data then [FieldMessages[1]] else [])
    + (if "name" !in data then [FieldMessages[2]] else [])
  }

  /** The message of every parameter of `ps`. */
  function ParamErrors(ps: seq<string>, full: string): (msgs: seq<string>)
    ensures |msgs| == |ps|
  {
    seq(|ps|, i requires 0 <= i < |ps| => ParamError(ps[i], full))
  }

  /** One message per parameter of `ps` absent from the chunk, in
      declaration order. */
  function MissingParams(ps: seq<string>, full: string, data: Chunk): (errs: seq<string>)
    ensures errs == [] <==> forall i :: 0 <= i < |ps| ==> ps[i] in data
    ensures ReportsAbsent(ps, ParamErrors(ps, full), data, errs)
  {
    if ps == [] then []
    else
      var rest := MissingParams(ps[1..], full, data);
      var errs := if ps[0] in data then rest else [ParamError(ps[0], full)] + rest;
      assert forall i :: 1 <= i < |ps| ==> ps[i] == ps[1..][i - 1] && ParamErrors(ps, full)[i] == ParamErrors(ps[1..], full)[i - 1];
      forall i | 0 <= i < |ps| && ps[i] !in data
        ensures AbsentCount(ps[..i], data) < |errs| && errs[AbsentCount(ps[..i], data)] == ParamErrors(ps, full)[i]
      {
        if i > 0 {
          AbsentCountPrefix(ps, data, i);
        }
      }
      errs
  }

  /** `State.verify_data`. `Err` is the TypeError of `state + '.' + fun`
      when one of them is not a string. */
  function VerifyData(states: Catalog, data: Chunk): (r: Result<seq<string>>)
    ensures (r == Ok([])) <==> ValidChunk(states, data)
    ensures r.Err? <==> MissingFields(data) == [] && !(data["state"].Str? && data["fun"].Str?)
    ensures MissingFields(data) != [] ==> r == Ok(MissingFields(data))
    ensures ValidChunk(states, data) ==> r == Ok([])
    ensures MissingFields(data) == [] && data["state"].Str? && data["fun"].Str? && FullName(data) !in states
            ==> r == Ok(["Specified state " + FullName(data) + " is unavailable."])
    ensures MissingFields(data) == [] && data["state"].Str? && data["fun"].Str? && FullName(data) in states ==>
              var sig := states[FullName(data)];
              r == Ok(MissingParams(sig.params[..sig.RequiredCount()], FullName(data), data))
    ensures r.Ok? && MissingFields(data) == [] && FullName(data) in states ==>
              var sig := states[FullName(data)];
              |r.value| <= sig.RequiredCount()
              && forall i :: 0 <= i < sig.RequiredCount() && sig.params[i] !in data
                   ==> ParamError(sig.params[i], FullName(data)) in r.value
  {
    var missing := MissingFields(data);
    if missing != [] then Ok(missing)
    else if !(data["state"].Str? && data["fun"].Str?) then Err(TypeError("cannot concatenate 'str' and non-str objects"))
    else
      var full := FullName(data);
      if full !in states then Ok(["Specified state " + full + " is unavailable."])
      else
        var sig := states[full];
        var required := sig.params[..sig.RequiredCount()];
        assert forall i :: 0 <= i < sig.RequiredCount() ==> required[i] == sig.params[i];
        Ok(MissingParams(required, full, data))
  }

  /** `State.verify_chunks`: all errors of all chunks, concatenated. The
      first chunk whose check raises makes the whole call raise. */
  function VerifyChunks(states: Catalog, chunks: seq<Chunk>): (r: Result<seq<string>>)
    ensures r == Ok([]) <==> forall i :: 0 <= i < |chunks| ==> ValidChunk(states, chunks[i])
    ensures r.Err? <==> exists i :: 0 <= i < |chunks| && VerifyData(states, chunks[i]).Err?
    ensures r.Ok? ==> forall i :: 0 <= i < |chunks| ==> VerifyData(states, chunks[i]).Ok?
  {
    if chunks == [] then Ok([])
    else
      var head := VerifyData(states, chunks[0]);
      var rest := VerifyChunks(states, chunks[1..]);
      assert forall i :: 1 <= i < |chunks| ==> chunks[i] == chunks[1..][i - 1];
      if head.Err? then Err(head.error)
      else if rest.Err? then Err(rest.error)
      else Ok(head.value + rest.value)
  }

  /** The errors of a list are the per-chunk messages in chunk order: a
      chunk in front adds its own messages in front, and the list checks
      without an exception exactly when both parts do. */
  lemma VerifyChunksCons(states: Catalog, c: Chunk, rest: seq<Chunk>)
    ensures VerifyChunks(states, [c] + rest).Ok? <==> VerifyData(states, c).Ok? && VerifyChunks(states, rest).Ok?
    ensures VerifyChunks(states, [c] + rest).Ok? ==>
              VerifyChunks(states, [c] + rest).value == VerifyData(states, c).value + VerifyChunks(states, rest).value
  {
    assert ([c] + rest)[0] == c && ([c] + rest)[1..] == rest;
  }

  /** One chunk's errors are exactly its `verify_data` messages. */
  lemma VerifyChunksSingle(states: Catalog, c: Chunk)
    requires VerifyData(states, c).Ok?
    ensures VerifyChunks(states, [c]) == VerifyData(states, c)
  {
    assert [c][1..] == [];
    assert VerifyData(states, c).value + [] == VerifyData(states, c).value;
  }

  /** Scenario: a chunk missing only `name` gets exactly one message. */
  lemma MissingNameOnly(states: Catalog, data: Chunk)
    requires "state" in data && "fun" in data && "name" !in data
    ensures VerifyData(states, data) == Ok(["Missing \"name\" data"])
  {
    var m := MissingFields(data);
    assert m == [] + [] + ["Missing \"name\" data"];
    assert [] + [] + ["Missing \"name\" data"] == ["Missing \"name\" data"];
    assert VerifyData(states, data) == Ok(m);
  }
}
