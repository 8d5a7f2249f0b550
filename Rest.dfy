/** Two data-shaping helpers of the CherryPy REST front-end:
    `LowDataAdapter.fmt_lowdata`, which pairs repeated form parameters into
    low-data chunks, and the `global` section built by `API.get_conf`. */
module Rest {
  import opened Values

  // ---------------------------------------------------------------------
  // fmt_lowdata

  /** The form parameters of a request, in the body dict's iteration order. */
  type Form = seq<(string, Value)>

  function Keys(data: Form): seq<string>
  {
    seq(|data|, j requires 0 <= j < |data| => data[j].0)
  }

  /** A parameter value that is not a list stands for a one-element list. */
  function ArgList(v: Value): seq<Value>
  {
    if v.List? then v.items else [v]
  }

  /** `zip([k] * len(argl), argl)` */
  function PairsOf(k: string, v: Value): seq<(string, Value)>
  {
    seq(|ArgList(v)|, t requires 0 <= t < |ArgList(v)| => (k, ArgList(v)[t]))
  }

  function Longest(pairs: seq<seq<(string, Value)>>): (n: nat)
    ensures forall j :: 0 <= j < |pairs| ==> |pairs[j]| <= n
    ensures pairs != [] ==> exists j :: 0 <= j < |pairs| && |pairs[j]| == n
    ensures pairs == [] ==> n == 0
  {
    if pairs == [] then 0
    else
      var n := Longest(pairs[1..]);
      if |pairs[0]| >= n then |pairs[0]|
      else
        assert exists j :: 0 <= j < |pairs[1..]| && |pairs[1..][j]| == n;
        var j :| 0 <= j < |pairs[1..]| && |pairs[1..][j]| == n;
        assert pairs[j + 1] == pairs[1..][j];
        n
  }

  /** The tuple `izip_longest(*pairs)` yields at position `i`, with
      `None` for the lists that are already exhausted. */
  function Row(pairs: seq<seq<(string, Value)>>, i: nat): seq<Option<(string, Value)>>
  {
    seq(|pairs|, j requires 0 <= j < |pairs| => if i < |pairs[j]| then Some(pairs[j][i]) else None)
  }

  /** `all(row)`: every element is a pair, and a pair is always truthy. */
  predicate Complete(row: seq<Option<(string, Value)>>)
  {
    forall j :: 0 <= j < |row| ==> row[j].Some?
  }

  /** `dict(row)` of a complete row. */
  function DictOf(row: seq<Option<(string, Value)>>): map<string, Value>
    requires Complete(row)
  {
    if row == [] then map[]
    else
      var last := row[|row| - 1].value;
      DictOf(row[..|row| - 1])[last.0 := last.1]
  }

  function KeysOfRow(row: seq<Option<(string, Value)>>): seq<string>
    requires Complete(row)
  {
    seq(|row|, j requires 0 <= j < |row| => row[j].value.0)
  }

  /** A complete row with distinct keys becomes the dict of its pairs. */
  lemma {:induction false} DictOfRow(row: seq<Option<(string, Value)>>)
    requires Complete(row) && Distinct(KeysOfRow(row))
    ensures DictOf(row).Keys == Elems(KeysOfRow(row))
    ensures forall j :: 0 <= j < |row| ==> row[j].value.0 in DictOf(row) && DictOf(row)[row[j].value.0] == row[j].value.1
  {
    if row != [] {
      var init := row[..|row| - 1];
      assert KeysOfRow(init) == KeysOfRow(row)[..|row| - 1];
      DictOfRow(init);
      assert Elems(KeysOfRow(row)) == Elems(KeysOfRow(init)) + {row[|row| - 1].value.0} by {
        assert KeysOfRow(row) == KeysOfRow(init) + [row[|row| - 1].value.0];
      }
      forall j | 0 <= j < |row| - 1
        ensures row[j].value.0 in DictOf(row) && DictOf(row)[row[j].value.0] == row[j].value.1
      {
        assert init[j] == row[j];
        assert KeysOfRow(row)[j] != KeysOfRow(row)[|row| - 1];
      }
    }
  }

  /** The length of the shortest parameter value list. */
  function Shortest(data: Form): (m: nat)
    ensures forall j :: 0 <= j < |data| ==> m <= |ArgList(data[j].1)|
    ensures data != [] ==> exists j :: 0 <= j < |data| && |ArgList(data[j].1)| == m
  {
    if data == [] then 0
    else if |data| == 1 then |ArgList(data[0].1)|
    else
      var m := Shortest(data[1..]);
      if |ArgList(data[0].1)| <= m then |ArgList(data[0].1)|
      else
        assert exists j :: 0 <= j < |data[1..]| && |ArgList(data[1..][j].1)| == m;
        var j :| 0 <= j < |data[1..]| && |ArgList(data[1..][j].1)| == m;
        assert data[j + 1] == data[1..][j];
        m
  }

  /** Every parameter has `n` values. */
  predicate SameLength(data: Form, n: nat)
  {
    forall j :: 0 <= j < |data| ==> |ArgList(data[j].1)| == n
  }

  /** The `pairs` list after the first loop. */
  predicate PairsFor(data: Form, pairs: seq<seq<(string, Value)>>)
  {
    |pairs| == |data| && forall j :: 0 <= j < |data| ==> pairs[j] == PairsOf(data[j].0, data[j].1)
  }

  lemma RowOfPairs(data: Form, pairs: seq<seq<(string, Value)>>, i: nat)
    requires PairsFor(data, pairs)
    ensures Complete(Row(pairs, i)) <==> i < Shortest(data) || data == []
    ensures Complete(Row(pairs, i)) ==> KeysOfRow(Row(pairs, i)) == Keys(data)
    ensures forall j :: 0 <= j < |data| ==>
              Row(pairs, i)[j] == if i < |ArgList(data[j].1)| then Some((data[j].0, ArgList(data[j].1)[i])) else None
  {
    if data != [] && i >= Shortest(data) {
      var j :| 0 <= j < |data| && |ArgList(data[j].1)| == Shortest(data);
      assert Row(pairs, i)[j].None?;
    }
  }

  /** Chunk `c` maps every parameter to its `i`-th value, and has no other key. */
  ghost predicate ChunkAt(data: Form, c: map<string, Value>, i: nat)
  {
    && c.Keys == Elems(Keys(data))
    && forall j :: 0 <= j < |data| ==> i < |ArgList(data[j].1)| && data[j].0 in c && c[data[j].0] == ArgList(data[j].1)[i]
  }

  /** The `i`-th tuple of the pairing, padded with `None`. */
  function PaddedRow(data: Form, i: nat): seq<Option<(string, Value)>>
  {
    seq(|data|, j requires 0 <= j < |data| =>
      if i < |ArgList(data[j].1)| then Some((data[j].0, ArgList(data[j].1)[i])) else None)
  }

  lemma CompleteRowChunk(data: Form, pairs: seq<seq<(string, Value)>>, i: nat)
    requires Distinct(Keys(data)) && PairsFor(data, pairs) && Complete(Row(pairs, i))
    ensures ChunkAt(data, DictOf(Row(pairs, i)), i)
  {
    var row := Row(pairs, i);
    RowOfPairs(data, pairs, i);
    DictOfRow(row);
    forall j | 0 <= j < |data|
      ensures i < |ArgList(data[j].1)| && data[j].0 in DictOf(row) && DictOf(row)[data[j].0] == ArgList(data[j].1)[i]
    {
      assert row[j].value == (data[j].0, ArgList(data[j].1)[i]);
    }
  }

  /** The tuple `izip_longest` yields at `i`, stated on the parameters. */
  lemma RowIsPadded(data: Form, pairs: seq<seq<(string, Value)>>, i: nat)
    requires PairsFor(data, pairs)
    ensures Row(pairs, i) == PaddedRow(data, i)
  {
    forall j | 0 <= j < |data| ensures Row(pairs, i)[j] == PaddedRow(data, i)[j]
    {
      assert |pairs[j]| == |ArgList(data[j].1)|;
    }
  }

  /** The first padded tuple is the one at the shortest list's length, and
      it shows that the lists differ in length. */
  lemma FirstPaddedRow(data: Form, pairs: seq<seq<(string, Value)>>, i: nat)
    requires PairsFor(data, pairs) && !Complete(Row(pairs, i))
    requires i < Longest(pairs) && i <= Shortest(data)
    ensures data != [] && i == Shortest(data) && !SameLength(data, |ArgList(data[0].1)|)
  {
    RowOfPairs(data, pairs, i);
    var j :| 0 <= j < |pairs| && |pairs[j]| == Longest(pairs);
    assert |ArgList(data[j].1)| > i;
  }

  /** The first loop of `fmt_lowdata`: one list of `(key, value)` pairs
      per parameter. */
  method ZipParams(data: Form) returns (pairs: seq<seq<(string, Value)>>)
    ensures PairsFor(data, pairs)
  {
    pairs := [];
    for j := 0 to |data|
      invariant |pairs| == j
      invariant forall t :: 0 <= t < j ==> pairs[t] == PairsOf(data[t].0, data[t].1)
    {
      var (k, v) := data[j];
      var argl := if v.List? then v.items else [v];
      pairs := pairs + [seq(|argl|, t requires 0 <= t < |argl| => (k, argl[t]))];
    }
  }

  lemma ChunksGrow(data: Form, lowdata: seq<map<string, Value>>, chunk: map<string, Value>)
    requires forall t :: 0 <= t < |lowdata| ==> ChunkAt(data, lowdata[t], t)
    requires ChunkAt(data, chunk, |lowdata|)
    ensures forall t :: 0 <= t < |lowdata| + 1 ==> ChunkAt(data, (lowdata + [chunk])[t], t)
  {
    forall t | 0 <= t < |lowdata| + 1 ensures ChunkAt(data, (lowdata + [chunk])[t], t)
    {
      if t < |lowdata| { assert (lowdata + [chunk])[t] == lowdata[t]; }
    }
  }

  /** `fmt_lowdata`. The request body's keys are distinct, as in any dict.
      The pairing succeeds exactly when every parameter has as many values
      as the first; then chunk `i` maps every parameter to its `i`-th value.
      Otherwise the exception carries the first tuple `izip_longest` pads. */
  method FmtLowdata(data: Form) returns (r: Result<seq<map<string, Value>>>)
    requires Distinct(Keys(data))
    ensures r.Ok? <==> data == [] || SameLength(data, |ArgList(data[0].1)|)
    ensures r.Ok? && data == [] ==> r.value == []
    ensures r.Ok? && data != [] ==>
              |r.value| == |ArgList(data[0].1)| && forall i :: 0 <= i < |r.value| ==> ChunkAt(data, r.value[i], i)
    ensures r.Err? ==> r.error == PairingError(PaddedRow(data, Shortest(data)))
  {
    var pairs := ZipParams(data);
    var lowdata: seq<map<string, Value>> := [];
    var longest := Longest(pairs);
    for i := 0 to longest
      invariant |lowdata| == i
      invariant i <= Shortest(data) || data == []
      invariant forall t :: 0 <= t < i ==> ChunkAt(data, lowdata[t], t)
    {
      var row := Row(pairs, i);
      if !Complete(row) {
        FirstPaddedRow(data, pairs, i);
        RowIsPadded(data, pairs, i);
        return Err(PairingError(row));
      }
      var chunk := DictOf(row);
      CompleteRowChunk(data, pairs, i);
      ChunksGrow(data, lowdata, chunk);
      lowdata := lowdata + [chunk];
    }
    if data != [] {
      // every list has exactly `longest` values
      var j0 :| 0 <= j0 < |pairs| && |pairs[j0]| == longest;
      assert longest <= Shortest(data) <= |ArgList(data[j0].1)| == longest;
      assert |pairs[0]| == |ArgList(data[0].1)|;
      assert SameLength(data, longest);
    }
    r := Ok(lowdata);
  }

  // ---------------------------------------------------------------------
  // get_conf

  /** The options key of this front-end: the last component of the module
      name `saltapi.netapi.rest_cherrypy`. */
  const ApiKey := "rest_cherrypy"

  /** The value `apiopts.pop(key, default)` answers. */
  function Pop(apiopts: map<string, Value>, key: string, default: Value): Value
  {
    if key in apiopts then apiopts[key] else default
  }

  /** `conf['global']` for the API options `apiopts` (before the pops). */
  function GlobalSection(apiopts: map<string, Value>): map<string, Value>
  {
    map["server.socket_host" := Str("0.0.0.0"),
        "server.socket_port" := Pop(apiopts, "port", Num(8000)),
        "debug" := Pop(apiopts, "debug", Bool(false))]
    + (apiopts - {"port", "debug"})
  }

  /** The port and debug flag come from the options, with 8000 and False
      as defaults; the listen address is `0.0.0.0` unless supplied. An
      explicit `server.socket_port` option overrides `port`, because the
      merge comes after the pops. */
  lemma GlobalDefaults(apiopts: map<string, Value>)
    ensures var g := GlobalSection(apiopts);
            && g["server.socket_port"] ==
                 (if "server.socket_port" in apiopts then apiopts["server.socket_port"]
                  else if "port" in apiopts then apiopts["port"] else Num(8000))
            && g["debug"] == (if "debug" in apiopts then apiopts["debug"] else Bool(false))
            && g["server.socket_host"] ==
                 (if "server.socket_host" in apiopts then apiopts["server.socket_host"] else Str("0.0.0.0"))
  {
  }

  /** Every other option is copied into the section as it is, and the
      section holds nothing else. */
  lemma GlobalMerge(apiopts: map<string, Value>)
    ensures var g := GlobalSection(apiopts);
            && g.Keys == apiopts.Keys - {"port", "debug"} + {"server.socket_host", "server.socket_port", "debug"}
            && forall k :: k in apiopts && k != "port" && k != "debug" ==> g[k] == apiopts[k]
  {
  }

  /** The pops remove `port` and `debug` from the stored options, so a
      second section built from them has the defaults again. */
  lemma RepeatFallsBack(apiopts: map<string, Value>)
    ensures var again := GlobalSection(apiopts - {"port", "debug"});
            && again["debug"] == Bool(false)
            && ("server.socket_port" !in apiopts ==> again["server.socket_port"] == Num(8000))
  {
  }

  /** The API object: `self.opts` is the master configuration, whose
      `rest_cherrypy` entry `get_conf` pops from in place. */
  class Api {
    var opts: map<string, Value>

    constructor(opts: map<string, Value>)
      ensures this.opts == opts
    {
      this.opts := opts;
    }

    /** `get_conf`, returning the `global` section (the `'/'` section is a
        fixed set of framework settings). A stored list has a `pop` that
        takes at most one argument; any other entry that is not a dict has
        no `pop` method at all. */
    method GetConf() returns (r: Result<map<string, Value>>)
      modifies this
      ensures ApiKey !in old(opts) ==> r == Ok(GlobalSection(map[])) && opts == old(opts)
      ensures ApiKey in old(opts) && old(opts)[ApiKey].List? ==>
                r == Err(TypeError("pop expected at most 1 arguments, got 2")) && opts == old(opts)
      ensures ApiKey in old(opts) && !old(opts)[ApiKey].Dict? && !old(opts)[ApiKey].List? ==>
                r == Err(AttributeError("pop")) && opts == old(opts)
      ensures ApiKey in old(opts) && old(opts)[ApiKey].Dict? ==>
                var apiopts := old(opts)[ApiKey].fields;
                && r == Ok(GlobalSection(apiopts))
                && opts == old(opts)[ApiKey := Dict(apiopts - {"port", "debug"})]
    {
      if ApiKey in opts && opts[ApiKey].List? {
        return Err(TypeError("pop expected at most 1 arguments, got 2"));
      }
      if ApiKey in opts && !opts[ApiKey].Dict? {
        return Err(AttributeError("pop"));
      }
      var stored := if ApiKey in opts then opts[ApiKey].fields else map[];
      var apiopts := stored;
      var port := Pop(apiopts, "port", Num(8000));
      apiopts := apiopts - {"port"};
      var debug := Pop(apiopts, "debug", Bool(false));
      apiopts := apiopts - {"debug"};
      assert apiopts == stored - {"port", "debug"};
      if ApiKey in opts {
        opts := opts[ApiKey := Dict(apiopts)];
      }
      var global := map["server.socket_host" := Str("0.0.0.0"), "server.socket_port" := port, "debug" := debug];
      global := global + apiopts;
      assert global == GlobalSection(stored);
      r := Ok(global);
    }
  }
}
