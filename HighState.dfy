/** The helpers nested in `HighState` (salt/state.py:281-367): the top-file
    location normalisation of `__gen_opts`, `top_matches` and
    `render_highstate`.

    `HighState` is declared with `def`, not `class`, so in the source these
    are local functions of a function body that are never returned and can
    never be called; and even inside the intended class `__init__` calls
    `__gen_opts` before it assigns the `self.client` that `__gen_opts`
    reads. They are therefore modelled as standalone operations whose
    collaborators (the master's options, the matcher, a dict's key order,
    `os.path.relpath`) are parameters, and `render_highstate` takes the
    documents the renderer produced. */
module HighState {
  import opened Values

  // ---------------------------------------------------------------------
  // __gen_opts

  /** `os.path.join(a, b)`: an absolute `b` replaces `a`; otherwise a
      separator is inserted unless `a` is empty or already ends in one. */
  function Join(a: string, b: string): string
  {
    if StartsWith(b, "/") then b
    else if a == [] || a[|a| - 1] == '/' then a + b
    else a + "/" + b
  }

  lemma JoinScheme(p: string)
    requires !StartsWith(p, "/")
    ensures Join("salt://", p) == "salt://" + p
  {
  }

  type RelPath = (string, string) -> string

  /** `os.path.relpath` never answers with an absolute path. */
  ghost predicate Relative(relpath: RelPath)
  {
    forall path, start :: !StartsWith(relpath(path, start), "/")
  }

  /** The `state_top` that `__gen_opts` stores, computed from the master's
      options, with the exceptions raised on the way in evaluation order. */
  function TopLocation(mopts: map<string, Value>, relpath: RelPath): Result<string>
  {
    if "state_top" !in mopts then Err(KeyError("state_top"))
    else match mopts["state_top"]
      case Str(top) =>
        if StartsWith(top, "salt://") then Ok(top)
        else if "file_root" !in mopts then Err(KeyError("file_root"))
        else (match mopts["file_root"]
          case Str(root) =>
            if StartsWith(top, root) then Ok(Join("salt://", relpath(top, root)))
            else if !StartsWith(top, "/") then Ok(Join("salt://", top))
            else Err(StateError("Invalid top file location"))
          case _ => Err(TypeError("startswith first arg must be str or a tuple")))
      case _ => Err(AttributeError("startswith"))
  }

  /** Every location `__gen_opts` accepts is put in `salt://` form. */
  lemma TopLocationScheme(mopts: map<string, Value>, relpath: RelPath)
    requires Relative(relpath)
    ensures TopLocation(mopts, relpath).Ok? ==> StartsWith(TopLocation(mopts, relpath).value, "salt://")
  {
    var r := TopLocation(mopts, relpath);
    if r.Ok? && !StartsWith(mopts["state_top"].s, "salt://") {
      var top, root := mopts["state_top"].s, mopts["file_root"].s;
      var p := if StartsWith(top, root) then relpath(top, root) else top;
      JoinScheme(p);
      assert ("salt://" + p)[..7] == "salt://";
    }
  }

  /** Normalisation is idempotent: storing the normalised location back as
      the master's `state_top` normalises to itself. */
  lemma TopLocationIdempotent(mopts: map<string, Value>, relpath: RelPath)
    requires Relative(relpath)
    requires TopLocation(mopts, relpath).Ok?
    ensures var loc := TopLocation(mopts, relpath).value;
            TopLocation(mopts["state_top" := Str(loc)], relpath) == Ok(loc)
  {
    TopLocationScheme(mopts, relpath);
  }

  /** `StateError` is raised exactly for an absolute local path outside the
      master's file root. */
  lemma TopLocationRejects(mopts: map<string, Value>, relpath: RelPath)
    ensures TopLocation(mopts, relpath) == Err(StateError("Invalid top file location")) <==>
      && "state_top" in mopts && mopts["state_top"].Str?
      && "file_root" in mopts && mopts["file_root"].Str?
      && !StartsWith(mopts["state_top"].s, "salt://")
      && !StartsWith(mopts["state_top"].s, mopts["file_root"].s)
      && StartsWith(mopts["state_top"].s, "/")
  {
  }

  /** A mutable options dictionary, as passed to `__gen_opts`. */
  class Options {
    var items: map<string, Value>

    constructor(items: map<string, Value>)
      ensures this.items == items
    {
      this.items := items;
    }
  }

  /** `local_state` is set and truthy: the minion's options are used as they are. */
  predicate Local(opts: map<string, Value>)
  {
    "local_state" in opts && Truthy(opts["local_state"])
  }

  /** `__gen_opts`: updates `opts` in place and returns the same object.
      The renderer is written before the location is checked, so a rejected
      location still leaves the master's renderer in `opts`. */
  method GenOpts(opts: Options, mopts: map<string, Value>, relpath: RelPath) returns (r: Result<Options>)
    modifies opts
    ensures Local(old(opts.items)) ==> r == Ok(opts) && opts.items == old(opts.items)
    ensures !Local(old(opts.items)) && "renderer" !in mopts ==>
              r == Err(KeyError("renderer")) && opts.items == old(opts.items)
    ensures !Local(old(opts.items)) && "renderer" in mopts ==>
              var withRenderer := old(opts.items)["renderer" := mopts["renderer"]];
              match TopLocation(mopts, relpath)
              case Ok(loc) => r == Ok(opts) && opts.items == withRenderer["state_top" := Str(loc)]
              case Err(e) => r == Err(e) && opts.items == withRenderer
  {
    if "local_state" in opts.items && Truthy(opts.items["local_state"]) {
      return Ok(opts);
    }
    if "renderer" !in mopts {
      return Err(KeyError("renderer"));
    }
    opts.items := opts.items["renderer" := mopts["renderer"]];
    var loc := TopLocation(mopts, relpath);
    if loc.Err? {
      return Err(loc.error);
    }
    opts.items := opts.items["state_top" := Str(loc.value)];
    r := Ok(opts);
  }

  // ---------------------------------------------------------------------
  // top_matches

  /** The top file: environment -> (target expression -> state list), as
      association lists in iteration order. */
  type Top = seq<(string, seq<(string, Value)>)>

  /** `matcher.confirm_top(data)`, left uninterpreted. */
  type Matcher = Value -> bool

  /** The iteration order of a Python dict's keys, left uninterpreted. */
  type KeyOrder = map<string, Value> -> seq<string>

  /** The `str` items of one confirmed target: `for item in data`, keeping
      the items whose type is `str`. */
  function Targets(data: Value, keys: KeyOrder): Result<seq<string>>
  {
    match data
    case List(items) => Ok(StrItems(items))
    case Str(s) => Ok(seq(|s|, i requires 0 <= i < |s| => [s[i]]))
    case Dict(fields) => Ok(keys(fields))
    case _ => Err(TypeError("object is not iterable"))
  }

  function StrItems(items: seq<Value>): (r: seq<string>)
    ensures forall x :: x in r <==> Str(x) in items
    ensures |r| <= |items|
  {
    if items == [] then []
    else (if items[0].Str? then [items[0].s] else []) + StrItems(items[1..])
  }

  /** The `str` items are kept in order, duplicates included: the items of
      a concatenation are the items of each part, one after the other. */
  lemma {:induction false} StrItemsConcat(a: seq<Value>, b: seq<Value>)
    ensures StrItems(a + b) == StrItems(a) + StrItems(b)
  {
    if a == [] {
      assert a + b == b;
    } else {
      var head := if a[0].Str? then [a[0].s] else [];
      assert (a + b)[0] == a[0] && (a + b)[1..] == a[1..] + b;
      assert StrItems(a + b) == head + StrItems(a[1..] + b);
      StrItemsConcat(a[1..], b);
      assert StrItems(a) == head + StrItems(a[1..]);
    }
  }

  /** A single item contributes itself exactly when it is a `str`. */
  lemma StrItemsSingle(v: Value)
    ensures StrItems([v]) == if v.Str? then [v.s] else []
  {
    assert [v][1..] == [];
  }

  /** What one environment contributes: `None` when no target of the body is
      confirmed, otherwise the targets' items concatenated in body order. */
  function EnvMatches(body: seq<(string, Value)>, confirm: Matcher, keys: KeyOrder): Result<Option<seq<string>>>
  {
    if body == [] then Ok(None)
    else
      var data := body[|body| - 1].1;
      match EnvMatches(body[..|body| - 1], confirm, keys)
      case Err(e) => Err(e)
      case Ok(acc) =>
        if !confirm(data) then Ok(acc)
        else match Targets(data, keys)
          case Err(e) => Err(e)
          case Ok(items) => Ok(Some((if acc.Some? then acc.value else []) + items))
  }

  /** `top_matches`: the dictionary `matches` after the loop. */
  function TopMatches(top: Top, confirm: Matcher, keys: KeyOrder): Result<map<string, seq<string>>>
  {
    if top == [] then Ok(map[])
    else
      var (env, body) := top[|top| - 1];
      match TopMatches(top[..|top| - 1], confirm, keys)
      case Err(e) => Err(e)
      case Ok(acc) =>
        match EnvMatches(body, confirm, keys)
        case Err(e) => Err(e)
        case Ok(None) => Ok(acc)
        case Ok(Some(items)) => Ok(acc[env := (if env in acc then acc[env] else []) + items])
  }

  function Envs(top: Top): seq<string>
  {
    seq(|top|, i requires 0 <= i < |top| => top[i].0)
  }

  /** A body contributes exactly when one of its targets is confirmed. */
  lemma {:induction false} EnvMatchesSome(body: seq<(string, Value)>, confirm: Matcher, keys: KeyOrder)
    requires EnvMatches(body, confirm, keys).Ok?
    ensures EnvMatches(body, confirm, keys).value.Some? <==>
            exists i :: 0 <= i < |body| && confirm(body[i].1)
  {
    if body != [] {
      var init := body[..|body| - 1];
      EnvMatchesSome(init, confirm, keys);
      if exists i :: 0 <= i < |init| && confirm(init[i].1) {
        var i :| 0 <= i < |init| && confirm(init[i].1);
        assert body[i] == init[i];
      }
      if exists i :: 0 <= i < |body| && confirm(body[i].1) {
        var i :| 0 <= i < |body| && confirm(body[i].1);
        if i < |init| { assert init[i] == body[i]; }
      }
    }
  }

  /** A confirmed list target contributes its `str` items, in order, after
      those of the targets before it. */
  lemma ListTargetItems(body: seq<(string, Value)>, confirm: Matcher, keys: KeyOrder, items: seq<Value>)
    requires body != [] && body[|body| - 1].1 == List(items) && confirm(List(items))
    requires EnvMatches(body[..|body| - 1], confirm, keys).Ok?
    ensures var before := EnvMatches(body[..|body| - 1], confirm, keys).value;
            EnvMatches(body, confirm, keys) ==
              Ok(Some((if before.Some? then before.value else []) + StrItems(items)))
  {
  }

  /** `top_matches` with distinct environment names: an environment is a key
      of the result exactly when one of its targets is confirmed, and then
      holds what its body contributes; no other key appears. */
  lemma {:induction false} TopMatchesSpec(top: Top, confirm: Matcher, keys: KeyOrder)
    requires Distinct(Envs(top))
    requires TopMatches(top, confirm, keys).Ok?
    ensures var m := TopMatches(top, confirm, keys).value;
            && (forall env :: env in m ==> env in Envs(top))
            && (forall i :: 0 <= i < |top| ==>
                  var e := EnvMatches(top[i].1, confirm, keys);
                  e.Ok? && (top[i].0 in m <==> e.value.Some?)
                  && (e.value.Some? ==> m[top[i].0] == e.value.value))
  {
    if top != [] {
      var init := top[..|top| - 1];
      var (env, body) := top[|top| - 1];
      assert Envs(init) == Envs(top)[..|top| - 1];
      assert Distinct(Envs(init));
      TopMatchesSpec(init, confirm, keys);
      var acc := TopMatches(init, confirm, keys).value;
      assert env !in acc by {
        assert forall j :: 0 <= j < |init| ==> Envs(init)[j] == Envs(top)[j] != Envs(top)[|top| - 1];
      }
      var m := TopMatches(top, confirm, keys).value;
      forall env' | env' in m ensures env' in Envs(top)
      {
        if env' != env {
          var j :| 0 <= j < |init| && Envs(init)[j] == env';
          assert Envs(top)[j] == env';
        } else {
          assert Envs(top)[|top| - 1] == env;
        }
      }
      forall i | 0 <= i < |top|
        ensures var e := EnvMatches(top[i].1, confirm, keys);
                e.Ok? && (top[i].0 in m <==> e.value.Some?)
                && (e.value.Some? ==> m[top[i].0] == e.value.value)
      {
        if i < |init| {
          assert top[i] == init[i];
          assert Envs(top)[i] != Envs(top)[|top| - 1];
        }
      }
    }
  }

  // ---------------------------------------------------------------------
  // render_highstate

  /** `render_highstate`: `highstate.update(doc)` for the rendered document
      of every sls of the group, in group order. */
  function RenderHighstate(docs: seq<map<string, Value>>): map<string, Value>
  {
    if docs == [] then map[]
    else RenderHighstate(docs[..|docs| - 1]) + docs[|docs| - 1]
  }

  /** `docs[i]` is the last document that defines `k`. */
  ghost predicate LastDefines(docs: seq<map<string, Value>>, k: string, i: int)
  {
    0 <= i < |docs| && k in docs[i] && forall j :: i < j < |docs| ==> k !in docs[j]
  }

  /** The merge has the union of the documents' keys. */
  lemma {:induction false} RenderHighstateKeys(docs: seq<map<string, Value>>)
    ensures forall k :: k in RenderHighstate(docs) <==> exists i :: 0 <= i < |docs| && k in docs[i]
  {
    if docs != [] {
      var init, last := docs[..|docs| - 1], docs[|docs| - 1];
      RenderHighstateKeys(init);
      var h, hi := RenderHighstate(docs), RenderHighstate(init);
      assert h == hi + last;
      forall k ensures k in h <==> exists i :: 0 <= i < |docs| && k in docs[i]
      {
        if k in h && k !in last {
          assert k in hi;
          var i :| 0 <= i < |init| && k in init[i];
          assert docs[i] == init[i];
        }
        if exists i :: 0 <= i < |docs| && k in docs[i] {
          var i :| 0 <= i < |docs| && k in docs[i];
          if i < |init| { assert docs[i] == init[i]; }
        }
      }
    }
  }

  /** `h[k]` is the value of `k` in the last document that defines it. */
  ghost predicate TakesLast(docs: seq<map<string, Value>>, h: map<string, Value>, k: string)
    requires k in h
  {
    exists i :: LastDefines(docs, k, i) && h[k] == docs[i][k]
  }

  /** Every key of the merge takes its value from the last document of the
      group that defines it. */
  lemma {:induction false} RenderHighstateLastWins(docs: seq<map<string, Value>>)
    ensures forall k :: k in RenderHighstate(docs) ==> TakesLast(docs, RenderHighstate(docs), k)
  {
    if docs != [] {
      var init, last := docs[..|docs| - 1], docs[|docs| - 1];
      RenderHighstateLastWins(init);
      var h, hi := RenderHighstate(docs), RenderHighstate(init);
      assert h == hi + last;
      forall k | k in h ensures TakesLast(docs, h, k)
      {
        if k in last {
          assert LastDefines(docs, k, |docs| - 1);
        } else {
          assert k in hi && TakesLast(init, hi, k);
          var i :| LastDefines(init, k, i) && hi[k] == init[i][k];
          assert docs[i] == init[i];
          forall j | i < j < |docs| ensures k !in docs[j]
          {
            if j < |init| { assert docs[j] == init[j]; }
          }
          assert LastDefines(docs, k, i);
        }
      }
    }
  }
}
