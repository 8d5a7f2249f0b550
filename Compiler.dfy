/** The low-data compiler, `State.compile_high_data`: high data
    `name -> state module -> run list` flattened into chunks and sorted by
    `state + name + fun`.

    High data is given as the item listings of its dicts, in the order the
    loops visit them. The two Python sets the compiler builds (function
    names, alternate names) are iterated in an order Python leaves
    unspecified; the method picks one and reports it as a ghost `Order`, and
    the specification `Compile(high, orders)` holds for every admissible
    choice of orders. */
module Compiler {
  import opened Values

  type Run = seq<Value>
  type Body = seq<(string, Run)>
  type High = seq<(string, Body)>

  /** Bare strings of a run list: the set of functions to call. */
  function FunSet(run: Run): set<string>
  {
    set v | v in run && v.Str? :: v.s
  }

  /** What `names.update(val)` adds to the name set: the items of a list
      (which must be hashable), the characters of a string, the keys of a
      dict; anything else is not iterable. */
  function NamesOf(val: Value): Result<set<Value>>
  {
    match val
    case List(items) =>
      if forall v :: v in items ==> Hashable(v) then Ok(Elems(items))
      else Err(TypeError("unhashable type"))
    case Str(s) => Ok(set c | c in s :: Str([c]))
    case Dict(fields) => Ok(set k | k in fields :: Str(k))
    case _ => Err(TypeError("object is not iterable"))
  }

  predicate HasNames(arg: Value)
  {
    arg.Dict? && "names" in arg.fields
  }

  /** A dict element with a key other than `names`: `chunk.update(arg)`
      then copies the WHOLE dict, `names` included. */
  predicate HasOtherKey(arg: Value)
  {
    arg.Dict? && arg.fields.Keys - {"names"} != {}
  }

  /** The name set after the loop over `run`, or the exception that stops it. */
  function NamesIn(run: Run): Result<set<Value>>
  {
    if run == [] then Ok({})
    else
      match NamesIn(run[..|run| - 1])
      case Err(e) => Err(e)
      case Ok(acc) =>
        var arg := run[|run| - 1];
        if HasNames(arg) then
          match NamesOf(arg.fields["names"])
          case Err(e) => Err(e)
          case Ok(added) => Ok(acc + added)
        else Ok(acc)
  }

  /** The chunk template after the loop over `run`. */
  function Absorb(chunk: Chunk, run: Run): Chunk
  {
    if run == [] then chunk
    else
      var c := Absorb(chunk, run[..|run| - 1]);
      var arg := run[|run| - 1];
      if HasOtherKey(arg) then c + arg.fields else c
  }

  function Template(state: string, cur: Value, run: Run): Chunk
  {
    Absorb(map["state" := Str(state), "name" := cur], run)
  }

  /** The iteration orders chosen for one rule's two sets. */
  datatype Order = Order(funs: seq<string>, names: seq<Value>)

  /** The entries one rule appends, and what the variable `name` holds
      afterwards (the inner `for name in names` rebinds it). */
  datatype RuleOut = RuleOut(entries: seq<Chunk>, next: Value)

  predicate AdmissibleRule(run: Run, o: Order)
  {
    && Enumerates(o.funs, FunSet(run))
    && (NamesIn(run).Ok? ==> Enumerates(o.names, NamesIn(run).value))
  }

  /** The `fun` the shared `live` dict holds after the inner loop. */
  function LastFun(funs: seq<string>): Value
  {
    if funs == [] then Null else Str(funs[|funs| - 1])
  }

  function Copies(k: nat, c: Chunk): (r: seq<Chunk>)
    ensures |r| == k
    ensures forall i :: 0 <= i < k ==> r[i] == c
  {
    seq(k, _ => c)
  }

  /** One `live` dict per alternate name, appended `k` times: all `k`
      entries are the same object, carrying the last function. */
  function Expand(t: Chunk, names: seq<Value>, fun: Value, k: nat): seq<Chunk>
  {
    if names == [] then []
    else Expand(t, names[..|names| - 1], fun, k) + Copies(k, t["name" := names[|names| - 1]]["fun" := fun])
  }

  /** The body of `for state, run in body.items()` with the chosen orders. */
  function Rule(state: string, cur: Value, run: Run, o: Order): Result<RuleOut>
  {
    match NamesIn(run)
    case Err(e) => Err(e)
    case Ok(names) =>
      var t := Template(state, cur, run);
      if names == {} then Ok(RuleOut(Copies(|o.funs|, t["fun" := LastFun(o.funs)]), cur))
      else Ok(RuleOut(Expand(t, o.names, LastFun(o.funs), |o.funs|),
                      if o.names == [] then cur else o.names[|o.names| - 1]))
  }

  /** The rules of one `(name, body)` item, threading the variable `name`
      from one state module to the next. */
  function BodyRun(body: Body, cur: Value, os: seq<Order>): Result<RuleOut>
    requires |os| == |body|
  {
    if body == [] then Ok(RuleOut([], cur))
    else
      match BodyRun(body[..|body| - 1], cur, os[..|os| - 1])
      case Err(e) => Err(e)
      case Ok(acc) =>
        match Rule(body[|body| - 1].0, acc.next, body[|body| - 1].1, os[|os| - 1])
        case Err(e) => Err(e)
        case Ok(out) => Ok(RuleOut(acc.entries + out.entries, out.next))
  }

  predicate Shaped(high: High, orders: seq<seq<Order>>)
  {
    |orders| == |high| && forall i :: 0 <= i < |high| ==> |orders[i]| == |high[i].1|
  }

  predicate Admissible(high: High, orders: seq<seq<Order>>)
    requires Shaped(high, orders)
  {
    forall i, j :: 0 <= i < |high| && 0 <= j < |high[i].1| ==> AdmissibleRule(high[i].1[j].1, orders[i][j])
  }

  /** The `chunks` list before sorting. */
  function Collect(high: High, orders: seq<seq<Order>>): Result<seq<Chunk>>
    requires Shaped(high, orders)
  {
    if high == [] then Ok([])
    else
      var n := |high| - 1;
      assert Shaped(high[..n], orders[..n]);
      match Collect(high[..n], orders[..n])
      case Err(e) => Err(e)
      case Ok(acc) =>
        match BodyRun(high[n].1, Str(high[n].0), orders[n])
        case Err(e) => Err(e)
        case Ok(out) => Ok(acc + out.entries)
  }

  // ---------------------------------------------------------------------
  // sorted(chunks, key=lambda k: k['state'] + k['name'] + k['fun'])

  function SortKey(c: Chunk): string
  {
    if Tagged(c) then c["state"].s + c["name"].s + c["fun"].s else ""
  }

  predicate SortedByKey(cs: seq<Chunk>)
  {
    forall i, j :: 0 <= i < j < |cs| ==> StrLe(SortKey(cs[i]), SortKey(cs[j]))
  }

  /** Insert before the first element whose key is not smaller, so equal
      keys keep their input order (Python's sort is stable). */
  function Insert(x: Chunk, s: seq<Chunk>): (r: seq<Chunk>)
    ensures multiset(r) == multiset(s) + multiset{x}
    ensures |r| == |s| + 1
  {
    if s == [] then [x]
    else if StrLe(SortKey(x), SortKey(s[0])) then [x] + s
    else
      assert s == [s[0]] + s[1..];
      [s[0]] + Insert(x, s[1..])
  }

  /** A sorted tail stays sorted under a head no greater than any of it. */
  lemma SortedCons(h: Chunk, t: seq<Chunk>)
    requires SortedByKey(t)
    requires forall j :: 0 <= j < |t| ==> StrLe(SortKey(h), SortKey(t[j]))
    ensures SortedByKey([h] + t)
  {
    forall i, j | 0 <= i < j < |t| + 1 ensures StrLe(SortKey(([h] + t)[i]), SortKey(([h] + t)[j])) {
      if i > 0 { assert ([h] + t)[i] == t[i - 1]; }
      assert ([h] + t)[j] == t[j - 1];
    }
  }

  lemma {:induction false} InsertSorted(x: Chunk, s: seq<Chunk>)
    requires SortedByKey(s)
    ensures SortedByKey(Insert(x, s))
  {
    if s == [] {
    } else if StrLe(SortKey(x), SortKey(s[0])) {
      forall j | 0 <= j < |s| ensures StrLe(SortKey(x), SortKey(s[j])) {
        if j > 0 { StrLeTrans(SortKey(x), SortKey(s[0]), SortKey(s[j])); }
      }
      SortedCons(x, s);
    } else {
      var t := s[1..];
      assert SortedByKey(t);
      InsertSorted(x, t);
      var rest := Insert(x, t);
      StrLeTotal(SortKey(x), SortKey(s[0]));
      forall j | 0 <= j < |rest| ensures StrLe(SortKey(s[0]), SortKey(rest[j])) {
        assert rest[j] in multiset(rest);
        if rest[j] != x {
          assert rest[j] in multiset(t);
          var m :| 0 <= m < |t| && t[m] == rest[j];
          assert s[m + 1] == rest[j];
        }
      }
      SortedCons(s[0], rest);
    }
  }

  function Sort(cs: seq<Chunk>): (r: seq<Chunk>)
    ensures multiset(r) == multiset(cs)
    ensures |r| == |cs|
  {
    if cs == [] then []
    else
      assert cs == [cs[0]] + cs[1..];
      Insert(cs[0], Sort(cs[1..]))
  }

  /** Insertion sort yields the keys in order. */
  lemma {:induction false} SortSorted(cs: seq<Chunk>)
    ensures SortedByKey(Sort(cs))
  {
    if cs != [] {
      SortSorted(cs[1..]);
      InsertSorted(cs[0], Sort(cs[1..]));
    }
  }

  /** Every key is computed before sorting; a non-string `state`, `name`
      or `fun` makes the concatenation raise. */
  function SortByKey(cs: seq<Chunk>): (r: Result<seq<Chunk>>)
    ensures r.Ok? <==> forall c :: c in cs ==> Tagged(c)
    ensures r.Ok? ==> SortedByKey(r.value) && multiset(r.value) == multiset(cs)
    ensures r.Ok? ==> forall c :: c in r.value ==> Tagged(c)
  {
    if forall c :: c in cs ==> Tagged(c) then
      var s := Sort(cs);
      assert SortedByKey(s) by { SortSorted(cs); }
      assert forall c :: c in s ==> c in multiset(s);
      Ok(s)
    else Err(TypeError("cannot concatenate 'str' and non-str objects"))
  }

  /** The chunks whose sort key is `k`, in list order. */
  function WithKey(cs: seq<Chunk>, k: string): seq<Chunk>
  {
    if cs == [] then []
    else (if SortKey(cs[0]) == k then [cs[0]] else []) + WithKey(cs[1..], k)
  }

  /** Passing over a head whose key differs from the inserted chunk's:
      the head and the inserted chunk cannot both have key `k`. */
  lemma InsertSkipStable(x: Chunk, h: Chunk, rest: seq<Chunk>, tail: seq<Chunk>, k: string)
    requires SortKey(x) != SortKey(h)
    requires WithKey(rest, k) == (if SortKey(x) == k then [x] else []) + WithKey(tail, k)
    ensures WithKey([h] + rest, k) == (if SortKey(x) == k then [x] else []) + WithKey([h] + tail, k)
  {
    assert ([h] + rest)[0] == h && ([h] + rest)[1..] == rest;
    assert ([h] + tail)[0] == h && ([h] + tail)[1..] == tail;
    if SortKey(x) == k {
      assert WithKey([h] + rest, k) == [] + WithKey(rest, k);
      assert WithKey([h] + tail, k) == [] + WithKey(tail, k);
    } else {
      assert WithKey(rest, k) == [] + WithKey(tail, k);
    }
  }

  /** An inserted chunk goes before every chunk with its own key. */
  lemma {:induction false} InsertStable(x: Chunk, s: seq<Chunk>, k: string)
    ensures WithKey(Insert(x, s), k) == (if SortKey(x) == k then [x] else []) + WithKey(s, k)
  {
    if s == [] {
      assert Insert(x, s) == [x] && [x][1..] == [];
    } else if StrLe(SortKey(x), SortKey(s[0])) {
      assert Insert(x, s) == [x] + s;
      assert ([x] + s)[0] == x && ([x] + s)[1..] == s;
    } else {
      assert Insert(x, s) == [s[0]] + Insert(x, s[1..]);
      StrLeTotal(SortKey(x), SortKey(x));
      InsertStable(x, s[1..], k);
      InsertSkipStable(x, s[0], Insert(x, s[1..]), s[1..], k);
      assert [s[0]] + s[1..] == s;
    }
  }

  /** The sort is stable: the chunks sharing a key keep their input
      order, so among them the input order decides which one the executor
      runs last. */
  lemma {:induction false} SortStable(cs: seq<Chunk>, k: string)
    ensures WithKey(Sort(cs), k) == WithKey(cs, k)
  {
    if cs != [] {
      SortStable(cs[1..], k);
      InsertStable(cs[0], Sort(cs[1..]), k);
    }
  }

  /** `compile_high_data` for given iteration orders. */
  function Compile(high: High, orders: seq<seq<Order>>): Result<seq<Chunk>>
    requires Shaped(high, orders)
  {
    match Collect(high, orders)
    case Err(e) => Err(e)
    case Ok(cs) => SortByKey(cs)
  }

  // ---------------------------------------------------------------------
  // The imperative compiler

  /** A dict that is appended to `chunks` and then updated in place. */
  class Live {
    var data: Chunk
    constructor (d: Chunk)
      ensures data == d
    {
      data := d;
    }
  }

  function Snapshot(refs: seq<Live>): (s: seq<Chunk>)
    reads refs
    ensures |s| == |refs|
    ensures forall m :: 0 <= m < |refs| ==> s[m] == refs[m].data
  {
    if refs == [] then [] else Snapshot(refs[..|refs| - 1]) + [refs[|refs| - 1].data]
  }

  /** `for fun in funcs: live['fun'] = fun; chunks.append(live)` */
  method AppendEach(live: Live, funs: seq<string>, refs: seq<Live>) returns (out: seq<Live>)
    modifies live
    ensures out == refs + seq(|funs|, _ => live)
    ensures live.data == if funs == [] then old(live.data) else old(live.data)["fun" := Str(funs[|funs| - 1])]
  {
    out := refs;
    var j := 0;
    while j < |funs|
      invariant 0 <= j <= |funs|
      invariant out == refs + seq(j, _ => live)
      invariant live.data == if j == 0 then old(live.data) else old(live.data)["fun" := Str(funs[j - 1])]
    {
      live.data := live.data["fun" := Str(funs[j])];
      out := out + [live];
      j := j + 1;
    }
  }

  ghost function AnyOrder(run: Run): (o: Order)
    ensures AdmissibleRule(run, o)
  {
    assert exists fs :: Enumerates(fs, FunSet(run)) by { EnumerationExists(FunSet(run)); }
    var fs :| Enumerates(fs, FunSet(run));
    match NamesIn(run)
    case Ok(ns) =>
      assert exists nn :: Enumerates(nn, ns) by { EnumerationExists(ns); }
      var nn :| Enumerates(nn, ns);
      Order(fs, nn)
    case Err(_) => Order(fs, [])
  }

  lemma {:induction false} NamesInErrPrefix(run: Run, i: nat)
    requires i <= |run|
    requires NamesIn(run[..i]).Err?
    ensures NamesIn(run) == NamesIn(run[..i])
    decreases |run| - i
  {
    if i < |run| {
      assert run[..i + 1][..i] == run[..i];
      NamesInErrPrefix(run, i + 1);
    } else {
      assert run[..i] == run;
    }
  }

  /** The loop over one run list: the chunk template, the function set and
      the name set, or the exception `names.update` raises. */
  method Scan(state: string, cur: Value, run: Run) returns (chunk: Chunk, funcs: set<string>, names: Result<set<Value>>)
    ensures names == NamesIn(run)
    ensures names.Ok? ==> chunk == Template(state, cur, run) && funcs == FunSet(run)
  {
    chunk := map["state" := Str(state), "name" := cur];
    ghost var init := chunk;
    funcs := {};
    var ns: set<Value> := {};
    var i := 0;
    while i < |run|
      invariant 0 <= i <= |run|
      invariant chunk == Absorb(init, run[..i])
      invariant funcs == FunSet(run[..i])
      invariant NamesIn(run[..i]) == Ok(ns)
    {
      var arg := run[i];
      assert run[..i + 1][..i] == run[..i] && run[..i + 1][i] == arg;
      assert FunSet(run[..i + 1]) == FunSet(run[..i]) + (if arg.Str? then {arg.s} else {});
      if arg.Str? {
        funcs := funcs + {arg.s};
      } else if arg.Dict? {
        // for key, val in arg.items(): 'names' feeds the name set, any
        // other key copies the whole dict into the chunk
        if "names" in arg.fields {
          var added := NamesOf(arg.fields["names"]);
          if added.Err? {
            NamesInErrPrefix(run, i + 1);
            names := Err(added.error);
            return;
          }
          ns := ns + added.value;
        }
        if HasOtherKey(arg) {
          chunk := chunk + arg.fields;
        }
      }
      i := i + 1;
    }
    assert run[..|run|] == run;
    names := Ok(ns);
  }

  /** `for name in names`: a fresh deep copy of the template per name,
      appended once per function and updated in place after each append. */
  method ExpandNames(chunk: Chunk, order: seq<Value>, funOrder: seq<string>) returns (refs: seq<Live>)
    ensures Snapshot(refs) == Expand(chunk, order, LastFun(funOrder), |funOrder|)
  {
    refs := [];
    ghost var fun := LastFun(funOrder);
    var k := 0;
    while k < |order|
      invariant 0 <= k <= |order|
      invariant |refs| == |Expand(chunk, order[..k], fun, |funOrder|)|
      invariant forall m :: 0 <= m < |refs| ==> refs[m].data == Expand(chunk, order[..k], fun, |funOrder|)[m]
    {
      var live := new Live(chunk);
      live.data := live.data["name" := order[k]];
      refs := AppendEach(live, funOrder, refs);
      assert order[..k + 1][..k] == order[..k];
      assert Expand(chunk, order[..k + 1], fun, |funOrder|)
          == Expand(chunk, order[..k], fun, |funOrder|) + Copies(|funOrder|, chunk["name" := order[k]]["fun" := fun]);
      k := k + 1;
    }
    assert order[..|order|] == order;
  }

  /** One rule of `compile_high_data`. */
  method CompileRule(state: string, cur: Value, run: Run) returns (r: Result<RuleOut>, ghost o: Order)
    ensures AdmissibleRule(run, o)
    ensures r == Rule(state, cur, run, o)
  {
    var chunk, funcs, names := Scan(state, cur, run);
    if names.Err? {
      o := AnyOrder(run);
      r := Err(names.error);
      return;
    }
    var funOrder := Enumerate(funcs);
    var refs: seq<Live>;
    var next := cur;
    ghost var nameOrder: seq<Value> := [];
    if names.value != {} {
      var order := Enumerate(names.value);
      nameOrder := order;
      refs := ExpandNames(chunk, order, funOrder);
      next := order[|order| - 1];
    } else {
      var live := new Live(chunk);
      refs := AppendEach(live, funOrder, []);
      assert Snapshot(refs) == Copies(|funOrder|, chunk["fun" := LastFun(funOrder)]);
    }
    o := Order(funOrder, nameOrder);
    r := Ok(RuleOut(Snapshot(refs), next));
  }

  ghost function AnyOrders(body: Body): (os: seq<Order>)
    ensures |os| == |body|
    ensures forall j :: 0 <= j < |body| ==> AdmissibleRule(body[j].1, os[j])
  {
    seq(|body|, j requires 0 <= j < |body| => AnyOrder(body[j].1))
  }

  ghost function AnyHighOrders(high: High): (orders: seq<seq<Order>>)
    ensures Shaped(high, orders) && Admissible(high, orders)
  {
    seq(|high|, i requires 0 <= i < |high| => AnyOrders(high[i].1))
  }

  lemma BodyStep(body: Body, cur: Value, os: seq<Order>, o: Order, j: nat)
    requires j < |body| && |os| == j
    ensures BodyRun(body[..j + 1], cur, os + [o]) ==
              match BodyRun(body[..j], cur, os)
              case Err(e) => Err(e)
              case Ok(acc) =>
                match Rule(body[j].0, acc.next, body[j].1, o)
                case Err(e) => Err(e)
                case Ok(out) => Ok(RuleOut(acc.entries + out.entries, out.next))
  {
    assert body[..j + 1][..j] == body[..j];
    assert (os + [o])[..j] == os;
  }

  lemma {:induction false} BodyErrPrefix(body: Body, cur: Value, os: seq<Order>, i: nat)
    requires |os| == |body| && i <= |body|
    requires BodyRun(body[..i], cur, os[..i]).Err?
    ensures BodyRun(body, cur, os) == BodyRun(body[..i], cur, os[..i])
    decreases |body| - i
  {
    if i < |body| {
      assert body[..i + 1][..i] == body[..i] && os[..i + 1][..i] == os[..i];
      BodyErrPrefix(body, cur, os, i + 1);
    } else {
      assert body[..i] == body && os[..i] == os;
    }
  }

  /** The rules of one `(name, body)` item, in body order. */
  method CompileBody(name: string, body: Body) returns (r: Result<seq<Chunk>>, ghost os: seq<Order>)
    ensures |os| == |body|
    ensures forall j :: 0 <= j < |body| ==> AdmissibleRule(body[j].1, os[j])
    ensures r.Ok? ==> BodyRun(body, Str(name), os).Ok? && r.value == BodyRun(body, Str(name), os).value.entries
    ensures r.Err? ==> BodyRun(body, Str(name), os) == Err(r.error)
  {
    var cur := Str(name);
    var acc: seq<Chunk> := [];
    os := [];
    var j := 0;
    while j < |body|
      invariant 0 <= j <= |body| && |os| == j
      invariant forall m :: 0 <= m < j ==> AdmissibleRule(body[m].1, os[m])
      invariant BodyRun(body[..j], Str(name), os) == Ok(RuleOut(acc, cur))
    {
      var res, o := CompileRule(body[j].0, cur, body[j].1);
      BodyStep(body, Str(name), os, o, j);
      if res.Err? {
        ghost var rest := AnyOrders(body[j + 1..]);
        ghost var all := os + [o] + rest;
        forall m | 0 <= m < |body| ensures AdmissibleRule(body[m].1, all[m]) {
          if m > j { assert body[j + 1..][m - j - 1] == body[m]; }
        }
        assert all[..j + 1] == os + [o];
        BodyErrPrefix(body, Str(name), all, j + 1);
        os := all;
        r := Err(res.error);
        return;
      }
      acc := acc + res.value.entries;
      cur := res.value.next;
      os := os + [o];
      j := j + 1;
    }
    assert body[..|body|] == body;
    r := Ok(acc);
  }

  lemma CollectStep(high: High, orders: seq<seq<Order>>, os: seq<Order>, i: nat)
    requires i < |high| && Shaped(high[..i], orders) && |os| == |high[i].1|
    ensures Shaped(high[..i + 1], orders + [os])
    ensures Collect(high[..i + 1], orders + [os]) ==
              match Collect(high[..i], orders)
              case Err(e) => Err(e)
              case Ok(acc) =>
                match BodyRun(high[i].1, Str(high[i].0), os)
                case Err(e) => Err(e)
                case Ok(out) => Ok(acc + out.entries)
  {
    assert high[..i + 1][..i] == high[..i];
    assert (orders + [os])[..i] == orders;
  }

  lemma {:induction false} CollectErrPrefix(high: High, orders: seq<seq<Order>>, i: nat)
    requires Shaped(high, orders) && i <= |high|
    requires Shaped(high[..i], orders[..i])
    requires Collect(high[..i], orders[..i]).Err?
    ensures Collect(high, orders) == Collect(high[..i], orders[..i])
    decreases |high| - i
  {
    if i < |high| {
      assert high[..i + 1][..i] == high[..i] && orders[..i + 1][..i] == orders[..i];
      CollectErrPrefix(high, orders, i + 1);
    } else {
      assert high[..i] == high && orders[..i] == orders;
    }
  }

  lemma ExtendOrders(high: High, orders: seq<seq<Order>>, os: seq<Order>, i: nat)
    requires i < |high| && Shaped(high[..i], orders) && Admissible(high[..i], orders)
    requires |os| == |high[i].1| && forall j :: 0 <= j < |os| ==> AdmissibleRule(high[i].1[j].1, os[j])
    ensures Shaped(high[..i + 1], orders + [os]) && Admissible(high[..i + 1], orders + [os])
  {
    forall m | 0 <= m < i ensures high[..i + 1][m] == high[..i][m] { }
  }

  /** Orders for the items an exception skips: any admissible ones. */
  lemma FillOrders(high: High, orders: seq<seq<Order>>, os: seq<Order>, i: nat)
    requires i < |high| && Shaped(high[..i], orders) && Admissible(high[..i], orders)
    requires |os| == |high[i].1| && forall j :: 0 <= j < |os| ==> AdmissibleRule(high[i].1[j].1, os[j])
    ensures var all := orders + [os] + AnyHighOrders(high[i + 1..]);
            Shaped(high, all) && Admissible(high, all) && all[..i + 1] == orders + [os]
            && Shaped(high[..i + 1], all[..i + 1])
  {
    var rest := AnyHighOrders(high[i + 1..]);
    var all := orders + [os] + rest;
    forall m | 0 <= m < |high|
      ensures |all[m]| == |high[m].1|
      ensures forall j :: 0 <= j < |high[m].1| ==> AdmissibleRule(high[m].1[j].1, all[m][j])
    {
      if m > i { assert high[i + 1..][m - i - 1] == high[m]; }
      else if m < i { assert high[..i][m] == high[m]; }
    }
    assert all[..i + 1] == orders + [os];
    ExtendOrders(high, orders, os, i);
  }

  /** `State.compile_high_data`. */
  method CompileHighData(high: High) returns (r: Result<seq<Chunk>>, ghost orders: seq<seq<Order>>)
    ensures Shaped(high, orders) && Admissible(high, orders)
    ensures r == Compile(high, orders)
  {
    var chunks: seq<Chunk> := [];
    orders := [];
    var i := 0;
    while i < |high|
      invariant 0 <= i <= |high|
      invariant Shaped(high[..i], orders)
      invariant Admissible(high[..i], orders)
      invariant Collect(high[..i], orders) == Ok(chunks)
    {
      var res, os := CompileBody(high[i].0, high[i].1);
      CollectStep(high, orders, os, i);
      if res.Err? {
        ghost var all := orders + [os] + AnyHighOrders(high[i + 1..]);
        FillOrders(high, orders, os, i);
        CollectErrPrefix(high, all, i + 1);
        orders := all;
        r := Err(res.error);
        return;
      }
      chunks := chunks + res.value;
      ExtendOrders(high, orders, os, i);
      orders := orders + [os];
      i := i + 1;
    }
    assert high[..|high|] == high;
    r := SortByKey(chunks);
  }

  // ---------------------------------------------------------------------
  // Properties

  lemma {:induction false} ExpandLength(t: Chunk, names: seq<Value>, fun: Value, k: nat)
    ensures |Expand(t, names, fun, k)| == |names| * k
  {
    if names != [] {
      ExpandLength(t, names[..|names| - 1], fun, k);
    }
  }

  /** Every entry for an alternate name is the template renamed to that
      name, carrying the same function. */
  lemma {:induction false} ExpandMember(t: Chunk, names: seq<Value>, fun: Value, k: nat, e: Chunk)
    requires e in Expand(t, names, fun, k)
    ensures exists i :: 0 <= i < |names| && e == t["name" := names[i]]["fun" := fun]
  {
    var init := names[..|names| - 1];
    if e in Expand(t, init, fun, k) {
      ExpandMember(t, init, fun, k, e);
      var i :| 0 <= i < |init| && e == t["name" := init[i]]["fun" := fun];
      assert init[i] == names[i];
    } else {
      assert e == t["name" := names[|names| - 1]]["fun" := fun];
    }
  }

  /** `run[i]` is the last dict element of the run that `chunk.update`
      copies and that holds key `k`. */
  ghost predicate LastAbsorbs(run: Run, k: string, i: int)
  {
    && 0 <= i < |run| && HasOtherKey(run[i]) && k in run[i].fields
    && forall j :: i < j < |run| ==> !(HasOtherKey(run[j]) && k in run[j].fields)
  }

  /** Each key copied from a dict element holds the value of the last
      such dict that has it. */
  lemma {:induction false} AbsorbLastWins(c: Chunk, run: Run)
    ensures forall k, i :: LastAbsorbs(run, k, i) ==> k in Absorb(c, run) && Absorb(c, run)[k] == run[i].fields[k]
  {
    if run != [] {
      var n := |run| - 1;
      var init := run[..n];
      AbsorbLastWins(c, init);
      forall k, i | LastAbsorbs(run, k, i)
        ensures k in Absorb(c, run) && Absorb(c, run)[k] == run[i].fields[k]
      {
        if i < n {
          assert init[i] == run[i];
          forall j | i < j < |init| ensures !(HasOtherKey(init[j]) && k in init[j].fields) {
            assert init[j] == run[j];
          }
          assert LastAbsorbs(init, k, i);
        }
      }
    }
  }

  /** A key that no copied dict element has keeps its starting value. */
  lemma {:induction false} AbsorbKeeps(c: Chunk, run: Run, k: string)
    requires k in c
    requires forall i :: 0 <= i < |run| && HasOtherKey(run[i]) ==> k !in run[i].fields
    ensures k in Absorb(c, run) && Absorb(c, run)[k] == c[k]
  {
    if run != [] {
      var init := run[..|run| - 1];
      forall i | 0 <= i < |init| && HasOtherKey(init[i]) ensures k !in init[i].fields {
        assert init[i] == run[i];
      }
      AbsorbKeeps(c, init, k);
    }
  }

  /** The keys the copied dict elements add, and nothing else. */
  lemma {:induction false} AbsorbDomain(c: Chunk, run: Run)
    ensures forall i :: 0 <= i < |run| && HasOtherKey(run[i]) ==> run[i].fields.Keys <= Absorb(c, run).Keys
    ensures forall k :: k in Absorb(c, run) && k !in c ==> exists i :: 0 <= i < |run| && HasOtherKey(run[i]) && k in run[i].fields
  {
    if run != [] {
      var init := run[..|run| - 1];
      AbsorbDomain(c, init);
      forall i | 0 <= i < |init| ensures init[i] == run[i] { }
    }
  }

  /** Every dict element with a key other than `names` lands in the
      template with ALL its keys, `names` included; each key holds the
      value of the last such dict that has it, and a key no such dict has
      keeps its value from the starting chunk. */
  lemma AbsorbKeys(c: Chunk, run: Run)
    ensures forall i :: 0 <= i < |run| && HasOtherKey(run[i]) ==> run[i].fields.Keys <= Absorb(c, run).Keys
    ensures forall k :: k in Absorb(c, run) && k !in c ==> exists i :: 0 <= i < |run| && HasOtherKey(run[i]) && k in run[i].fields
    ensures forall k, i :: LastAbsorbs(run, k, i) ==> k in Absorb(c, run) && Absorb(c, run)[k] == run[i].fields[k]
    ensures forall k :: k in c && (forall i :: 0 <= i < |run| && HasOtherKey(run[i]) ==> k !in run[i].fields)
              ==> k in Absorb(c, run) && Absorb(c, run)[k] == c[k]
  {
    AbsorbDomain(c, run);
    AbsorbLastWins(c, run);
    forall k | k in c && (forall i :: 0 <= i < |run| && HasOtherKey(run[i]) ==> k !in run[i].fields)
      ensures k in Absorb(c, run) && Absorb(c, run)[k] == c[k]
    {
      AbsorbKeeps(c, run, k);
    }
  }

  /** How many entries one rule produces: one per function, times the
      number of alternate names when there are any; none without functions. */
  lemma RuleCount(state: string, cur: Value, run: Run, o: Order)
    requires AdmissibleRule(run, o)
    requires Rule(state, cur, run, o).Ok?
    ensures var names := NamesIn(run).value;
            |Rule(state, cur, run, o).value.entries| == |FunSet(run)| * (if names == {} then 1 else |names|)
  {
    DistinctCard(o.funs);
    if NamesIn(run).value != {} {
      DistinctCard(o.names);
      ExpandLength(Template(state, cur, run), o.names, LastFun(o.funs), |o.funs|);
    }
  }

  /** What every entry of one rule holds: the template's keys other than
      `name` and `fun` unchanged, `fun` set to the function enumerated LAST
      (the entries of one name are one aliased dict), and `name` set to an
      alternate name when there are any. */
  lemma RuleEntry(state: string, cur: Value, run: Run, o: Order, e: Chunk)
    requires AdmissibleRule(run, o)
    requires Rule(state, cur, run, o).Ok?
    requires e in Rule(state, cur, run, o).value.entries
    ensures "fun" in e && e["fun"] == LastFun(o.funs) && e["fun"].Str? && e["fun"].s in FunSet(run)
    ensures NamesIn(run).value != {} ==> "name" in e && e["name"] in NamesIn(run).value
    ensures NamesIn(run).value == {} ==> e == Template(state, cur, run)["fun" := LastFun(o.funs)]
    ensures forall k :: k in Template(state, cur, run) && k != "name" && k != "fun"
              ==> k in e && e[k] == Template(state, cur, run)[k]
  {
    var t := Template(state, cur, run);
    var f := LastFun(o.funs);
    if NamesIn(run).value != {} {
      ExpandMember(t, o.names, f, |o.funs|, e);
      var i :| 0 <= i < |o.names| && e == t["name" := o.names[i]]["fun" := f];
      assert o.names[i] in Elems(o.names);
      ExpandLength(t, o.names, f, |o.funs|);
    }
    assert |o.funs| != 0;
    assert o.funs[|o.funs| - 1] in Elems(o.funs);
  }

  /** `k` copies of one chunk hold it `k` times and nothing else. */
  lemma {:induction false} CopiesCount(k: nat, c: Chunk, d: Chunk)
    ensures multiset(Copies(k, c))[d] == if c == d then k else 0
  {
    if k > 0 {
      CopiesCount(k - 1, c, d);
      assert Copies(k, c) == Copies(k - 1, c) + [c];
    }
  }

  /** No entry carries a name that is not among the alternate names. */
  lemma ExpandAvoids(t: Chunk, names: seq<Value>, fun: Value, k: nat, v: Value)
    requires v !in names
    ensures forall e :: e in Expand(t, names, fun, k) ==> "name" in e && e["name"] != v
  {
    forall e | e in Expand(t, names, fun, k) ensures "name" in e && e["name"] != v {
      ExpandMember(t, names, fun, k, e);
    }
  }

  /** Splitting off the last alternate name. */
  lemma ExpandSplit(t: Chunk, names: seq<Value>, fun: Value, k: nat, e: Chunk)
    requires names != []
    ensures multiset(Expand(t, names, fun, k))[e]
            == multiset(Expand(t, names[..|names| - 1], fun, k))[e]
               + (if e == t["name" := names[|names| - 1]]["fun" := fun] then k else 0)
  {
    var n := |names| - 1;
    var last := t["name" := names[n]]["fun" := fun];
    assert Expand(t, names, fun, k) == Expand(t, names[..n], fun, k) + Copies(k, last);
    CopiesCount(k, last, e);
  }

  /** The last of distinct names occurs nowhere before it. */
  lemma ExpandCountLast(t: Chunk, names: seq<Value>, fun: Value, k: nat)
    requires Distinct(names) && names != []
    ensures multiset(Expand(t, names[..|names| - 1], fun, k))[t["name" := names[|names| - 1]]["fun" := fun]] == 0
  {
    var n := |names| - 1;
    var init := names[..n];
    assert names[n] !in init by {
      forall j | 0 <= j < |init| ensures init[j] != names[n] {
        assert init[j] == names[j];
      }
    }
    ExpandAvoids(t, init, fun, k, names[n]);
    var e := t["name" := names[n]]["fun" := fun];
    assert e["name"] == names[n];
    assert e !in Expand(t, init, fun, k);
  }

  /** With distinct alternate names, the entry for each name occurs once
      per function: `for name in names` leaves no name out. */
  lemma {:induction false} ExpandCount(t: Chunk, names: seq<Value>, fun: Value, k: nat, i: nat)
    requires Distinct(names) && i < |names|
    ensures multiset(Expand(t, names, fun, k))[t["name" := names[i]]["fun" := fun]] == k
  {
    var n := |names| - 1;
    var init := names[..n];
    var e := t["name" := names[i]]["fun" := fun];
    ExpandSplit(t, names, fun, k, e);
    if i == n {
      ExpandCountLast(t, names, fun, k);
    } else {
      assert init[i] == names[i];
      assert Distinct(init) by {
        forall a, b | 0 <= a < b < |init| ensures init[a] != init[b] {
          assert init[a] == names[a] && init[b] == names[b];
        }
      }
      ExpandCount(t, init, fun, k, i);
      assert e["name"] == names[i] != names[n];
    }
  }

  /** Every alternate name of a rule gets its entry, once per function:
      the template renamed to it, carrying the last function. */
  lemma RuleCovers(state: string, cur: Value, run: Run, o: Order, n: Value)
    requires AdmissibleRule(run, o)
    requires Rule(state, cur, run, o).Ok?
    requires n in NamesIn(run).value
    ensures multiset(Rule(state, cur, run, o).value.entries)[Template(state, cur, run)["name" := n]["fun" := LastFun(o.funs)]]
            == |FunSet(run)|
  {
    DistinctCard(o.funs);
    assert n in Elems(o.names);
    var i :| 0 <= i < |o.names| && o.names[i] == n;
    ExpandCount(Template(state, cur, run), o.names, LastFun(o.funs), |o.funs|, i);
  }

  /** A run listing two functions and no names gives two entries that are
      the same dict, both calling the function enumerated last, whichever
      order the set yields. */
  lemma AliasedEntries(o: Order)
    requires AdmissibleRule([Str("managed"), Str("recurse")], o)
    ensures |o.funs| == 2
    ensures var r := Rule("file", Str("/srv"), [Str("managed"), Str("recurse")], o);
            && r.Ok? && |r.value.entries| == 2
            && r.value.entries[0] == r.value.entries[1]
            && r.value.entries[0] == map["state" := Str("file"), "name" := Str("/srv"), "fun" := Str(o.funs[1])]
  {
    var run := [Str("managed"), Str("recurse")];
    assert run[..1][..0] == [] && run[..|run| - 1] == run[..1];
    assert NamesIn(run[..1]) == Ok({});
    assert NamesIn(run) == Ok({});
    assert !HasOtherKey(run[0]) && !HasOtherKey(run[1]);
    assert Absorb(map["state" := Str("file"), "name" := Str("/srv")], run[..1]) == map["state" := Str("file"), "name" := Str("/srv")];
    assert FunSet(run) == {"managed", "recurse"};
    DistinctCard(o.funs);
  }

  /** The rule variable `name` leaks from a rule's `names` loop into the
      next state module of the same id: `pkg` runs under the name `b`, not
      under the id `a`. Each set here has one element, so the orders shown
      are the only admissible ones. */
  lemma NameShadowing()
    ensures var run0 := [Str("managed"), Dict(map["names" := List([Str("b")])])];
            var run1 := [Str("installed")];
            var os := [Order(["managed"], [Str("b")]), Order(["installed"], [])];
            && AdmissibleRule(run0, os[0]) && AdmissibleRule(run1, os[1])
            && BodyRun([("file", run0), ("pkg", run1)], Str("a"), os)
               == Ok(RuleOut([map["state" := Str("file"), "name" := Str("b"), "fun" := Str("managed")],
                              map["state" := Str("pkg"), "name" := Str("b"), "fun" := Str("installed")]], Str("b")))
  {
    var run0 := [Str("managed"), Dict(map["names" := List([Str("b")])])];
    var run1 := [Str("installed")];
    var os := [Order(["managed"], [Str("b")]), Order(["installed"], [])];
    var body := [("file", run0), ("pkg", run1)];
    assert NamesIn(run0[..1]) == Ok({});
    assert HasNames(run0[1]) && run0[1].fields["names"] == List([Str("b")]);
    assert Elems([Str("b")]) == {Str("b")};
    assert run0[..|run0| - 1] == run0[..1];
    assert Str("b") in NamesIn(run0).value;
    assert forall x :: x in NamesIn(run0).value ==> x == Str("b");
    assert NamesIn(run0).value == {Str("b")};
    assert NamesIn(run1) == Ok({});
    assert FunSet(run0) == {"managed"};
    assert FunSet(run1) == {"installed"};
    assert Elems(["managed"]) == {"managed"} && Elems(["installed"]) == {"installed"};
    assert run0[1].fields.Keys - {"names"} == {};
    assert !HasOtherKey(run0[1]) && !HasOtherKey(run0[0]);
    var m0: Chunk := map["state" := Str("file"), "name" := Str("a")];
    assert run0[..1][..0] == [];
    assert Absorb(m0, run0[..1][..0]) == m0;
    assert Absorb(m0, run0[..1]) == m0;
    assert Absorb(m0, run0) == m0;
    assert Template("file", Str("a"), run0) == map["state" := Str("file"), "name" := Str("a")];
    assert Template("pkg", Str("b"), run1) == map["state" := Str("pkg"), "name" := Str("b")];
    assert body[..1] == [("file", run0)] && body[..1][..0] == [];
    assert os[..1] == [os[0]] && os[..1][..0] == [];
    assert [Str("b")][..0] == [];
    assert AdmissibleRule(run0, os[0]);
    assert AdmissibleRule(run1, os[1]);
    var c0: Chunk := map["state" := Str("file"), "name" := Str("b"), "fun" := Str("managed")];
    var c1: Chunk := map["state" := Str("pkg"), "name" := Str("b"), "fun" := Str("installed")];
    assert Copies(1, c0) == [c0] && Copies(1, c1) == [c1];
    assert m0["name" := Str("b")]["fun" := Str("managed")] == c0;
    assert Expand(m0, [Str("b")], Str("managed"), 1) == [c0];
    var r0 := Rule("file", Str("a"), run0, os[0]);
    assert r0 == Ok(RuleOut([map["state" := Str("file"), "name" := Str("b"), "fun" := Str("managed")]], Str("b")));
    var r1 := Rule("pkg", Str("b"), run1, os[1]);
    assert r1 == Ok(RuleOut([map["state" := Str("pkg"), "name" := Str("b"), "fun" := Str("installed")]], Str("b")));
    assert BodyRun(body[..1], Str("a"), os[..1]) == r0;
    assert body[..|body| - 1] == body[..1] && os[..|os| - 1] == os[..1];
    assert [c0] + [c1] == [c0, c1];
    assert BodyRun(body, Str("a"), os) == Ok(RuleOut([c0, c1], Str("b")));
  }

  /** The example of a single file rule: exactly one chunk, with the
      parameter dict merged in. */
  lemma SingleRule()
    ensures var high: High := [("/etc/foo", [("file", [Str("managed"), Dict(map["source" := Str("salt://foo")])])])];
            var orders := [[Order(["managed"], [])]];
            && Shaped(high, orders) && Admissible(high, orders)
            && Compile(high, orders)
               == Ok([map["state" := Str("file"), "name" := Str("/etc/foo"), "source" := Str("salt://foo"), "fun" := Str("managed")]])
  {
    var run := [Str("managed"), Dict(map["source" := Str("salt://foo")])];
    var body: Body := [("file", run)];
    var high: High := [("/etc/foo", body)];
    var orders := [[Order(["managed"], [])]];
    assert run[..1][..0] == [] && run[..|run| - 1] == run[..1];
    assert NamesIn(run[..1]) == Ok({});
    assert !HasNames(run[1]);
    assert NamesIn(run) == Ok({});
    assert FunSet(run) == {"managed"};
    assert Elems(["managed"]) == {"managed"};
    assert AdmissibleRule(run, orders[0][0]);
    var m0: Chunk := map["state" := Str("file"), "name" := Str("/etc/foo")];
    var t: Chunk := map["state" := Str("file"), "name" := Str("/etc/foo"), "source" := Str("salt://foo")];
    assert "source" in run[1].fields.Keys - {"names"};
    assert Absorb(m0, run[..1]) == m0;
    assert Absorb(m0, run) == t;
    var c := t["fun" := Str("managed")];
    assert Copies(1, c) == [c];
    assert Rule("file", Str("/etc/foo"), run, orders[0][0]) == Ok(RuleOut([c], Str("/etc/foo")));
    assert body[..0] == [] && high[..0] == [] && orders[0][..0] == [] && orders[..0] == [];
    assert BodyRun(body, Str("/etc/foo"), orders[0]) == Ok(RuleOut([] + [c], Str("/etc/foo")));
    assert [] + [c] == [c];
    assert Collect(high, orders) == Ok([c]);
    assert Tagged(c);
    assert Sort([c]) == [c];
    assert c == map["state" := Str("file"), "name" := Str("/etc/foo"), "source" := Str("salt://foo"), "fun" := Str("managed")];
  }
}
