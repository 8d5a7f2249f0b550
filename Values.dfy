/** Python-side data as the state engine sees it: the loosely typed values of
    rendered documents, low-data chunks, the exceptions the engine can raise,
    and the string helpers (prefix test, str ordering) the engine relies on. */
module Values {

  /** A value of a rendered document. Mapping keys are strings. */
  datatype Value =
    | Str(s: string)
    | Num(n: int)
    | Bool(b: bool)
    | Null
    | List(items: seq<Value>)
    | Dict(fields: map<string, Value>)

  /** A low-data chunk: `{state, name, fun, require?, ...parameters}`. */
  type Chunk = map<string, Value>

  datatype Option<T> = None | Some(value: T)

  /** The exceptions the modelled code raises. */
  datatype Error =
    | KeyError(key: string)
    | TypeError(what: string)
    | AttributeError(attr: string)
    | IndexError
    | StateError(msg: string)
    | PairingError(row: seq<Option<(string, Value)>>)
    | RecursionLimit
    | MalformedRequire

  datatype Result<T> = Ok(value: T) | Err(error: Error)

  /** Python truthiness. */
  predicate Truthy(v: Value)
  {
    match v
    case Str(s) => s != []
    case Num(n) => n != 0
    case Bool(b) => b
    case Null => false
    case List(items) => items != []
    case Dict(fields) => fields != map[]
  }

  /** Values that may be put into a Python set (lists and dicts may not). */
  predicate Hashable(v: Value)
  {
    !v.List? && !v.Dict?
  }

  /** A chunk whose `state`, `name` and `fun` are all strings, so that
      `state + name + fun` and the ledger tag can be formed. */
  predicate Tagged(c: Chunk)
  {
    && "state" in c && c["state"].Str?
    && "name" in c && c["name"].Str?
    && "fun" in c && c["fun"].Str?
  }

  predicate StartsWith(s: string, prefix: string)
  {
    |prefix| <= |s| && s[..|prefix|] == prefix
  }

  predicate Distinct<T(==)>(s: seq<T>)
  {
    forall i, j :: 0 <= i < j < |s| ==> s[i] != s[j]
  }

  function Elems<T>(s: seq<T>): set<T>
  {
    set x | x in s
  }

  /** `order` lists every element of `s` exactly once: one possible
      iteration order of a Python set. */
  predicate Enumerates<T(==)>(order: seq<T>, s: set<T>)
  {
    Distinct(order) && Elems(order) == s
  }

  lemma {:induction false} DistinctCard<T>(s: seq<T>)
    requires Distinct(s)
    ensures |Elems(s)| == |s|
  {
    if s != [] {
      var init := s[..|s| - 1];
      assert Distinct(init);
      DistinctCard(init);
      assert s == init + [s[|s| - 1]];
      assert Elems(s) == Elems(init) + {s[|s| - 1]};
      assert s[|s| - 1] !in Elems(init);
    }
  }

  /** Every finite set has an iteration order. */
  lemma {:induction false} EnumerationExists<T>(s: set<T>)
    ensures exists order :: Enumerates(order, s)
    decreases |s|
  {
    if s == {} {
      assert Enumerates([], s);
    } else {
      var x :| x in s;
      EnumerationExists(s - {x});
      var order :| Enumerates(order, s - {x});
      assert Elems(order + [x]) == Elems(order) + {x};
      assert Enumerates(order + [x], s);
    }
  }

  /** Python's iteration over a set: some order, fixed once chosen. */
  method Enumerate<T(==)>(s: set<T>) returns (order: seq<T>)
    ensures Enumerates(order, s)
    ensures |order| == |s|
  {
    order := [];
    var rest := s;
    while rest != {}
      invariant Distinct(order)
      invariant Elems(order) !! rest
      invariant Elems(order) + rest == s
      decreases |rest|
    {
      var x :| x in rest;
      assert Elems(order + [x]) == Elems(order) + {x};
      order := order + [x];
      rest := rest - {x};
    }
    DistinctCard(order);
  }

  /** Python's `<=` on str: lexicographic order of code points. */
  predicate StrLe(a: string, b: string)
    decreases |a|
  {
    a == [] || (b != [] && (a[0] < b[0] || (a[0] == b[0] && StrLe(a[1..], b[1..]))))
  }

  lemma {:induction false} StrLeTotal(a: string, b: string)
    ensures StrLe(a, b) || StrLe(b, a)
    decreases |a|
  {
    if a != [] && b != [] && a[0] == b[0] {
      StrLeTotal(a[1..], b[1..]);
    }
  }

  lemma {:induction false} StrLeTrans(a: string, b: string, c: string)
    requires StrLe(a, b) && StrLe(b, c)
    ensures StrLe(a, c)
    decreases |a|
  {
    if a != [] && b != [] && c != [] && a[0] == b[0] == c[0] {
      StrLeTrans(a[1..], b[1..], c[1..]);
    }
  }
}
