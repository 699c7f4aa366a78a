/** Runtime values of the language (compiler.cpp:99-154): a closed tagged
    union, its truthiness and its text rendering. */
module Values {
  import opened Wrappers
  import opened Ast

  /** The floating-point facilities of the C++ library that the source calls:
      `std::to_string(double)`, `std::stod`, `/`, `std::pow`, `std::sqrt`,
      `std::log` and `std::exp`. They are parameters of the model, so nothing is
      assumed about them; `stod` answers None where the library throws. */
  datatype Host = Host(
    render: Number -> string,
    stod: string -> Option<Number>,
    divide: (Number, Number) -> Number,
    power: (Number, Number) -> Number,
    sqrt: Number -> Number,
    log: Number -> Number,
    exp: Number -> Number)

  /** A function value stands for the declaration itself: the source keeps a
      non-owning pointer to the declaration node. A map is an association list
      with distinct keys; its order is the order of first insertion. */
  datatype Value =
    | Num(n: Number)
    | Str(s: string)
    | Arr(elems: seq<Value>)
    | MapVal(entries: seq<Entry>)
    | Func(decl: FunctionDecl)

  datatype Entry = Entry(key: string, val: Value)

  /** `Value::is_truthy`: zero, the empty string, the empty array and the
      empty map are false; a function value is never null, so it is true. */
  predicate IsTruthy(v: Value) {
    match v
    case Num(n) => n != 0
    case Str(s) => s != ""
    case Arr(xs) => xs != []
    case MapVal(es) => es != []
    case Func(_) => true
  }

  /** `Value::to_string`. Arrays render as `[e0, e1, ...]`; maps as
      `{"k": v, ...}` in the order of the association list. */
  function ToString(h: Host, v: Value): string
    decreases v, 1
  {
    match v
    case Num(n) => h.render(n)
    case Str(s) => s
    case Arr(xs) => "[" + JoinElements(h, xs) + "]"
    case MapVal(es) => "{" + JoinEntries(h, es) + "}"
    case Func(_) => "<function>"
  }

  /** The element renderings separated by ", ". */
  function JoinElements(h: Host, xs: seq<Value>): string
    decreases xs, 0
  {
    if xs == [] then ""
    else if |xs| == 1 then ToString(h, xs[0])
    else ToString(h, xs[0]) + ", " + JoinElements(h, xs[1..])
  }

  /** The entry renderings `"k": v` separated by ", ". */
  function JoinEntries(h: Host, es: seq<Entry>): string
    decreases es, 0
  {
    if es == [] then ""
    else
      var first := "\"" + es[0].key + "\": " + ToString(h, es[0].val);
      if |es| == 1 then first else first + ", " + JoinEntries(h, es[1..])
  }

  /** The loop of `to_string` appends each element and, unless it is the last
      one, a separator. Rendering one more element therefore replaces the
      closing bracket by a separator, the element and a new closing bracket. */
  lemma {:induction false} ArrayRenderingAppend(h: Host, xs: seq<Value>, x: Value)
    ensures var r := ToString(h, Arr(xs));
      ToString(h, Arr(xs + [x])) ==
        if xs == [] then "[" + ToString(h, x) + "]"
        else r[..|r| - 1] + ", " + ToString(h, x) + "]"
  {
    JoinElementsAppend(h, xs, x);
  }

  lemma {:induction false} JoinElementsAppend(h: Host, xs: seq<Value>, x: Value)
    ensures JoinElements(h, xs + [x]) ==
      if xs == [] then ToString(h, x) else JoinElements(h, xs) + ", " + ToString(h, x)
  {
    if |xs| > 1 {
      assert (xs + [x])[1..] == xs[1..] + [x];
      JoinElementsAppend(h, xs[1..], x);
    } else if |xs| == 1 {
      assert (xs + [x])[1..] == [x];
    }
  }

  /** The loop over a map's entries writes each as `"k": v` and puts `, `
      before every entry but the first. */
  lemma {:induction false} JoinEntriesAppend(h: Host, es: seq<Entry>, e: Entry)
    ensures var item := "\"" + e.key + "\": " + ToString(h, e.val);
      JoinEntries(h, es + [e]) == if es == [] then item else JoinEntries(h, es) + ", " + item
  {
    if |es| > 1 {
      assert (es + [e])[1..] == es[1..] + [e];
      JoinEntriesAppend(h, es[1..], e);
    } else if |es| == 1 {
      assert (es + [e])[1..] == [e];
    }
  }

  /** The value bound to `k` in an association list. */
  function Find(es: seq<Entry>, k: string): Option<Value> {
    if es == [] then None
    else if es[0].key == k then Some(es[0].val)
    else Find(es[1..], k)
  }

  predicate DistinctKeys(es: seq<Entry>) {
    forall i, j :: 0 <= i < j < |es| ==> es[i].key != es[j].key
  }

  /** `map[k] = v` on the association list: an existing key keeps its place and
      gets the new value, a new key goes to the end. */
  function Put(es: seq<Entry>, k: string, v: Value): seq<Entry> {
    if es == [] then [Entry(k, v)]
    else if es[0].key == k then [Entry(k, v)] + es[1..]
    else [es[0]] + Put(es[1..], k, v)
  }

  /** After `Put`, the key maps to the new value and every other key to what
      it mapped to before. */
  lemma {:induction false} FindAfterPut(es: seq<Entry>, k: string, v: Value, k': string)
    ensures Find(Put(es, k, v), k') == if k' == k then Some(v) else Find(es, k')
  {
    if es != [] && es[0].key != k {
      FindAfterPut(es[1..], k, v, k');
    }
  }

  /** `Put` keeps the keys distinct and grows the list by one exactly when the
      key was absent, so the size of a map is its number of distinct keys. */
  lemma {:induction false} PutSize(es: seq<Entry>, k: string, v: Value)
    requires DistinctKeys(es)
    ensures DistinctKeys(Put(es, k, v))
    ensures |Put(es, k, v)| == if Find(es, k).None? then |es| + 1 else |es|
    ensures forall e :: e in Put(es, k, v) ==> e.key == k || e in es
  {
    if es != [] && es[0].key != k {
      assert DistinctKeys(es[1..]) by {
        forall i, j | 0 <= i < j < |es[1..]| ensures es[1..][i].key != es[1..][j].key {
          assert es[1..][i] == es[i + 1] && es[1..][j] == es[j + 1];
        }
      }
      PutSize(es[1..], k, v);
      var rest := Put(es[1..], k, v);
      forall i, j | 0 <= i < j < |[es[0]] + rest| ensures ([es[0]] + rest)[i].key != ([es[0]] + rest)[j].key {
        if i == 0 {
          var e := rest[j - 1];
          assert e in rest;
          if e.key != k {
            assert e in es[1..];
            var m :| 0 <= m < |es[1..]| && es[1..][m] == e;
            assert es[m + 1] == e;
          }
        }
      }
    } else if es != [] {
      forall i, j | 0 <= i < j < |Put(es, k, v)| ensures Put(es, k, v)[i].key != Put(es, k, v)[j].key {
        assert Put(es, k, v)[j] == es[j];
        if i > 0 { assert Put(es, k, v)[i] == es[i]; }
      }
    }
  }
}
