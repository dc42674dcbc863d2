/** Directive trees and their resolution.

A configuration is a nested mapping loaded from YAML. Every leaf that a
construct reads is an envelope `{"choice": v}`; resolving a directive walks a
fixed key path and unwraps the envelope. A missing key, or a step into
something that is not a mapping, aborts the lookup with the exception Python
would raise at that step.
 */
module Directives {

  /** The scalar values a YAML document can hold; they are passed through untouched. */
  datatype Scalar = Null | Bool(b: bool) | Int(i: int) | Real(r: real) | Str(s: string)

  /** A node of a loaded configuration: a mapping of named children, or an atom. */
  datatype Node = Mapping(entries: map<string, Node>) | Atom(value: Scalar)

  /** Python's `None`, e.g. a field that has not been set yet. */
  const NoneNode: Node := Atom(Null)

  /** The reserved key of a directive envelope. */
  const ChoiceKey: string := "choice"

  /** The exceptions the resolution code can raise. */
  datatype Error =
    | KeyMissing(key: string)         // KeyError: a mapping lacks the key
    | NotSubscriptable(key: string, operand: Scalar)  // TypeError: `x[key]` on the scalar `x`
    | NoSuchAttribute(name: string)   // AttributeError: a method looked up on None or a non-mapping
    | BadPathOperand                  // TypeError: joining a directory with something not a string
    | FileNotFound(path: string)      // FileNotFoundError raised by the YAML loader

  datatype Option<T> = None | Some(value: T)

  datatype Result<T> = Success(value: T) | Failure(error: Error) {
    predicate IsFailure() { Failure? }
    function PropagateFailure<U>(): Result<U> requires Failure? { Failure(error) }
    function Extract(): T requires Success? { value }
  }

  /** The outcome of a step that only raises or returns: its error, if any. */
  function Status<T>(r: Result<T>): (s: Result<()>)
    ensures s.Success? <==> r.Success?
    ensures s.Failure? ==> s.error == r.error
  {
    match r
    case Success(_) => Success(())
    case Failure(e) => Failure(e)
  }

  /** `n[path[0]][path[1]]...`: follows `path` one key at a time. */
  function Get(n: Node, path: seq<string>): (r: Result<Node>)
    ensures r.Failure? ==> path != [] && (r.error.KeyMissing? || r.error.NotSubscriptable?)
    ensures r.Failure? ==> r.error.key in path
    decreases |path|
  {
    if path == [] then Success(n)
    else match n
      case Atom(v) => Failure(NotSubscriptable(path[0], v))
      case Mapping(m) =>
        if path[0] in m then
          var r := Get(m[path[0]], path[1..]);
          assert r.Failure? ==> r.error.key in path[1..];
          r
        else Failure(KeyMissing(path[0]))
  }

  /** Looking up `p + q` is looking up `p`, then `q` from where `p` led. */
  lemma {:induction false} GetAppend(n: Node, p: seq<string>, q: seq<string>)
    ensures Get(n, p + q) == match Get(n, p)
                             case Failure(e) => Failure(e)
                             case Success(m) => Get(m, q)
    decreases |p|
  {
    if p != [] {
      assert (p + q)[0] == p[0] && (p + q)[1..] == p[1..] + q;
      match n
      case Atom(_) =>
      case Mapping(m) =>
        if p[0] in m {
          GetAppend(m[p[0]], p[1..], q);
        }
    } else {
      assert p + q == q;
    }
  }

  /** A walk that reaches a mapping lacking `k` fails there with the KeyError naming `k`,
      whatever the path would go on to. */
  lemma GetMissingKey(n: Node, p: seq<string>, k: string, q: seq<string>)
    requires Get(n, p).Success? && Get(n, p).value.Mapping? && k !in Get(n, p).value.entries
    ensures Get(n, p + ([k] + q)) == Failure(KeyMissing(k))
  {
    GetAppend(n, p, [k] + q);
  }

  /** A walk that reaches a scalar before its last key fails at the next key with the
      TypeError carrying that scalar, whatever the rest of the path is. */
  lemma GetScalar(n: Node, p: seq<string>, k: string, q: seq<string>)
    requires Get(n, p).Success? && Get(n, p).value.Atom?
    ensures Get(n, p + ([k] + q)) == Failure(NotSubscriptable(k, Get(n, p).value.value))
  {
    GetAppend(n, p, [k] + q);
  }

  /** True when `x` is an envelope: a mapping holding the reserved key. */
  predicate IsEnvelope(x: Node) {
    x.Mapping? && ChoiceKey in x.entries
  }

  /** `n[d[0]]...[d[k]]["choice"]`: the value chosen by the directive at path `d`. */
  function Unwrap(n: Node, d: seq<string>): Result<Node> {
    Get(n, d + [ChoiceKey])
  }

  /** Unwrapping succeeds exactly when the directive exists and is an envelope; it
      then yields the envelope's value. A directive that is not a mapping fails
      with a TypeError and one without the reserved key with a KeyError on it. */
  lemma UnwrapMeans(n: Node, d: seq<string>)
    ensures Unwrap(n, d).Success? <==> Get(n, d).Success? && IsEnvelope(Get(n, d).value)
    ensures Unwrap(n, d).Success? ==> Unwrap(n, d).value == Get(n, d).value.entries[ChoiceKey]
    ensures Get(n, d).Failure? ==> Unwrap(n, d) == Failure(Get(n, d).error)
    ensures Get(n, d).Success? && Get(n, d).value.Atom? ==>
              Unwrap(n, d) == Failure(NotSubscriptable(ChoiceKey, Get(n, d).value.value))
    ensures Get(n, d).Success? && Get(n, d).value.Mapping? && !IsEnvelope(Get(n, d).value) ==>
              Unwrap(n, d) == Failure(KeyMissing(ChoiceKey))
  {
    GetAppend(n, d, [ChoiceKey]);
  }

  /** Unwrapping below a prefix path is looking up the prefix, then unwrapping from there. */
  lemma UnwrapUnder(n: Node, prefix: seq<string>, d: seq<string>)
    ensures Unwrap(n, prefix + d) == match Get(n, prefix)
                                     case Failure(e) => Failure(e)
                                     case Success(m) => Unwrap(m, d)
  {
    assert (prefix + d) + [ChoiceKey] == prefix + (d + [ChoiceKey]);
    GetAppend(n, prefix, d + [ChoiceKey]);
  }

  /** One entry of a dict literal built from directives: `key: n[directive...]["choice"]`.
      The key type is the enumeration of names the literal may use. */
  datatype Field<K> = Field(key: K, directive: seq<string>)

  /** The keys the fields name. */
  function KeysOf<K(==)>(fields: seq<Field<K>>): set<K> {
    if fields == [] then {} else {fields[0].key} + KeysOf(fields[1..])
  }

  /** No key is named twice. */
  predicate DistinctKeys<K(==)>(fields: seq<Field<K>>) {
    fields == [] || (fields[0].key !in KeysOf(fields[1..]) && DistinctKeys(fields[1..]))
  }

  /** Evaluates the dict literal `{f.key: n[f.directive...]["choice"] for f in fields}`
      entry by entry, in order; the first lookup that raises aborts it. */
  function ResolveFields<K(==)>(n: Node, fields: seq<Field<K>>): (r: Result<map<K, Node>>)
    ensures r.Success? ==> r.value.Keys == KeysOf(fields)
  {
    if fields == [] then Success(map[])
    else
      var v :- Unwrap(n, fields[0].directive);
      var rest :- ResolveFields(n, fields[1..]);
      Success(map[fields[0].key := v] + rest)
  }

  /** Sequential composition of two resolved dicts, the later entries winning. */
  function Merge<K(==)>(a: Result<map<K, Node>>, b: Result<map<K, Node>>): Result<map<K, Node>> {
    var x :- a;
    var y :- b;
    Success(x + y)
  }

  /** A dict literal resolves exactly when every one of its directives unwraps. */
  lemma {:induction false} ResolveFieldsSucceedsIff<K>(n: Node, fields: seq<Field<K>>)
    ensures ResolveFields(n, fields).Success? <==>
              forall i :: 0 <= i < |fields| ==> Unwrap(n, fields[i].directive).Success?
  {
    if fields != [] {
      ResolveFieldsSucceedsIff(n, fields[1..]);
      assert forall i :: 1 <= i < |fields| ==> fields[i] == fields[1..][i - 1];
    }
  }

  /** Field `i` is the first of `fields` whose directive does not unwrap, and it fails with `e`. */
  predicate FirstFailure<K(==)>(n: Node, fields: seq<Field<K>>, i: nat, e: Error) {
    && i < |fields|
    && Unwrap(n, fields[i].directive) == Failure(e)
    && forall j :: 0 <= j < i ==> Unwrap(n, fields[j].directive).Success?
  }

  lemma {:induction false} FirstFailureShift<K>(n: Node, fields: seq<Field<K>>, i: nat, e: Error)
    requires fields != []
    ensures FirstFailure(n, fields, i + 1, e) <==>
              Unwrap(n, fields[0].directive).Success? && FirstFailure(n, fields[1..], i, e)
  {
    var tail := fields[1..];
    assert forall j :: 0 <= j < |tail| ==> tail[j] == fields[j + 1];
    if Unwrap(n, fields[0].directive).Success? && FirstFailure(n, tail, i, e) {
      forall j | 0 <= j < i + 1 ensures Unwrap(n, fields[j].directive).Success? {
        if j > 0 { assert fields[j] == tail[j - 1]; }
      }
    }
  }

  /** A dict literal fails with exactly the error of its first directive that does not unwrap. */
  lemma {:induction false} ResolveFieldsFailsAtFirst<K>(n: Node, fields: seq<Field<K>>, e: Error)
    ensures ResolveFields(n, fields) == Failure(e) <==> exists i: nat :: FirstFailure(n, fields, i, e)
  {
    if fields != [] {
      ResolveFieldsFailsAtFirst(n, fields[1..], e);
      if ResolveFields(n, fields) == Failure(e) {
        if Unwrap(n, fields[0].directive).Success? {
          var k: nat :| FirstFailure(n, fields[1..], k, e);
          FirstFailureShift(n, fields, k, e);
        } else {
          assert FirstFailure(n, fields, 0, e);
        }
      }
      if exists i: nat :: FirstFailure(n, fields, i, e) {
        var i: nat :| FirstFailure(n, fields, i, e);
        if i > 0 {
          FirstFailureShift(n, fields, i - 1, e);
        }
      }
    }
  }

  /** When the keys are distinct, each key is bound to the unwrapped value of its own directive. */
  lemma {:induction false} ResolveFieldsValue<K>(n: Node, fields: seq<Field<K>>, i: nat)
    requires DistinctKeys(fields) && i < |fields|
    requires ResolveFields(n, fields).Success?
    ensures Unwrap(n, fields[i].directive).Success?
    ensures fields[i].key in ResolveFields(n, fields).value
    ensures ResolveFields(n, fields).value[fields[i].key] == Unwrap(n, fields[i].directive).value
  {
    var tail := fields[1..];
    var rest := ResolveFields(n, tail).value;
    assert ResolveFields(n, fields).value == map[fields[0].key := Unwrap(n, fields[0].directive).value] + rest;
    if i > 0 {
      assert tail[i - 1] == fields[i];
      ResolveFieldsValue(n, tail, i - 1);
    }
  }

  /** Every listed key is in `m`, bound to the unwrapped choice of its directive. */
  predicate HoldsAsListed<K>(n: Node, fields: seq<Field<K>>, m: map<K, Node>) {
    forall i :: 0 <= i < |fields| ==>
      Unwrap(n, fields[i].directive).Success? &&
      fields[i].key in m &&
      m[fields[i].key] == Unwrap(n, fields[i].directive).value
  }

  /** Every key of a dict literal with distinct keys is bound to the unwrapped value of its directive. */
  lemma {:induction false} ResolveFieldsContents<K>(n: Node, fields: seq<Field<K>>)
    requires DistinctKeys(fields)
    requires ResolveFields(n, fields).Success?
    ensures HoldsAsListed(n, fields, ResolveFields(n, fields).value)
  {
    forall i | 0 <= i < |fields|
      ensures Unwrap(n, fields[i].directive).Success?
      ensures fields[i].key in ResolveFields(n, fields).value
      ensures ResolveFields(n, fields).value[fields[i].key] == Unwrap(n, fields[i].directive).value
    {
      ResolveFieldsValue(n, fields, i);
    }
  }

  /** The keys strictly increase in `rank` along the list; a cheap witness of `DistinctKeys`. */
  predicate Ascending<K>(fields: seq<Field<K>>, rank: K -> nat) {
    forall i :: 0 <= i < |fields| - 1 ==> rank(fields[i].key) < rank(fields[i + 1].key)
  }

  lemma {:induction false} AscendingBound<K>(fields: seq<Field<K>>, rank: K -> nat, k: K)
    requires Ascending(fields, rank) && k in KeysOf(fields)
    ensures rank(fields[0].key) <= rank(k)
  {
    if k != fields[0].key {
      AscendingBound(fields[1..], rank, k);
      assert fields[1..][0] == fields[1];
    }
  }

  /** Keys that strictly increase in some rank are distinct, so there are as many as fields. */
  lemma {:induction false} AscendingDistinct<K>(fields: seq<Field<K>>, rank: K -> nat)
    requires Ascending(fields, rank)
    ensures DistinctKeys(fields)
    ensures |KeysOf(fields)| == |fields|
  {
    if fields != [] {
      var tail := fields[1..];
      assert Ascending(tail, rank) by {
        forall i | 0 <= i < |tail| - 1 ensures rank(tail[i].key) < rank(tail[i + 1].key) {
          assert tail[i] == fields[i + 1] && tail[i + 1] == fields[i + 2];
        }
      }
      AscendingDistinct(tail, rank);
      if fields[0].key in KeysOf(tail) {
        assert tail[0] == fields[1];
        AscendingBound(tail, rank, fields[0].key);
      }
    }
  }

  /** Six ascending sections, each ending below where the next begins, form one ascending list. */
  lemma {:induction false} SixSectionsAscending<K>(a: seq<Field<K>>, b: seq<Field<K>>, c: seq<Field<K>>,
                                d: seq<Field<K>>, e: seq<Field<K>>, f: seq<Field<K>>, rank: K -> nat)
    requires a != [] && b != [] && c != [] && d != [] && e != [] && f != []
    requires Ascending(a, rank) && Ascending(b, rank) && Ascending(c, rank)
    requires Ascending(d, rank) && Ascending(e, rank) && Ascending(f, rank)
    requires rank(a[|a| - 1].key) < rank(b[0].key) && rank(b[|b| - 1].key) < rank(c[0].key)
    requires rank(c[|c| - 1].key) < rank(d[0].key) && rank(d[|d| - 1].key) < rank(e[0].key)
    requires rank(e[|e| - 1].key) < rank(f[0].key)
    ensures Ascending(a + b + c + d + e + f, rank)
  {
    AscendingAppend(a, b, rank);
    AscendingAppend(a + b, c, rank);
    AscendingAppend(a + b + c, d, rank);
    AscendingAppend(a + b + c + d, e, rank);
    AscendingAppend(a + b + c + d + e, f, rank);
  }

  lemma {:induction false} AscendingAppend<K>(a: seq<Field<K>>, b: seq<Field<K>>, rank: K -> nat)
    requires a != [] && b != [] && Ascending(a, rank) && Ascending(b, rank)
    requires rank(a[|a| - 1].key) < rank(b[0].key)
    ensures Ascending(a + b, rank)
  {
    forall i | 0 <= i < |a + b| - 1 ensures rank((a + b)[i].key) < rank((a + b)[i + 1].key) {
      if i < |a| - 1 {
        assert (a + b)[i] == a[i] && (a + b)[i + 1] == a[i + 1];
      } else if i == |a| - 1 {
        assert (a + b)[i] == a[i] && (a + b)[i + 1] == b[0];
      } else {
        assert (a + b)[i] == b[i - |a|] && (a + b)[i + 1] == b[i - |a| + 1];
      }
    }
  }

  /** Resolving two dict literals in sequence is resolving their concatenation. */
  lemma {:induction false} ResolveFieldsAppend<K>(n: Node, a: seq<Field<K>>, b: seq<Field<K>>)
    ensures ResolveFields(n, a + b) == Merge(ResolveFields(n, a), ResolveFields(n, b))
  {
    if a == [] {
      assert a + b == b;
      if ResolveFields(n, b).Success? {
        var y := ResolveFields(n, b).value;
        assert map[] + y == y;
      }
    } else {
      assert (a + b)[0] == a[0] && (a + b)[1..] == a[1..] + b;
      ResolveFieldsAppend(n, a[1..], b);
      var v := Unwrap(n, a[0].directive);
      if v.Success? && ResolveFields(n, a[1..]).Success? && ResolveFields(n, b).Success? {
        var head := map[a[0].key := v.value];
        var x := ResolveFields(n, a[1..]).value;
        var y := ResolveFields(n, b).value;
        assert head + (x + y) == (head + x) + y;
      }
    }
  }

  /** Six dict literals resolved one after another and merged are one dict literal over
      their concatenation. */
  lemma ResolveSixSections<K>(n: Node, a: seq<Field<K>>, b: seq<Field<K>>, c: seq<Field<K>>,
                           d: seq<Field<K>>, e: seq<Field<K>>, f: seq<Field<K>>)
    ensures Merge(Merge(Merge(Merge(Merge(ResolveFields(n, a), ResolveFields(n, b)), ResolveFields(n, c)),
                                ResolveFields(n, d)), ResolveFields(n, e)), ResolveFields(n, f))
            == ResolveFields(n, a + b + c + d + e + f)
  {
    ResolveFieldsAppend(n, a, b);
    ResolveFieldsAppend(n, a + b, c);
    ResolveFieldsAppend(n, a + b + c, d);
    ResolveFieldsAppend(n, a + b + c + d, e);
    ResolveFieldsAppend(n, a + b + c + d + e, f);
  }

  /** Only the directives up to the first one that fails are read: two trees that agree on
      those give the same result, whatever the later directives hold. */
  lemma {:induction false} ResolveFieldsStopsAtFailure<K>(n1: Node, n2: Node, fields: seq<Field<K>>, i: nat)
    requires i < |fields|
    requires forall j :: 0 <= j <= i ==> Unwrap(n1, fields[j].directive) == Unwrap(n2, fields[j].directive)
    requires Unwrap(n1, fields[i].directive).Failure?
    ensures ResolveFields(n1, fields) == ResolveFields(n2, fields)
    ensures ResolveFields(n1, fields).Failure?
  {
    if i > 0 {
      assert Unwrap(n1, fields[0].directive) == Unwrap(n2, fields[0].directive);
      assert forall j :: 0 <= j <= i - 1 ==> fields[1..][j] == fields[j + 1];
      ResolveFieldsStopsAtFailure(n1, n2, fields[1..], i - 1);
    }
  }

  /** Every directive of `fields`, taken below `prefix`, unwraps exactly when the prefix
      section exists and the fields resolve within it. */
  lemma ResolveFieldsUnder<K>(n: Node, prefix: seq<string>, fields: seq<Field<K>>)
    requires fields != []
    ensures (forall i :: 0 <= i < |fields| ==> Unwrap(n, prefix + fields[i].directive).Success?) <==>
              Get(n, prefix).Success? && ResolveFields(Get(n, prefix).value, fields).Success?
  {
    forall i | 0 <= i < |fields| {
      UnwrapUnder(n, prefix, fields[i].directive);
    }
    if Get(n, prefix).Success? {
      ResolveFieldsSucceedsIff(Get(n, prefix).value, fields);
    } else {
      assert Unwrap(n, prefix + fields[0].directive).Failure?;
    }
  }
}
