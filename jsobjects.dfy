/** JavaScript values as they appear in a parsed configuration file.
    An object is an ordered list of members: JavaScript keeps properties in insertion
    order, assigning to an existing property keeps its place, assigning to a new one
    appends it, and `delete` removes it. (JavaScript lists integer-like keys such as "0"
    first, in ascending order; this model does not, which makes no difference for the
    keys the configuration upgrade assigns.) */
module JsObjects {
  import opened Wrappers
  import opened Strings

  datatype Value =
    | Undefined
    | Null
    | Bool(b: bool)
    | Num(n: int)
    | Str(s: string)
    | Arr(items: seq<Value>)
    | Obj(members: Object)

  datatype Member = Member(key: string, value: Value)

  type Object = seq<Member>

  /** No key occurs twice (true of every object JavaScript builds). */
  predicate DistinctKeys(o: Object) {
    forall i, j | 0 <= i < j < |o| :: o[i].key != o[j].key
  }

  /** The value of property `k`, if the object has one. */
  function Get(o: Object, k: string): Option<Value>
  {
    if o == [] then None
    else if o[0].key == k then Some(o[0].value)
    else Get(o[1..], k)
  }

  /** A property is found exactly when some member has its key, and what is found is the
      value of the first such member. */
  lemma {:induction false} GetFindsFirst(o: Object, k: string)
    ensures Get(o, k).Some? <==> exists i | 0 <= i < |o| :: o[i].key == k
    ensures Get(o, k).Some? ==> exists i | 0 <= i < |o| ::
      o[i] == Member(k, Get(o, k).value) && forall j | 0 <= j < i :: o[j].key != k
  {
    if o != [] {
      GetFindsFirst(o[1..], k);
      if o[0].key != k {
        assert forall i | 1 <= i < |o| :: o[i] == o[1..][i - 1];
        if Get(o, k).Some? {
          var i :| 0 <= i < |o[1..]| && o[1..][i] == Member(k, Get(o, k).value) &&
            forall j | 0 <= j < i :: o[1..][j].key != k;
          assert o[i + 1] == Member(k, Get(o, k).value);
        }
      } else {
        assert o[0] == Member(k, Get(o, k).value);
      }
    }
  }

  /** In an object with distinct keys each member's value is what its key looks up. */
  lemma {:induction false} GetMember(o: Object, i: nat)
    requires DistinctKeys(o) && i < |o|
    ensures Get(o, o[i].key) == Some(o[i].value)
  {
    if i > 0 {
      assert o[1..][i - 1] == o[i];
      GetMember(o[1..], i - 1);
    }
  }

  /** `k in o`. */
  predicate Has(o: Object, k: string) {
    Get(o, k).Some?
  }

  /** `o.k`: the property's value, or `undefined` when it is absent. */
  function Lookup(o: Object, k: string): Value {
    match Get(o, k)
    case Some(v) => v
    case None => Undefined
  }

  /** `o.k = v`. */
  function Set(o: Object, k: string, v: Value): (r: Object)
    ensures Get(r, k) == Some(v)
    ensures forall k' | k' != k :: Get(r, k') == Get(o, k')
    ensures forall m | m in r :: m in o || m == Member(k, v)
    ensures |r| == if Has(o, k) then |o| else |o| + 1
  {
    if o == [] then [Member(k, v)]
    else if o[0].key == k then [Member(k, v)] + o[1..]
    else [o[0]] + Set(o[1..], k, v)
  }

  /** `delete o.k`. */
  function Delete(o: Object, k: string): (r: Object)
    ensures Get(r, k) == None
    ensures forall k' | k' != k :: Get(r, k') == Get(o, k')
    ensures forall m | m in r :: m in o
    ensures |r| <= |o|
  {
    if o == [] then []
    else if o[0].key == k then Delete(o[1..], k)
    else [o[0]] + Delete(o[1..], k)
  }

  /** Assignment keeps the keys of an object distinct. */
  lemma {:induction false} SetKeepsKeysDistinct(o: Object, k: string, v: Value)
    requires DistinctKeys(o)
    ensures DistinctKeys(Set(o, k, v))
  {
    if o != [] && o[0].key != k {
      var rest := Set(o[1..], k, v);
      SetKeepsKeysDistinct(o[1..], k, v);
      forall j | 0 <= j < |rest|
        ensures rest[j].key != o[0].key
      {
        if rest[j] != Member(k, v) {
          assert rest[j] in o[1..];
        }
      }
      assert Set(o, k, v) == [o[0]] + rest;
    }
  }

  /** Deletion keeps the keys of an object distinct. */
  lemma {:induction false} DeleteKeepsKeysDistinct(o: Object, k: string)
    requires DistinctKeys(o)
    ensures DistinctKeys(Delete(o, k))
  {
    if o != [] {
      var rest := Delete(o[1..], k);
      DeleteKeepsKeysDistinct(o[1..], k);
      if o[0].key != k {
        forall j | 0 <= j < |rest|
          ensures rest[j].key != o[0].key
        {
          assert rest[j] in o[1..];
        }
        assert Delete(o, k) == [o[0]] + rest;
      }
    }
  }

  /** `String(v)`, the text JavaScript produces when `v` is concatenated to a string.
      Numbers are integers in this model. */
  function ToText(v: Value): string
    decreases v, 0
  {
    match v
    case Undefined => "undefined"
    case Null => "null"
    case Bool(b) => if b then "true" else "false"
    case Num(n) => IntString(n)
    case Str(s) => s
    case Arr(items) => Join(seq(|items|, i requires 0 <= i < |items| => ElementText(items[i])), ",")
    case Obj(_) => "[object Object]"
  }

  /** An array element as `Array.prototype.join` renders it: `null` and `undefined` are empty. */
  function ElementText(v: Value): string
    decreases v, 1
  {
    if v.Undefined? || v.Null? then "" else ToText(v)
  }
}
