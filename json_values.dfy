/**
 * Values produced by Python's `json` module, and the few Python operations
 * the weather and form code performs on them: subscription (`x[key]`,
 * `x[0]`), `x.get(key, default)`, `len(x)`, iteration and truthiness, each
 * with the exception Python raises when it does not apply.
 *
 * It also holds the one pattern the weather code repeats: a run of
 * `data[prefix + name] = obj[...]` assignments, each of which may raise.
 */
module JsonValues {
  import opened Wrappers
  import opened Text

  /** A parsed JSON document. Numbers keep their literal text: the core never does arithmetic on them. */
  datatype Json =
    | JNull
    | JBool(b: bool)
    | JNumber(literal: string)
    | JString(s: string)
    | JArray(items: seq<Json>)
    | JObject(fields: map<string, Json>)

  /** The exceptions these operations raise. */
  datatype Fault = KeyError | IndexError | TypeError | ValueError | AttributeError

  /** A value, or the exception raised instead of producing it. */
  datatype Result<+T> = Ok(value: T) | Err(fault: Fault)
  {
    predicate IsFailure() { Err? }

    function PropagateFailure<U>(): Result<U>
      requires Err?
    {
      Err(fault)
    }

    function Extract(): T
      requires Ok?
    {
      value
    }
  }

  /** `x[key]` with a `str` key: a dict lookup; every other JSON value rejects a `str` subscript. */
  function Get(x: Json, key: string): Result<Json>
  {
    match x
    case JObject(fields) => if key in fields then Ok(fields[key]) else Err(KeyError)
    case _ => Err(TypeError)
  }

  /**
   * `x[i]` with a non-negative `int`: a list item or a one-character string;
   * a dict (whose keys are all `str`) has no key `i`.
   */
  function At(x: Json, i: nat): Result<Json>
  {
    match x
    case JArray(items) => if i < |items| then Ok(items[i]) else Err(IndexError)
    case JString(s) => if i < |s| then Ok(JString([s[i]])) else Err(IndexError)
    case JObject(_) => Err(KeyError)
    case _ => Err(TypeError)
  }

  /** `x.get(key, default)`: only a dict has a `get` method. */
  function GetOr(x: Json, key: string, default: Json): Result<Json>
  {
    match x
    case JObject(fields) => Ok(if key in fields then fields[key] else default)
    case _ => Err(AttributeError)
  }

  /** `len(x)`. */
  function Len(x: Json): Result<nat>
  {
    match x
    case JArray(items) => Ok(|items|)
    case JString(s) => Ok(|s|)
    case JObject(fields) => Ok(|fields|)
    case _ => Err(TypeError)
  }

  /**
   * The values `for item in x` visits. A list gives its items and a string its
   * characters. A dict gives its keys, which are `str` values; no caller can
   * tell one key from another (every `str` rejects `item['time']` and has no
   * `get`), so each key is represented by the empty string.
   */
  function Iterate(x: Json): (r: Result<seq<Json>>)
    ensures x.JArray? ==> r == Ok(x.items)
    ensures r.Ok? && !x.JArray? ==> forall k :: 0 <= k < |r.value| ==> r.value[k].JString?
    ensures r.Err? <==> (x.JNull? || x.JBool? || x.JNumber?)
  {
    match x
    case JArray(items) => Ok(items)
    case JString(s) => Ok(seq(|s|, k requires 0 <= k < |s| => JString([s[k]])))
    case JObject(fields) => Ok(seq(|fields|, _ => JString("")))
    case _ => Err(TypeError)
  }

  /**
   * `key in x` for a `str` key: a dict's keys, a list's items (a `str` equals
   * only a `str` with the same text), or a substring of a string.
   */
  function Contains(x: Json, key: string): Result<bool>
  {
    match x
    case JObject(fields) => Ok(key in fields)
    case JArray(items) => Ok(JString(key) in items)
    case JString(s) => Ok(Occurs(key, s))
    case _ => Err(TypeError)
  }

  /** Whether `key` occurs in `s` as a contiguous piece. */
  predicate Occurs(key: string, s: string)
    decreases |s|
  {
    |key| <= |s| && (s[..|key|] == key || Occurs(key, s[1..]))
  }

  /** Python truthiness of a JSON value. A number is false when its literal is a zero. */
  predicate Truthy(x: Json)
  {
    match x
    case JNull => false
    case JBool(b) => b
    case JNumber(literal) => !ZeroLiteral(literal)
    case JString(s) => s != []
    case JArray(items) => items != []
    case JObject(fields) => fields != map[]
  }

  /** A JSON number literal whose digits before any exponent are all `0`. */
  predicate ZeroLiteral(literal: string)
  {
    forall k :: 0 <= k < |literal| && IsDigit(literal[k]) && (forall m :: 0 <= m < k ==> literal[m] !in "eE") ==> literal[k] == '0'
  }

  /** An `except KeyError` clause that returns `data`: a `KeyError` is caught, anything else propagates. */
  function Caught(data: map<string, Json>, fault: Fault): (r: Result<map<string, Json>>)
    ensures r.Err? <==> fault != KeyError
    ensures r.Ok? ==> r.value == data
  {
    if fault == KeyError then Ok(data) else Err(fault)
  }

  /** Where the value of one assignment comes from. */
  datatype Source =
    | Field(key: string)                      // obj[key]
    | FieldOr(key: string, default: Json)     // obj.get(key, default)
    | Nested(key: string, inner: string)      // obj[key][inner]

  function Lookup(obj: Json, source: Source): Result<Json>
  {
    match source
    case Field(key) => Get(obj, key)
    case FieldOr(key, default) => GetOr(obj, key, default)
    case Nested(key, inner) =>
      var outer :- Get(obj, key);
      Get(outer, inner)
  }

  /** One assignment `data[prefix + name] = <lookup of source in obj>`. */
  datatype FieldCopy = FieldCopy(name: string, source: Source)

  function Names(fields: seq<FieldCopy>): (r: seq<string>)
    ensures |r| == |fields| && forall k :: 0 <= k < |fields| ==> r[k] == fields[k].name
  {
    seq(|fields|, k requires 0 <= k < |fields| => fields[k].name)
  }

  predicate DistinctNames(fields: seq<FieldCopy>)
  {
    forall j, k :: 0 <= j < k < |fields| ==> fields[j].name != fields[k].name
  }

  /** The state after a run of assignments: the dict, and the exception that stopped the run, if any. */
  datatype Assigned = Assigned(data: map<string, Json>, fault: Option<Fault>)

  /**
   * The assignments `data[prefix + name] = ...` for `fields`, in order: each
   * lookup that succeeds is stored before the next is tried, and the first one
   * that raises stops the run, leaving the earlier stores in place.
   */
  function AssignFields(data: map<string, Json>, obj: Json, prefix: string, fields: seq<FieldCopy>): Assigned
    decreases |fields|
  {
    if fields == [] then Assigned(data, None)
    else
      match Lookup(obj, fields[0].source)
      case Err(fault) => Assigned(data, Some(fault))
      case Ok(v) => AssignFields(data[prefix + fields[0].name := v], obj, prefix, fields[1..])
  }

  /** `AssignFields` over `fields[i..]`, indexed rather than sliced. */
  function AssignFrom(data: map<string, Json>, obj: Json, prefix: string, fields: seq<FieldCopy>, i: nat): Assigned
    requires i <= |fields|
    decreases |fields| - i
  {
    if i == |fields| then Assigned(data, None)
    else
      match Lookup(obj, fields[i].source)
      case Err(fault) => Assigned(data, Some(fault))
      case Ok(v) => AssignFrom(data[prefix + fields[i].name := v], obj, prefix, fields, i + 1)
  }

  lemma {:induction false} AssignFromSlice(data: map<string, Json>, obj: Json, prefix: string, fields: seq<FieldCopy>, i: nat)
    requires i <= |fields|
    ensures AssignFrom(data, obj, prefix, fields, i) == AssignFields(data, obj, prefix, fields[i..])
    decreases |fields| - i
  {
    if i < |fields| {
      assert fields[i..][0] == fields[i];
      assert fields[i..][1..] == fields[i + 1..];
      match Lookup(obj, fields[i].source)
      case Err(_) =>
      case Ok(v) => AssignFromSlice(data[prefix + fields[i].name := v], obj, prefix, fields, i + 1);
    }
  }

  /** How many of `fields`, from the first, have a lookup in `obj` that succeeds. */
  function Succeeding(obj: Json, fields: seq<FieldCopy>): (n: nat)
    ensures n <= |fields|
    ensures forall k :: 0 <= k < n ==> Lookup(obj, fields[k].source).Ok?
    ensures n < |fields| ==> Lookup(obj, fields[n].source).Err?
    decreases |fields|
  {
    if fields == [] || Lookup(obj, fields[0].source).Err? then 0
    else 1 + Succeeding(obj, fields[1..])
  }

  /** The keys the first `n` assignments write. */
  function AssignedKeys(prefix: string, fields: seq<FieldCopy>, n: nat): set<string>
    requires n <= |fields|
  {
    set k | 0 <= k < n :: prefix + fields[k].name
  }

  /**
   * A run of assignments stops at the first lookup that raises, with that
   * lookup's exception, and finishes without one only when every lookup succeeds.
   */
  lemma {:induction false} AssignFieldsFault(data: map<string, Json>, obj: Json, prefix: string, fields: seq<FieldCopy>)
    ensures var a := AssignFields(data, obj, prefix, fields);
      var n := Succeeding(obj, fields);
      && (a.fault.None? <==> n == |fields|)
      && (a.fault.Some? ==> Err(a.fault.value) == Lookup(obj, fields[n].source))
    decreases |fields|
  {
    if fields != [] && Lookup(obj, fields[0].source).Ok? {
      var v := Lookup(obj, fields[0].source).value;
      AssignFieldsFault(data[prefix + fields[0].name := v], obj, prefix, fields[1..]);
      var n := Succeeding(obj, fields);
      if n < |fields| {
        assert fields[n] == fields[1..][n - 1];
      }
    }
  }

  /** The keys after a run of assignments: the old ones and one per assignment that succeeded. */
  lemma {:induction false} AssignFieldsKeys(data: map<string, Json>, obj: Json, prefix: string, fields: seq<FieldCopy>)
    ensures AssignFields(data, obj, prefix, fields).data.Keys == data.Keys + AssignedKeys(prefix, fields, Succeeding(obj, fields))
    decreases |fields|
  {
    if fields != [] && Lookup(obj, fields[0].source).Ok? {
      var v := Lookup(obj, fields[0].source).value;
      var rest := fields[1..];
      AssignFieldsKeys(data[prefix + fields[0].name := v], obj, prefix, rest);
      var n := Succeeding(obj, fields);
      assert AssignedKeys(prefix, fields, n) == {prefix + fields[0].name} + AssignedKeys(prefix, rest, n - 1) by {
        forall key | key in AssignedKeys(prefix, fields, n)
          ensures key == prefix + fields[0].name || key in AssignedKeys(prefix, rest, n - 1)
        {
          var k :| 0 <= k < n && key == prefix + fields[k].name;
          if k > 0 {
            assert fields[k] == rest[k - 1];
          }
        }
        forall key | key in AssignedKeys(prefix, rest, n - 1)
          ensures key in AssignedKeys(prefix, fields, n)
        {
          var k :| 0 <= k < n - 1 && key == prefix + rest[k].name;
          assert rest[k] == fields[k + 1];
        }
      }
    }
  }

  /** A key no successful assignment writes keeps its old value. */
  lemma {:induction false} AssignFieldsKeeps(data: map<string, Json>, obj: Json, prefix: string, fields: seq<FieldCopy>, key: string)
    requires key in data && key !in AssignedKeys(prefix, fields, Succeeding(obj, fields))
    ensures var a := AssignFields(data, obj, prefix, fields);
      key in a.data && a.data[key] == data[key]
    decreases |fields|
  {
    if fields != [] && Lookup(obj, fields[0].source).Ok? {
      var v := Lookup(obj, fields[0].source).value;
      var rest := fields[1..];
      var n := Succeeding(obj, fields);
      assert prefix + fields[0].name in AssignedKeys(prefix, fields, n);
      assert key !in AssignedKeys(prefix, rest, n - 1);
      AssignFieldsKeeps(data[prefix + fields[0].name := v], obj, prefix, rest, key);
    }
  }

  /** Each assignment that succeeded has stored its looked-up value (the names being distinct, none is overwritten). */
  lemma {:induction false} AssignFieldsValues(data: map<string, Json>, obj: Json, prefix: string, fields: seq<FieldCopy>, k: nat)
    requires DistinctNames(fields) && k < Succeeding(obj, fields)
    ensures var a := AssignFields(data, obj, prefix, fields);
      var key := prefix + fields[k].name;
      key in a.data && a.data[key] == Lookup(obj, fields[k].source).value
    decreases |fields|
  {
    var v := Lookup(obj, fields[0].source).value;
    var rest := fields[1..];
    var data' := data[prefix + fields[0].name := v];
    var n := Succeeding(obj, fields);
    assert DistinctNames(rest) by {
      forall i, j | 0 <= i < j < |rest|
        ensures rest[i].name != rest[j].name
      {
        assert rest[i] == fields[i + 1] && rest[j] == fields[j + 1];
      }
    }
    if k == 0 {
      assert prefix + fields[0].name !in AssignedKeys(prefix, rest, n - 1) by {
        if prefix + fields[0].name in AssignedKeys(prefix, rest, n - 1) {
          var i :| 0 <= i < n - 1 && prefix + fields[0].name == prefix + rest[i].name;
          assert rest[i] == fields[i + 1];
          PrefixedNamesDistinct(prefix, fields, 0, i + 1);
        }
      }
      AssignFieldsKeeps(data', obj, prefix, rest, prefix + fields[0].name);
    } else {
      assert fields[k] == rest[k - 1];
      AssignFieldsValues(data', obj, prefix, rest, k - 1);
    }
  }

  /** Distinct names under one prefix give as many keys as assignments. */
  lemma {:induction false} AssignedKeysSize(prefix: string, fields: seq<FieldCopy>, n: nat)
    requires DistinctNames(fields) && n <= |fields|
    ensures |AssignedKeys(prefix, fields, n)| == n
  {
    if n > 0 {
      AssignedKeysSize(prefix, fields, n - 1);
      AssignedKeysNext(prefix, fields, n);
    }
  }

  /** The `n`-th assignment adds one key, new when the names are distinct. */
  lemma AssignedKeysNext(prefix: string, fields: seq<FieldCopy>, n: nat)
    requires DistinctNames(fields) && 0 < n <= |fields|
    ensures AssignedKeys(prefix, fields, n) == AssignedKeys(prefix, fields, n - 1) + {prefix + fields[n - 1].name}
    ensures prefix + fields[n - 1].name !in AssignedKeys(prefix, fields, n - 1)
  {
    assert AssignedKeys(prefix, fields, n) == AssignedKeys(prefix, fields, n - 1) + {prefix + fields[n - 1].name};
    if prefix + fields[n - 1].name in AssignedKeys(prefix, fields, n - 1) {
      var k :| 0 <= k < n - 1 && prefix + fields[n - 1].name == prefix + fields[k].name;
      PrefixedNamesDistinct(prefix, fields, k, n - 1);
    }
  }

  /** Assignments with distinct names under one prefix write distinct keys. */
  lemma PrefixedNamesDistinct(prefix: string, fields: seq<FieldCopy>, j: nat, k: nat)
    requires DistinctNames(fields) && j < |fields| && k < |fields| && j != k
    ensures prefix + fields[j].name != prefix + fields[k].name
  {
    var x := prefix + fields[j].name;
    var y := prefix + fields[k].name;
    assert x[|prefix|..] == fields[j].name && y[|prefix|..] == fields[k].name;
  }
}
