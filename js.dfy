/**
 * JavaScript values as the benchmark scripts handle them (parsed JSON
 * payloads, report objects, CloudFormation resources), with property reads
 * and writes that throw where JavaScript throws: reading or writing a
 * property of `undefined` or `null`, and (in strict-mode modules) creating
 * a property on a primitive.  A write to an array is refused as well,
 * although JavaScript would add the property to it: the scripts write only
 * to objects they expect, and the model keeps arrays out of that case.
 */
module Js {
  import opened Wrappers

  datatype Value =
    | Undefined
    | Null
    | Bool(b: bool)
    | Num(n: real)     // a finite number
    | NaN
    | Str(s: string)
    | Arr(items: seq<Value>)
    | Obj(fields: map<string, Value>)

  /** Whether `v` counts as true in a condition. */
  predicate Truthy(v: Value) {
    match v
    case Undefined => false
    case Null => false
    case Bool(b) => b
    case Num(n) => n != 0.0
    case NaN => false
    case Str(s) => s != ""
    case _ => true
  }

  /** `v[key]`. */
  function Get(v: Value, key: string): (r: Result<Value>)
    ensures r.Failure? <==> v == Undefined || v == Null
    ensures v.Obj? ==> r == Success(if key in v.fields then v.fields[key] else Undefined)
  {
    match v
    case Undefined => Failure("TypeError: cannot read properties of undefined (reading '" + key + "')")
    case Null => Failure("TypeError: cannot read properties of null (reading '" + key + "')")
    case Obj(m) => Success(if key in m then m[key] else Undefined)
    case _ => Success(Undefined)
  }

  /** `v[key] = x`, as a new value of `v`. */
  function Set(v: Value, key: string, x: Value): (r: Result<Value>)
    ensures r.Success? <==> v.Obj?
    ensures r.Success? ==> r.value.Obj? && r.value.fields == v.fields[key := x]
  {
    match v
    case Obj(m) => Success(Obj(m[key := x]))
    case Undefined => Failure("TypeError: cannot set properties of undefined (setting '" + key + "')")
    case Null => Failure("TypeError: cannot set properties of null (setting '" + key + "')")
    case _ => Failure("TypeError: cannot create property '" + key + "'")
  }

  /** The value at the end of a path of present keys through objects, if there is one. */
  function Lookup(v: Value, path: seq<string>): Option<Value>
    decreases |path|
  {
    if path == [] then Some(v)
    else if v.Obj? && path[0] in v.fields then Lookup(v.fields[path[0]], path[1..])
    else None
  }

  /** `v.p0...pn-1.pn = x`: reads down to the parent of the last key and writes there. */
  function SetPath(v: Value, path: seq<string>, x: Value): (r: Result<Value>)
    requires path != []
    ensures r.Success? ==> r.value.Obj?
    decreases |path|
  {
    if |path| == 1 then Set(v, path[0], x)
    else
      var child :- Get(v, path[0]);
      var updated :- SetPath(child, path[1..], x);
      Set(v, path[0], updated)
  }

  /** After a write, the path holds the written value. */
  lemma {:induction false} LookupAfterSet(v: Value, path: seq<string>, x: Value)
    requires path != [] && SetPath(v, path, x).Success?
    ensures Lookup(SetPath(v, path, x).value, path) == Some(x)
    decreases |path|
  {
    if |path| > 1 {
      var child := Get(v, path[0]).value;
      LookupAfterSet(child, path[1..], x);
    }
  }

  /** A write succeeds only on an object, and replaces the field its path starts with. */
  lemma SetPathFields(v: Value, path: seq<string>, x: Value)
    requires path != [] && SetPath(v, path, x).Success?
    ensures v.Obj?
    ensures |path| == 1 ==> SetPath(v, path, x).value.fields == v.fields[path[0] := x]
    ensures |path| > 1 ==>
      var child := if path[0] in v.fields then v.fields[path[0]] else Undefined;
      && SetPath(child, path[1..], x).Success?
      && SetPath(v, path, x).value.fields == v.fields[path[0] := SetPath(child, path[1..], x).value]
  {
  }

  /** A write leaves every path that parts from the written path before its end as it was. */
  lemma {:induction false} LookupOtherAfterSet(v: Value, path: seq<string>, x: Value, other: seq<string>, k: nat)
    requires path != [] && SetPath(v, path, x).Success?
    requires k < |path| && k < |other| && other[k] != path[k]
    requires forall i :: 0 <= i < k ==> other[i] == path[i]
    ensures Lookup(SetPath(v, path, x).value, other) == Lookup(v, other)
    decreases |path|
  {
    SetPathFields(v, path, x);
    if k > 0 {
      var child := if path[0] in v.fields then v.fields[path[0]] else Undefined;
      assert forall i :: 0 <= i < k - 1 ==> other[1..][i] == path[1..][i];
      LookupOtherAfterSet(child, path[1..], x, other[1..], k - 1);
    }
  }

  /** A write to a path that can be read does not throw. */
  lemma {:induction false} WritableWhereReadable(v: Value, path: seq<string>, x: Value)
    requires path != [] && Lookup(v, path).Some?
    ensures SetPath(v, path, x).Success?
    decreases |path|
  {
    if |path| > 1 {
      WritableWhereReadable(v.fields[path[0]], path[1..], x);
    }
  }

  /** Writing the value a path already holds changes nothing. */
  lemma {:induction false} SetToCurrentIsIdentity(v: Value, path: seq<string>, x: Value)
    requires path != [] && Lookup(v, path) == Some(x)
    ensures SetPath(v, path, x) == Success(v)
    decreases |path|
  {
    if |path| == 1 {
      assert v.fields[path[0] := x] == v.fields;
    } else {
      var child := v.fields[path[0]];
      SetToCurrentIsIdentity(child, path[1..], x);
      assert v.fields[path[0] := child] == v.fields;
    }
  }
}
