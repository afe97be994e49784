/**
 * `src/plugins/lambdas.mjs`: the benchmarked targets, the custom Lambda
 * list derived from them, and the deploy hook that names every function
 * resource after its Architect name and points it at the dummy data table.
 */
module Plugin {
  import opened Wrappers
  import opened Js

  /** The benchmarked targets; the charts drop the first one, `control`. */
  const Names: seq<string> := ["control", "aws-lite-raw", "aws-sdk-v3-raw"]

  lemma NamesStartWithControl()
    ensures |Names| > 0 && Names[0] == "control"
    ensures forall i, j :: 0 <= i < j < |Names| ==> Names[i] != Names[j]
  {
  }

  datatype CustomLambda = CustomLambda(name: string, src: string)

  /** `names.map(name => ({ name, src: 'src/lambdas/' + name }))`. */
  function LambdasFor(names: seq<string>): (r: seq<CustomLambda>)
    ensures |r| == |names|
    ensures forall i :: 0 <= i < |names| ==> r[i].name == names[i] && r[i].src == "src/lambdas/" + names[i]
  {
    if names == [] then [] else [CustomLambda(names[0], "src/lambdas/" + names[0])] + LambdasFor(names[1..])
  }

  /** `plugin.set.customLambdas`: one Lambda per target, in order, built from `src/lambdas/<name>`. */
  function CustomLambdas(): (r: seq<CustomLambda>)
    ensures |r| == |Names| && r[0] == CustomLambda("control", "src/lambdas/control")
  {
    LambdasFor(Names)
  }

  // ---------------------------------------------------------------------
  // `plugin.deploy.start`

  const FunctionType := "AWS::Serverless::Function"
  const FunctionNamePath: seq<string> := ["Properties", "FunctionName"]
  const VariablesPath: seq<string> := ["Properties", "Environment", "Variables"]
  const TableNamePath: seq<string> := VariablesPath + ["BENCHMARK_TABLE_NAME"]

  /** `{ Ref: 'DummyDataTable' }`. */
  const TableRef: Value := Obj(map["Ref" := Str("DummyDataTable")])

  predicate IsFunction(item: Value) {
    item.Obj? && "Type" in item.fields && item.fields["Type"] == Str(FunctionType)
  }

  /** The first write of a function resource: `Properties.FunctionName = ArcMetadata.name`. */
  function NameFunction(item: Value): Result<Value>
    requires Get(item, "Type").Success?
  {
    var arc := Get(item, "ArcMetadata").value;
    var name :- Get(arc, "name");
    SetPath(item, FunctionNamePath, name)
  }

  /**
   * The loop body for one resource: a function resource gets
   * `Properties.FunctionName = ArcMetadata.name` and then
   * `Properties.Environment.Variables.BENCHMARK_TABLE_NAME = TableRef`;
   * any other resource is returned as it is.
   */
  function Patch(item: Value): Result<Value> {
    var t :- Get(item, "Type");
    if t != Str(FunctionType) then Success(item)
    else
      var named :- NameFunction(item);
      SetPath(named, TableNamePath, TableRef)
  }

  /**
   * A resource as a throw in its loop body leaves it: the writes are made in
   * place, so when the second one throws the first one stays.
   */
  function Leftover(item: Value): Value {
    if Get(item, "Type") == Success(Str(FunctionType)) && NameFunction(item).Success?
    then NameFunction(item).value
    else item
  }

  /**
   * When the table reference cannot be written (there is no
   * `Properties.Environment.Variables` object), the resource keeps its new
   * function name, still has no table reference, and keeps every top-level
   * field other than `Properties`.
   */
  lemma ThrowKeepsName(item: Value)
    requires IsFunction(item) && Patch(item).Failure? && NameFunction(item).Success?
    ensures var r := Leftover(item);
      && Lookup(r, FunctionNamePath) == Some(Get(Get(item, "ArcMetadata").value, "name").value)
      && Lookup(r, TableNamePath) == None
      && (forall k | k != "Properties" :: Lookup(r, [k]) == Lookup(item, [k]))
  {
    var name := Get(Get(item, "ArcMetadata").value, "name").value;
    var r := Leftover(item);
    LookupAfterSet(item, FunctionNamePath, name);
    if Lookup(r, TableNamePath).Some? {
      WritableWhereReadable(r, TableNamePath, TableRef);
      assert false;
    }
    forall k | k != "Properties" ensures Lookup(r, [k]) == Lookup(item, [k]) {
      LookupOtherAfterSet(item, FunctionNamePath, name, [k], 0);
    }
  }

  /** A throw before the first write leaves the resource as it was. */
  lemma ThrowBeforeNaming(item: Value)
    requires Patch(item).Failure? && !(IsFunction(item) && NameFunction(item).Success?)
    ensures Leftover(item) == item
  {
  }

  /** `deploy.start` leaves every resource that is not a function as it is. */
  lemma PatchLeavesOthers(item: Value)
    requires item.Obj? && !IsFunction(item)
    ensures Patch(item) == Success(item)
  {
  }

  /**
   * A patched function resource carries its Architect name and the table
   * reference; every other environment variable, and every top-level field
   * other than `Properties`, is as before.
   */
  lemma PatchSetsTwoFields(item: Value)
    requires IsFunction(item) && Patch(item).Success?
    ensures var r := Patch(item).value;
      && Lookup(r, FunctionNamePath) == Some(Get(Get(item, "ArcMetadata").value, "name").value)
      && Lookup(r, TableNamePath) == Some(TableRef)
      && (forall k | k != "BENCHMARK_TABLE_NAME" :: Lookup(r, VariablesPath + [k]) == Lookup(item, VariablesPath + [k]))
      && (forall k | k != "Properties" :: Lookup(r, [k]) == Lookup(item, [k]))
  {
    var name := Get(Get(item, "ArcMetadata").value, "name").value;
    var named := SetPath(item, FunctionNamePath, name).value;
    var r := Patch(item).value;
    LookupAfterSet(item, FunctionNamePath, name);
    LookupAfterSet(named, TableNamePath, TableRef);
    LookupOtherAfterSet(named, TableNamePath, TableRef, FunctionNamePath, 1);
    forall k | k != "BENCHMARK_TABLE_NAME"
      ensures Lookup(r, VariablesPath + [k]) == Lookup(item, VariablesPath + [k])
    {
      LookupOtherAfterSet(named, TableNamePath, TableRef, VariablesPath + [k], 3);
      LookupOtherAfterSet(item, FunctionNamePath, name, VariablesPath + [k], 1);
    }
    forall k | k != "Properties" ensures Lookup(r, [k]) == Lookup(item, [k]) {
      LookupOtherAfterSet(named, TableNamePath, TableRef, [k], 0);
      LookupOtherAfterSet(item, FunctionNamePath, name, [k], 0);
    }
  }

  /** Patching a patched resource changes nothing. */
  lemma PatchIdempotent(item: Value)
    requires Patch(item).Success?
    ensures Patch(Patch(item).value) == Patch(item)
  {
    if IsFunction(item) {
      var name := Get(Get(item, "ArcMetadata").value, "name").value;
      var r := Patch(item).value;
      PatchSetsTwoFields(item);
      assert Lookup(r, ["Type"]) == Lookup(item, ["Type"]);
      assert Lookup(r, ["ArcMetadata"]) == Lookup(item, ["ArcMetadata"]);
      assert Get(r, "Type") == Get(item, "Type");
      assert Get(r, "ArcMetadata") == Get(item, "ArcMetadata");
      SetToCurrentIsIdentity(r, FunctionNamePath, name);
      SetToCurrentIsIdentity(r, TableNamePath, TableRef);
    }
  }

  /** The resources after a complete `forEach` over `Object.entries(Resources)`, or the first throw. */
  function PatchAll(entries: seq<(string, Value)>): Result<seq<(string, Value)>> {
    if entries == [] then Success([])
    else
      var done :- PatchAll(entries[..|entries| - 1]);
      var (name, item) := entries[|entries| - 1];
      var patched :- Patch(item);
      Success(done + [(name, patched)])
  }

  /** A complete pass keeps every resource name and position and patches each resource on its own. */
  lemma {:induction false} PatchAllPointwise(entries: seq<(string, Value)>)
    ensures PatchAll(entries).Success? <==> forall i :: 0 <= i < |entries| ==> Patch(entries[i].1).Success?
    ensures PatchAll(entries).Success? ==>
      var r := PatchAll(entries).value;
      && |r| == |entries|
      && forall i :: 0 <= i < |entries| ==> r[i] == (entries[i].0, Patch(entries[i].1).value)
  {
    if entries != [] {
      var init := entries[..|entries| - 1];
      PatchAllPointwise(init);
      assert forall i :: 0 <= i < |init| ==> init[i] == entries[i];
    }
  }

  /** `deploy.start` is idempotent. */
  lemma {:induction false} PatchAllIdempotent(entries: seq<(string, Value)>)
    requires PatchAll(entries).Success?
    ensures PatchAll(PatchAll(entries).value) == PatchAll(entries)
  {
    var r := PatchAll(entries).value;
    PatchAllPointwise(entries);
    forall i | 0 <= i < |r| ensures Patch(r[i].1) == Success(r[i].1) {
      PatchIdempotent(entries[i].1);
    }
    PatchAllPointwise(r);
    var rr := PatchAll(r).value;
    assert rr == r by {
      forall i | 0 <= i < |r| ensures rr[i] == r[i] { }
    }
  }

  /** The CloudFormation template the deploy hook receives. */
  class Template {
    /** `cloudformation.Resources`, in `Object.entries` order. */
    var resources: seq<(string, Value)>

    constructor(resources: seq<(string, Value)>)
      ensures this.resources == resources
    {
      this.resources := resources;
    }

    /**
     * `plugin.deploy.start`: patch each resource in place, in order.  A throw
     * leaves the resources before the failing one patched, the failing one
     * with whatever write it had made, and the rest as they were.
     */
    method DeployStart() returns (r: Result<()>)
      modifies this
      ensures r.Success? <==> PatchAll(old(resources)).Success?
      ensures r.Success? ==> resources == PatchAll(old(resources)).value
      ensures r.Failure? ==> exists i ::
        && 0 <= i < |old(resources)|
        && PatchAll(old(resources)[..i]).Success?
        && Patch(old(resources)[i].1) == Failure(r.error)
        && resources == PatchAll(old(resources)[..i]).value
             + [(old(resources)[i].0, Leftover(old(resources)[i].1))] + old(resources)[i + 1..]
    {
      ghost var orig := resources;
      var i := 0;
      while i < |resources|
        invariant 0 <= i <= |orig| == |resources|
        invariant PatchAll(orig[..i]).Success?
        invariant resources == PatchAll(orig[..i]).value + orig[i..]
      {
        var (name, item) := resources[i];
        PatchAllSnoc(orig, i);
        var patched := Patch(item);
        if patched.Failure? {
          PatchAllFailureSticks(orig, i + 1);
          Splice(PatchAll(orig[..i]).value, orig[i..], (name, Leftover(item)));
          resources := resources[i := (name, Leftover(item))];
          return Failure(patched.error);
        }
        Splice(PatchAll(orig[..i]).value, orig[i..], (name, patched.value));
        resources := resources[i := (name, patched.value)];
        i := i + 1;
      }
      assert orig[..i] == orig;
      return Success(());
    }
  }

  /** Patching the first `k + 1` resources is patching the first `k`, then resource `k`. */
  lemma PatchAllSnoc(entries: seq<(string, Value)>, k: nat)
    requires k < |entries| && PatchAll(entries[..k]).Success?
    ensures |PatchAll(entries[..k]).value| == k
    ensures PatchAll(entries[..k + 1]) ==
      if Patch(entries[k].1).Failure? then Failure(Patch(entries[k].1).error)
      else Success(PatchAll(entries[..k]).value + [(entries[k].0, Patch(entries[k].1).value)])
  {
    assert entries[..k + 1][..k] == entries[..k];
    PatchAllPointwise(entries[..k]);
  }

  /** Replacing the first element after `done` with `x`. */
  lemma Splice<T>(done: seq<T>, rest: seq<T>, x: T)
    requires rest != []
    ensures (done + rest)[|done| := x] == done + [x] + rest[1..]
  {
  }

  lemma {:induction false} PatchAllFailureSticks(entries: seq<(string, Value)>, k: nat)
    requires k <= |entries| && PatchAll(entries[..k]).Failure?
    ensures PatchAll(entries).Failure?
    decreases |entries| - k
  {
    if k < |entries| {
      assert entries[..k + 1][..k] == entries[..k];
      PatchAllFailureSticks(entries, k + 1);
    } else {
      assert entries[..k] == entries;
    }
  }
}
