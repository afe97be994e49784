/**
 * `bench/seed-data.mjs`: make sure the dummy resources the SDK handlers
 * read exist, in the order DynamoDB row, S3 object, IAM role, each
 * written only when it is missing (or, for the row, not the expected
 * data).  The three stores are fields of an `Account`; every AWS call may
 * instead fail with the error given for it in `Faults`.
 */
module Seed {
  import opened Wrappers
  import opened Js
  import opened Fixtures

  /** One SSM parameter of `allParams`. */
  datatype Param = Param(name: string, value: string)

  /** A thrown error: its `statusCode`, if it has one, and its message. */
  datatype Fault = Fault(status: Option<int>, message: string)

  /**
   * The dummy resources: the item keyed `id = 'data'` of each table, the
   * `ContentLength` of the object keyed `data` in each bucket, and the IAM
   * role names.
   */
  datatype Stores = Stores(rows: map<string, map<string, Value>>, objects: map<string, nat>, roles: set<string>)

  /** The error each AWS call throws, when it throws one the stores do not explain. */
  datatype Faults = Faults(
    getItem: Option<Fault>, putItem: Option<Fault>,
    headObject: Option<Fault>, putObject: Option<Fault>,
    getRole: Option<Fault>, createRole: Option<Fault>)

  const NoFaults := Faults(None, None, None, None, None, None)

  const TableSuffix := "/tables/dummy-data"
  const BucketSuffix := "/storage-private/dummy-assets"
  /** `IAM.RoleName` of `src/shared/run.js`. */
  const RoleName := "aws-lite-dummy-iam-role"

  /** The `ReferenceError`s the script throws itself; none has a `statusCode`. */
  const TableNotFound := Fault(None, "Dummy data table not found!")
  const BucketNotFound := Fault(None, "Dummy data bucket not found!")
  const Republish := Fault(None, "Need to re-publish dummy asset")

  /** What `HeadObject` and `GetRole` throw for a missing object or role. */
  const ObjectMissing := Fault(Some(404), "NotFound")
  const RoleMissing := Fault(Some(404), "NoSuchEntity")

  predicate EndsWith(s: string, suffix: string) {
    |suffix| <= |s| && s[|s| - |suffix|..] == suffix
  }

  /** `allParams.find(({ Name }) => Name.endsWith(suffix))?.Value`. */
  function Find(params: seq<Param>, suffix: string): (r: Option<string>)
    ensures r.None? <==> forall i :: 0 <= i < |params| ==> !EndsWith(params[i].name, suffix)
  {
    if params == [] then None
    else if EndsWith(params[0].name, suffix) then Some(params[0].value)
    else
      assert forall i :: 1 <= i < |params| ==> params[i] == params[1..][i - 1];
      Find(params[1..], suffix)
  }

  /** `find` gives the value of the first parameter whose name ends with the suffix. */
  lemma {:induction false} FindIsFirst(params: seq<Param>, suffix: string)
    requires Find(params, suffix).Some?
    ensures exists i :: (
      && 0 <= i < |params| && EndsWith(params[i].name, suffix) && Find(params, suffix).value == params[i].value
      && forall j :: 0 <= j < i ==> !EndsWith(params[j].name, suffix))
  {
    if !EndsWith(params[0].name, suffix) {
      var rest := params[1..];
      FindIsFirst(rest, suffix);
      var i :| && 0 <= i < |rest| && EndsWith(rest[i].name, suffix) && Find(rest, suffix).value == rest[i].value
        && forall j :: 0 <= j < i ==> !EndsWith(rest[j].name, suffix);
      assert params[i + 1] == rest[i];
      forall j | 0 <= j < i + 1 ensures !EndsWith(params[j].name, suffix) {
        if j > 0 { assert params[j] == rest[j - 1]; }
      }
    }
  }

  /** `!value`: a missing parameter or an empty value. */
  function Located(found: Option<string>): Option<string> {
    if found.Some? && found.value != "" then found else None
  }

  /** `!Item || Item.data !== dummyData`. */
  predicate RowStale(rows: map<string, map<string, Value>>, table: string) {
    table !in rows || "data" !in rows[table] || rows[table]["data"] != Str(RowData)
  }

  /** What `HeadObject` throws, or the `ReferenceError` of line 48, or `None` when the object is in place. */
  function HeadError(objects: map<string, nat>, bucket: string, faults: Faults): Option<Fault> {
    if faults.headObject.Some? then faults.headObject
    else if bucket !in objects then Some(ObjectMissing)
    else if objects[bucket] != MB then Some(Republish)
    else None
  }

  /** What `GetRole` throws, or `None` when the role exists. */
  function RoleError(roles: set<string>, faults: Faults): Option<Fault> {
    if faults.getRole.Some? then faults.getRole
    else if RoleName !in roles then Some(RoleMissing)
    else None
  }

  /** The stores after a step, and what it threw, if anything. */
  datatype Seeding = Seeding(stores: Stores, thrown: Option<Fault>)

  /** Lines 12-34. */
  function TableStep(s: Stores, params: seq<Param>, faults: Faults): Seeding {
    var table := Located(Find(params, TableSuffix));
    if table.None? then Seeding(s, Some(TableNotFound))
    else if faults.getItem.Some? then Seeding(s, faults.getItem)
    else if !RowStale(s.rows, table.value) then Seeding(s, None)
    else if faults.putItem.Some? then Seeding(s, faults.putItem)
    else Seeding(s.(rows := s.rows[table.value := RowItem]), None)
  }

  /** Lines 39-61: a caught error without status 404 is thrown again. */
  function ObjectStep(s: Stores, params: seq<Param>, faults: Faults): Seeding {
    var bucket := Located(Find(params, BucketSuffix));
    if bucket.None? then Seeding(s, Some(BucketNotFound))
    else
      var err := HeadError(s.objects, bucket.value, faults);
      if err.None? then Seeding(s, None)
      else if err.value.status != Some(404) then Seeding(s, err)
      else if faults.putObject.Some? then Seeding(s, faults.putObject)
      else Seeding(s.(objects := s.objects[bucket.value := |ObjectBody()|]), None)
  }

  /** Lines 66-88. */
  function RoleStep(s: Stores, faults: Faults): Seeding {
    var err := RoleError(s.roles, faults);
    if err.None? then Seeding(s, None)
    else if err.value.status != Some(404) then Seeding(s, err)
    else if faults.createRole.Some? then Seeding(s, faults.createRole)
    else Seeding(s.(roles := s.roles + {RoleName}), None)
  }

  /** `seedData({ aws, allParams })`: the three steps in order, stopping at the first throw. */
  function Seeded(s: Stores, params: seq<Param>, faults: Faults): Seeding {
    var table := TableStep(s, params, faults);
    if table.thrown.Some? then table
    else
      var stored := ObjectStep(table.stores, params, faults);
      if stored.thrown.Some? then stored
      else RoleStep(stored.stores, faults)
  }

  // ---------------------------------------------------------------------
  // What the script promises

  /** Each step touches its own store only. */
  lemma StepsTouchOwnStore(s: Stores, params: seq<Param>, faults: Faults)
    ensures TableStep(s, params, faults).stores.(rows := s.rows) == s
    ensures ObjectStep(s, params, faults).stores.(objects := s.objects) == s
    ensures RoleStep(s, faults).stores.(roles := s.roles) == s
  {
    ObjectStepTouchesObjects(s, params, faults);
  }

  lemma ObjectStepTouchesObjects(s: Stores, params: seq<Param>, faults: Faults)
    ensures ObjectStep(s, params, faults).stores.(objects := s.objects) == s
  {
  }

  /** A completed seeding leaves the expected row, a one-megabyte object and the role in place. */
  lemma SeededResources(s: Stores, params: seq<Param>, faults: Faults)
    requires Seeded(s, params, faults).thrown.None?
    ensures var after := Seeded(s, params, faults).stores;
      && Located(Find(params, TableSuffix)).Some? && Located(Find(params, BucketSuffix)).Some?
      && !RowStale(after.rows, Find(params, TableSuffix).value)
      && HeadError(after.objects, Find(params, BucketSuffix).value, NoFaults).None?
      && RoleError(after.roles, NoFaults).None?
  {
  }

  /** With nothing failing, a second seeding after a completed one writes nothing. */
  lemma SeedIdempotent(s: Stores, params: seq<Param>)
    requires Seeded(s, params, NoFaults).thrown.None?
    ensures var after := Seeded(s, params, NoFaults).stores;
      Seeded(after, params, NoFaults) == Seeding(after, None)
  {
    SeededResources(s, params, NoFaults);
  }

  /** The row is rewritten only when it is missing or stale, and then to the expected item. */
  lemma RowWrittenOnlyWhenStale(s: Stores, params: seq<Param>, faults: Faults)
    ensures var rows := Seeded(s, params, faults).stores.rows;
      || rows == s.rows
      || (&& Located(Find(params, TableSuffix)).Some?
          && RowStale(s.rows, Find(params, TableSuffix).value)
          && faults.getItem.None? && faults.putItem.None?
          && rows == s.rows[Find(params, TableSuffix).value := RowItem])
  {
    var t := TableStep(s, params, faults);
    StepsTouchOwnStore(s, params, faults);
    StepsTouchOwnStore(t.stores, params, faults);
    StepsTouchOwnStore(ObjectStep(t.stores, params, faults).stores, params, faults);
  }

  /** An existing object of the wrong length is not republished: the run stops before IAM with the `ReferenceError`. */
  lemma WrongLengthStops(s: Stores, params: seq<Param>, faults: Faults)
    requires TableStep(s, params, faults).thrown.None?
    requires Located(Find(params, BucketSuffix)).Some? && faults.headObject.None?
    requires var bucket := Find(params, BucketSuffix).value;
      bucket in TableStep(s, params, faults).stores.objects && TableStep(s, params, faults).stores.objects[bucket] != MB
    ensures Seeded(s, params, faults) == Seeding(TableStep(s, params, faults).stores, Some(Republish))
    ensures Seeded(s, params, faults).stores.objects == s.objects && Seeded(s, params, faults).stores.roles == s.roles
  {
  }

  /** The object is written only after a 404, and then with exactly one megabyte. */
  lemma ObjectWrittenOnlyAfter404(s: Stores, params: seq<Param>, faults: Faults)
    ensures var objects := Seeded(s, params, faults).stores.objects;
      || objects == s.objects
      || (&& Located(Find(params, BucketSuffix)).Some?
          && HeadError(s.objects, Find(params, BucketSuffix).value, faults).Some?
          && HeadError(s.objects, Find(params, BucketSuffix).value, faults).value.status == Some(404)
          && objects == s.objects[Find(params, BucketSuffix).value := MB])
  {
    var t := TableStep(s, params, faults);
    StepsTouchOwnStore(s, params, faults);
    StepsTouchOwnStore(t.stores, params, faults);
    StepsTouchOwnStore(ObjectStep(t.stores, params, faults).stores, params, faults);
  }

  /** The role is created only after a 404 from `GetRole`; any other error of `GetRole` is thrown. */
  lemma RoleCreatedOnlyAfter404(s: Stores, params: seq<Param>, faults: Faults)
    ensures var roles := Seeded(s, params, faults).stores.roles;
      || roles == s.roles
      || (&& RoleError(s.roles, faults).Some?
          && RoleError(s.roles, faults).value.status == Some(404)
          && roles == s.roles + {RoleName})
    ensures var t := TableStep(s, params, faults); var o := ObjectStep(t.stores, params, faults);
      && t.thrown.None? && o.thrown.None?
      && RoleError(o.stores.roles, faults).Some? && RoleError(o.stores.roles, faults).value.status != Some(404)
      ==> Seeded(s, params, faults).thrown == RoleError(o.stores.roles, faults)
  {
  }

  /** An error in an earlier step prevents the later ones. */
  lemma EarlierErrorStops(s: Stores, params: seq<Param>, faults: Faults)
    ensures TableStep(s, params, faults).thrown.Some? ==>
      Seeded(s, params, faults) == TableStep(s, params, faults) && Seeded(s, params, faults).stores.objects == s.objects
      && Seeded(s, params, faults).stores.roles == s.roles
    ensures Located(Find(params, TableSuffix)).None? ==> Seeded(s, params, faults) == Seeding(s, Some(TableNotFound))
    ensures TableStep(s, params, faults).thrown.None? && ObjectStep(TableStep(s, params, faults).stores, params, faults).thrown.Some? ==>
      Seeded(s, params, faults).stores.roles == s.roles
  {
  }

  // ---------------------------------------------------------------------
  // The script against the account

  /** The account the script seeds. */
  class Account {
    var rows: map<string, map<string, Value>>
    var objects: map<string, nat>
    var roles: set<string>

    function Stored(): Stores
      reads this
    {
      Stores(rows, objects, roles)
    }

    constructor(s: Stores)
      ensures Stored() == s
    {
      rows, objects, roles := s.rows, s.objects, s.roles;
    }

    method SeedTable(params: seq<Param>, faults: Faults) returns (thrown: Option<Fault>)
      modifies this`rows
      ensures Seeding(Stored(), thrown) == TableStep(old(Stored()), params, faults)
    {
      var table := Located(Find(params, TableSuffix));
      if table.None? {
        return Some(TableNotFound);
      }
      if faults.getItem.Some? {
        return faults.getItem;
      }
      if RowStale(rows, table.value) {
        if faults.putItem.Some? {
          return faults.putItem;
        }
        rows := rows[table.value := RowItem];
      }
      return None;
    }

    method SeedObject(params: seq<Param>, faults: Faults) returns (thrown: Option<Fault>)
      modifies this`objects
      ensures Seeding(Stored(), thrown) == ObjectStep(old(Stored()), params, faults)
    {
      var bucket := Located(Find(params, BucketSuffix));
      if bucket.None? {
        return Some(BucketNotFound);
      }
      var err := HeadError(objects, bucket.value, faults);
      if err.Some? {
        if err.value.status != Some(404) {
          return err;
        }
        if faults.putObject.Some? {
          return faults.putObject;
        }
        objects := objects[bucket.value := |ObjectBody()|];
      }
      return None;
    }

    method SeedRole(faults: Faults) returns (thrown: Option<Fault>)
      modifies this`roles
      ensures Seeding(Stored(), thrown) == RoleStep(old(Stored()), faults)
    {
      var err := RoleError(roles, faults);
      if err.Some? {
        if err.value.status != Some(404) {
          return err;
        }
        if faults.createRole.Some? {
          return faults.createRole;
        }
        roles := roles + {RoleName};
      }
      return None;
    }

    /** `seedData`. */
    method SeedData(params: seq<Param>, faults: Faults) returns (thrown: Option<Fault>)
      modifies this
      ensures Seeding(Stored(), thrown) == Seeded(old(Stored()), params, faults)
    {
      thrown := SeedTable(params, faults);
      if thrown.Some? {
        return;
      }
      thrown := SeedObject(params, faults);
      if thrown.Some? {
        return;
      }
      thrown := SeedRole(faults);
    }
  }
}
