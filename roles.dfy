/**
 * The role store (pkg/plugin/path_roles.go): roles live under `role/<name>`; reads, lists, deletes and
 * the create-or-update write that merges the request onto the stored role.
 */
module Roles {
  import opened Common
  import opened Records
  import opened Storage

  const RolePrefix := "role/"

  /** The storage key of a role. */
  function RoleKey(name: string): (k: string)
    ensures |k| == |RolePrefix| + |name| && RolePrefix <= k && k[|RolePrefix|..] == name
  {
    RolePrefix + name
  }

  /** A key under the role prefix is the key of exactly the name that follows the prefix. */
  lemma RoleKeyOfSuffix(k: string)
    requires RolePrefix <= k
    ensures RoleKey(k[|RolePrefix|..]) == k
  {
    assert k == k[..|RolePrefix|] + k[|RolePrefix|..];
  }

  /** Distinct names are stored under distinct keys. */
  lemma RoleKeyInjective(a: string, b: string)
    ensures RoleKey(a) == RoleKey(b) ==> a == b
  {
  }

  // ---------------------------------------------------------------------------------------------
  // Response data of a role

  /** The keys of the data a role read returns. */
  const ResponseKeys := {"owner", "owner_env", "resource", "resource_env", "ttl", "max_ttl",
                         "display_name_template", "description_template"}

  /** `toResponseData`: the eight user-visible fields of a role, durations in seconds. */
  function ToResponseData(r: Role): (m: map<string, Value>)
    ensures m.Keys == ResponseKeys
  {
    map["owner" := Str(r.owner), "owner_env" := Str(r.ownerEnv),
        "resource" := Str(r.resource), "resource_env" := Str(r.resourceEnv),
        "ttl" := Int(r.ttl), "max_ttl" := Int(r.maxTtl),
        "display_name_template" := Str(r.displayNameTmpl),
        "description_template" := Str(r.descriptionTmpl)]
  }

  /** Reads a text field of response data; anything else reads as "". */
  function TextField(m: map<string, Value>, k: string): string
  {
    if k in m && m[k].Str? then m[k].s else ""
  }

  /** Reads a duration field of response data; anything else reads as 0. */
  function IntField(m: map<string, Value>, k: string): int
  {
    if k in m && m[k].Int? then m[k].n else 0
  }

  /**
   * Rebuilds a role from response data. The multi-use state is not part of the response and comes
   * back at its zero value.
   */
  function FromResponseData(m: map<string, Value>): Role
  {
    ZeroRole.(owner := TextField(m, "owner"), ownerEnv := TextField(m, "owner_env"),
              resource := TextField(m, "resource"), resourceEnv := TextField(m, "resource_env"),
              ttl := IntField(m, "ttl"), maxTtl := IntField(m, "max_ttl"),
              displayNameTmpl := TextField(m, "display_name_template"),
              descriptionTmpl := TextField(m, "description_template"))
  }

  /** The response data of a role carries every configured field and nothing of its multi-use state. */
  lemma ResponseDataRoundTrip(r: Role)
    ensures FromResponseData(ToResponseData(r))
         == r.(multiUseKey := false, usageCount := 0, ccKeyId := "", ccKeySecret := "")
  {
  }

  // ---------------------------------------------------------------------------------------------
  // getRole / setRole

  /** What `getRole` yields: an error for an empty name, none when no entry exists, else the decoded role. */
  function LookupRole(faults: Faults, entries: map<string, Entry>, name: string): Result<Option<Role>>
  {
    if name == "" then Err("missing role name")
    else match Fetch(faults, entries, RoleKey(name))
      case Err(e) => Err(e)
      case Ok(None) => Ok(None)
      case Ok(Some(e)) =>
        match DecodeRole(e)
        case Err(msg) => Err(msg)
        case Ok(role) => Ok(Some(role))
  }

  /** `getRole`: an empty name fails before storage is read. */
  method GetRole(s: Store, name: string) returns (r: Result<Option<Role>>)
    ensures name == "" ==> r == Err("missing role name")
    ensures name != "" && s.faults.get.Some? ==> r == Err(s.faults.get.value)
    ensures name != "" && s.faults.get.None? ==>
      (r == Ok(None) <==> RoleKey(name) !in s.entries)
    ensures name != "" && s.faults.get.None? && RoleKey(name) in s.entries ==>
      r == match DecodeRole(s.entries[RoleKey(name)])
           case Ok(role) => Ok(Some(role))
           case Err(e) => Err(e)
    ensures r == LookupRole(s.faults, s.entries, name)
  {
    if name == "" {
      return Err("missing role name");
    }
    var entry := s.Get(RoleKey(name));
    if entry.Err? {
      return Err(entry.error);
    }
    if entry.value.None? {
      return Ok(None);
    }
    var role := DecodeRole(entry.value.value);
    if role.Err? {
      return Err(role.error);
    }
    r := Ok(Some(role.value));
  }

  /** `setRole`: stores the role under its key; the store's error is handed back. */
  method SetRole(s: Store, name: string, role: Role) returns (err: Option<string>)
    modifies s
    ensures err == s.faults.put
    ensures s.entries == if err.None? then old(s.entries)[RoleKey(name) := RoleEntry(role)] else old(s.entries)
  {
    err := s.Put(RoleKey(name), RoleEntry(role));
  }

  /** Setting a role and then getting it under a non-empty name yields the same role. */
  lemma SetThenGet(faults: Faults, entries: map<string, Entry>, name: string, role: Role)
    requires name != "" && faults.get.None?
    ensures LookupRole(faults, entries[RoleKey(name) := RoleEntry(role)], name) == Ok(Some(role))
  {
  }

  /** Setting one role leaves every other name's lookup as it was. */
  lemma SetLeavesOthers(faults: Faults, entries: map<string, Entry>, name: string, other: string, role: Role)
    requires other != name
    ensures LookupRole(faults, entries[RoleKey(name) := RoleEntry(role)], other) == LookupRole(faults, entries, other)
  {
    RoleKeyInjective(name, other);
  }

  // ---------------------------------------------------------------------------------------------
  // list / read / delete

  /** The role names stored. */
  function RoleNames(entries: map<string, Entry>): set<string>
  {
    Children(entries, RolePrefix)
  }

  /** `pathRolesList`: the names of every stored role, or the store's error. */
  method PathRolesList(s: Store) returns (r: Outcome<set<string>>)
    ensures s.faults.list.Some? ==> r == Failure(s.faults.list.value)
    ensures s.faults.list.None? ==> r.Reply? && (forall n :: n in r.value <==> RoleKey(n) in s.entries)
  {
    var names := s.List(RolePrefix);
    if names.Err? {
      return Failure(names.error);
    }
    r := Reply(names.value);
    forall n ensures n in r.value <==> RoleKey(n) in s.entries {
      if RoleKey(n) in s.entries {
        assert RoleKey(n)[|RolePrefix|..] == n;
      }
      if n in r.value {
        var k :| k in s.entries && RolePrefix <= k && k[|RolePrefix|..] == n;
        RoleKeyOfSuffix(k);
      }
    }
  }

  /** `pathRolesRead`: the role's response data, no response when it does not exist, or the error. */
  method PathRolesRead(s: Store, name: string) returns (r: Outcome<Option<map<string, Value>>>)
    ensures match LookupRole(s.faults, s.entries, name)
            case Err(e) => r == Failure(e)
            case Ok(None) => r == Reply(None)
            case Ok(Some(role)) => r == Reply(Some(ToResponseData(role)))
  {
    var entry := GetRole(s, name);
    if entry.Err? {
      return Failure(entry.error);
    }
    if entry.value.None? {
      return Reply(None);
    }
    r := Reply(Some(ToResponseData(entry.value.value)));
  }

  /** `pathRolesDelete`: removes `role/<name>` and nothing else. */
  method PathRolesDelete(s: Store, name: string) returns (r: Outcome<()>)
    modifies s
    ensures s.faults.delete.Some? ==>
      r == Failure("error deleting apikey role: " + s.faults.delete.value) && s.entries == old(s.entries)
    ensures s.faults.delete.None? ==> r == Reply(()) && s.entries == old(s.entries) - {RoleKey(name)}
  {
    var err := s.Delete(RoleKey(name));
    if err.Some? {
      return Failure("error deleting apikey role: " + err.value);
    }
    r := Reply(());
  }

  /** Deleting a role removes exactly its name from the listing. */
  lemma DeleteRemovesOnlyName(entries: map<string, Entry>, name: string)
    ensures RoleNames(entries - {RoleKey(name)}) == RoleNames(entries) - {name}
  {
    forall n | n in RoleNames(entries) && n != name ensures n in RoleNames(entries - {RoleKey(name)}) {
      var k :| k in entries && RolePrefix <= k && k[|RolePrefix|..] == n;
      RoleKeyOfSuffix(k);
      assert k != RoleKey(name);
    }
    forall n | n in RoleNames(entries - {RoleKey(name)}) ensures n in RoleNames(entries) && n != name {
      var k :| k in entries - {RoleKey(name)} && RolePrefix <= k && k[|RolePrefix|..] == n;
      RoleKeyOfSuffix(k);
    }
  }

  // ---------------------------------------------------------------------------------------------
  // write: create and update

  /** A role write: the operation and every field the request may carry (None = not supplied). */
  datatype RoleWriteRequest = RoleWriteRequest(
    op: Operation,
    name: Option<string>,
    owner: Option<string>,
    ownerEnv: Option<string>,
    resource: Option<string>,
    resourceEnv: Option<string>,
    ttl: Option<int>,
    maxTtl: Option<int>)

  /** A duration after the write: the supplied value, else 0 on create, else the stored value. */
  function DurationAfter(given: Option<int>, stored: int, op: Operation): int
  {
    match given
    case Some(v) => v
    case None => if op == Create then 0 else stored
  }

  /** The role after merging the request's supplied fields onto base; nothing else of base changes. */
  function Merged(base: Role, req: RoleWriteRequest): Role
  {
    base.(owner := req.owner.GetOr(base.owner),
          ownerEnv := req.ownerEnv.GetOr(base.ownerEnv),
          resource := req.resource.GetOr(base.resource),
          resourceEnv := req.resourceEnv.GetOr(base.resourceEnv),
          ttl := DurationAfter(req.ttl, base.ttl, req.op),
          maxTtl := DurationAfter(req.maxTtl, base.maxTtl, req.op))
  }

  /** The ttl bound every stored role keeps: a non-zero max_ttl is at least the ttl. */
  predicate TtlBounded(r: Role)
  {
    r.maxTtl == 0 || r.ttl <= r.maxTtl
  }

  /** The error for the first required field a create lacks, in the order the handler checks them. */
  function MissingField(req: RoleWriteRequest): Option<string>
  {
    if req.op != Create then None
    else if req.owner.None? then Some("missing owner in role")
    else if req.ownerEnv.None? then Some("missing owner_env in role")
    else if req.resource.None? then Some("missing resource in role")
    else if req.resourceEnv.None? then Some("missing resource_env in role")
    else None
  }

  /** The merge and validation of a write (lines 166-206) applied to the role it starts from. */
  function MergeRole(base: Role, req: RoleWriteRequest): Outcome<Role>
  {
    if MissingField(req).Some? then Failure(MissingField(req).value)
    else if !TtlBounded(Merged(base, req)) then ErrorResponse("ttl cannot be greater than max_ttl")
    else Reply(Merged(base, req))
  }

  /** The outcome of `pathRolesWrite` and the store afterwards. */
  function RoleWriteSpec(faults: Faults, entries: map<string, Entry>, req: RoleWriteRequest): (Outcome<()>, map<string, Entry>)
  {
    if req.name.None? then (ErrorResponse("missing role name"), entries)
    else
      match LookupRole(faults, entries, req.name.value)
      case Err(e) => (Failure(e), entries)
      case Ok(found) =>
        match MergeRole(found.GetOr(ZeroRole), req)
        case Reply(role) =>
          if faults.put.Some? then (Failure(faults.put.value), entries)
          else (Reply(()), entries[RoleKey(req.name.value) := RoleEntry(role)])
        case ErrorResponse(m) => (ErrorResponse(m), entries)
        case Failure(m) => (Failure(m), entries)
        case Panic(m) => (Panic(m), entries)
  }

  /**
   * The field-by-field part of `pathRolesWrite` (lines 166-206): assigns each supplied field in turn,
   * fails on the first required field a create lacks, then checks the ttl bound.
   */
  method AssignFields(base: Role, req: RoleWriteRequest) returns (r: Outcome<Role>)
    ensures r == MergeRole(base, req)
  {
    var role := base;
    var create := req.op == Create;

    if req.owner.Some? {
      role := role.(owner := req.owner.value);
    } else if create {
      return Failure("missing owner in role");
    }
    if req.ownerEnv.Some? {
      role := role.(ownerEnv := req.ownerEnv.value);
    } else if create {
      return Failure("missing owner_env in role");
    }
    if req.resource.Some? {
      role := role.(resource := req.resource.value);
    } else if create {
      return Failure("missing resource in role");
    }
    if req.resourceEnv.Some? {
      role := role.(resourceEnv := req.resourceEnv.value);
    } else if create {
      return Failure("missing resource_env in role");
    }
    if req.ttl.Some? {
      role := role.(ttl := req.ttl.value);
    } else if create {
      role := role.(ttl := 0);
    }
    if req.maxTtl.Some? {
      role := role.(maxTtl := req.maxTtl.value);
    } else if create {
      role := role.(maxTtl := 0);
    }
    assert role == Merged(base, req);

    if role.maxTtl != 0 && role.ttl > role.maxTtl {
      return ErrorResponse("ttl cannot be greater than max_ttl");
    }
    r := Reply(role);
  }

  /** `pathRolesWrite`: loads the role (or starts from the zero role), assigns the supplied fields, then stores it. */
  method PathRolesWrite(s: Store, req: RoleWriteRequest) returns (r: Outcome<()>)
    modifies s
    ensures (r, s.entries) == RoleWriteSpec(s.faults, old(s.entries), req)
  {
    if req.name.None? {
      return ErrorResponse("missing role name");
    }
    var name := req.name.value;
    var found := GetRole(s, name);
    if found.Err? {
      return Failure(found.error);
    }
    var merged := AssignFields(found.value.GetOr(ZeroRole), req);
    if !merged.Reply? {
      return match merged
        case ErrorResponse(m) => ErrorResponse(m)
        case Failure(m) => Failure(m)
        case Panic(m) => Panic(m);
    }

    var err := SetRole(s, name, merged.value);
    if err.Some? {
      return Failure(err.value);
    }
    r := Reply(());
  }

  // ---------------------------------------------------------------------------------------------
  // Properties of a write

  /** A write without a role name is answered with an error response and stores nothing. */
  lemma WriteWithoutName(faults: Faults, entries: map<string, Entry>, req: RoleWriteRequest)
    requires req.name.None?
    ensures RoleWriteSpec(faults, entries, req) == (ErrorResponse("missing role name"), entries)
  {
  }

  /**
   * A create that lacks a required field fails with the first one missing in the order owner,
   * owner_env, resource, resource_env, and stores nothing.
   */
  lemma CreateMissingField(faults: Faults, entries: map<string, Entry>, req: RoleWriteRequest)
    requires req.op == Create && req.name.Some? && LookupRole(faults, entries, req.name.value).Ok?
    ensures var (r, after) := RoleWriteSpec(faults, entries, req);
      && (req.owner.None? ==> r == Failure("missing owner in role"))
      && (req.owner.Some? && req.ownerEnv.None? ==> r == Failure("missing owner_env in role"))
      && (req.owner.Some? && req.ownerEnv.Some? && req.resource.None? ==> r == Failure("missing resource in role"))
      && (req.owner.Some? && req.ownerEnv.Some? && req.resource.Some? && req.resourceEnv.None? ==>
            r == Failure("missing resource_env in role"))
      && (r.Failure? ==> after == entries)
  {
  }

  /**
   * An update on a readable and writable store either stores the merged role or is refused by the ttl
   * check: no field is required.
   */
  lemma UpdateNeedsNoField(faults: Faults, entries: map<string, Entry>, req: RoleWriteRequest)
    requires req.op == Update && req.name.Some? && faults.put.None?
    requires LookupRole(faults, entries, req.name.value).Ok?
    ensures var (r, _) := RoleWriteSpec(faults, entries, req);
      r == Reply(()) || r == ErrorResponse("ttl cannot be greater than max_ttl")
  {
  }

  /**
   * A successful write stores, under the role's key only, the role it started from with every supplied
   * field overwritten; an omitted field keeps its stored value on update, while an omitted ttl or
   * max_ttl becomes 0 on create. The multi-use state is carried over untouched.
   */
  lemma WriteMerges(faults: Faults, entries: map<string, Entry>, req: RoleWriteRequest)
    requires req.name.Some? && RoleWriteSpec(faults, entries, req).0.Reply?
    ensures var name := req.name.value;
      var base := LookupRole(faults, entries, name).value.GetOr(ZeroRole);
      var after := RoleWriteSpec(faults, entries, req).1;
      && LookupRole(faults, entries, name).Ok?
      && after == entries[RoleKey(name) := RoleEntry(after[RoleKey(name)].role)]
      && var stored := after[RoleKey(name)].role;
      && stored.owner == req.owner.GetOr(base.owner)
      && stored.ownerEnv == req.ownerEnv.GetOr(base.ownerEnv)
      && stored.resource == req.resource.GetOr(base.resource)
      && stored.resourceEnv == req.resourceEnv.GetOr(base.resourceEnv)
      && stored.ttl == (if req.op == Create then req.ttl.GetOr(0) else req.ttl.GetOr(base.ttl))
      && stored.maxTtl == (if req.op == Create then req.maxTtl.GetOr(0) else req.maxTtl.GetOr(base.maxTtl))
      && stored.multiUseKey == base.multiUseKey && stored.usageCount == base.usageCount
      && stored.ccKeyId == base.ccKeyId && stored.ccKeySecret == base.ccKeySecret
      && stored.displayNameTmpl == base.displayNameTmpl && stored.descriptionTmpl == base.descriptionTmpl
      && TtlBounded(stored)
  {
  }

  /**
   * Once the fields are merged, the write is refused with an error response exactly when the merged
   * max_ttl is non-zero and below the merged ttl; the refusal stores nothing. The check runs on the
   * merged role, so a partial update of ttl is held against the stored max_ttl.
   */
  lemma TtlCheckAfterMerge(faults: Faults, entries: map<string, Entry>, req: RoleWriteRequest)
    requires req.name.Some? && MissingField(req).None?
    requires LookupRole(faults, entries, req.name.value).Ok?
    ensures var base := LookupRole(faults, entries, req.name.value).value.GetOr(ZeroRole);
      var m := Merged(base, req);
      var (r, after) := RoleWriteSpec(faults, entries, req);
      && (r == ErrorResponse("ttl cannot be greater than max_ttl") <==> m.maxTtl != 0 && m.ttl > m.maxTtl)
      && (m.maxTtl == 0 ==> !r.ErrorResponse?)
      && (r.ErrorResponse? ==> after == entries)
  {
  }

  /** Every stored role keeps its ttl within a non-zero max_ttl. */
  ghost predicate AllRolesBounded(entries: map<string, Entry>)
  {
    forall k :: k in entries && entries[k].RoleEntry? ==> TtlBounded(entries[k].role)
  }

  /** A write never stores a role whose ttl exceeds its non-zero max_ttl. */
  lemma WriteKeepsTtlBound(faults: Faults, entries: map<string, Entry>, req: RoleWriteRequest)
    requires AllRolesBounded(entries)
    ensures AllRolesBounded(RoleWriteSpec(faults, entries, req).1)
  {
    if RoleWriteSpec(faults, entries, req).0.Reply? {
      WriteMerges(faults, entries, req);
    }
  }

  /** No stored role has a positive usage count. */
  ghost predicate NoPositiveUsage(entries: map<string, Entry>)
  {
    forall k :: k in entries && entries[k].RoleEntry? ==> entries[k].role.usageCount <= 0
  }

  /**
   * A write never raises a usage count above 0: it carries the count over from the stored role, or
   * from the zero role when none is stored.
   */
  lemma WriteKeepsNoPositiveUsage(faults: Faults, entries: map<string, Entry>, req: RoleWriteRequest)
    requires NoPositiveUsage(entries)
    ensures NoPositiveUsage(RoleWriteSpec(faults, entries, req).1)
  {
    if RoleWriteSpec(faults, entries, req).0.Reply? {
      WriteMerges(faults, entries, req);
      var name := req.name.value;
      var found := LookupRole(faults, entries, name);
      if found.value.Some? && RoleKey(name) in entries {
        assert entries[RoleKey(name)].RoleEntry? ==> found.value.value == entries[RoleKey(name)].role;
      }
    }
  }

  /** No stored role is marked multi-use. */
  ghost predicate AllSingleUse(entries: map<string, Entry>)
  {
    forall k :: k in entries && entries[k].RoleEntry? ==> !entries[k].role.multiUseKey
  }

  /**
   * A write never marks a role multi-use: the flag is carried over from the stored role, or from the
   * zero role when none is stored, so on a store the handlers built every role is single-use.
   */
  lemma WriteKeepsSingleUse(faults: Faults, entries: map<string, Entry>, req: RoleWriteRequest)
    requires AllSingleUse(entries)
    ensures AllSingleUse(RoleWriteSpec(faults, entries, req).1)
    ensures var name := req.name.GetOr("");
      var found := LookupRole(faults, RoleWriteSpec(faults, entries, req).1, name);
      found.Ok? && found.value.Some? ==> !found.value.value.multiUseKey
  {
    var after := RoleWriteSpec(faults, entries, req).1;
    if RoleWriteSpec(faults, entries, req).0.Reply? {
      WriteMerges(faults, entries, req);
      var name := req.name.value;
      var found := LookupRole(faults, entries, name);
      if found.value.Some? && RoleKey(name) in entries {
        assert entries[RoleKey(name)].RoleEntry? ==> found.value.value == entries[RoleKey(name)].role;
      }
    }
    var name := req.name.GetOr("");
    if name != "" && faults.get.None? && RoleKey(name) in after && after[RoleKey(name)].RoleEntry? {
      assert !after[RoleKey(name)].role.multiUseKey;
    }
  }

  /** On such a store, every role a lookup yields has a usage count of at most 0. */
  lemma LookupUsageNotPositive(faults: Faults, entries: map<string, Entry>, name: string)
    requires NoPositiveUsage(entries)
    ensures var found := LookupRole(faults, entries, name);
      found.Ok? && found.value.Some? ==> found.value.value.usageCount <= 0
  {
    if name != "" && faults.get.None? && RoleKey(name) in entries && entries[RoleKey(name)].RoleEntry? {
      assert entries[RoleKey(name)].role.usageCount <= 0;
    }
  }

  // ---------------------------------------------------------------------------------------------
  // Many creates, then list

  /** A create that passes every check of the handler. */
  predicate ValidCreate(req: RoleWriteRequest)
  {
    && req.op == Create && req.name.Some? && req.name.value != ""
    && MissingField(req).None? && TtlBounded(Merged(ZeroRole, req))
  }

  /** The names a sequence of writes addresses ("" where a write has none). */
  function Names(reqs: seq<RoleWriteRequest>): (ns: seq<string>)
    ensures |ns| == |reqs|
    ensures forall i :: 0 <= i < |reqs| ==> ns[i] == reqs[i].name.GetOr("")
  {
    if reqs == [] then [] else [reqs[0].name.GetOr("")] + Names(reqs[1..])
  }

  predicate Distinct(ns: seq<string>)
  {
    forall i, j :: 0 <= i < j < |ns| ==> ns[i] != ns[j]
  }

  /** The store after running the writes one after another. */
  function WriteAll(faults: Faults, entries: map<string, Entry>, reqs: seq<RoleWriteRequest>): map<string, Entry>
    decreases |reqs|
  {
    if reqs == [] then entries else WriteAll(faults, RoleWriteSpec(faults, entries, reqs[0]).1, reqs[1..])
  }

  /** A name whose key is stored is listed. */
  lemma StoredIsListed(entries: map<string, Entry>, name: string)
    ensures RoleKey(name) in entries ==> name in RoleNames(entries)
  {
    var k := RoleKey(name);
    if k in entries {
      assert RolePrefix <= k && k[|RolePrefix|..] == name;
    }
  }

  /** Storing under a fresh role key adds exactly that name to the listing. */
  lemma {:induction false} ListAfterStore(entries: map<string, Entry>, name: string, e: Entry)
    ensures RoleNames(entries[RoleKey(name) := e]) == RoleNames(entries) + {name}
  {
    var after := entries[RoleKey(name) := e];
    assert RoleKey(name) in after && RoleKey(name)[|RolePrefix|..] == name;
    forall n | n in RoleNames(after) ensures n in RoleNames(entries) + {name} {
      var k :| k in after && RolePrefix <= k && k[|RolePrefix|..] == n;
      if k != RoleKey(name) {
        assert k in entries;
      }
    }
    forall n | n in RoleNames(entries) ensures n in RoleNames(after) {
      var k :| k in entries && RolePrefix <= k && k[|RolePrefix|..] == n;
      assert k in after;
    }
  }

  /**
   * Creating roles under distinct, not yet stored names lists exactly the earlier names plus the new
   * ones.
   */
  lemma {:induction false} CreatesAreListed(faults: Faults, entries: map<string, Entry>, reqs: seq<RoleWriteRequest>)
    requires faults.get.None? && faults.put.None?
    requires forall i :: 0 <= i < |reqs| ==> ValidCreate(reqs[i])
    requires Distinct(Names(reqs))
    requires forall i :: 0 <= i < |reqs| ==> RoleKey(Names(reqs)[i]) !in entries
    ensures RoleNames(WriteAll(faults, entries, reqs)) == RoleNames(entries) + set n | n in Names(reqs)
    decreases |reqs|
  {
    if reqs != [] {
      var req := reqs[0];
      var name := req.name.value;
      assert LookupRole(faults, entries, name) == Ok(None);
      var next := entries[RoleKey(name) := RoleEntry(Merged(ZeroRole, req))];
      assert RoleWriteSpec(faults, entries, req).1 == next;
      ListAfterStore(entries, name, RoleEntry(Merged(ZeroRole, req)));
      var rest := reqs[1..];
      forall i | 0 <= i < |rest| ensures RoleKey(Names(rest)[i]) !in next {
        assert Names(rest)[i] == Names(reqs)[i + 1];
        RoleKeyInjective(Names(rest)[i], name);
      }
      forall i, j | 0 <= i < j < |rest| ensures Names(rest)[i] != Names(rest)[j] {
        assert Names(rest)[i] == Names(reqs)[i + 1] && Names(rest)[j] == Names(reqs)[j + 1];
      }
      CreatesAreListed(faults, next, rest);
      assert Names(reqs) == [name] + Names(rest);
    }
  }

  /** A sequence without repeats has as many distinct members as elements. */
  lemma {:induction false} DistinctCount(ns: seq<string>)
    requires Distinct(ns)
    ensures |set n | n in ns| == |ns|
  {
    if ns != [] {
      var tail := ns[1..];
      assert Distinct(tail) by {
        forall i, j | 0 <= i < j < |tail| ensures tail[i] != tail[j] {
          assert tail[i] == ns[i + 1] && tail[j] == ns[j + 1];
        }
      }
      DistinctCount(tail);
      assert (set n | n in ns) == (set n | n in tail) + {ns[0]};
      assert ns[0] !in (set n | n in tail);
    }
  }

  /** Creating N roles under distinct names on a store without roles lists exactly N names. */
  lemma CreatedCountListed(faults: Faults, entries: map<string, Entry>, reqs: seq<RoleWriteRequest>)
    requires faults.get.None? && faults.put.None?
    requires forall i :: 0 <= i < |reqs| ==> ValidCreate(reqs[i])
    requires Distinct(Names(reqs))
    requires RoleNames(entries) == {}
    ensures |RoleNames(WriteAll(faults, entries, reqs))| == |reqs|
  {
    forall i | 0 <= i < |reqs| ensures RoleKey(Names(reqs)[i]) !in entries {
      StoredIsListed(entries, Names(reqs)[i]);
    }
    CreatesAreListed(faults, entries, reqs);
    DistinctCount(Names(reqs));
  }
}
