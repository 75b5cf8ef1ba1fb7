/** The scope gate on a Terraform plan: one in-place update of one admitted leaf. */
module PlanScope {
  import opened Json
  import TextOrder

  // ----- Tree difference -----

  ghost predicate LeastKey(keys: set<string>, key: string) {
    key in keys && forall other :: other in keys ==> TextOrder.AtMost(key, other)
  }

  lemma {:induction false} LeastKeyExists(keys: set<string>)
    requires keys != {}
    ensures exists least :: LeastKey(keys, least)
    decreases |keys|
  {
    var one :| one in keys;
    if keys == {one} {
      assert LeastKey(keys, one);
    } else {
      LeastKeyExists(keys - {one});
      var other :| LeastKey(keys - {one}, other);
      TextOrder.LessTotal(one, other);
      if TextOrder.Less(one, other) {
        forall k | k in keys ensures TextOrder.AtMost(one, k) {
          assert k != one ==> k in keys - {one};
          if k != one && k != other { TextOrder.LessTransitive(one, other, k); }
        }
        assert LeastKey(keys, one);
      } else {
        assert LeastKey(keys, other);
      }
    }
  }

  /** `sorted` of a set of keys. */
  ghost function SortedKeys(keys: set<string>): (sorted: seq<string>)
    ensures forall key :: key in sorted <==> key in keys
    ensures forall i, j :: 0 <= i < j < |sorted| ==> sorted[i] != sorted[j]
    decreases |keys|
  {
    if keys == {} then []
    else
      LeastKeyExists(keys);
      var key :| LeastKey(keys, key);
      [key] + SortedKeys(keys - {key})
  }

  function Decimal(n: nat): string {
    if n < 10 then ['0' + n as char] else Decimal(n / 10) + ['0' + (n % 10) as char]
  }

  function Child(prefix: string, key: string): string {
    if prefix != "" then prefix + "." + key else key
  }

  function Item(prefix: string, index: nat): string { prefix + "[" + Decimal(index) + "]" }

  /** `_changed_paths`: the paths of the leaves that differ. */
  ghost function ChangedPaths(before: Json, after: Json, prefix: string): seq<string>
    decreases before, 2, 0
  {
    match (before, after)
    case (Object(xs), Object(ys)) => KeyPaths(before, after, SortedKeys(xs.Keys + ys.Keys), prefix)
    case (Array(xs), Array(ys)) =>
      if |xs| != |ys| then [prefix] else ItemPaths(before, after, 0, prefix)
    case _ => if Same(before, after) then [] else [prefix]
  }

  /** What one key contributes. */
  ghost function KeyPath(before: Json, after: Json, key: string, prefix: string): seq<string>
    requires before.Object? && after.Object?
    decreases before, 0, 0
  {
    if key !in before.fields || key !in after.fields then [Child(prefix, key)]
    else ChangedPaths(before.fields[key], after.fields[key], Child(prefix, key))
  }

  ghost function KeyPaths(before: Json, after: Json, keys: seq<string>, prefix: string): seq<string>
    requires before.Object? && after.Object?
    decreases before, 1, |keys|
  {
    if keys == [] then [] else KeyPath(before, after, keys[0], prefix) + KeyPaths(before, after, keys[1..], prefix)
  }

  ghost function ItemPaths(before: Json, after: Json, index: nat, prefix: string): seq<string>
    requires before.Array? && after.Array? && |before.items| == |after.items| && index <= |before.items|
    decreases before, 1, |before.items| - index
  {
    if index == |before.items| then []
    else ChangedPaths(before.items[index], after.items[index], Item(prefix, index))
         + ItemPaths(before, after, index + 1, prefix)
  }

  lemma {:induction false} KeyPathsEmpty(before: Json, after: Json, keys: seq<string>, prefix: string)
    requires before.Object? && after.Object?
    ensures KeyPaths(before, after, keys, prefix) == [] <==>
            forall key :: key in keys ==> KeyPath(before, after, key, prefix) == []
    decreases |keys|
  {
    if keys != [] {
      KeyPathsEmpty(before, after, keys[1..], prefix);
      var head, rest := KeyPath(before, after, keys[0], prefix), KeyPaths(before, after, keys[1..], prefix);
      assert |head + rest| == |head| + |rest|;
      if head + rest == [] {
        forall key | key in keys ensures KeyPath(before, after, key, prefix) == [] {
          assert key == keys[0] || key in keys[1..];
        }
      } else if head == [] {
        var key :| key in keys[1..] && KeyPath(before, after, key, prefix) != [];
        assert key in keys;
      } else {
        assert keys[0] in keys;
      }
    }
  }

  lemma {:induction false} ItemPathsEmpty(before: Json, after: Json, index: nat, prefix: string)
    requires before.Array? && after.Array? && |before.items| == |after.items| && index <= |before.items|
    ensures ItemPaths(before, after, index, prefix) == [] <==>
            forall i :: index <= i < |before.items| ==>
              ChangedPaths(before.items[i], after.items[i], Item(prefix, i)) == []
    decreases |before.items| - index
  {
    hide ChangedPaths, Item;
    if index < |before.items| {
      ItemPathsEmpty(before, after, index + 1, prefix);
      var head, rest := ChangedPaths(before.items[index], after.items[index], Item(prefix, index)),
                        ItemPaths(before, after, index + 1, prefix);
      assert ItemPaths(before, after, index, prefix) == head + rest && |head + rest| == |head| + |rest|;
    }
  }

  lemma ObjectPaths(before: Json, after: Json, prefix: string)
    requires before.Object? && after.Object?
    ensures ChangedPaths(before, after, prefix)
            == KeyPaths(before, after, SortedKeys(before.fields.Keys + after.fields.Keys), prefix)
  {
    hide KeyPaths, KeyPath, SortedKeys, Same;
  }

  lemma KeyPathOf(before: Json, after: Json, key: string, prefix: string)
    requires before.Object? && after.Object?
    ensures key in before.fields && key in after.fields ==>
              KeyPath(before, after, key, prefix) == ChangedPaths(before.fields[key], after.fields[key], Child(prefix, key))
    ensures !(key in before.fields && key in after.fields) ==> KeyPath(before, after, key, prefix) != []
  {
  }

  lemma SameObjects(before: Json, after: Json)
    requires before.Object? && after.Object?
    ensures Same(before, after) <==>
              && before.fields.Keys == after.fields.Keys
              && forall key :: key in before.fields ==> Same(before.fields[key], after.fields[key])
  {
  }

  /** Two objects are equal exactly when no key contributes a path. */
  lemma ObjectUnchanged(before: Json, after: Json, prefix: string)
    requires before.Object? && after.Object?
    requires forall key :: key in before.fields && key in after.fields ==>
               (KeyPath(before, after, key, prefix) == [] <==> Same(before.fields[key], after.fields[key]))
    ensures ChangedPaths(before, after, prefix) == [] <==> Same(before, after)
  {
    hide ChangedPaths, KeyPath, KeyPaths, Same;
    var keys := SortedKeys(before.fields.Keys + after.fields.Keys);
    ObjectPaths(before, after, prefix);
    KeyPathsEmpty(before, after, keys, prefix);
    SameObjects(before, after);
    forall key | key in keys
      ensures (key in before.fields && key in after.fields) || KeyPath(before, after, key, prefix) != []
    {
      KeyPathOf(before, after, key, prefix);
    }
    if KeyPaths(before, after, keys, prefix) == [] {
      forall key | key in before.fields || key in after.fields ensures key in before.fields && key in after.fields {
        assert key in keys;
      }
      assert before.fields.Keys == after.fields.Keys;
    }
  }

  /** No path differs exactly when the trees are equal. */
  lemma {:induction false} UnchangedIffSame(before: Json, after: Json, prefix: string)
    ensures ChangedPaths(before, after, prefix) == [] <==> Same(before, after)
    decreases before
  {
    match (before, after)
    case (Object(xs), Object(ys)) =>
      hide ChangedPaths, Same;
      forall key | key in xs && key in ys
        ensures KeyPath(before, after, key, prefix) == [] <==> Same(xs[key], ys[key])
      {
        UnchangedIffSame(xs[key], ys[key], Child(prefix, key));
      }
      ObjectUnchanged(before, after, prefix);
    case (Array(xs), Array(ys)) =>
      if |xs| == |ys| {
        ItemPathsEmpty(before, after, 0, prefix);
        forall i | 0 <= i < |xs|
          ensures ChangedPaths(xs[i], ys[i], Item(prefix, i)) == [] <==> Same(xs[i], ys[i])
        {
          UnchangedIffSame(xs[i], ys[i], Item(prefix, i));
        }
      }
    case _ =>
  }

  /** The two objects hold the same keys, and the same values at all of them but `key`. */
  ghost predicate SameBut(xs: map<string, Json>, ys: map<string, Json>, key: string) {
    && xs.Keys == ys.Keys && key in xs
    && forall other :: other in xs && other != key ==> Same(xs[other], ys[other])
  }

  lemma {:induction false} KeyPathsSplit(before: Json, after: Json, keys: seq<string>, key: string, prefix: string)
    requires before.Object? && after.Object?
    requires key in keys && forall i, j :: 0 <= i < j < |keys| ==> keys[i] != keys[j]
    ensures |KeyPaths(before, after, keys, prefix)| >= |KeyPath(before, after, key, prefix)|
    ensures (forall other :: other in keys && other != key ==> KeyPath(before, after, other, prefix) == [])
            ==> KeyPaths(before, after, keys, prefix) == KeyPath(before, after, key, prefix)
    ensures |KeyPaths(before, after, keys, prefix)| == |KeyPath(before, after, key, prefix)| ==>
            forall other :: other in keys && other != key ==> KeyPath(before, after, other, prefix) == []
    decreases |keys|
  {
    var head, rest := KeyPath(before, after, keys[0], prefix), keys[1..];
    assert forall other :: other in keys <==> other == keys[0] || other in rest;
    KeyPathsEmpty(before, after, rest, prefix);
    if keys[0] == key {
      assert key !in rest;
      assert head + [] == head;
    } else {
      KeyPathsSplit(before, after, rest, key, prefix);
    }
  }

  /** When a key differs, it accounts for the whole difference exactly if nothing else differs. */
  lemma SingleKey(before: Json, after: Json, key: string, prefix: string)
    requires before.Object? && after.Object? && key in before.fields && key in after.fields
    ensures var paths := ChangedPaths(before, after, prefix);
            var own := ChangedPaths(before.fields[key], after.fields[key], Child(prefix, key));
            && (SameBut(before.fields, after.fields, key) ==> paths == own)
            && (|paths| == |own| ==> SameBut(before.fields, after.fields, key))
            && |own| <= |paths|
  {
    hide ChangedPaths, KeyPath, KeyPaths, Same;
    var xs, ys := before.fields, after.fields;
    var keys := SortedKeys(xs.Keys + ys.Keys);
    ObjectPaths(before, after, prefix);
    KeyPathsSplit(before, after, keys, key, prefix);
    KeyPathOf(before, after, key, prefix);
    forall other | other in keys
      ensures KeyPath(before, after, other, prefix) == [] <==> other in xs && other in ys && Same(xs[other], ys[other])
    {
      KeyPathOf(before, after, other, prefix);
      if other in xs && other in ys { UnchangedIffSame(xs[other], ys[other], Child(prefix, other)); }
    }
    var paths, own := ChangedPaths(before, after, prefix), KeyPath(before, after, key, prefix);
    if |paths| == |own| {
      forall other | other in xs || other in ys ensures other in xs && other in ys {
        assert other in keys;
      }
      assert xs.Keys == ys.Keys;
    }
  }

  lemma SingleItem(before: Json, after: Json, prefix: string)
    requires before.Array? && after.Array? && |before.items| == |after.items| == 1
    ensures ChangedPaths(before, after, prefix) == ChangedPaths(before.items[0], after.items[0], Item(prefix, 0))
  {
    assert ItemPaths(before, after, 1, prefix) == [];
  }

  // ----- The admitted changes -----

  const AZURE_STORAGE := "azurerm_storage_account"
  const S3_VERSIONING := "aws_s3_bucket_versioning"
  const PUBLIC_ACCESS := "public_network_access_enabled"
  const VERSIONING := "versioning_configuration"
  const STATUS := "status"

  function ResourceType(target: string): string {
    if target == "" || target[0] == '.' then "" else [target[0]] + ResourceType(target[1..])
  }

  /** The type of an address is what stands before its first dot, or all of it. */
  lemma {:induction false} ResourceTypeIs(kind: string, rest: string)
    requires '.' !in kind && (rest == "" || rest[0] == '.')
    ensures ResourceType(kind + rest) == kind
  {
    if kind == "" {
      assert kind + rest == rest;
    } else {
      assert (kind + rest)[1..] == kind[1..] + rest;
      ResourceTypeIs(kind[1..], rest);
    }
  }

  function Field(j: Json, key: string): Json {
    if j.Object? && key in j.fields then j.fields[key] else Null
  }

  predicate SingleObject(j: Json) { j.Array? && |j.items| == 1 && j.items[0].Object? }

  predicate StatusIn(j: Json, statuses: set<string>) {
    SingleObject(j) && Field(j.items[0], STATUS).Text? && Field(j.items[0], STATUS).text in statuses
  }

  /** `_allowed_target_change`. */
  predicate AllowedTargetChange(target: string, before: Json, after: Json, paths: seq<string>) {
    && before.Object? && after.Object?
    && (if ResourceType(target) == AZURE_STORAGE then
          && paths == [PUBLIC_ACCESS]
          && Field(before, PUBLIC_ACCESS) == Bool(true)
          && Field(after, PUBLIC_ACCESS) == Bool(false)
        else if ResourceType(target) == S3_VERSIONING then
          && paths == [Child(Item(VERSIONING, 0), STATUS)]
          && StatusIn(Field(before, VERSIONING), {"Disabled", "Suspended"})
          && StatusIn(Field(after, VERSIONING), {"Enabled"})
        else false)
  }

  /** Exactly one leaf differs, and it goes from an admitted old value to the admitted new one. */
  ghost predicate OnlyLeaf(target: string, before: Json, after: Json) {
    && before.Object? && after.Object?
    && (if ResourceType(target) == AZURE_STORAGE then
          && SameBut(before.fields, after.fields, PUBLIC_ACCESS)
          && before.fields[PUBLIC_ACCESS] == Bool(true)
          && after.fields[PUBLIC_ACCESS] == Bool(false)
        else if ResourceType(target) == S3_VERSIONING then
          && SameBut(before.fields, after.fields, VERSIONING)
          && StatusIn(before.fields[VERSIONING], {"Disabled", "Suspended"})
          && StatusIn(after.fields[VERSIONING], {"Enabled"})
          && SameBut(before.fields[VERSIONING].items[0].fields, after.fields[VERSIONING].items[0].fields, STATUS)
        else false)
  }

  lemma StatusesDiffer()
    ensures "Enabled" !in {"Disabled", "Suspended"}
  {
    assert "Enabled"[0] == 'E' && "Disabled"[0] == 'D' && "Suspended"[0] == 'S';
  }

  lemma AzureScope(before: Json, after: Json)
    requires before.Object? && after.Object?
    requires Field(before, PUBLIC_ACCESS) == Bool(true) && Field(after, PUBLIC_ACCESS) == Bool(false)
    ensures ChangedPaths(before, after, "") == [PUBLIC_ACCESS] <==> SameBut(before.fields, after.fields, PUBLIC_ACCESS)
  {
    SingleKey(before, after, PUBLIC_ACCESS, "");
    assert ChangedPaths(Bool(true), Bool(false), Child("", PUBLIC_ACCESS)) == [PUBLIC_ACCESS];
  }

  /** The configuration contributes the status leaf alone exactly when only the status differs in it. */
  lemma ConfigurationScope(before: Json, after: Json, prefix: string)
    requires prefix != ""
    requires StatusIn(before, {"Disabled", "Suspended"}) && StatusIn(after, {"Enabled"})
    ensures var inner := SameBut(before.items[0].fields, after.items[0].fields, STATUS);
            var paths := ChangedPaths(before, after, prefix);
            && |paths| >= 1
            && (inner ==> paths == [Child(Item(prefix, 0), STATUS)])
            && (|paths| == 1 ==> inner)
  {
    var b, a := before.items[0], after.items[0];
    SingleItem(before, after, prefix);
    SingleKey(b, a, STATUS, Item(prefix, 0));
    StatusesDiffer();
    assert !Same(b.fields[STATUS], a.fields[STATUS]);
    assert ChangedPaths(b.fields[STATUS], a.fields[STATUS], Child(Item(prefix, 0), STATUS)) == [Child(Item(prefix, 0), STATUS)];
  }

  lemma S3Scope(before: Json, after: Json)
    requires before.Object? && after.Object?
    requires StatusIn(Field(before, VERSIONING), {"Disabled", "Suspended"}) && StatusIn(Field(after, VERSIONING), {"Enabled"})
    ensures ChangedPaths(before, after, "") == [Child(Item(VERSIONING, 0), STATUS)] <==>
            SameBut(before.fields, after.fields, VERSIONING) &&
            SameBut(before.fields[VERSIONING].items[0].fields, after.fields[VERSIONING].items[0].fields, STATUS)
  {
    ConfigurationScope(before.fields[VERSIONING], after.fields[VERSIONING], VERSIONING);
    SingleKey(before, after, VERSIONING, "");
  }

  /**
   * The gate accepts exactly the changes of the one admitted leaf.  Keys that spell a path do not
   * weaken it: the leaf itself accounts for the single path.
   */
  lemma AllowedIffOnlyLeaf(target: string, before: Json, after: Json)
    ensures AllowedTargetChange(target, before, after, ChangedPaths(before, after, "")) <==>
            OnlyLeaf(target, before, after)
  {
    if before.Object? && after.Object? {
      if ResourceType(target) == AZURE_STORAGE {
        if Field(before, PUBLIC_ACCESS) == Bool(true) && Field(after, PUBLIC_ACCESS) == Bool(false) {
          AzureScope(before, after);
        }
      } else if ResourceType(target) == S3_VERSIONING {
        if StatusIn(Field(before, VERSIONING), {"Disabled", "Suspended"}) && StatusIn(Field(after, VERSIONING), {"Enabled"}) {
          S3Scope(before, after);
        }
      }
    }
  }

  // ----- The whole plan -----

  /** An entry of `resource_changes`; entries that are not objects are skipped. */
  datatype ResourceChange = Skipped | Change(address: string, actions: seq<string>, before: Json, after: Json)

  predicate Touches(item: ResourceChange) { item.Change? && item.actions != ["no-op"] }

  /** The one entry that is not a no-op updates the target in place, at the admitted leaf alone. */
  ghost predicate InScope(items: seq<ResourceChange>, target: string) {
    exists i :: 0 <= i < |items|
      && items[i].Change? && items[i].address == target && items[i].actions == ["update"]
      && OnlyLeaf(target, items[i].before, items[i].after)
      && forall j :: 0 <= j < |items| && j != i ==> items[j].Skipped? || items[j].actions == ["no-op"]
  }

  /** The acceptance loop of `_plan_scope`; `paths` are the differences of each entry. */
  method PlanScope(items: seq<ResourceChange>, target: string, paths: seq<seq<string>>) returns (passed: bool)
    requires |paths| == |items|
    requires forall i :: 0 <= i < |items| && items[i].Change? ==>
               paths[i] == ChangedPaths(items[i].before, items[i].after, "")
    ensures passed <==> InScope(items, target)
  {
    hide OnlyLeaf, AllowedTargetChange, ChangedPaths, Same;
    var changes: seq<nat> := [];
    var targetChange := false;
    var at := 0;
    for i := 0 to |items|
      invariant forall k :: 0 <= k < |changes| ==> changes[k] < i && Touches(items[changes[k]])
      invariant forall j :: 0 <= j < i && Touches(items[j]) ==> j in changes
      invariant forall k :: 0 < k < |changes| ==> changes[k - 1] < changes[k]
      invariant targetChange ==> at < i && Touches(items[at]) && items[at].address == target
      invariant !targetChange ==> forall j :: 0 <= j < i && Touches(items[j]) ==> items[j].address != target
    {
      if Touches(items[i]) {
        changes := changes + [i];
        if items[i].address == target {
          targetChange, at := true, i;
        }
      }
    }
    var structural := |changes| == 1 && items[changes[0]].address == target && items[changes[0]].actions == ["update"];
    var attribute := structural && targetChange
                     && AllowedTargetChange(target, items[at].before, items[at].after, paths[at]);
    passed := structural && attribute;
    if passed {
      assert at in changes;
      AllowedIffOnlyLeaf(target, items[at].before, items[at].after);
    } else if InScope(items, target) {
      var i :| 0 <= i < |items| && items[i].Change?
        && items[i].address == target && items[i].actions == ["update"]
        && OnlyLeaf(target, items[i].before, items[i].after)
        && forall j :: 0 <= j < |items| && j != i ==> items[j].Skipped? || items[j].actions == ["no-op"];
      OneChange(changes, i);
      AllowedIffOnlyLeaf(target, items[i].before, items[i].after);
      assert false;
    }
  }

  lemma OneChange(changes: seq<nat>, i: nat)
    requires i in changes && forall k :: 0 <= k < |changes| ==> changes[k] == i
    requires |changes| > 1 ==> changes[0] < changes[1]
    ensures changes == [i]
  {
  }
}
