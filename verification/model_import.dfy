/** The import-time overrides of a model asset: which remaps the override loop adds, and
    what the importer's external-object map holds afterwards. */
module ModelImport {

  import opened Wrappers
  import opened Naming
  import opened Materials

  /** The key of an external-object override: the type of the source object and its name
      inside the model file. The remapper only ever builds material keys. */
  datatype SourceAssetId = SourceAssetId(typeName: string, name: string)

  const MaterialType := "UnityEngine.Material"

  function MaterialId(internalName: string): SourceAssetId
  {
    SourceAssetId(MaterialType, internalName)
  }

  type ExternalObjectMap = map<SourceAssetId, Material>

  /** One `AddRemap` call. */
  datatype Remap = Remap(id: SourceAssetId, replacement: Material)

  /** The remap added for one slot of the preview instance, judged against the snapshot of
      the override map taken before the loop. */
  function RemapFor(slot: Option<Material>, snapshot: ExternalObjectMap, lookup: Lookup, prefix: string): (r: seq<Remap>)
    ensures |r| <= 1
    ensures r != [] ==> slot.Some? && r[0].id == MaterialId(slot.value.name) &&
                        TargetName(slot.value.name, prefix) in lookup &&
                        r[0].replacement == lookup[TargetName(slot.value.name, prefix)]
    ensures r != [] ==> !(r[0].id in snapshot && snapshot[r[0].id] == r[0].replacement)
  {
    if slot.None? then []
    else
      var internalName := slot.value.name;
      var targetName := TargetName(internalName, prefix);
      if targetName !in lookup then []
      else
        var id := MaterialId(internalName);
        if id in snapshot && snapshot[id] == lookup[targetName] then []
        else [Remap(id, lookup[targetName])]
  }

  /** A remap is justified by `slots`: it is keyed by a material name found there, and its
      replacement is the lookup entry of that name's target and differs from the snapshot. */
  predicate Justified(r: Remap, slots: seq<Option<Material>>, snapshot: ExternalObjectMap, lookup: Lookup, prefix: string)
  {
    && r.id.typeName == MaterialType
    && (exists i :: 0 <= i < |slots| && slots[i].Some? && slots[i].value.name == r.id.name)
    && TargetName(r.id.name, prefix) in lookup
    && r.replacement == lookup[TargetName(r.id.name, prefix)]
    && !(r.id in snapshot && snapshot[r.id] == r.replacement)
  }

  /** The `AddRemap` calls of one pass over the preview's slots, in order. */
  function PlannedRemaps(slots: seq<Option<Material>>, snapshot: ExternalObjectMap, lookup: Lookup, prefix: string): seq<Remap>
  {
    if slots == [] then []
    else PlannedRemaps(slots[..|slots| - 1], snapshot, lookup, prefix) + RemapFor(slots[|slots| - 1], snapshot, lookup, prefix)
  }

  /** A remap is added only when a slot calls for it: one at most per slot, each keyed by a
      material name of the preview, each replacing it with the lookup entry of its target
      name, and none that the snapshot already holds. */
  lemma {:induction false} PlannedRemapsSound(slots: seq<Option<Material>>, snapshot: ExternalObjectMap, lookup: Lookup, prefix: string)
    ensures |PlannedRemaps(slots, snapshot, lookup, prefix)| <= |slots|
    ensures forall r :: r in PlannedRemaps(slots, snapshot, lookup, prefix) ==> Justified(r, slots, snapshot, lookup, prefix)
  {
    if slots != [] {
      var prev := slots[..|slots| - 1];
      var last := slots[|slots| - 1];
      PlannedRemapsSound(prev, snapshot, lookup, prefix);
      forall r | r in PlannedRemaps(slots, snapshot, lookup, prefix)
        ensures Justified(r, slots, snapshot, lookup, prefix)
      {
        if r in PlannedRemaps(prev, snapshot, lookup, prefix) {
          var i :| 0 <= i < |prev| && prev[i].Some? && prev[i].value.name == r.id.name;
          assert slots[i] == prev[i];
        } else {
          assert r in RemapFor(last, snapshot, lookup, prefix);
          assert slots[|slots| - 1] == last;
        }
      }
    }
  }

  lemma PlannedRemapsSnoc(slots: seq<Option<Material>>, x: Option<Material>, snapshot: ExternalObjectMap, lookup: Lookup, prefix: string)
    ensures PlannedRemaps(slots + [x], snapshot, lookup, prefix) ==
            PlannedRemaps(slots, snapshot, lookup, prefix) + RemapFor(x, snapshot, lookup, prefix)
  {
    assert (slots + [x])[..|slots|] == slots;
  }

  /** Every slot that holds a material whose target has an entry, and whose key the snapshot
      does not already map to that entry, gets its remap. */
  lemma {:induction false} PlannedRemapsComplete(slots: seq<Option<Material>>, i: nat, snapshot: ExternalObjectMap, lookup: Lookup, prefix: string)
    requires i < |slots| && slots[i].Some?
    requires TargetName(slots[i].value.name, prefix) in lookup
    requires var id := MaterialId(slots[i].value.name);
             !(id in snapshot && snapshot[id] == lookup[TargetName(slots[i].value.name, prefix)])
    ensures Remap(MaterialId(slots[i].value.name), lookup[TargetName(slots[i].value.name, prefix)])
              in PlannedRemaps(slots, snapshot, lookup, prefix)
  {
    var prev := slots[..|slots| - 1];
    if i < |slots| - 1 {
      assert prev[i] == slots[i];
      PlannedRemapsComplete(prev, i, snapshot, lookup, prefix);
    }
  }

  /** The snapshot is fixed for the whole pass, so the plan of a pass is the plans of its
      parts, one after the other. */
  lemma {:induction false} PlannedRemapsAppend(a: seq<Option<Material>>, b: seq<Option<Material>>, snapshot: ExternalObjectMap, lookup: Lookup, prefix: string)
    ensures PlannedRemaps(a + b, snapshot, lookup, prefix) ==
            PlannedRemaps(a, snapshot, lookup, prefix) + PlannedRemaps(b, snapshot, lookup, prefix)
  {
    if b == [] {
      assert a + b == a;
    } else {
      var prev := b[..|b| - 1];
      PlannedRemapsAppend(a, prev, snapshot, lookup, prefix);
      assert (a + b)[..|a + b| - 1] == a + prev;
      assert (a + b)[|a + b| - 1] == b[|b| - 1];
    }
  }

  /** The preview's slots, renderer after renderer. */
  function Flatten(arrays: seq<MaterialArray>): seq<Option<Material>>
  {
    if arrays == [] then [] else Flatten(arrays[..|arrays| - 1]) + arrays[|arrays| - 1]
  }

  /** The override map after the given `AddRemap` calls, each replacing any earlier entry
      for its key. */
  function ApplyRemaps(m: ExternalObjectMap, plan: seq<Remap>): (r: ExternalObjectMap)
    ensures plan != [] ==> plan[|plan| - 1].id in r && r[plan[|plan| - 1].id] == plan[|plan| - 1].replacement
  {
    if plan == [] then m
    else ApplyRemaps(m, plan[..|plan| - 1])[plan[|plan| - 1].id := plan[|plan| - 1].replacement]
  }

  /** Applying two runs of remaps one after the other is applying them together. */
  lemma {:induction false} ApplyRemapsAppend(m: ExternalObjectMap, a: seq<Remap>, b: seq<Remap>)
    ensures ApplyRemaps(ApplyRemaps(m, a), b) == ApplyRemaps(m, a + b)
  {
    if b == [] {
      assert a + b == a;
    } else {
      var prev := b[..|b| - 1];
      ApplyRemapsAppend(m, a, prev);
      assert (a + b)[..|a + b| - 1] == a + prev;
      assert (a + b)[|a + b| - 1] == b[|b| - 1];
    }
  }

  /** The remaps add their keys and touch nothing else. */
  lemma {:induction false} ApplyRemapsFrame(m: ExternalObjectMap, plan: seq<Remap>)
    ensures ApplyRemaps(m, plan).Keys == m.Keys + set r | r in plan :: r.id
    ensures forall id :: id in m && (forall r :: r in plan ==> r.id != id) ==> ApplyRemaps(m, plan)[id] == m[id]
  {
    if plan != [] {
      var prev := plan[..|plan| - 1];
      var last := plan[|plan| - 1];
      assert plan == prev + [last];
      ApplyRemapsFrame(m, prev);
    }
  }

  lemma ApplyRemapsSnoc(m: ExternalObjectMap, plan: seq<Remap>, r: Remap)
    ensures ApplyRemaps(m, plan + [r]) == ApplyRemaps(m, plan)[r.id := r.replacement]
  {
    assert (plan + [r])[..|plan|] == plan;
  }

  /** A key every remap of the plan writes with the same value `v` ends up holding `v`,
      provided it held `v` before or the plan writes it at all. */
  lemma {:induction false} ApplyRemapsConstantKey(m: ExternalObjectMap, plan: seq<Remap>, id: SourceAssetId, v: Material)
    requires forall p :: p in plan && p.id == id ==> p.replacement == v
    requires (id in m && m[id] == v) || exists p :: p in plan && p.id == id
    ensures id in ApplyRemaps(m, plan) && ApplyRemaps(m, plan)[id] == v
  {
    if plan != [] {
      var prev := plan[..|plan| - 1];
      var last := plan[|plan| - 1];
      assert plan == prev + [last];
      if last.id != id {
        assert (exists p :: p in plan && p.id == id) ==> exists p :: p in prev && p.id == id;
        ApplyRemapsConstantKey(m, prev, id, v);
      }
    }
  }

  /** After the pass, every slot's key maps to the lookup entry of its target name. */
  lemma AppliedPlanCovers(slots: seq<Option<Material>>, i: nat, snapshot: ExternalObjectMap, lookup: Lookup, prefix: string)
    requires i < |slots| && slots[i].Some?
    requires TargetName(slots[i].value.name, prefix) in lookup
    ensures var after := ApplyRemaps(snapshot, PlannedRemaps(slots, snapshot, lookup, prefix));
            var id := MaterialId(slots[i].value.name);
            id in after && after[id] == lookup[TargetName(slots[i].value.name, prefix)]
  {
    var plan := PlannedRemaps(slots, snapshot, lookup, prefix);
    var name := slots[i].value.name;
    var id := MaterialId(name);
    var v := lookup[TargetName(name, prefix)];
    PlannedRemapsSound(slots, snapshot, lookup, prefix);
    forall p | p in plan && p.id == id
      ensures p.replacement == v
    {
      assert Justified(p, slots, snapshot, lookup, prefix);
    }
    if !(id in snapshot && snapshot[id] == v) {
      PlannedRemapsComplete(slots, i, snapshot, lookup, prefix);
    }
    ApplyRemapsConstantKey(snapshot, plan, id, v);
  }

  /** No remaps are planned when every slot's key already holds its replacement. */
  lemma {:induction false} NothingPlannedWhenSettled(slots: seq<Option<Material>>, m: ExternalObjectMap, lookup: Lookup, prefix: string)
    requires forall i :: 0 <= i < |slots| && slots[i].Some? && TargetName(slots[i].value.name, prefix) in lookup ==>
               MaterialId(slots[i].value.name) in m &&
               m[MaterialId(slots[i].value.name)] == lookup[TargetName(slots[i].value.name, prefix)]
    ensures PlannedRemaps(slots, m, lookup, prefix) == []
  {
    if slots != [] {
      var prev := slots[..|slots| - 1];
      assert forall i :: 0 <= i < |prev| ==> prev[i] == slots[i];
      NothingPlannedWhenSettled(prev, m, lookup, prefix);
    }
  }

  /** A second pass over the same preview, against the override map the first pass left,
      adds no remap (and so triggers no reimport). */
  lemma PlannedRemapsIdempotent(slots: seq<Option<Material>>, snapshot: ExternalObjectMap, lookup: Lookup, prefix: string)
    ensures PlannedRemaps(slots, ApplyRemaps(snapshot, PlannedRemaps(slots, snapshot, lookup, prefix)), lookup, prefix) == []
  {
    var after := ApplyRemaps(snapshot, PlannedRemaps(slots, snapshot, lookup, prefix));
    forall i | 0 <= i < |slots| && slots[i].Some? && TargetName(slots[i].value.name, prefix) in lookup
      ensures MaterialId(slots[i].value.name) in after &&
              after[MaterialId(slots[i].value.name)] == lookup[TargetName(slots[i].value.name, prefix)]
    {
      AppliedPlanCovers(slots, i, snapshot, lookup, prefix);
    }
    NothingPlannedWhenSettled(slots, after, lookup, prefix);
  }

  /** The snapshot is not refreshed within a pass: two slots with the same internal name add
      the same remap twice. */
  lemma RepeatedNameIsAddedTwice(m: Material, replacement: Material)
    requires m.name == "Body"
    ensures var lookup := map["M_Body" := replacement];
            PlannedRemaps([Some(m), Some(m)], map[], lookup, DefaultPrefix) ==
              [Remap(MaterialId("Body"), replacement), Remap(MaterialId("Body"), replacement)]
  {
    TargetNameExamples();
    var lookup := map["M_Body" := replacement];
    var r := Remap(MaterialId("Body"), replacement);
    assert RemapFor(Some(m), map[], lookup, DefaultPrefix) == [r];
    assert [Some(m), Some(m)][..1] == [Some(m)];
    assert [Some(m)][..0] == [];
    assert PlannedRemaps([Some(m)], map[], lookup, DefaultPrefix) == [] + [r];
  }

  /** The remapper's second run in the editor. A reimport makes the preview show each
      remapped slot's replacement, so a slot that showed "Body" before the first run shows
      the folder's "M_Body" afterwards. No override is keyed by that name yet. The second run
      therefore adds a remap under "M_Body", and only a third run adds nothing. */
  lemma ReimportedPreviewAddsPrefixedKey(body: Material, mBody: Material)
    requires body.name == "Body" && mBody.name == "M_Body"
    ensures var lookup := map["M_Body" := mBody];
            var first := PlannedRemaps([Some(body)], map[], lookup, DefaultPrefix);
            var afterFirst := ApplyRemaps(map[], first);
            var second := PlannedRemaps([Some(mBody)], afterFirst, lookup, DefaultPrefix);
            first == [Remap(MaterialId("Body"), mBody)] &&
            second == [Remap(MaterialId("M_Body"), mBody)] &&
            PlannedRemaps([Some(mBody)], ApplyRemaps(afterFirst, second), lookup, DefaultPrefix) == []
  {
    TargetNameExamples();
    var lookup := map["M_Body" := mBody];
    var r1 := Remap(MaterialId("Body"), mBody);
    PlannedRemapsSnoc([], Some(body), map[], lookup, DefaultPrefix);
    assert [] + [Some(body)] == [Some(body)];
    ApplyRemapsSnoc(map[], [], r1);
    assert [] + [r1] == [r1];
    var afterFirst := map[MaterialId("Body") := mBody];
    assert MaterialId("M_Body") !in afterFirst;
    PlannedRemapsSnoc([], Some(mBody), afterFirst, lookup, DefaultPrefix);
    assert [] + [Some(mBody)] == [Some(mBody)];
    PlannedRemapsIdempotent([Some(mBody)], afterFirst, lookup, DefaultPrefix);
  }

}
