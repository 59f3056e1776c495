/** The editor window's workflow over the host's asset database: validate the folder,
    build the lookup, then, inside one batched-edit session, dispatch every selected asset
    to the prefab path or the model path. */
module Remapper {

  import opened Wrappers
  import opened Naming
  import opened Dispatch
  import opened Materials
  import opened Hierarchy
  import opened ModelImport

  /** A prefab on disk: the material arrays of its renderers (inactive ones included, in
      hierarchy order) and how many times it has been saved. */
  datatype PrefabAsset = PrefabAsset(renderers: seq<MaterialArray>, saves: nat)

  /** A model's importer settings: its external-object overrides, the `AddRemap` calls it
      received and the reimports it went through. */
  datatype ImporterState = ImporterState(externalObjectMap: ExternalObjectMap, addRemapCalls: nat, reimports: nat)

  /** A model file: the material arrays of a preview instance's renderers (the materials an
      instance of the model shows) and its importer, when it has a model importer. */
  datatype ModelAsset = ModelAsset(preview: seq<MaterialArray>, importer: Option<ImporterState>)

  /** The part of the asset database the remapper writes. */
  datatype AssetStore = AssetStore(prefabs: map<string, PrefabAsset>, models: map<string, ModelAsset>)

  datatype BatchEvent = EditingStarted | EditingStopped | Refreshed

  /** How one press of the button ends: rejected before any editing, or after a batched-edit
      session, which went through the whole selection (`thrown` is None) or was cut short by
      an exception raised on the asset `thrown` names. */
  datatype BatchOutcome = InvalidFolder | NoMaterials | Edited(thrown: Option<string>)

  /** The prefab path: the rewritten hierarchy is saved, once, when some slot changed;
      otherwise the prefab on disk is left as it was. */
  function PrefabAfterRemap(p: PrefabAsset, lookup: Lookup, prefix: string): (r: PrefabAsset)
    ensures r.renderers == RemapHierarchy(p.renderers, lookup, prefix)
    ensures r.saves == p.saves || r.saves == p.saves + 1
    ensures r.saves == p.saves ==> r == p
  {
    FirstChangeIffRemapDiffers(p.renderers, lookup, prefix);
    if FirstChange(p.renderers, lookup, prefix) < |p.renderers|
    then PrefabAsset(RemapHierarchy(p.renderers, lookup, prefix), p.saves + 1)
    else p
  }

  /** The prefab is saved exactly when the rewrite changes its hierarchy. */
  lemma PrefabSavedIffChanged(p: PrefabAsset, lookup: Lookup, prefix: string)
    ensures PrefabAfterRemap(p, lookup, prefix).saves == p.saves + 1 <==>
            RemapHierarchy(p.renderers, lookup, prefix) != p.renderers
  {
    FirstChangeIffRemapDiffers(p.renderers, lookup, prefix);
  }

  /** The importer after the given `AddRemap` calls. */
  function WithRemaps(imp: ImporterState, plan: seq<Remap>): (r: ImporterState)
    ensures r.addRemapCalls == imp.addRemapCalls + |plan|
    ensures r.reimports == imp.reimports
  {
    imp.(externalObjectMap := ApplyRemaps(imp.externalObjectMap, plan),
         addRemapCalls := imp.addRemapCalls + |plan|)
  }

  lemma WithRemapsAppend(imp: ImporterState, a: seq<Remap>, b: seq<Remap>)
    ensures WithRemaps(WithRemaps(imp, a), b) == WithRemaps(imp, a + b)
  {
    ApplyRemapsAppend(imp.externalObjectMap, a, b);
  }

  lemma WithRemapsSnoc(imp: ImporterState, plan: seq<Remap>, r: Remap)
    ensures WithRemaps(WithRemaps(imp, plan), [r]) == WithRemaps(imp, plan + [r])
  {
    var m := ApplyRemaps(imp.externalObjectMap, plan);
    assert [r][..0] == [];
    assert ApplyRemaps(m, [r]) == ApplyRemaps(m, [])[r.id := r.replacement];
    ApplyRemapsSnoc(imp.externalObjectMap, plan, r);
  }

  /** The model path: the planned remaps are added to the importer, which is reimported
      once exactly when at least one was added. A model without an importer is left alone.
      The preview is kept as it was: what the reimport does to the model's own materials is
      outside this model. */
  function ModelAfterRemap(m: ModelAsset, lookup: Lookup, prefix: string): (r: ModelAsset)
    ensures r.preview == m.preview
    ensures r.importer.Some? <==> m.importer.Some?
    ensures m.importer.None? ==> r == m
    ensures m.importer.Some? ==>
              var before, after := m.importer.value, r.importer.value;
              after.addRemapCalls >= before.addRemapCalls &&
              after.reimports == before.reimports + (if after.addRemapCalls > before.addRemapCalls then 1 else 0)
  {
    match m.importer
    case None => m
    case Some(imp) =>
      var plan := PlannedRemaps(Flatten(m.preview), imp.externalObjectMap, lookup, prefix);
      var added := WithRemaps(imp, plan);
      m.(importer := Some(added.(reimports := imp.reimports + if |plan| > 0 then 1 else 0)))
  }

  /** The model path as the importer sees it: the pass's calls, then one reimport when there
      was a call, and no change at all when there was none. */
  lemma ModelAfterRemapOfImporter(m: ModelAsset, imp: ImporterState, lookup: Lookup, prefix: string)
    requires m.importer == Some(imp)
    ensures var plan := PlannedRemaps(Flatten(m.preview), imp.externalObjectMap, lookup, prefix);
            ModelAfterRemap(m, lookup, prefix) ==
              if |plan| > 0 then m.(importer := Some(WithRemaps(imp, plan).(reimports := imp.reimports + 1)))
              else m
  {
  }

  /** One selected asset, dispatched by kind. */
  function ProcessAsset(s: AssetStore, path: string, lookup: Lookup, prefix: string): (r: AssetStore)
    ensures r.prefabs.Keys == s.prefabs.Keys && r.models.Keys == s.models.Keys
    ensures KindOf(path) != Prefab ==> r.prefabs == s.prefabs
    ensures KindOf(path) != Model ==> r.models == s.models
  {
    match KindOf(path)
    case Prefab =>
      if path in s.prefabs then s.(prefabs := s.prefabs[path := PrefabAfterRemap(s.prefabs[path], lookup, prefix)])
      else s
    case Model =>
      if path in s.models then s.(models := s.models[path := ModelAfterRemap(s.models[path], lookup, prefix)])
      else s
    case Other => s
  }

  /** The selected assets, processed in selection order. */
  function ProcessSelection(s: AssetStore, paths: seq<string>, lookup: Lookup, prefix: string): (r: AssetStore)
    ensures r.prefabs.Keys == s.prefabs.Keys && r.models.Keys == s.models.Keys
  {
    if paths == [] then s
    else ProcessAsset(ProcessSelection(s, paths[..|paths| - 1], lookup, prefix), paths[|paths| - 1], lookup, prefix)
  }

  /** Processing this asset again would change nothing. */
  predicate Settled(s: AssetStore, path: string, lookup: Lookup, prefix: string)
  {
    match KindOf(path)
    case Prefab =>
      path in s.prefabs ==> FirstChange(s.prefabs[path].renderers, lookup, prefix) == |s.prefabs[path].renderers|
    case Model =>
      path in s.models && s.models[path].importer.Some? ==>
        PlannedRemaps(Flatten(s.models[path].preview), s.models[path].importer.value.externalObjectMap, lookup, prefix) == []
    case Other => true
  }

  lemma SettledIsFixedPoint(s: AssetStore, path: string, lookup: Lookup, prefix: string)
    requires Settled(s, path, lookup, prefix)
    ensures ProcessAsset(s, path, lookup, prefix) == s
  {
    match KindOf(path)
    case Prefab =>
      if path in s.prefabs {
        assert s.prefabs[path := s.prefabs[path]] == s.prefabs;
      }
    case Model =>
      if path in s.models {
        var m := s.models[path];
        if m.importer.Some? {
          assert ModelAfterRemap(m, lookup, prefix) == m;
        }
        assert s.models[path := m] == s.models;
      }
    case Other =>
  }

  /** Processing an asset settles it. */
  lemma ProcessAssetSettles(s: AssetStore, path: string, lookup: Lookup, prefix: string)
    requires NamesMatchKeys(lookup)
    ensures Settled(ProcessAsset(s, path, lookup, prefix), path, lookup, prefix)
  {
    match KindOf(path)
    case Prefab =>
      if path in s.prefabs {
        var hs := s.prefabs[path].renderers;
        if FirstChange(hs, lookup, prefix) < |hs| {
          var r := RemapHierarchy(hs, lookup, prefix);
          forall k | 0 <= k < |r| ensures !ArrayChanges(r[k], lookup, prefix) {
            RemapSlotsIdempotent(hs[k], lookup, prefix);
          }
          FirstChangeNone(r, lookup, prefix);
        }
      }
    case Model =>
      if path in s.models && s.models[path].importer.Some? {
        var m := s.models[path];
        PlannedRemapsIdempotent(Flatten(m.preview), m.importer.value.externalObjectMap, lookup, prefix);
      }
    case Other =>
  }

  /** Processing one asset leaves every other asset's entry, and so its settledness, alone. */
  lemma ProcessAssetKeepsSettled(s: AssetStore, path: string, other: string, lookup: Lookup, prefix: string)
    requires Settled(s, other, lookup, prefix)
    ensures Settled(ProcessAsset(s, path, lookup, prefix), other, lookup, prefix)
  {
    if path == other {
      SettledIsFixedPoint(s, other, lookup, prefix);
    }
  }

  lemma {:induction false} ProcessSelectionSettles(s: AssetStore, paths: seq<string>, lookup: Lookup, prefix: string)
    requires NamesMatchKeys(lookup)
    ensures forall p :: p in paths ==> Settled(ProcessSelection(s, paths, lookup, prefix), p, lookup, prefix)
  {
    if paths != [] {
      var prev := paths[..|paths| - 1];
      var last := paths[|paths| - 1];
      var mid := ProcessSelection(s, prev, lookup, prefix);
      ProcessSelectionSettles(s, prev, lookup, prefix);
      forall p | p in paths
        ensures Settled(ProcessAsset(mid, last, lookup, prefix), p, lookup, prefix)
      {
        if p == last {
          ProcessAssetSettles(mid, last, lookup, prefix);
        } else {
          assert p in prev by {
            var i :| 0 <= i < |paths| && paths[i] == p;
            assert i < |paths| - 1 && prev[i] == p;
          }
          ProcessAssetKeepsSettled(mid, last, p, lookup, prefix);
        }
      }
    }
  }

  lemma {:induction false} ProcessSelectionOfSettled(s: AssetStore, paths: seq<string>, lookup: Lookup, prefix: string)
    requires forall p :: p in paths ==> Settled(s, p, lookup, prefix)
    ensures ProcessSelection(s, paths, lookup, prefix) == s
  {
    if paths != [] {
      var prev := paths[..|paths| - 1];
      assert forall p :: p in prev ==> p in paths;
      ProcessSelectionOfSettled(s, prev, lookup, prefix);
      SettledIsFixedPoint(s, paths[|paths| - 1], lookup, prefix);
    }
  }

  /** Running the remap twice over the same selection, with a lookup built from a folder,
      changes nothing the second time: no slot, no save, no override, no reimport. For models
      this rests on `ModelAfterRemap` keeping the preview as it was; in the editor a reimport
      renames the preview's slots, and `ReimportedPreviewAddsPrefixedKey` shows the extra
      remap a second run then adds. */
  lemma ProcessSelectionIdempotent(s: AssetStore, paths: seq<string>, lookup: Lookup, prefix: string)
    requires NamesMatchKeys(lookup)
    ensures ProcessSelection(ProcessSelection(s, paths, lookup, prefix), paths, lookup, prefix) ==
            ProcessSelection(s, paths, lookup, prefix)
  {
    ProcessSelectionSettles(s, paths, lookup, prefix);
    ProcessSelectionOfSettled(ProcessSelection(s, paths, lookup, prefix), paths, lookup, prefix);
  }

  /** Processing stops at a selected asset of a handled kind on which the engine throws. */
  predicate Throws(path: string, failing: set<string>)
  {
    path in failing && KindOf(path) != Other
  }

  /** The index of the first selected asset whose processing throws, or the selection's
      length when none does. */
  function FirstFailure(paths: seq<string>, failing: set<string>): (n: nat)
    ensures n <= |paths|
  {
    if paths == [] then 0
    else if Throws(paths[0], failing) then 0
    else 1 + FirstFailure(paths[1..], failing)
  }

  /** The assets before the first failure do not throw, and the one at it does. */
  lemma {:induction false} FirstFailureAt(paths: seq<string>, i: nat, failing: set<string>)
    requires i < |paths|
    ensures i < FirstFailure(paths, failing) ==> !Throws(paths[i], failing)
    ensures i == FirstFailure(paths, failing) ==> Throws(paths[i], failing)
  {
    if i > 0 && !Throws(paths[0], failing) {
      FirstFailureAt(paths[1..], i - 1, failing);
    }
  }

  /** The result of one editing pass: the selected assets up to the first one that throws
      are processed in order, and the pass reports that asset, if any. */
  predicate EditedSelection(before: AssetStore, after: AssetStore, selection: seq<string>, failing: set<string>,
                            lookup: Lookup, prefix: string, thrown: Option<string>)
  {
    var n := FirstFailure(selection, failing);
    after == ProcessSelection(before, selection[..n], lookup, prefix) &&
    thrown == if n < |selection| then Some(selection[n]) else None
  }

  /** A model's importer as the editor hands it out: its settings can be changed in memory
      and are written to the asset database by `AssetDatabase.SaveAndReimport`. */
  class ModelImporter {
    var externalObjectMap: ExternalObjectMap
    var addRemapCalls: nat
    var reimports: nat

    function State(): ImporterState
      reads this
    {
      ImporterState(externalObjectMap, addRemapCalls, reimports)
    }

    constructor (state: ImporterState)
      ensures State() == state
    {
      externalObjectMap := state.externalObjectMap;
      addRemapCalls := state.addRemapCalls;
      reimports := state.reimports;
    }

    /** A copy of the current overrides. */
    method GetExternalObjectMap() returns (m: ExternalObjectMap)
      ensures m == externalObjectMap
    {
      m := externalObjectMap;
    }

    /** Sets the override for `id`, replacing any earlier one. */
    method AddRemap(id: SourceAssetId, replacement: Material)
      modifies this
      ensures State() == WithRemaps(old(State()), [Remap(id, replacement)])
    {
      assert [Remap(id, replacement)][..0] == [];
      assert ApplyRemaps(externalObjectMap, [Remap(id, replacement)]) == externalObjectMap[id := replacement];
      externalObjectMap := externalObjectMap[id := replacement];
      addRemapCalls := addRemapCalls + 1;
    }
  }

  /** The inner loop of `RemapModel`, over the slots of one preview renderer: every slot
      whose target has an entry, and whose key the snapshot `externalMap` does not already
      map to that entry, gets an `AddRemap` call, in slot order. */
  method AddRemapsForSlots(importer: ModelImporter, sharedMaterials: MaterialArray, externalMap: ExternalObjectMap,
                           lookup: Lookup, prefix: string, changedBefore: bool)
    returns (changed: bool)
    modifies importer
    ensures importer.State() == WithRemaps(old(importer.State()), PlannedRemaps(sharedMaterials, externalMap, lookup, prefix))
    ensures changed == (changedBefore || |PlannedRemaps(sharedMaterials, externalMap, lookup, prefix)| > 0)
  {
    ghost var imp := importer.State();
    changed := changedBefore;
    assert sharedMaterials[..0] == [];
    for i := 0 to |sharedMaterials|
      invariant importer.State() == WithRemaps(imp, PlannedRemaps(sharedMaterials[..i], externalMap, lookup, prefix))
      invariant changed == (changedBefore || |PlannedRemaps(sharedMaterials[..i], externalMap, lookup, prefix)| > 0)
    {
      var srcMat := sharedMaterials[i];
      ghost var plan := PlannedRemaps(sharedMaterials[..i], externalMap, lookup, prefix);
      assert sharedMaterials[..i + 1] == sharedMaterials[..i] + [srcMat];
      PlannedRemapsSnoc(sharedMaterials[..i], srcMat, externalMap, lookup, prefix);
      if srcMat.None? {
        assert plan + RemapFor(srcMat, externalMap, lookup, prefix) == plan;
        continue;
      }
      var internalName := srcMat.value.name;
      var targetName := TargetName(internalName, prefix);
      if targetName !in lookup {
        assert plan + RemapFor(srcMat, externalMap, lookup, prefix) == plan;
        continue;
      }
      var replacement := lookup[targetName];
      var id := MaterialId(internalName);
      if id in externalMap && externalMap[id] == replacement {
        assert plan + RemapFor(srcMat, externalMap, lookup, prefix) == plan;
        continue;
      }
      assert RemapFor(srcMat, externalMap, lookup, prefix) == [Remap(id, replacement)];
      WithRemapsSnoc(imp, plan, Remap(id, replacement));
      importer.AddRemap(id, replacement);
      changed := true;
    }
    assert sharedMaterials[..|sharedMaterials|] == sharedMaterials;
  }

  /** One renderer more of the override loop: its calls follow those of the renderers before
      it, and the flag says whether any call was made so far. */
  lemma PreviewStep(imp: ImporterState, renderers: seq<MaterialArray>, n: nat, externalMap: ExternalObjectMap,
                    lookup: Lookup, prefix: string)
    requires n < |renderers|
    ensures var done := PlannedRemaps(Flatten(renderers[..n]), externalMap, lookup, prefix);
            var next := PlannedRemaps(renderers[n], externalMap, lookup, prefix);
            var all := PlannedRemaps(Flatten(renderers[..n + 1]), externalMap, lookup, prefix);
            WithRemaps(WithRemaps(imp, done), next) == WithRemaps(imp, all) &&
            ((|done| > 0 || |next| > 0) == (|all| > 0))
  {
    var done := Flatten(renderers[..n]);
    assert renderers[..n + 1][..n] == renderers[..n];
    assert Flatten(renderers[..n + 1]) == done + renderers[n];
    PlannedRemapsAppend(done, renderers[n], externalMap, lookup, prefix);
    WithRemapsAppend(imp, PlannedRemaps(done, externalMap, lookup, prefix),
                     PlannedRemaps(renderers[n], externalMap, lookup, prefix));
  }

  /** The override loop of `RemapModel`: the slots of every renderer of the preview
      instance, renderer after renderer, all judged against the same snapshot. */
  method AddRemapsForPreview(importer: ModelImporter, renderers: seq<MaterialArray>, externalMap: ExternalObjectMap,
                             lookup: Lookup, prefix: string)
    returns (changed: bool)
    modifies importer
    ensures importer.State() == WithRemaps(old(importer.State()), PlannedRemaps(Flatten(renderers), externalMap, lookup, prefix))
    ensures changed == (|PlannedRemaps(Flatten(renderers), externalMap, lookup, prefix)| > 0)
  {
    ghost var imp := importer.State();
    changed := false;
    assert renderers[..0] == [];
    for n := 0 to |renderers|
      invariant importer.State() ==
                  WithRemaps(imp, PlannedRemaps(Flatten(renderers[..n]), externalMap, lookup, prefix))
      invariant changed == (|PlannedRemaps(Flatten(renderers[..n]), externalMap, lookup, prefix)| > 0)
    {
      PreviewStep(imp, renderers, n, externalMap, lookup, prefix);
      changed := AddRemapsForSlots(importer, renderers[n], externalMap, lookup, prefix, changed);
    }
    assert renderers[..|renderers|] == renderers;
  }

  /** The host's asset database, reduced to what the remapper reads and writes. Engine calls
      are its methods; `failing` names the assets on which the first engine call of the
      remap throws, and `liveObjects` counts the loaded or instantiated temporaries not yet
      released. */
  class AssetDatabase {
    var folders: map<string, seq<Option<Material>>>
    var prefabs: map<string, PrefabAsset>
    var models: map<string, ModelAsset>
    var failing: set<string>
    var editingDepth: nat
    var batchLog: seq<BatchEvent>
    var liveObjects: nat

    function Contents(): AssetStore
      reads this`prefabs, this`models
    {
      AssetStore(prefabs, models)
    }

    constructor (folders: map<string, seq<Option<Material>>>, prefabs: map<string, PrefabAsset>,
                 models: map<string, ModelAsset>, failing: set<string>)
      ensures this.folders == folders && this.prefabs == prefabs && this.models == models
      ensures this.failing == failing
      ensures editingDepth == 0 && batchLog == [] && liveObjects == 0
    {
      this.folders := folders;
      this.prefabs := prefabs;
      this.models := models;
      this.failing := failing;
      editingDepth := 0;
      batchLog := [];
      liveObjects := 0;
    }

    predicate IsValidFolder(path: string)
      reads this
    {
      path in folders
    }

    method StartAssetEditing()
      modifies this`editingDepth, this`batchLog
      ensures editingDepth == old(editingDepth) + 1
      ensures batchLog == old(batchLog) + [EditingStarted]
    {
      editingDepth := editingDepth + 1;
      batchLog := batchLog + [EditingStarted];
    }

    method StopAssetEditing()
      requires editingDepth > 0
      modifies this`editingDepth, this`batchLog
      ensures editingDepth == old(editingDepth) - 1
      ensures batchLog == old(batchLog) + [EditingStopped]
    {
      editingDepth := editingDepth - 1;
      batchLog := batchLog + [EditingStopped];
    }

    method Refresh()
      modifies this`batchLog
      ensures batchLog == old(batchLog) + [Refreshed]
    {
      batchLog := batchLog + [Refreshed];
    }

    /** Loads an editable copy of a prefab: fresh renderers holding the saved arrays. */
    method LoadPrefabContents(path: string) returns (root: Option<seq<Renderer>>)
      modifies this`liveObjects
      ensures root.Some? <==> path in prefabs
      ensures root.Some? ==> Distinct(root.value) && (forall k :: 0 <= k < |root.value| ==> fresh(root.value[k]))
      ensures root.Some? ==> MaterialsOf(root.value) == prefabs[path].renderers
      ensures liveObjects == old(liveObjects) + if root.Some? then 1 else 0
    {
      if path !in prefabs {
        return None;
      }
      var arrays := prefabs[path].renderers;
      var renderers: seq<Renderer> := [];
      for i := 0 to |arrays|
        invariant |renderers| == i && Distinct(renderers)
        invariant forall k :: 0 <= k < i ==> fresh(renderers[k])
        invariant forall k :: 0 <= k < i ==> renderers[k].sharedMaterials == arrays[k]
        invariant liveObjects == old(liveObjects) && prefabs == old(prefabs)
      {
        var r := new Renderer(arrays[i]);
        renderers := renderers + [r];
      }
      liveObjects := liveObjects + 1;
      root := Some(renderers);
    }

    method SaveAsPrefabAsset(root: seq<Renderer>, path: string)
      requires path in prefabs
      modifies this`prefabs
      ensures prefabs == old(prefabs)[path := PrefabAsset(MaterialsOf(root), old(prefabs[path].saves) + 1)]
    {
      prefabs := prefabs[path := PrefabAsset(MaterialsOf(root), prefabs[path].saves + 1)];
    }

    method UnloadPrefabContents(root: seq<Renderer>)
      requires liveObjects > 0
      modifies this`liveObjects
      ensures liveObjects == old(liveObjects) - 1
    {
      liveObjects := liveObjects - 1;
    }

    /** Instantiates a temporary copy of a model; its renderers' material arrays. */
    method InstantiateModel(path: string) returns (preview: Option<seq<MaterialArray>>)
      modifies this`liveObjects
      ensures preview == if path in models then Some(models[path].preview) else None
      ensures liveObjects == old(liveObjects) + if preview.Some? then 1 else 0
    {
      if path !in models {
        return None;
      }
      liveObjects := liveObjects + 1;
      preview := Some(models[path].preview);
    }

    method DestroyImmediate()
      requires liveObjects > 0
      modifies this`liveObjects
      ensures liveObjects == old(liveObjects) - 1
    {
      liveObjects := liveObjects - 1;
    }

    /** The importer of a model file, or None for an asset without one. */
    method GetModelImporter(path: string) returns (importer: Option<ModelImporter>)
      ensures importer.Some? <==> path in models && models[path].importer.Some?
      ensures importer.Some? ==> fresh(importer.value) && importer.value.State() == models[path].importer.value
    {
      if path !in models || models[path].importer.None? {
        return None;
      }
      var m := new ModelImporter(models[path].importer.value);
      importer := Some(m);
    }

    /** Writes the importer's settings to the model and reimports it. */
    method SaveAndReimport(path: string, importer: ModelImporter)
      requires path in models
      modifies this`models, importer
      ensures importer.State() == old(importer.State()).(reimports := old(importer.reimports) + 1)
      ensures models == old(models)[path := old(models[path]).(importer := Some(importer.State()))]
    {
      importer.reimports := importer.reimports + 1;
      models := models[path := models[path].(importer := Some(importer.State()))];
    }

    /** Loads the prefab, rewrites its renderers' slots, saves it when something changed,
        and unloads it on every path that loaded it. */
    method RemapPrefab(path: string, lookup: Lookup, prefix: string)
      modifies this`prefabs, this`liveObjects
      ensures prefabs == if path in old(prefabs)
                         then old(prefabs)[path := PrefabAfterRemap(old(prefabs[path]), lookup, prefix)]
                         else old(prefabs)
      ensures liveObjects == old(liveObjects)
    {
      var root := LoadPrefabContents(path);
      if root.None? {
        return;
      }
      var renderers := root.value;
      ghost var saved := prefabs[path];
      var changed := RemapInHierarchy(renderers, lookup, prefix);
      assert prefabs == old(prefabs);
      if changed {
        assert MaterialsOf(renderers) == RemapHierarchy(saved.renderers, lookup, prefix);
        SaveAsPrefabAsset(renderers, path);
        assert prefabs[path] == PrefabAfterRemap(saved, lookup, prefix);
      } else {
        assert PrefabAfterRemap(saved, lookup, prefix) == saved;
        assert old(prefabs)[path := saved] == old(prefabs);
      }
      UnloadPrefabContents(renderers);
    }

    /** Instantiates the model to read its internal material names, adds a remap for every
        slot whose target has an entry that the override map (as read before the loop) does
        not already hold, destroys the instance on every path that created it, and
        reimports when a remap was added. */
    method RemapModel(path: string, lookup: Lookup, prefix: string)
      modifies this`models, this`liveObjects
      ensures models == if path in old(models)
                        then old(models)[path := ModelAfterRemap(old(models[path]), lookup, prefix)]
                        else old(models)
      ensures liveObjects == old(liveObjects)
    {
      var modelRoot := InstantiateModel(path);
      if modelRoot.None? {
        return;
      }
      var importer := GetModelImporter(path);
      if importer.None? {
        DestroyImmediate();
        assert old(models)[path := old(models[path])] == old(models);
        return;
      }
      ModelAfterRemapOfImporter(models[path], importer.value.State(), lookup, prefix);
      var externalMap := importer.value.GetExternalObjectMap();
      var changed := AddRemapsForPreview(importer.value, modelRoot.value, externalMap, lookup, prefix);
      DestroyImmediate();
      if !changed {
        assert old(models)[path := old(models[path])] == old(models);
        return;
      }
      SaveAndReimport(path, importer.value);
    }

    /** Dispatches on the lower-cased extension of the path. */
    method SwitchObjectType(path: string, lookup: Lookup, prefix: string)
      modifies this`prefabs, this`models, this`liveObjects
      ensures Contents() == ProcessAsset(old(Contents()), path, lookup, prefix)
      ensures liveObjects == old(liveObjects)
    {
      var extension := LowerString(Extension(path));
      if extension == ".prefab" {
        RemapPrefab(path, lookup, prefix);
      } else if extension == ".fbx" || extension == ".obj" {
        RemapModel(path, lookup, prefix);
      }
    }

    /** Processes the selection in order. Nothing catches an exception per asset: the first
        asset that throws ends the pass and is reported to the caller. */
    method EditSelection(selection: seq<string>, lookup: Lookup, prefix: string)
      returns (thrown: Option<string>)
      modifies this`prefabs, this`models, this`liveObjects
      ensures EditedSelection(old(Contents()), Contents(), selection, failing, lookup, prefix, thrown)
      ensures liveObjects == old(liveObjects)
    {
      for i := 0 to |selection|
        invariant i <= FirstFailure(selection, failing)
        invariant Contents() == ProcessSelection(old(Contents()), selection[..i], lookup, prefix)
        invariant liveObjects == old(liveObjects)
      {
        var path := selection[i];
        FirstFailureAt(selection, i, failing);
        if Throws(path, failing) {
          assert i == FirstFailure(selection, failing);
          return Some(path);
        }
        SwitchObjectType(path, lookup, prefix);
        assert selection[..i + 1][..i] == selection[..i];
      }
      assert selection[..|selection|] == selection;
      assert FirstFailure(selection, failing) == |selection|;
      thrown := None;
    }

    /** Runs the selection inside the open batched-edit session and then, whether or not
        an asset threw, closes the session and refreshes the database. */
    method TryEditAssets(selection: seq<string>, lookup: Lookup, prefix: string)
      returns (thrown: Option<string>)
      requires editingDepth > 0
      modifies this`prefabs, this`models, this`liveObjects, this`editingDepth, this`batchLog
      ensures EditedSelection(old(Contents()), Contents(), selection, failing, lookup, prefix, thrown)
      ensures editingDepth == old(editingDepth) - 1
      ensures batchLog == old(batchLog) + [EditingStopped, Refreshed]
      ensures liveObjects == old(liveObjects)
    {
      thrown := EditSelection(selection, lookup, prefix);
      ghost var edited := Contents();
      // the `finally` block
      StopAssetEditing();
      Refresh();
      assert Contents() == edited;
    }

    /** The button's action: an invalid folder or a folder without materials ends it before
        any editing starts; otherwise one batched-edit session covers the whole selection. */
    method RemapSelected(folderPath: string, selection: seq<string>, prefix: string)
      returns (outcome: BatchOutcome)
      modifies this`prefabs, this`models, this`liveObjects, this`editingDepth, this`batchLog
      ensures folderPath !in folders ==>
                outcome == InvalidFolder && Contents() == old(Contents()) && batchLog == old(batchLog)
      ensures folderPath in folders && !AnyLoaded(folders[folderPath]) ==>
                outcome == NoMaterials && Contents() == old(Contents()) && batchLog == old(batchLog)
      ensures folderPath in folders && AnyLoaded(folders[folderPath]) ==>
                outcome.Edited? &&
                EditedSelection(old(Contents()), Contents(), selection, failing, LookupOf(folders[folderPath]), prefix, outcome.thrown) &&
                batchLog == old(batchLog) + [EditingStarted, EditingStopped, Refreshed]
      ensures editingDepth == old(editingDepth) && liveObjects == old(liveObjects)
    {
      if !IsValidFolder(folderPath) {
        return InvalidFolder;
      }
      var lookup := BuildMaterialLookup(folders[folderPath]);
      LookupOfEmpty(folders[folderPath]);
      if lookup == map[] {  // `lookup.Count == 0`
        return NoMaterials;
      }
      StartAssetEditing();
      var thrown := TryEditAssets(selection, lookup, prefix);
      outcome := Edited(thrown);
    }
  }

}
