/** The slot rewrite of a loaded prefab: every renderer's material array is walked and each
    slot is swapped for the lookup entry of its target name. */
module Hierarchy {

  import opened Wrappers
  import opened Naming
  import opened Materials

  /** Slot `slot` is replaced: it holds a material whose target name has an entry in the
      lookup, and that entry is a different material. */
  predicate SlotChanges(slot: Option<Material>, lookup: Lookup, prefix: string)
  {
    slot.Some? && TargetName(slot.value.name, prefix) in lookup &&
    lookup[TargetName(slot.value.name, prefix)] != slot.value
  }

  /** One slot after the rewrite: it stays empty or full, and it either keeps its material or
      takes the entry of its target name. */
  function RemapSlot(slot: Option<Material>, lookup: Lookup, prefix: string): (r: Option<Material>)
    ensures r.Some? <==> slot.Some?
    ensures r == slot ||
            (slot.Some? && TargetName(slot.value.name, prefix) in lookup &&
             r == Some(lookup[TargetName(slot.value.name, prefix)]))
  {
    if SlotChanges(slot, lookup, prefix) then Some(lookup[TargetName(slot.value.name, prefix)])
    else slot
  }

  /** The material array after the rewrite: same length; an empty slot, or one whose target
      name has no entry, is kept; any other slot holds the entry for its target name. */
  function RemapSlots(mats: MaterialArray, lookup: Lookup, prefix: string): (r: MaterialArray)
    ensures |r| == |mats|
    ensures forall i :: 0 <= i < |mats| && mats[i].None? ==> r[i] == None
    ensures forall i :: 0 <= i < |mats| && mats[i].Some? ==>
              r[i] == if TargetName(mats[i].value.name, prefix) in lookup
                      then Some(lookup[TargetName(mats[i].value.name, prefix)])
                      else mats[i]
  {
    seq(|mats|, i requires 0 <= i < |mats| => RemapSlot(mats[i], lookup, prefix))
  }

  /** Some slot of the array is replaced by a different material. */
  predicate ArrayChanges(mats: MaterialArray, lookup: Lookup, prefix: string)
  {
    exists i :: 0 <= i < |mats| && SlotChanges(mats[i], lookup, prefix)
  }

  /** The array reports a change exactly when the rewrite produces a different array. */
  lemma ArrayChangesIffDiffers(mats: MaterialArray, lookup: Lookup, prefix: string)
    ensures ArrayChanges(mats, lookup, prefix) <==> RemapSlots(mats, lookup, prefix) != mats
  {
    var r := RemapSlots(mats, lookup, prefix);
    if ArrayChanges(mats, lookup, prefix) {
      var i :| 0 <= i < |mats| && SlotChanges(mats[i], lookup, prefix);
      assert r[i] != mats[i];
    } else {
      assert forall i :: 0 <= i < |mats| ==> r[i] == mats[i];
    }
  }

  /** A replacement is already its own target: its name is the target name it was found
      under, which carries the prefix. */
  lemma ReplacementIsSettled(m: Material, lookup: Lookup, prefix: string)
    requires NamesMatchKeys(lookup)
    requires TargetName(m.name, prefix) in lookup
    ensures !SlotChanges(Some(lookup[TargetName(m.name, prefix)]), lookup, prefix)
  {
    var t := TargetName(m.name, prefix);
    TargetNameIdempotent(m.name, prefix);
    assert lookup[t].name == t;
  }

  /** A second rewrite with the same lookup and prefix changes nothing. */
  lemma RemapSlotsIdempotent(mats: MaterialArray, lookup: Lookup, prefix: string)
    requires NamesMatchKeys(lookup)
    ensures !ArrayChanges(RemapSlots(mats, lookup, prefix), lookup, prefix)
    ensures RemapSlots(RemapSlots(mats, lookup, prefix), lookup, prefix) == RemapSlots(mats, lookup, prefix)
  {
    var r := RemapSlots(mats, lookup, prefix);
    forall i | 0 <= i < |r|
      ensures !SlotChanges(r[i], lookup, prefix)
    {
      if mats[i].Some? && TargetName(mats[i].value.name, prefix) in lookup {
        ReplacementIsSettled(mats[i].value, lookup, prefix);
      }
    }
    ArrayChangesIffDiffers(r, lookup, prefix);
  }

  /** Without the name-equals-key property of the folder lookup, a second pass can change
      a slot again: a material filed under "M_Body" but named "Other" is swapped for
      whatever "M_Other" names. */
  lemma IdempotenceNeedsNamesMatchingKeys()
    ensures var lookup := map["M_Body" := Material("Other", 1), "M_Other" := Material("M_Other", 2)];
            var once := RemapSlots([Some(Material("Body", 0))], lookup, DefaultPrefix);
            ArrayChanges(once, lookup, DefaultPrefix)
  {
    var lookup := map["M_Body" := Material("Other", 1), "M_Other" := Material("M_Other", 2)];
    TargetNameExamples();
    var once := RemapSlots([Some(Material("Body", 0))], lookup, DefaultPrefix);
    assert once[0] == Some(Material("Other", 1)) by {
      assert lookup["M_Body"] == Material("Other", 1);
    }
    assert TargetName("Other", DefaultPrefix) == "M_Other" by {
      assert !StartsWith("Other", DefaultPrefix) by { assert "Other"[..2][0] == 'O'; }
      assert DefaultPrefix + "Other" == "M_Other";
    }
    assert lookup["M_Other"] != Material("Other", 1);
    assert SlotChanges(once[0], lookup, DefaultPrefix);
  }

  /** A mesh renderer of a loaded prefab. `sharedMaterials` is a property: reading it gives a
      copy, writing it replaces the renderer's array; `assignments` counts the writes. */
  class Renderer {
    var sharedMaterials: MaterialArray
    var assignments: nat

    constructor (mats: MaterialArray)
      ensures sharedMaterials == mats && assignments == 0
    {
      sharedMaterials := mats;
      assignments := 0;
    }

    method GetSharedMaterials() returns (mats: array<Option<Material>>)
      ensures fresh(mats) && mats[..] == sharedMaterials
    {
      var s := sharedMaterials;
      mats := new Option<Material>[|s|](i requires 0 <= i < |s| => s[i]);
    }

    method SetSharedMaterials(mats: array<Option<Material>>)
      modifies this
      ensures sharedMaterials == mats[..] && assignments == old(assignments) + 1
    {
      sharedMaterials := mats[..];
      assignments := assignments + 1;
    }
  }

  predicate Distinct(renderers: seq<Renderer>)
  {
    forall i, j :: 0 <= i < j < |renderers| ==> renderers[i] != renderers[j]
  }

  /** The inner loop of the hierarchy walk, on the copied array: each slot is replaced in
      place by the rewrite; the result says whether any slot took a different material. */
  method RemapSlotsInPlace(mats: array<Option<Material>>, lookup: Lookup, prefix: string)
    returns (changed: bool)
    modifies mats
    ensures mats[..] == RemapSlots(old(mats[..]), lookup, prefix)
    ensures changed == ArrayChanges(old(mats[..]), lookup, prefix)
  {
    changed := false;
    for i := 0 to mats.Length
      invariant forall k :: 0 <= k < i ==> mats[k] == RemapSlot(old(mats[k]), lookup, prefix)
      invariant forall k :: i <= k < mats.Length ==> mats[k] == old(mats[k])
      invariant changed == exists k :: 0 <= k < i && SlotChanges(old(mats[k]), lookup, prefix)
    {
      var current := mats[i];
      if current.None? {
        continue;
      }
      var targetName := TargetName(current.value.name, prefix);
      if targetName !in lookup || lookup[targetName] == current.value {
        continue;
      }
      mats[i] := Some(lookup[targetName]);
      changed := true;
    }
    assert forall k :: 0 <= k < mats.Length ==> old(mats[..])[k] == old(mats[k]);
  }

  /** The material arrays of the renderers, in order. */
  function MaterialsOf(renderers: seq<Renderer>): (hs: seq<MaterialArray>)
    reads renderers
    ensures |hs| == |renderers|
    ensures forall k :: 0 <= k < |renderers| ==> hs[k] == renderers[k].sharedMaterials
  {
    seq(|renderers|, k requires 0 <= k < |renderers| reads renderers => renderers[k].sharedMaterials)
  }

  /** Every array of a hierarchy rewritten slot by slot. */
  function RemapHierarchy(arrays: seq<MaterialArray>, lookup: Lookup, prefix: string): (r: seq<MaterialArray>)
    ensures |r| == |arrays|
    ensures forall k :: 0 <= k < |arrays| ==> r[k] == RemapSlots(arrays[k], lookup, prefix)
  {
    seq(|arrays|, k requires 0 <= k < |arrays| => RemapSlots(arrays[k], lookup, prefix))
  }

  /** The index of the first array the rewrite changes, or the number of arrays when it
      changes none. */
  function FirstChange(hs: seq<MaterialArray>, lookup: Lookup, prefix: string): (n: nat)
    ensures n <= |hs|
  {
    if hs == [] then 0
    else if ArrayChanges(hs[0], lookup, prefix) then 0
    else 1 + FirstChange(hs[1..], lookup, prefix)
  }

  /** The arrays before the first change are unchanged, and the one at it changes. */
  lemma {:induction false} FirstChangeAt(hs: seq<MaterialArray>, j: nat, lookup: Lookup, prefix: string)
    requires j < |hs|
    ensures j < FirstChange(hs, lookup, prefix) ==> !ArrayChanges(hs[j], lookup, prefix)
    ensures j == FirstChange(hs, lookup, prefix) ==> ArrayChanges(hs[j], lookup, prefix)
  {
    if j > 0 && !ArrayChanges(hs[0], lookup, prefix) {
      assert FirstChange(hs, lookup, prefix) == 1 + FirstChange(hs[1..], lookup, prefix);
      assert hs[1..][j - 1] == hs[j];
      FirstChangeAt(hs[1..], j - 1, lookup, prefix);
    }
  }

  /** Some array changes exactly when the rewritten hierarchy differs from the original. */
  lemma FirstChangeIffRemapDiffers(hs: seq<MaterialArray>, lookup: Lookup, prefix: string)
    ensures FirstChange(hs, lookup, prefix) < |hs| <==> RemapHierarchy(hs, lookup, prefix) != hs
  {
    var n := FirstChange(hs, lookup, prefix);
    var r := RemapHierarchy(hs, lookup, prefix);
    if n < |hs| {
      FirstChangeAt(hs, n, lookup, prefix);
      ArrayChangesIffDiffers(hs[n], lookup, prefix);
      assert r[n] != hs[n];
    } else {
      forall j | 0 <= j < |hs|
        ensures r[j] == hs[j]
      {
        FirstChangeAt(hs, j, lookup, prefix);
        ArrayChangesIffDiffers(hs[j], lookup, prefix);
      }
    }
  }

  /** The rewrite changes none of the arrays exactly when the first change is past the end. */
  lemma FirstChangeNone(hs: seq<MaterialArray>, lookup: Lookup, prefix: string)
    ensures FirstChange(hs, lookup, prefix) == |hs| <==>
            forall j :: 0 <= j < |hs| ==> !ArrayChanges(hs[j], lookup, prefix)
  {
    var n := FirstChange(hs, lookup, prefix);
    if n < |hs| {
      FirstChangeAt(hs, n, lookup, prefix);
    } else {
      forall j | 0 <= j < |hs| ensures !ArrayChanges(hs[j], lookup, prefix) {
        FirstChangeAt(hs, j, lookup, prefix);
      }
    }
  }

  /** Walks the renderers in order and rewrites each one's material array. The `changed`
      flag is shared by all renderers, so once one renderer has changed, every later
      renderer has its array written back, changed or not. */
  method RemapInHierarchy(renderers: seq<Renderer>, lookup: Lookup, prefix: string)
    returns (changed: bool)
    requires Distinct(renderers)
    modifies renderers
    ensures forall k :: 0 <= k < |renderers| ==>
              renderers[k].sharedMaterials == RemapSlots(old(renderers[k].sharedMaterials), lookup, prefix)
    ensures changed == (FirstChange(old(MaterialsOf(renderers)), lookup, prefix) < |renderers|)
    ensures var first := FirstChange(old(MaterialsOf(renderers)), lookup, prefix);
            forall k :: 0 <= k < |renderers| ==>
              renderers[k].assignments == old(renderers[k].assignments) + (if first <= k then 1 else 0)
  {
    ghost var before := MaterialsOf(renderers);
    ghost var first := FirstChange(before, lookup, prefix);
    changed := false;
    for n := 0 to |renderers|
      invariant forall k :: 0 <= k < n ==>
                  renderers[k].sharedMaterials == RemapSlots(before[k], lookup, prefix) &&
                  renderers[k].assignments == old(renderers[k].assignments) + (if first <= k then 1 else 0)
      invariant forall k :: n <= k < |renderers| ==>
                  renderers[k].sharedMaterials == before[k] &&
                  renderers[k].assignments == old(renderers[k].assignments)
      invariant changed == (first < n)
    {
      var renderer := renderers[n];
      var mats := renderer.GetSharedMaterials();
      var slotChanged := RemapSlotsInPlace(mats, lookup, prefix);
      FirstChangeAt(before, n, lookup, prefix);
      changed := changed || slotChanged;
      if changed {
        renderer.SetSharedMaterials(mats);
      } else {
        ArrayChangesIffDiffers(before[n], lookup, prefix);
      }
    }
  }

}
