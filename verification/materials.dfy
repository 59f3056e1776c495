/** Materials and the name lookup built from a materials folder. */
module Materials {

  import opened Wrappers

  /** A material asset: its display name and its identity (Unity compares engine objects
      by identity; two loaded materials are the same exactly when both fields agree). */
  datatype Material = Material(name: string, id: nat)

  /** A renderer's `sharedMaterials`: one slot per sub-mesh, each possibly missing. */
  type MaterialArray = seq<Option<Material>>

  /** The name-to-material table consumed by both remap paths. */
  type Lookup = map<string, Material>

  /** Every entry is filed under its own material's name. */
  predicate NamesMatchKeys(lookup: Lookup)
  {
    forall k :: k in lookup ==> lookup[k].name == k
  }

  /** The names of the materials that did load. */
  function LoadedNames(found: seq<Option<Material>>): set<string>
  {
    set i | 0 <= i < |found| && found[i].Some? :: found[i].value.name
  }

  lemma LoadedNamesSnoc(found: seq<Option<Material>>, x: Option<Material>)
    ensures LoadedNames(found + [x]) ==
            LoadedNames(found) + (if x.Some? then {x.value.name} else {})
  {
    var s := found + [x];
    forall n | n in LoadedNames(s)
      ensures n in LoadedNames(found) + (if x.Some? then {x.value.name} else {})
    {
      var i :| 0 <= i < |s| && s[i].Some? && s[i].value.name == n;
      if i < |found| {
        assert found[i] == s[i];
      }
    }
    forall n | n in LoadedNames(found)
      ensures n in LoadedNames(s)
    {
      var i :| 0 <= i < |found| && found[i].Some? && found[i].value.name == n;
      assert s[i] == found[i];
    }
    if x.Some? {
      assert s[|found|] == x;
    }
  }

  /** The table `BuildMaterialLookup` produces from the folder's enumeration, in
      enumeration order: missing materials are skipped and a name already present keeps
      its first material. */
  function LookupOf(found: seq<Option<Material>>): (d: Lookup)
    ensures |d| <= |found|
  {
    if found == [] then map[]
    else
      var d := LookupOf(found[..|found| - 1]);
      var last := found[|found| - 1];
      if last.Some? && last.value.name !in d then d[last.value.name := last.value] else d
  }

  /** The table holds exactly the names of the materials that loaded, each under its own
      name, and every entry is one of those materials. */
  lemma {:induction false} LookupOfSound(found: seq<Option<Material>>)
    ensures LookupOf(found).Keys == LoadedNames(found)
    ensures NamesMatchKeys(LookupOf(found))
    ensures forall k :: k in LookupOf(found) ==> Some(LookupOf(found)[k]) in found
  {
    if found != [] {
      var prev := found[..|found| - 1];
      var last := found[|found| - 1];
      LookupOfSound(prev);
      LoadedNamesSnoc(prev, last);
      assert found == prev + [last];
    }
  }

  lemma {:induction false} LookupOfFirstWins(found: seq<Option<Material>>, j: nat)
    requires j < |found| && found[j].Some?
    requires forall i :: 0 <= i < j ==> !(found[i].Some? && found[i].value.name == found[j].value.name)
    ensures found[j].value.name in LookupOf(found)
    ensures LookupOf(found)[found[j].value.name] == found[j].value
  {
    var prev := found[..|found| - 1];
    if j < |found| - 1 {
      LookupOfFirstWins(prev, j);
    } else {
      LookupOfSound(prev);
      assert found[j].value.name !in LoadedNames(prev);
    }
  }

  /** Some material of the enumeration loaded. */
  predicate AnyLoaded(found: seq<Option<Material>>)
  {
    exists i :: 0 <= i < |found| && found[i].Some?
  }

  /** The table is empty exactly when no material loaded. */
  lemma LookupOfEmpty(found: seq<Option<Material>>)
    ensures LookupOf(found) == map[] <==> !AnyLoaded(found)
  {
    LookupOfSound(found);
    if AnyLoaded(found) {
      var i :| 0 <= i < |found| && found[i].Some?;
      assert found[i].value.name in LoadedNames(found);
    }
  }

  /** Two differently named materials each keep their own entry, whichever comes first. */
  lemma LookupOfTwoMaterials(a: Material, b: Material)
    requires a.name != b.name
    ensures LookupOf([Some(a), Some(b)]) == map[a.name := a, b.name := b]
    ensures LookupOf([Some(b), Some(a)]) == map[a.name := a, b.name := b]
  {
    assert [Some(a), Some(b)][..1] == [Some(a)];
    assert [Some(b), Some(a)][..1] == [Some(b)];
    assert [Some(a)][..0] == [];
    assert [Some(b)][..0] == [];
    assert LookupOf([Some(a)]) == map[a.name := a];
    assert LookupOf([Some(b)]) == map[b.name := b];
  }

  /** Loads the materials of the folder's enumeration into a table keyed by name, skipping
      the ones that did not load and keeping the first of each name. */
  method BuildMaterialLookup(found: seq<Option<Material>>) returns (dict: Lookup)
    ensures dict == LookupOf(found)
  {
    dict := map[];
    var i := 0;
    while i < |found|
      invariant 0 <= i <= |found|
      invariant dict == LookupOf(found[..i])
    {
      var mat := found[i];
      assert found[..i + 1][..i] == found[..i];
      if mat.Some? && mat.value.name !in dict {
        dict := dict[mat.value.name := mat.value];
      }
      i := i + 1;
    }
    assert found[..i] == found;
  }

}
