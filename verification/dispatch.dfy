/** Classification of a selected asset by the extension of its path. */
module Dispatch {

  predicate IsSeparator(c: char)
  {
    c == '/' || c == '\\'
  }

  /** A well-formed extension: a dot followed by at least one character that is
      neither a dot nor a directory separator. */
  predicate IsExtension(ext: string)
  {
    |ext| >= 2 && ext[0] == '.' &&
    forall i :: 1 <= i < |ext| ==> ext[i] != '.' && !IsSeparator(ext[i])
  }

  /** Scans `path[..i]` backwards for the dot that starts the extension of the last
      path component, as `Path.GetExtension` does; a trailing dot gives no extension. */
  function ExtensionScan(path: string, i: nat): (ext: string)
    requires i <= |path|
    requires forall j :: i <= j < |path| ==> path[j] != '.' && !IsSeparator(path[j])
    ensures ext == [] || (IsExtension(ext) && |ext| <= |path| && ext == path[|path| - |ext|..])
  {
    if i == 0 then ""
    else if path[i - 1] == '.' then (if i == |path| then "" else path[i - 1..])
    else if IsSeparator(path[i - 1]) then ""
    else ExtensionScan(path, i - 1)
  }

  /** The extension of a path, dot included, or "" when its last component has none. */
  function Extension(path: string): (ext: string)
    ensures ext == [] || (IsExtension(ext) && |ext| <= |path| && ext == path[|path| - |ext|..])
  {
    ExtensionScan(path, |path|)
  }

  lemma {:induction false} ExtensionScanSuffix(stem: string, ext: string, i: nat)
    requires IsExtension(ext)
    requires |stem| < i <= |stem| + |ext|
    ensures ExtensionScan(stem + ext, i) == ext
  {
    var path := stem + ext;
    if i - 1 == |stem| {
      assert path[i - 1] == ext[0];
      assert path[i - 1..] == ext;
    } else {
      assert path[i - 1] == ext[i - 1 - |stem|];
      ExtensionScanSuffix(stem, ext, i - 1);
    }
  }

  /** Whatever the directory and file stem, a path ending in a well-formed extension has
      exactly that extension. */
  lemma ExtensionOfSuffix(stem: string, ext: string)
    requires IsExtension(ext)
    ensures Extension(stem + ext) == ext
  {
    ExtensionScanSuffix(stem, ext, |stem + ext|);
  }

  lemma {:induction false} ExtensionScanNoDot(dir: string, name: string, i: nat)
    requires dir == [] || IsSeparator(dir[|dir| - 1])
    requires forall j :: 0 <= j < |name| ==> name[j] != '.' && !IsSeparator(name[j])
    requires |dir| <= i <= |dir| + |name|
    ensures ExtensionScan(dir + name, i) == ""
  {
    var path := dir + name;
    if i > |dir| {
      assert path[i - 1] == name[i - 1 - |dir|];
      ExtensionScanNoDot(dir, name, i - 1);
    } else if i > 0 {
      assert path[i - 1] == dir[|dir| - 1];
    }
  }

  /** A file name without a dot has no extension, whatever dots its directories hold. */
  lemma NoDotNoExtension(dir: string, name: string)
    requires dir == [] || IsSeparator(dir[|dir| - 1])
    requires forall j :: 0 <= j < |name| ==> name[j] != '.' && !IsSeparator(name[j])
    ensures Extension(dir + name) == ""
  {
    ExtensionScanNoDot(dir, name, |dir + name|);
  }

  /** `ToLowerInvariant` on the ASCII letters. */
  function Lower(c: char): (d: char)
    ensures 'A' <= c <= 'Z' ==> 'a' <= d <= 'z' && d as int == c as int + 32
    ensures !('A' <= c <= 'Z') ==> d == c
  {
    if 'A' <= c <= 'Z' then (c as int - 'A' as int + 'a' as int) as char else c
  }

  function LowerString(s: string): (r: string)
    ensures |r| == |s|
  {
    seq(|s|, i requires 0 <= i < |s| => Lower(s[i]))
  }

  /** A string without upper-case letters is its own lower-case form. */
  lemma LowerStringOfLowerCase(s: string)
    requires forall i :: 0 <= i < |s| ==> !('A' <= s[i] <= 'Z')
    ensures LowerString(s) == s
  {
  }

  /** The three ways a selected asset is handled. */
  datatype AssetKind = Prefab | Model | Other

  function KindOfExtension(ext: string): AssetKind
  {
    if ext == ".prefab" then Prefab
    else if ext == ".fbx" || ext == ".obj" then Model
    else Other
  }

  /** The dispatch of `SwitchObjectType`: the lower-cased extension decides. */
  function KindOf(path: string): (k: AssetKind)
    ensures k != Other ==> IsExtension(Extension(path))
    ensures k == Prefab ==> |Extension(path)| == 7
    ensures k == Model ==> |Extension(path)| == 4
  {
    KindOfExtension(LowerString(Extension(path)))
  }

  /** A string that lower-cases to a well-formed extension is itself a well-formed
      extension: lower-casing maps no other character to a dot, a slash or a letter. */
  lemma LowerPreservesExtension(ext: string)
    requires IsExtension(LowerString(ext))
    ensures IsExtension(ext)
  {
    var low := LowerString(ext);
    assert ext[0] == '.' by { assert low[0] == Lower(ext[0]); }
    forall i | 1 <= i < |ext|
      ensures ext[i] != '.' && !IsSeparator(ext[i])
    {
      assert low[i] == Lower(ext[i]);
    }
  }

  /** Any path ending in ".prefab", ".fbx" or ".obj", in any letter case, is dispatched by
      that extension; the directory and file stem play no part. */
  lemma KindOfPath(stem: string, ext: string)
    requires LowerString(ext) in {".prefab", ".fbx", ".obj"}
    ensures KindOf(stem + ext) == KindOfExtension(LowerString(ext))
    ensures KindOf(stem + ext) != Other
  {
    var low := LowerString(ext);
    assert IsExtension(low) by {
      if low == ".prefab" {
      } else if low == ".fbx" {
      } else {
      }
    }
    LowerPreservesExtension(ext);
    ExtensionOfSuffix(stem, ext);
  }

  /** A path whose extension is anything other than those three, or that has none, selects
      neither the prefab nor the model path. */
  lemma KindOfOther(path: string)
    requires LowerString(Extension(path)) !in {".prefab", ".fbx", ".obj"}
    ensures KindOf(path) == Other
  {
  }

  lemma KindOfExamplePrefab()
    ensures KindOf("Assets/Hero.prefab") == Prefab
  {
    assert "Assets/Hero" + ".prefab" == "Assets/Hero.prefab";
    LowerStringOfLowerCase(".prefab");
    KindOfPath("Assets/Hero", ".prefab");
  }

  lemma KindOfExampleUpperCase()
    ensures KindOf("Assets/Hero.FBX") == Model
  {
    assert "Assets/Hero" + ".FBX" == "Assets/Hero.FBX";
    var low := LowerString(".FBX");
    assert low[1] == 'f' && low[2] == 'b' && low[3] == 'x';
    assert low == ".fbx";
    KindOfPath("Assets/Hero", ".FBX");
  }

  lemma KindOfExampleMaterial()
    ensures KindOf("Assets/Mats/M_Body.mat") == Other
  {
    assert "Assets/Mats/M_Body" + ".mat" == "Assets/Mats/M_Body.mat";
    ExtensionOfSuffix("Assets/Mats/M_Body", ".mat");
    LowerStringOfLowerCase(".mat");
  }

  lemma KindOfExampleDottedFolder()
    ensures KindOf("Assets/v1.2/Hero") == Other
  {
    assert "Assets/v1.2/" + "Hero" == "Assets/v1.2/Hero";
    NoDotNoExtension("Assets/v1.2/", "Hero");
  }

}
