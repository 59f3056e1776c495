/** The target-name rule: the name a material is expected to have on disk. */
module Naming {

  /** The window's initial `_prefix`. */
  const DefaultPrefix := "M_"

  /** Ordinal prefix test on strings (C#'s `StartsWith`, without culture rules). */
  predicate StartsWith(s: string, prefix: string)
  {
    |prefix| <= |s| && s[..|prefix|] == prefix
  }

  /** The name looked up for a material called `name`: the name itself when it already
      carries the prefix, otherwise the prefix followed by the name. */
  function TargetName(name: string, prefix: string): (t: string)
    ensures StartsWith(t, prefix)
    ensures |name| <= |t| && t[|t| - |name|..] == name
    ensures |t| == if StartsWith(name, prefix) then |name| else |prefix| + |name|
  {
    if StartsWith(name, prefix) then name else prefix + name
  }

  /** A name is left alone exactly when it already carries the prefix. */
  lemma TargetNameFixedPoints(name: string, prefix: string)
    ensures TargetName(name, prefix) == name <==> StartsWith(name, prefix)
  {
    if !StartsWith(name, prefix) {
      assert |TargetName(name, prefix)| == |prefix| + |name|;
      assert |prefix| > 0;
    }
  }

  /** Normalising twice is the same as normalising once. */
  lemma TargetNameIdempotent(name: string, prefix: string)
    ensures TargetName(TargetName(name, prefix), prefix) == TargetName(name, prefix)
  {
    TargetNameFixedPoints(TargetName(name, prefix), prefix);
  }

  /** With the default prefix, "M_Body" is kept as it is and "Body" becomes "M_Body": both
      look up the same material. */
  lemma TargetNameExamples()
    ensures TargetName("M_Body", DefaultPrefix) == "M_Body"
    ensures TargetName("Body", DefaultPrefix) == "M_Body"
  {
    assert StartsWith("M_Body", "M_") by { assert "M_Body"[..2] == "M_"; }
    assert !StartsWith("Body", "M_") by { assert "Body"[..2][0] == 'B'; }
  }

}
