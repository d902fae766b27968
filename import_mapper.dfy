/** The import mapper of the experiment importer: corrections applied to the
    run information of another data source as it is imported (a misspelt
    project name, the casing of a material). */
module ImportMapper {
  import opened Text

  const MinnaBluff: string := "Minna Bluff"
  const JCurve: string := "J"

  /** The lower-cased spellings that name the Minna Bluff project. */
  predicate IsMinnaBluff(pl: string)
  {
    pl == "mina bluff" || pl == "minna bluff"
  }

  /** The lower-cased spellings that name the J-curve project. */
  predicate IsJCurve(pl: string)
  {
    pl == "j" || pl == "j-curve"
  }

  /** `MinnaBluffMapper.map_project`: any casing of "mina bluff" or
      "minna bluff" becomes "Minna Bluff", any casing of "j" or "j-curve"
      becomes "J", and every other project is kept as it is. */
  function MapProject(project: string): (r: string)
    ensures IsMinnaBluff(Lower(project)) ==> r == MinnaBluff
    ensures !IsMinnaBluff(Lower(project)) && IsJCurve(Lower(project)) ==> r == JCurve
    ensures !IsMinnaBluff(Lower(project)) && !IsJCurve(Lower(project)) ==> r == project
  {
    var pl := Lower(project);
    if IsMinnaBluff(pl) then MinnaBluff
    else if IsJCurve(pl) then JCurve
    else project
  }

  lemma MinnaBluffLower()
    ensures Lower(MinnaBluff) == "minna bluff"
  {
    var l := Lower(MinnaBluff);
    assert l[0] == 'm' && l[1] == 'i' && l[2] == 'n' && l[3] == 'n' && l[4] == 'a' && l[5] == ' ';
    assert l[6] == 'b' && l[7] == 'l' && l[8] == 'u' && l[9] == 'f' && l[10] == 'f';
  }

  lemma JCurveLower()
    ensures Lower(JCurve) == "j"
  {
    assert Lower(JCurve)[0] == 'j';
  }

  /** The names the mapper produces are mapped to themselves. */
  lemma MapProjectFixedPoints()
    ensures MapProject(MinnaBluff) == MinnaBluff
    ensures MapProject(JCurve) == JCurve
  {
    MinnaBluffLower();
    JCurveLower();
  }

  /** Mapping a project twice maps it once: the mapper's output needs no
      further correction. */
  lemma MapProjectIdempotent(project: string)
    ensures MapProject(MapProject(project)) == MapProject(project)
  {
    MapProjectFixedPoints();
  }

  /** Two projects that differ only in casing map to the same name whenever
      either is one of the corrected spellings. */
  lemma MapProjectIgnoresCase(p: string, q: string)
    requires Lower(p) == Lower(q)
    requires IsMinnaBluff(Lower(p)) || IsJCurve(Lower(p))
    ensures MapProject(p) == MapProject(q)
  {
  }

  lemma LowerCharIdempotent(c: char)
    ensures LowerChar(LowerChar(c)) == LowerChar(c)
  {
  }

  /** Lower-casing twice lower-cases once. */
  lemma LowerIdempotent(s: string)
    ensures Lower(Lower(s)) == Lower(s)
  {
    forall i | 0 <= i < |s|
      ensures Lower(Lower(s))[i] == Lower(s)[i]
    {
      LowerCharIdempotent(s[i]);
    }
  }

  /** `MinnaBluffMapper.map_material`: `mat.capitalize()`, its first
      character upper-cased and the rest lower-cased; no ASCII letter after
      the first is upper case. */
  function MapMaterial(mat: string): (r: string)
    ensures |r| == |mat|
    ensures mat != [] ==> r[0] == UpperChar(mat[0])
    ensures forall i :: 1 <= i < |mat| ==> r[i] == LowerChar(mat[i])
    ensures forall i :: 1 <= i < |r| ==> !('A' <= r[i] <= 'Z')
  {
    var r := Capitalize(mat);
    assert forall i :: 1 <= i < |mat| ==> r[i] == r[1..][i - 1] == Lower(mat[1..])[i - 1];
    r
  }

  /** Capitalising a material twice capitalises it once. */
  lemma MapMaterialIdempotent(mat: string)
    ensures MapMaterial(MapMaterial(mat)) == MapMaterial(mat)
  {
    var once := MapMaterial(mat);
    var twice := MapMaterial(once);
    forall i | 0 <= i < |mat|
      ensures twice[i] == once[i]
    {
      if i > 0 {
        LowerCharIdempotent(mat[i]);
      }
    }
  }

  /** Two materials that differ only in casing map to the same material. */
  lemma MapMaterialIgnoresCase(a: string, b: string)
    requires Lower(a) == Lower(b)
    ensures MapMaterial(a) == MapMaterial(b)
  {
    if a != [] {
      assert LowerChar(a[0]) == LowerChar(b[0]);
      assert UpperChar(a[0]) == UpperChar(b[0]);
      forall i | 1 <= i < |a|
        ensures MapMaterial(a)[i] == MapMaterial(b)[i]
      {
        assert Lower(a)[i] == Lower(b)[i];
      }
    }
  }
}
