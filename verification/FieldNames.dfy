/** Names under which the states of a field are stored. */
module FieldNames {

  datatype FieldState = NP1 | N | NM1 | NPH | NMH

  const NEW := NP1

  const GUARD: string := "__FS_"

  function Suffix(s: FieldState): string {
    match s
    case NP1 => ""
    case N => GUARD + "Old"
    case NM1 => GUARD + "NM1"
    case NPH => GUARD + "NPH"
    case NMH => GUARD + "NMH"
  }

  function FieldNameWithState(fname: string, s: FieldState): string { fname + Suffix(s) }

  predicate OccursAt(name: string, i: nat) { i + |GUARD| <= |name| && name[i..i + |GUARD|] == GUARD }

  /** A name that users may give: the guard occurs nowhere in it. */
  predicate IsValidFieldName(name: string) { !exists i :: 0 <= i < |name| && OccursAt(name, i) }

  /** How stored names end, state by state; the newest state has the plain name. */
  lemma StoredNames(base: string)
    ensures FieldNameWithState(base, NP1) == base
    ensures FieldNameWithState(base, N) == base + "__FS_Old" && FieldNameWithState(base, NM1) == base + "__FS_NM1"
    ensures FieldNameWithState(base, NPH) == base + "__FS_NPH" && FieldNameWithState(base, NMH) == base + "__FS_NMH"
  {
    assert GUARD + "Old" == "__FS_Old" && GUARD + "NM1" == "__FS_NM1";
    assert GUARD + "NPH" == "__FS_NPH" && GUARD + "NMH" == "__FS_NMH";
    assert base + "" == base;
  }

  lemma SuffixesDiffer(s: FieldState, t: FieldState)
    requires s != NEW && t != NEW && s != t
    ensures |Suffix(s)| == |Suffix(t)| == 8 && Suffix(s) != Suffix(t)
  {
    assert Suffix(s)[5..] != Suffix(t)[5..] by {
      assert Suffix(N)[5..] == "Old" && Suffix(NM1)[5..] == "NM1";
      assert Suffix(NPH)[5..] == "NPH" && Suffix(NMH)[5..] == "NMH";
    }
  }

  /** A stored name may be declared by a user only if it is a plain name already: the
      names of older and intermediate states never collide with declared ones. */
  lemma MangledNamesAreReserved(base: string, s: FieldState)
    ensures IsValidFieldName(FieldNameWithState(base, s)) <==> s == NEW && IsValidFieldName(base)
  {
    var name := FieldNameWithState(base, s);
    if s == NEW {
      assert name == base;
    } else {
      assert name[|base|..|base| + 5] == GUARD;
      assert OccursAt(name, |base|);
    }
  }

  lemma SameParts(a: string, u: string, b: string, w: string)
    requires a + u == b + w && |u| == |w|
    ensures a == b && u == w
  {
    var x := a + u;
    assert a == x[..|a|] && b == x[..|a|] && u == x[|a|..] && w == x[|a|..];
  }

  /** Different fields or states never share a stored name. */
  lemma NamesAreInjective(a: string, s: FieldState, b: string, t: FieldState)
    requires IsValidFieldName(a) && IsValidFieldName(b)
    requires FieldNameWithState(a, s) == FieldNameWithState(b, t)
    ensures a == b && s == t
  {
    MangledNamesAreReserved(a, s);
    MangledNamesAreReserved(b, t);
    assert a + "" == a && b + "" == b;
    if s != NEW && t != NEW {
      assert |Suffix(s)| == |Suffix(t)| == 8;
      SameParts(a, Suffix(s), b, Suffix(t));
      if s != t {
        SuffixesDiffer(s, t);
      }
    }
  }
}
