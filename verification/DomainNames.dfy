// Domain names as dot-separated labels, and the test whether a name is a
// direct child of a base domain.
module DomainNames {
  import opened Splitting

  function Labels(name: string): seq<string> {
    Split(name, '.')
  }

  // Lower-case, without one trailing dot. How single characters are lowered is
  // given from outside.
  function Normalised(lower: char -> char, s: string): string {
    var lowered := seq(|s|, i requires 0 <= i < |s| => lower(s[i]));
    if lowered != "" && lowered[|lowered| - 1] == '.' then lowered[..|lowered| - 1] else lowered
  }

  predicate HasSuffix(s: string, suffix: string) {
    |suffix| <= |s| && s[|s| - |suffix|..] == suffix
  }

  // One label cut off the front of a name leaves the base.
  predicate CutsOneLabel(name: string, base: string) {
    var suffix := "." + base;
    HasSuffix(name, suffix) &&
    var child := name[..|name| - |suffix|];
    child != "" && '.' !in child
  }

  function IsDirectChildOfBaseDomain(lower: char -> char, fqdn: string, baseDomain: string): bool {
    var name := Normalised(lower, fqdn);
    var base := Normalised(lower, baseDomain);
    base != "" && CutsOneLabel(name, base)
  }

  // The name's labels are one non-empty label followed by the base's.
  ghost predicate OneLabelBelow(name: string, base: string) {
    exists child: string :: child != "" && Labels(name) == [child] + Labels(base)
  }

  lemma CutIsBelow(name: string, base: string)
    requires CutsOneLabel(name, base)
    ensures OneLabelBelow(name, base)
  {
    var child := name[..|name| - |"." + base|];
    SplitFirst(child, '.', base);
    assert name == child + ("." + base);
  }

  lemma BelowIsCut(name: string, base: string, child: string)
    requires Labels(name) == [child] + Labels(base) && child != ""
    ensures CutsOneLabel(name, base)
  {
    SplitsInto(name, '.', child, base);
    assert name[|name| - |"." + base|..] == "." + base;
    assert name[..|name| - |"." + base|] == child;
  }

  // The string test decides exactly the relation on labels; there is no child
  // of an empty base domain.
  lemma DirectChildIsOneLabelBelow(lower: char -> char, fqdn: string, baseDomain: string)
    ensures IsDirectChildOfBaseDomain(lower, fqdn, baseDomain) <==>
            Normalised(lower, baseDomain) != "" && OneLabelBelow(Normalised(lower, fqdn), Normalised(lower, baseDomain))
  {
    var name, base := Normalised(lower, fqdn), Normalised(lower, baseDomain);
    if CutsOneLabel(name, base) {
      CutIsBelow(name, base);
    } else if OneLabelBelow(name, base) {
      var child: string :| child != "" && Labels(name) == [child] + Labels(base);
      BelowIsCut(name, base, child);
    }
  }

  // A name is a direct child of at most one base domain.
  lemma OneParent(lower: char -> char, fqdn: string, one: string, other: string)
    requires IsDirectChildOfBaseDomain(lower, fqdn, one) && IsDirectChildOfBaseDomain(lower, fqdn, other)
    ensures Normalised(lower, one) == Normalised(lower, other)
  {
    DirectChildIsOneLabelBelow(lower, fqdn, one);
    DirectChildIsOneLabelBelow(lower, fqdn, other);
    var labels := Labels(Normalised(lower, fqdn));
    var a: string :| labels == [a] + Labels(Normalised(lower, one));
    var b: string :| labels == [b] + Labels(Normalised(lower, other));
    assert labels[1..] == Labels(Normalised(lower, one)) && labels[1..] == Labels(Normalised(lower, other));
    JoinedSplit(Normalised(lower, one), '.');
    JoinedSplit(Normalised(lower, other), '.');
  }

  // ---- What normalising does ----

  // Every character is lowered, and one dot at the end, if there is one then, is dropped.
  lemma NormalisedExactly(lower: char -> char, s: string)
    ensures var name := Normalised(lower, s);
            && |name| == (if s != "" && lower(s[|s| - 1]) == '.' then |s| - 1 else |s|)
            && forall i :: 0 <= i < |name| ==> name[i] == lower(s[i])
  {}

  predicate SameButForCase(lower: char -> char, s: string, t: string) {
    |s| == |t| && forall i :: 0 <= i < |s| ==> lower(s[i]) == lower(t[i])
  }

  // So the test does not depend on the case of letters.
  lemma CaseIsIrrelevant(lower: char -> char, fqdn: string, other: string, baseDomain: string, otherBase: string)
    requires SameButForCase(lower, fqdn, other) && SameButForCase(lower, baseDomain, otherBase)
    ensures IsDirectChildOfBaseDomain(lower, fqdn, baseDomain) == IsDirectChildOfBaseDomain(lower, other, otherBase)
  {
    SameNormalised(lower, fqdn, other);
    SameNormalised(lower, baseDomain, otherBase);
  }

  lemma SameNormalised(lower: char -> char, s: string, t: string)
    requires SameButForCase(lower, s, t)
    ensures Normalised(lower, s) == Normalised(lower, t)
  {
    NormalisedExactly(lower, s);
    NormalisedExactly(lower, t);
  }

  // Nor does it depend on a dot that ends either name.
  lemma FinalDotIsIrrelevant(lower: char -> char, name: string)
    requires lower('.') == '.' && (name != "" ==> lower(name[|name| - 1]) != '.')
    ensures Normalised(lower, name + ".") == Normalised(lower, name)
  {
    NormalisedExactly(lower, name);
    NormalisedExactly(lower, name + ".");
  }

  // A label put before a base domain, in any case, names a direct child of it.
  lemma LabelMakesChild(lower: char -> char, child: string, baseDomain: string)
    requires lower('.') == '.' && Normalised(lower, baseDomain) != ""
    requires child != "" && forall i :: 0 <= i < |child| ==> lower(child[i]) != '.'
    ensures IsDirectChildOfBaseDomain(lower, child + "." + baseDomain, baseDomain)
  {
    var fqdn := child + "." + baseDomain;
    var name, base := Normalised(lower, fqdn), Normalised(lower, baseDomain);
    NormalisedExactly(lower, fqdn);
    NormalisedExactly(lower, baseDomain);
    assert fqdn[|fqdn| - 1] == baseDomain[|baseDomain| - 1];
    assert |name| == |child| + 1 + |base|;
    var first := name[..|child|];
    assert forall i :: 0 <= i < |child| ==> first[i] == lower(child[i]);
    assert forall i :: 0 <= i < |base| ==> name[|child| + 1 + i] == lower(baseDomain[i]);
    assert name[|child|] == '.';
    assert name[|name| - |"." + base|..] == "." + base;
  }
}
