// Splitting text at every occurrence of a separator character.
module Splitting {
  // Position of the first separator, or the length.
  function FirstAt(s: string, sep: char): (e: nat)
    ensures e <= |s| && (e < |s| ==> s[e] == sep) && forall i :: 0 <= i < e ==> s[i] != sep
  {
    if s == "" || s[0] == sep then 0 else 1 + FirstAt(s[1..], sep)
  }

  function Split(s: string, sep: char): (parts: seq<string>)
    ensures parts != []
    decreases |s|
  {
    var e := FirstAt(s, sep);
    if e == |s| then [s] else [s[..e]] + Split(s[e + 1..], sep)
  }

  function Joined(parts: seq<string>, sep: char): string
    requires parts != []
  {
    if |parts| == 1 then parts[0] else parts[0] + ([sep] + Joined(parts[1..], sep))
  }

  lemma FirstAtIs(s: string, sep: char, e: nat)
    requires e <= |s| && (e < |s| ==> s[e] == sep) && forall i :: 0 <= i < e ==> s[i] != sep
    ensures FirstAt(s, sep) == e
  {}

  lemma SplitFirst(head: string, sep: char, rest: string)
    requires sep !in head
    ensures Split(head + ([sep] + rest), sep) == [head] + Split(rest, sep)
  {
    var s := head + ([sep] + rest);
    FirstAtIs(s, sep, |head|);
    assert s[..|head|] == head && s[|head| + 1..] == rest;
  }

  lemma JoinedCons(head: string, parts: seq<string>, sep: char)
    requires parts != []
    ensures Joined([head] + parts, sep) == head + ([sep] + Joined(parts, sep))
  {
    assert ([head] + parts)[1..] == parts;
  }

  // Splitting loses nothing: the parts determine the text.
  lemma {:induction false} JoinedSplit(s: string, sep: char)
    ensures Joined(Split(s, sep), sep) == s
    decreases |s|
  {
    var e := FirstAt(s, sep);
    if e < |s| {
      var head, rest := s[..e], s[e + 1..];
      JoinedSplit(rest, sep);
      JoinedCons(head, Split(rest, sep), sep);
      assert head + ([sep] + rest) == s;
    }
  }

  lemma {:induction false} PartsHaveNoSeparator(s: string, sep: char)
    ensures forall i :: 0 <= i < |Split(s, sep)| ==> sep !in Split(s, sep)[i]
    decreases |s|
  {
    var e := FirstAt(s, sep);
    if e < |s| {
      PartsHaveNoSeparator(s[e + 1..], sep);
    }
  }

  // A text whose first part is head and whose other parts are those of rest.
  lemma SplitsInto(s: string, sep: char, head: string, rest: string)
    requires Split(s, sep) == [head] + Split(rest, sep)
    ensures s == head + ([sep] + rest) && sep !in head
  {
    JoinedSplit(s, sep);
    JoinedSplit(rest, sep);
    PartsHaveNoSeparator(s, sep);
    assert Split(s, sep)[1..] == Split(rest, sep);
    assert Split(s, sep)[0] == head;
  }
}
