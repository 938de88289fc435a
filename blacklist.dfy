/** The artist blacklist test: an artist is skipped when some blacklisted name, lower-cased,
    occurs inside the lower-cased artist name. */
module Blacklist {

  /** Lower-casing of one character, for the ASCII letters. */
  function LowerChar(c: char): char {
    if 'A' <= c <= 'Z' then (c as int + 32) as char else c
  }

  function Lower(s: string): (r: string)
    ensures |r| == |s|
    ensures forall i :: 0 <= i < |s| ==> r[i] == LowerChar(s[i])
  {
    if s == [] then [] else [LowerChar(s[0])] + Lower(s[1..])
  }

  /** `needle` occurs in `hay` starting at position i. */
  ghost predicate OccursAt(needle: string, hay: string, i: int) {
    0 <= i && i + |needle| <= |hay| && hay[i..i + |needle|] == needle
  }

  /** Substring containment (the empty string is in every string). */
  function Contains(needle: string, hay: string): (r: bool)
    ensures r <==> exists i :: OccursAt(needle, hay, i)
    decreases |hay|
  {
    if needle <= hay then
      assert OccursAt(needle, hay, 0);
      true
    else if hay == [] then
      assert forall i :: !OccursAt(needle, hay, i);
      false
    else
      var r := Contains(needle, hay[1..]);
      OccursShift(needle, hay);
      r
  }

  /** Away from the first position, occurring in `hay` is occurring in its tail. */
  lemma OccursShift(needle: string, hay: string)
    requires hay != [] && !(needle <= hay)
    ensures (exists i :: OccursAt(needle, hay, i)) <==> exists i :: OccursAt(needle, hay[1..], i)
  {
    forall i | OccursAt(needle, hay[1..], i) ensures OccursAt(needle, hay, i + 1) {
      assert hay[1..][i..i + |needle|] == hay[i + 1..i + 1 + |needle|];
    }
    forall i | OccursAt(needle, hay, i) ensures OccursAt(needle, hay[1..], i - 1) {
      if i == 0 {
        assert false;
      }
      var a, b := hay[1..][i - 1..i - 1 + |needle|], hay[i..i + |needle|];
      assert forall k :: 0 <= k < |needle| ==> a[k] == b[k];
    }
  }

  /** The blacklist check of both the Radio artist loop and the Master candidate loop:
      with the feature on, some name of the set, lower-cased, is a substring of the
      lower-cased artist name. With the feature off nothing is blacklisted. */
  predicate Blacklisted(enabled: bool, names: set<string>, artistName: string) {
    enabled && exists n :: n in names && Contains(Lower(n), Lower(artistName))
  }

  /** Lower-casing twice is lower-casing once. */
  lemma LowerIdempotent(s: string)
    ensures Lower(Lower(s)) == Lower(s)
  {
  }

  /** The test cannot tell two artist names apart that differ only in letter case. */
  lemma CaseInsensitive(enabled: bool, names: set<string>, a: string, b: string)
    requires Lower(a) == Lower(b)
    ensures Blacklisted(enabled, names, a) == Blacklisted(enabled, names, b)
  {
  }

  /** A blacklisted name also blacklists every longer name around a match,
      for example "Be" blacklists "Beyoncé" and "The Beatles". */
  lemma {:induction false} ContainsInside(needle: string, hay: string, pre: string, post: string)
    requires Contains(needle, hay)
    ensures Contains(needle, pre + hay + post)
  {
    var i :| OccursAt(needle, hay, i);
    var big := pre + hay + post;
    assert big[|pre| + i..|pre| + i + |needle|] == hay[i..i + |needle|];
    assert OccursAt(needle, big, |pre| + i);
  }

  lemma LowerBeyonce()
    ensures Lower("Beyoncé") == "beyoncé"
  {
    var s := "Beyoncé";
    assert forall i :: 0 <= i < |s| ==> Lower(s)[i] == "beyoncé"[i];
  }

  /** "be" matches "Beyoncé". */
  lemma BeMatchesBeyonce()
    ensures Blacklisted(true, {"Be"}, "Beyoncé")
  {
    assert Lower("Be") == "be" by {
      assert forall i :: 0 <= i < 2 ==> Lower("Be")[i] == "be"[i];
    }
    LowerBeyonce();
    assert OccursAt("be", "beyoncé", 0);
  }

  /** "bee" does not match "Beyoncé": a name matches only as a contiguous substring. */
  lemma BeeMissesBeyonce()
    ensures !Blacklisted(true, {"Bee"}, "Beyoncé")
  {
    assert Lower("Bee") == "bee" by {
      assert forall i :: 0 <= i < 3 ==> Lower("Bee")[i] == "bee"[i];
    }
    LowerBeyonce();
  }

  /** An empty name on the list blacklists every artist. */
  lemma EmptyNameBlacklistsAll(names: set<string>, artistName: string)
    requires "" in names
    ensures Blacklisted(true, names, artistName)
  {
    assert OccursAt(Lower(""), Lower(artistName), 0);
  }

  /** A match needs a name no longer than the artist name. */
  lemma {:induction false} MatchNotLonger(names: set<string>, artistName: string)
    requires Blacklisted(true, names, artistName)
    ensures exists n :: n in names && |n| <= |artistName|
  {
    var n :| n in names && Contains(Lower(n), Lower(artistName));
    var i :| OccursAt(Lower(n), Lower(artistName), i);
  }
}
