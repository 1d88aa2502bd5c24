/**
 * Composite resource IDs (limelight/utils.go): parts joined with a
 * separator on the way out, split with strings.SplitN on the way back.
 * The separator is any non-empty string; the provider only ever uses ":".
 */
module Ids {
  import opened Common

  /** The separator every resource ID of the provider uses. */
  const Colon: string := ":"

  /** `sep` occurs in `s` starting at position i. */
  predicate OccursAt(s: string, sep: string, i: int) {
    0 <= i && i + |sep| <= |s| && s[i..i + |sep|] == sep
  }

  /** The first occurrence of sep in s at or after position i. */
  function IndexFrom(s: string, sep: string, i: nat): (r: Option<nat>)
    requires sep != []
    ensures r.Some? ==> i <= r.value && OccursAt(s, sep, r.value)
    ensures forall j :: i <= j && (r.None? || j < r.value) ==> !OccursAt(s, sep, j)
    decreases |s| - i
  {
    if i + |sep| > |s| then None
    else if s[i..i + |sep|] == sep then Some(i)
    else IndexFrom(s, sep, i + 1)
  }

  /** strings.Index: the position of the first occurrence of sep in s. */
  function Index(s: string, sep: string): (r: Option<nat>)
    requires sep != []
    ensures r.Some? ==> OccursAt(s, sep, r.value)
    ensures forall j :: 0 <= j && (r.None? || j < r.value) ==> !OccursAt(s, sep, j)
  {
    IndexFrom(s, sep, 0)
  }

  /**
   * strings.SplitN(s, sep, n) for a non-empty separator and n >= 1: at most
   * n parts, split at the leftmost occurrences, the rest left in the last.
   */
  function SplitN(s: string, sep: string, n: nat): (parts: seq<string>)
    requires sep != [] && n >= 1
    ensures 1 <= |parts| <= n
    decreases n
  {
    if n == 1 || Index(s, sep).None? then [s]
    else
      var m := Index(s, sep).value;
      [s[..m]] + SplitN(s[m + |sep|..], sep, n - 1)
  }

  /**
   * What SplitN's parts are: joined with sep they give s back; every part
   * but the last is separator-free, so the cuts are at the leftmost
   * separators; and when fewer than n parts come out, the last one holds
   * no separator either.
   */
  lemma SplitNParts(s: string, sep: string, n: nat)
    requires sep != [] && n >= 1
    ensures var parts := SplitN(s, sep, n);
      Join(parts, sep) == s &&
      (forall i :: 0 <= i < |parts| - 1 ==> SepFree(parts[i], sep)) &&
      (|parts| < n ==> Index(parts[|parts| - 1], sep).None?)
  {
    SplitNJoin(s, sep, n);
    SplitNLeftmost(s, sep, n);
    SplitNLastPart(s, sep, n);
  }

  /** Joining SplitN's parts with the separator gives the input back. */
  lemma {:induction false} SplitNJoin(s: string, sep: string, n: nat)
    requires sep != [] && n >= 1
    ensures Join(SplitN(s, sep, n), sep) == s
    decreases n
  {
    if n > 1 && Index(s, sep).Some? {
      var m := Index(s, sep).value;
      var tail := s[m + |sep|..];
      HeadJoin(s, sep);
      SplitNJoin(tail, sep, n - 1);
      var rest := SplitN(tail, sep, n - 1);
      var parts := [s[..m]] + rest;
      assert SplitN(s, sep, n) == parts;
      assert parts[0] == s[..m] && parts[1..] == rest;
      assert Join(parts, sep) == s[..m] + sep + Join(rest, sep);
    }
  }

  /** Every part of SplitN but the last is separator-free. */
  lemma {:induction false} SplitNLeftmost(s: string, sep: string, n: nat)
    requires sep != [] && n >= 1
    ensures forall i :: 0 <= i < |SplitN(s, sep, n)| - 1 ==> SepFree(SplitN(s, sep, n)[i], sep)
    decreases n
  {
    if n > 1 && Index(s, sep).Some? {
      var m := Index(s, sep).value;
      var tail := s[m + |sep|..];
      HeadSplit(s, sep);
      SplitNLeftmost(tail, sep, n - 1);
      var rest := SplitN(tail, sep, n - 1);
      var parts := [s[..m]] + rest;
      assert SplitN(s, sep, n) == parts;
      forall i | 0 <= i < |parts| - 1
        ensures SepFree(parts[i], sep)
      {
        if i > 0 {
          assert 0 <= i - 1 < |rest| - 1;
          assert SepFree(rest[i - 1], sep);
          assert parts[i] == rest[i - 1];
        } else {
          assert parts[0] == s[..m];
        }
      }
    }
  }

  /** When SplitN stops short of n parts, its last part holds no separator. */
  lemma {:induction false} SplitNLastPart(s: string, sep: string, n: nat)
    requires sep != [] && n >= 1
    ensures var parts := SplitN(s, sep, n);
      |parts| < n ==> Index(parts[|parts| - 1], sep).None?
    decreases n
  {
    if n > 1 && Index(s, sep).Some? {
      var m := Index(s, sep).value;
      var tail := s[m + |sep|..];
      SplitNLastPart(tail, sep, n - 1);
      var rest := SplitN(tail, sep, n - 1);
      var parts := [s[..m]] + rest;
      assert SplitN(s, sep, n) == parts;
      assert parts[|parts| - 1] == rest[|rest| - 1];
    }
  }

  /** strings.Join for at least one part, grouped to the right. */
  function Join(parts: seq<string>, sep: string): string
    requires |parts| >= 1
    decreases |parts|
  {
    if |parts| == 1 then parts[0] else parts[0] + sep + Join(parts[1..], sep)
  }

  /**
   * The separator does not occur in a + sep before position |a|: the first
   * occurrence of sep in a + sep + rest is the one right after a. For a
   * one-character separator this says that a does not contain it (see
   * SingleCharSepFree).
   */
  predicate SepFree(a: string, sep: string) {
    forall j :: 0 <= j < |a| ==> !OccursAt(a + sep, sep, j)
  }

  lemma SingleCharSepFree(a: string, c: char)
    ensures SepFree(a, [c]) <==> c !in a
  {
    forall j | 0 <= j < |a| ensures OccursAt(a + [c], [c], j) <==> a[j] == c {
      assert (a + [c])[j..j + 1] == [a[j]];
    }
  }

  /** A one-character separator that does not occur is not found. */
  lemma IndexOfAbsentChar(s: string, c: char)
    requires c !in s
    ensures Index(s, [c]) == None
  {
    forall j | 0 <= j < |s| ensures !OccursAt(s, [c], j) {
      assert s[j..j + 1] == [s[j]];
    }
  }

  /**
   * Around the first separator: the text before it is separator-free, and
   * the string is that text, the separator and the remainder.
   */
  lemma HeadSplit(str: string, sep: string)
    requires sep != [] && Index(str, sep).Some?
    ensures var m := Index(str, sep).value;
      str == str[..m] + sep + str[m + |sep|..] && SepFree(str[..m], sep)
  {
    HeadJoin(str, sep);
    PrefixSepFree(str, sep, Index(str, sep).value);
  }

  /** The string is the text before its first separator, the separator and the rest. */
  lemma HeadJoin(str: string, sep: string)
    requires sep != [] && Index(str, sep).Some?
    ensures var m := Index(str, sep).value;
      str == str[..m] + sep + str[m + |sep|..]
  {
    var m := Index(str, sep).value;
    assert str[m..m + |sep|] == sep;
  }

  /** The text before the first occurrence of sep is separator-free. */
  lemma PrefixSepFree(str: string, sep: string, m: nat)
    requires m + |sep| <= |str| && str[m..m + |sep|] == sep
    requires forall j :: 0 <= j < m ==> !OccursAt(str, sep, j)
    ensures SepFree(str[..m], sep)
  {
    var a := str[..m];
    var whole := str[..m + |sep|];
    assert a + sep == whole;
    forall j | 0 <= j < m ensures !OccursAt(a + sep, sep, j) {
      assert !OccursAt(str, sep, j);
      if j + |sep| <= |whole| {
        assert whole[j..j + |sep|] == str[j..j + |sep|];
      }
    }
  }

  /** In a + sep + rest with a separator-free a, the first separator follows a. */
  lemma IndexAfterSepFree(a: string, sep: string, rest: string)
    requires sep != [] && SepFree(a, sep)
    ensures Index(a + sep + rest, sep) == Some(|a|)
    ensures (a + sep + rest)[..|a|] == a && (a + sep + rest)[|a| + |sep|..] == rest
  {
    var s := a + sep + rest;
    assert s[|a|..|a| + |sep|] == sep;
    assert OccursAt(s, sep, |a|);
    var r := Index(s, sep);
    if r.Some? && r.value < |a| {
      assert s[r.value..r.value + |sep|] == (a + sep)[r.value..r.value + |sep|];
      assert OccursAt(a + sep, sep, r.value);
    }
  }

  /** The error splitSeparated* return: the ID they could not split. */
  datatype SplitError = UnexpectedFormat(input: string)

  /**
   * splitSeparatedPair: the text before and after the first separator, both
   * non-empty, or ("", "", error).
   */
  function SplitSeparatedPair(str: string, sep: string): (r: (string, string, Option<SplitError>))
    requires sep != []
    ensures r.2.None? <==>
      Index(str, sep).Some? && 0 < Index(str, sep).value && Index(str, sep).value + |sep| < |str|
    ensures r.2.Some? ==> r.0 == "" && r.1 == "" && r.2 == Some(UnexpectedFormat(str))
    ensures r.2.None? ==>
      r.0 != "" && r.1 != "" && str == r.0 + sep + r.1 && SepFree(r.0, sep)
  {
    var s := SplitN(str, sep, 2);
    if |s| != 2 || s[0] == "" || s[1] == "" then ("", "", Some(UnexpectedFormat(str)))
    else
      HeadSplit(str, sep);
      (s[0], s[1], None)
  }

  /**
   * splitSeparatedTriple: the text before the first separator, between the
   * first and the second, and after the second, all non-empty, or
   * ("", "", "", error).
   */
  function SplitSeparatedTriple(str: string, sep: string): (r: (string, string, string, Option<SplitError>))
    requires sep != []
    ensures r.3.Some? ==> r.0 == "" && r.1 == "" && r.2 == "" && r.3 == Some(UnexpectedFormat(str))
    ensures r.3.None? ==>
      r.0 != "" && r.1 != "" && r.2 != "" && str == r.0 + sep + (r.1 + sep + r.2) &&
      SepFree(r.0, sep) && SepFree(r.1, sep)
  {
    var s := SplitN(str, sep, 3);
    if |s| != 3 || s[0] == "" || s[1] == "" || s[2] == "" then ("", "", "", Some(UnexpectedFormat(str)))
    else
      TripleShape(str, sep);
      (s[0], s[1], s[2], None)
  }

  /** One step of SplitN: cut at the first separator, split the remainder. */
  lemma SplitNStep(s: string, sep: string, n: nat)
    requires sep != [] && n >= 2 && Index(s, sep).Some?
    ensures var m := Index(s, sep).value;
      SplitN(s, sep, n) == [s[..m]] + SplitN(s[m + |sep|..], sep, n - 1)
  {
  }

  /** Three parts from SplitN are the text around the first two separators. */
  lemma TripleShape(str: string, sep: string)
    requires sep != [] && |SplitN(str, sep, 3)| == 3
    ensures var s := SplitN(str, sep, 3);
      str == s[0] + sep + (s[1] + sep + s[2]) && SepFree(s[0], sep) && SepFree(s[1], sep)
  {
    var m := Index(str, sep).value;
    var rest := str[m + |sep|..];
    SplitNStep(str, sep, 3);
    var k := Index(rest, sep).value;
    SplitNStep(rest, sep, 2);
    var a, b, c := str[..m], rest[..k], rest[k + |sep|..];
    assert SplitN(str, sep, 3) == [a, b, c];
    HeadJoin(str, sep);
    HeadJoin(rest, sep);
    assert str == a + sep + (b + sep + c);
    PrefixSepFree(str, sep, m);
    PrefixSepFree(rest, sep, k);
  }

  /** fmt.Sprintf("%s:%s", a, b), for any separator. Nothing is validated. */
  function JoinPair(a: string, b: string, sep: string): string {
    a + sep + b
  }

  /** fmt.Sprintf("%s:%s:%s", a, b, c), for any separator. Nothing is validated. */
  function JoinTriple(a: string, b: string, c: string, sep: string): string {
    a + sep + (b + sep + c)
  }

  /** Splitting a joined pair gives the parts back. */
  lemma PairRoundTrip(a: string, b: string, sep: string)
    requires sep != [] && a != "" && b != "" && SepFree(a, sep)
    ensures SplitSeparatedPair(JoinPair(a, b, sep), sep) == (a, b, None)
  {
    IndexAfterSepFree(a, sep, b);
  }

  /** Splitting a joined triple gives the parts back; the last may hold separators. */
  lemma TripleRoundTrip(a: string, b: string, c: string, sep: string)
    requires sep != [] && a != "" && b != "" && c != "" && SepFree(a, sep) && SepFree(b, sep)
    ensures SplitSeparatedTriple(JoinTriple(a, b, c, sep), sep) == (a, b, c, None)
  {
    var rest := b + sep + c;
    IndexAfterSepFree(a, sep, rest);
    IndexAfterSepFree(b, sep, c);
    TripleAtIndices(a + sep + rest, sep, a, rest, b, c);
  }

  /** A triple split cuts at the first separator and at the first one after it. */
  lemma TripleAtIndices(str: string, sep: string, a: string, rest: string, b: string, c: string)
    requires sep != [] && a != "" && b != "" && c != ""
    requires Index(str, sep) == Some(|a|) && str[..|a|] == a && str[|a| + |sep|..] == rest
    requires Index(rest, sep) == Some(|b|) && rest[..|b|] == b && rest[|b| + |sep|..] == c
    ensures SplitSeparatedTriple(str, sep) == (a, b, c, None)
  {
    SplitNStep(str, sep, 3);
    SplitNStep(rest, sep, 2);
    assert SplitN(str, sep, 3) == [a, b, c];
  }

  /**
   * A pair split succeeds exactly when str has a separator-free non-empty
   * head, the separator, and a non-empty tail; every separator after the
   * first stays in the second part.
   */
  lemma PairSplitIff(str: string, sep: string)
    requires sep != []
    ensures SplitSeparatedPair(str, sep).2.None? <==>
      exists a, b :: a != "" && b != "" && SepFree(a, sep) && str == JoinPair(a, b, sep)
  {
    var r := SplitSeparatedPair(str, sep);
    if r.2.None? {
      assert str == JoinPair(r.0, r.1, sep);
    }
    if exists a, b :: a != "" && b != "" && SepFree(a, sep) && str == JoinPair(a, b, sep) {
      var a, b :| a != "" && b != "" && SepFree(a, sep) && str == JoinPair(a, b, sep);
      PairRoundTrip(a, b, sep);
    }
  }

  /**
   * A triple split fails when there are fewer than two separators or a part
   * is empty; it succeeds exactly on joined triples whose first two parts are
   * separator-free.
   */
  lemma TripleSplitIff(str: string, sep: string)
    requires sep != []
    ensures SplitSeparatedTriple(str, sep).3.None? <==>
      exists a, b, c :: a != "" && b != "" && c != "" && SepFree(a, sep) && SepFree(b, sep) &&
        str == JoinTriple(a, b, c, sep)
  {
    var r := SplitSeparatedTriple(str, sep);
    if r.3.None? {
      assert str == JoinTriple(r.0, r.1, r.2, sep);
    }
    if exists a, b, c :: a != "" && b != "" && c != "" && SepFree(a, sep) && SepFree(b, sep) &&
        str == JoinTriple(a, b, c, sep) {
      var a, b, c :| a != "" && b != "" && c != "" && SepFree(a, sep) && SepFree(b, sep) &&
        str == JoinTriple(a, b, c, sep);
      TripleRoundTrip(a, b, c, sep);
    }
  }

  /** Pair splits with ":": later separators stay in the second part. */
  lemma PairExamples()
    ensures SplitSeparatedPair("a:b:c", Colon) == ("a", "b:c", None)
    ensures SplitSeparatedPair("a:", Colon) == ("", "", Some(UnexpectedFormat("a:")))
    ensures SplitSeparatedPair("abc", Colon) == ("", "", Some(UnexpectedFormat("abc")))
  {
    SingleCharSepFree("a", ':');
    assert "a:b:c" == JoinPair("a", "b:c", Colon);
    PairRoundTrip("a", "b:c", Colon);
    IndexAfterSepFree("a", Colon, "");
    assert "a:" == "a" + Colon + "";
    IndexOfAbsentChar("abc", ':');
  }

  /** A triple split with ":": the third part absorbs extra separators. */
  lemma TripleExtraSeparatorExample()
    ensures SplitSeparatedTriple("acct1:fn1:alias:x", Colon) == ("acct1", "fn1", "alias:x", None)
  {
    SingleCharSepFree("acct1", ':');
    SingleCharSepFree("fn1", ':');
    assert "acct1:fn1:alias:x" == JoinTriple("acct1", "fn1", "alias:x", Colon);
    TripleRoundTrip("acct1", "fn1", "alias:x", Colon);
  }

  /** An empty last part is rejected. */
  lemma TripleEmptyLastExample()
    ensures SplitSeparatedTriple("a:b:", Colon) == ("", "", "", Some(UnexpectedFormat("a:b:")))
  {
    var s := "a:b:";
    SingleCharSepFree("a", ':');
    SingleCharSepFree("b", ':');
    IndexAfterSepFree("a", Colon, "b:");
    IndexAfterSepFree("b", Colon, "");
    assert s == "a" + Colon + "b:" && "b:" == "b" + Colon + "";
    assert SplitN(s, Colon, 3) == ["a", "b", ""];
  }

  /** An empty middle part is rejected. */
  lemma TripleEmptyMiddleExample()
    ensures SplitSeparatedTriple("a::c", Colon) == ("", "", "", Some(UnexpectedFormat("a::c")))
  {
    var s := "a::c";
    SingleCharSepFree("a", ':');
    SingleCharSepFree("", ':');
    IndexAfterSepFree("a", Colon, ":c");
    assert s == "a" + Colon + ":c";
    assert SplitN(s, Colon, 3)[1] == "";
  }
}
