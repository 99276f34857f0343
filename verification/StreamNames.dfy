/** Stream names: derived from display names, and kept apart by a suffix (internal/app/registry.go). */
module StreamNames {
  import opened Decimal

  /** The character tables of the Unicode library: lower case, and which characters a name keeps. */
  datatype CharTable = CharTable(lower: char -> char, letterOrDigit: char -> bool)

  /** What a name relies on: lowering settles, and the dash and the plain letters are what they are. */
  ghost predicate Lawful(t: CharTable) {
    && (forall c :: t.lower(t.lower(c)) == t.lower(c))
    && t.lower('-') == '-' && !t.letterOrDigit('-')
    && (forall c :: 'a' <= c <= 'z' ==> t.lower(c) == c && t.letterOrDigit(c))
  }

  function AsciiLower(c: char): char {
    if 'A' <= c <= 'Z' then (c as int + 32) as char else c
  }

  /** Such tables exist: plain ASCII is one. */
  type LawfulTable = t: CharTable | Lawful(t)
    witness CharTable(AsciiLower, c => IsDigit(c) || 'a' <= c <= 'z' || 'A' <= c <= 'Z')

  // ---- one name ----

  /** The builder and its flag after one lowered character. */
  function Append(t: CharTable, built: string, separator: bool, c: char): (string, bool) {
    if t.letterOrDigit(c) then (built + [c], false)
    else if built != "" && !separator then (built + "-", true)
    else (built, separator)
  }

  function Fold(t: CharTable, name: string, built: string, separator: bool): string
    decreases |name|
  {
    if name == "" then built
    else
      var next := Append(t, built, separator, t.lower(name[0]));
      Fold(t, name[1..], next.0, next.1)
  }

  function TrimDashes(s: string): string
    decreases |s|
  {
    if s != "" && s[0] == '-' then TrimDashes(s[1..])
    else if s != "" && s[|s| - 1] == '-' then TrimDashes(s[..|s| - 1])
    else s
  }

  function NameOf(t: CharTable, name: string): string {
    var result := TrimDashes(Fold(t, name, "", false));
    if result == "" then "camera" else result
  }

  method StreamName(t: CharTable, name: string) returns (r: string)
    ensures r == NameOf(t, name)
  {
    var built := "";
    var separator := false;
    for i := 0 to |name|
      invariant Fold(t, name, "", false) == Fold(t, name[i..], built, separator)
    {
      assert name[i..][1..] == name[i + 1..];
      var c := t.lower(name[i]);
      if t.letterOrDigit(c) {
        built := built + [c];
        separator := false;
        continue;
      }
      if built != "" && !separator {
        built := built + "-";
        separator := true;
      }
    }
    r := TrimDashes(built);
    if r == "" { r := "camera"; }
  }

  predicate Settled(t: CharTable, c: char) { c == '-' || (t.letterOrDigit(c) && t.lower(c) == c) }

  predicate SingleDashes(s: string) { forall i :: 0 < i < |s| ==> s[i - 1] != '-' || s[i] != '-' }

  /** Lowered letters and digits in groups, single dashes between the groups. */
  predicate Canonical(t: CharTable, s: string) {
    && s != "" && s[0] != '-' && s[|s| - 1] != '-'
    && SingleDashes(s)
    && forall i :: 0 <= i < |s| ==> Settled(t, s[i])
  }

  /** What the builder holds at any moment. */
  predicate Building(t: CharTable, built: string, separator: bool) {
    && (built != "" ==> built[0] != '-')
    && (separator <==> built != "" && built[|built| - 1] == '-')
    && SingleDashes(built)
    && forall i :: 0 <= i < |built| ==> Settled(t, built[i])
  }

  lemma {:induction false} FoldBuilds(t: LawfulTable, name: string, built: string, separator: bool)
    requires Building(t, built, separator)
    ensures var result := Fold(t, name, built, separator);
            Building(t, result, result != "" && result[|result| - 1] == '-')
    decreases |name|
  {
    if name == "" {
    } else {
      var next := Append(t, built, separator, t.lower(name[0]));
      FoldBuilds(t, name[1..], next.0, next.1);
    }
  }

  lemma TrimBuilt(t: CharTable, built: string, separator: bool)
    requires Building(t, built, separator)
    ensures TrimDashes(built) == if separator then built[..|built| - 1] else built
    ensures TrimDashes(built) == "" || Canonical(t, TrimDashes(built))
  {
    if separator {
      assert |built| > 1;
      assert built[|built| - 2] != '-' by { assert SingleDashes(built); }
      assert built[..|built| - 1][0] == built[0];
    }
  }

  lemma NameIsCanonical(t: LawfulTable, name: string)
    ensures Canonical(t, NameOf(t, name))
  {
    FoldBuilds(t, name, "", false);
    var built := Fold(t, name, "", false);
    TrimBuilt(t, built, built != "" && built[|built| - 1] == '-');
    var c := "camera";
    assert forall i :: 0 <= i < |c| ==> 'a' <= c[i] <= 'z';
  }

  lemma {:induction false} FoldKeeps(t: LawfulTable, s: string, i: nat)
    requires Canonical(t, s) && i <= |s|
    ensures Fold(t, s[i..], s[..i], i > 0 && s[i - 1] == '-') == s
    decreases |s| - i
  {
    if i == |s| {
      assert s[..i] == s;
    } else {
      assert s[i..][0] == s[i] && s[i..][1..] == s[i + 1..];
      assert Settled(t, s[i]);
      assert i > 0 ==> s[i - 1] != '-' || s[i] != '-';
      assert s[..i] + [s[i]] == s[..i + 1];
      FoldKeeps(t, s, i + 1);
    }
  }

  /** A name is left alone exactly when it is canonical; every derived name is, so deriving is idempotent. */
  lemma NameOfIsIdempotent(t: LawfulTable, name: string)
    ensures NameOf(t, name) == name <==> Canonical(t, name)
    ensures NameOf(t, NameOf(t, name)) == NameOf(t, name)
  {
    NameIsCanonical(t, name);
    if Canonical(t, name) { CanonicalStays(t, name); }
    CanonicalStays(t, NameOf(t, name));
  }

  lemma CanonicalStays(t: LawfulTable, s: string)
    requires Canonical(t, s)
    ensures NameOf(t, s) == s
  {
    FoldKeeps(t, s, 0);
    assert s[0..] == s && s[..0] == "";
  }

  /** The letters and digits of a text, lowered, without anything else. */
  function LettersOf(t: CharTable, name: string): string {
    if name == "" then ""
    else (if t.letterOrDigit(t.lower(name[0])) then [t.lower(name[0])] else "") + LettersOf(t, name[1..])
  }

  /** The letters and digits of a text as they are. */
  function Undashed(t: CharTable, s: string): string {
    if s == "" then "" else (if t.letterOrDigit(s[0]) then [s[0]] else "") + Undashed(t, s[1..])
  }

  lemma {:induction false} UndashedJoins(t: CharTable, a: string, b: string)
    ensures Undashed(t, a + b) == Undashed(t, a) + Undashed(t, b)
  {
    if a == "" {
      assert a + b == b;
    } else {
      assert (a + b)[1..] == a[1..] + b;
      UndashedJoins(t, a[1..], b);
    }
  }

  lemma {:induction false} FoldKeepsLetters(t: LawfulTable, name: string, built: string, separator: bool)
    ensures Undashed(t, Fold(t, name, built, separator)) == Undashed(t, built) + LettersOf(t, name)
    decreases |name|
  {
    if name == "" {
      assert Undashed(t, built) + "" == Undashed(t, built);
    } else {
      var c := t.lower(name[0]);
      var next := Append(t, built, separator, c);
      FoldKeepsLetters(t, name[1..], next.0, next.1);
      UndashedJoins(t, built, [c]);
      UndashedJoins(t, built, "-");
      OneUndashed(t, c);
      OneUndashed(t, '-');
    }
  }

  lemma OneUndashed(t: CharTable, c: char)
    ensures Undashed(t, [c]) == if t.letterOrDigit(c) then [c] else ""
  {
    assert [c][1..] == "";
    assert Undashed(t, "") == "";
  }

  lemma {:induction false} TrimKeepsLetters(t: LawfulTable, s: string)
    ensures Undashed(t, TrimDashes(s)) == Undashed(t, s)
    decreases |s|
  {
    if s != "" && s[0] == '-' {
      TrimKeepsLetters(t, s[1..]);
    } else if s != "" && s[|s| - 1] == '-' {
      TrimKeepsLetters(t, s[..|s| - 1]);
      assert s == s[..|s| - 1] + "-";
      UndashedJoins(t, s[..|s| - 1], "-");
      OneUndashed(t, '-');
    } else {
    }
  }

  /** A derived name has the lowered letters and digits of the name, all of them in order; without any it is camera. */
  lemma NameKeepsTheLetters(t: LawfulTable, name: string)
    ensures LettersOf(t, name) != "" ==> Undashed(t, NameOf(t, name)) == LettersOf(t, name)
    ensures LettersOf(t, name) == "" ==> NameOf(t, name) == "camera"
  {
    FoldKeepsLetters(t, name, "", false);
    TrimKeepsLetters(t, Fold(t, name, "", false));
    assert Undashed(t, "") == "";
    if LettersOf(t, name) == "" { NothingIsBuilt(t, name); }
  }

  lemma {:induction false} NothingIsBuilt(t: CharTable, name: string)
    requires LettersOf(t, name) == ""
    ensures Fold(t, name, "", false) == ""
    decreases |name|
  {
    if name == "" {
    } else {
      NothingIsBuilt(t, name[1..]);
    }
  }

  // ---- keeping names apart ----

  /** The k-th name tried for a base name: the base itself, then base-2, base-3 and so on. */
  function Candidate(base: string, k: nat): string {
    if k < 2 then base else base + "-" + Itoa(k)
  }

  lemma CandidateInjective(base: string, j: nat, k: nat)
    requires 1 <= j < k
    ensures Candidate(base, j) != Candidate(base, k)
  {
    if j == 1 {
      assert |Candidate(base, k)| > |base|;
    } else if Candidate(base, j) == Candidate(base, k) {
      assert Candidate(base, j)[|base| + 1..] == Itoa(j);
      assert Candidate(base, k)[|base| + 1..] == Itoa(k);
      DigitsInjective(j, k);
    }
  }

  /** Names already used that the search still has ahead of it. */
  ghost function Ahead(base: string, used: set<string>, k: nat): set<string> {
    set name | name in used && exists j: nat :: j >= k && Candidate(base, j) == name
  }

  lemma AheadShrinks(base: string, used: set<string>, k: nat)
    requires k >= 1 && Candidate(base, k) in used
    ensures Ahead(base, used, k + 1) + {Candidate(base, k)} <= Ahead(base, used, k)
    ensures Candidate(base, k) !in Ahead(base, used, k + 1)
    ensures |Ahead(base, used, k + 1)| < |Ahead(base, used, k)|
  {
    if Candidate(base, k) in Ahead(base, used, k + 1) {
      var j: nat :| j >= k + 1 && Candidate(base, j) == Candidate(base, k);
      CandidateInjective(base, k, j);
    }
    var small := Ahead(base, used, k + 1) + {Candidate(base, k)};
    SubsetSize(small, Ahead(base, used, k));
  }

  lemma {:induction false} SubsetSize<T>(a: set<T>, b: set<T>)
    requires a <= b
    ensures |a| <= |b|
    decreases a
  {
    if a == {} {
    } else {
      var x :| x in a;
      SubsetSize(a - {x}, b - {x});
    }
  }

  /** The first candidate from the k-th on that is not used: it ends because only so many names are. */
  function Unused(base: string, used: set<string>, k: nat): (found: nat)
    requires k >= 1
    ensures found >= k && Candidate(base, found) !in used
    ensures forall j :: k <= j < found ==> Candidate(base, j) in used
    decreases |Ahead(base, used, k)|
  {
    if Candidate(base, k) !in used then k
    else
      AheadShrinks(base, used, k);
      Unused(base, used, k + 1)
  }

  lemma {:induction false} UnusedBound(base: string, used: set<string>, k: nat)
    requires k >= 1
    ensures Unused(base, used, k) <= k + |Ahead(base, used, k)|
    decreases |Ahead(base, used, k)|
  {
    if Candidate(base, k) in used {
      AheadShrinks(base, used, k);
      UnusedBound(base, used, k + 1);
    }
  }

  /** Pigeonhole: at most as many suffixes are tried as names are in use. */
  lemma SearchIsShort(base: string, used: set<string>)
    ensures Unused(base, used, 1) <= 1 + |used|
  {
    UnusedBound(base, used, 1);
    SubsetSize(Ahead(base, used, 1), used);
  }

  function UniqueName(base: string, used: set<string>): (name: string)
    ensures name !in used
  {
    Candidate(base, Unused(base, used, 1))
  }

  method FindName(base: string, used: set<string>) returns (name: string)
    ensures name == UniqueName(base, used)
  {
    name := base;
    var suffix := 2;
    ghost var k := 1;
    while name in used
      invariant 1 <= k && suffix == k + 1 && name == Candidate(base, k)
      invariant Unused(base, used, k) == Unused(base, used, 1)
      decreases |Ahead(base, used, k)|
    {
      AheadShrinks(base, used, k);
      name := base + "-" + Itoa(suffix);
      suffix := suffix + 1;
      k := k + 1;
    }
  }
}
