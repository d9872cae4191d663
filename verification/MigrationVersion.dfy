/**
 Versions of migration names and their order (framework/database/migration_version.go).
 */
module MigrationVersion {
  import opened Wrappers

  // ---------------------------------------------------------------------------------------------
  // Lexicographic order.

  predicate LexLess(p: seq<int>, q: seq<int>)
    decreases |p|
  {
    q != [] && (p == [] || p[0] < q[0] || (p[0] == q[0] && LexLess(p[1..], q[1..])))
  }

  lemma {:induction false} LexIrreflexive(p: seq<int>)
    ensures !LexLess(p, p)
    decreases |p|
  {
    if p != [] {
      LexIrreflexive(p[1..]);
    }
  }

  lemma {:induction false} LexTransitive(p: seq<int>, q: seq<int>, r: seq<int>)
    requires LexLess(p, q) && LexLess(q, r)
    ensures LexLess(p, r)
    decreases |p|
  {
    if p != [] && p[0] == q[0] == r[0] {
      LexTransitive(p[1..], q[1..], r[1..]);
    }
  }

  lemma {:induction false} LexTotal(p: seq<int>, q: seq<int>)
    ensures LexLess(p, q) || p == q || LexLess(q, p)
    decreases |p|
  {
    if p != [] && q != [] && p[0] == q[0] {
      LexTotal(p[1..], q[1..]);
      if p[1..] == q[1..] {
        assert p == [p[0]] + p[1..] == [q[0]] + q[1..] == q;
      }
    }
  }

  /** LexLess looks at the first position where the sequences differ. */
  lemma {:induction false} LexFirstDifference(p: seq<int>, q: seq<int>, k: nat)
    requires k <= |p| && k <= |q| && p[..k] == q[..k]
    requires k == |p| || k == |q| || p[k] != q[k]
    ensures LexLess(p, q) <==> k < |q| && (k == |p| || p[k] < q[k])
    decreases k
  {
    if k > 0 {
      assert p[0] == p[..k][0] == q[..k][0] == q[0];
      assert p[1..][..k - 1] == p[..k][1..] == q[..k][1..] == q[1..][..k - 1];
      LexFirstDifference(p[1..], q[1..], k - 1);
    }
  }

  function Codes(s: string): seq<int> {
    seq(|s|, i requires 0 <= i < |s| => s[i] as int)
  }

  lemma CodesInjective(a: string, b: string)
    requires Codes(a) == Codes(b)
    ensures a == b
  {
    assert |a| == |Codes(a)| == |Codes(b)| == |b|;
    forall i | 0 <= i < |a| ensures a[i] == b[i] {
      assert Codes(a)[i] == Codes(b)[i];
    }
  }

  /** `<` on strings. */
  predicate StrLess(a: string, b: string) {
    LexLess(Codes(a), Codes(b))
  }

  // ---------------------------------------------------------------------------------------------
  // The version at the start of a name: an optional v, then numbers separated by single dots or underscores.

  predicate IsDigit(c: char) {
    '0' <= c <= '9'
  }

  predicate IsSep(c: char) {
    c == '.' || c == '_'
  }

  function DigitsEnd(s: string, i: nat): (e: nat)
    requires i <= |s|
    ensures i <= e <= |s|
    decreases |s| - i
  {
    if i < |s| && IsDigit(s[i]) then DigitsEnd(s, i + 1) else i
  }

  function GroupsEnd(s: string, i: nat): (e: nat)
    requires i <= |s|
    ensures i <= e <= |s|
    decreases |s| - i
  {
    if i + 1 < |s| && IsSep(s[i]) && IsDigit(s[i + 1]) then GroupsEnd(s, DigitsEnd(s, i + 1)) else i
  }

  function Start(name: string): (i: nat)
    ensures i <= |name|
  {
    if name != "" && (name[0] == 'v' || name[0] == 'V') then 1 else 0
  }

  /** The first group of `^(?:[vV])?(\d+(?:[\._]\d+)*)`. */
  function FindVersion(name: string): Option<string> {
    var i := Start(name);
    var e := DigitsEnd(name, i);
    if e == i then None else Some(name[i..GroupsEnd(name, e)])
  }

  predicate Versioned(name: string) {
    FindVersion(name).Some?
  }

  /** Two's complement int64. */
  function Wrap64(x: int): int {
    (x + 0x8000_0000_0000_0000) % 0x1_0000_0000_0000_0000 - 0x8000_0000_0000_0000
  }

  /** The value that is left after a wrap-around fits in 64 bits and differs by a multiple of their range. */
  lemma Wrap64Exactly(x: int)
    ensures -0x8000_0000_0000_0000 <= Wrap64(x) <= 0x7FFF_FFFF_FFFF_FFFF
    ensures (x - Wrap64(x)) % 0x1_0000_0000_0000_0000 == 0
  {
    var y, m := x + 0x8000_0000_0000_0000, 0x1_0000_0000_0000_0000;
    assert x - Wrap64(x) == y - y % m == (y / m) * m;
  }

  function Digit(c: char): int
    requires IsDigit(c)
  {
    c as int - '0' as int
  }

  /** The numbers read from `s[i..]`, when `current` is what the digits of the open number make so far. */
  function PartsFrom(s: string, i: nat, current: int, hasDigit: bool): seq<int>
    requires i <= |s|
    decreases |s| - i
  {
    if i == |s| then if hasDigit then [current] else []
    else if IsDigit(s[i]) then PartsFrom(s, i + 1, Wrap64(current * 10 + Digit(s[i])), true)
    else if IsSep(s[i]) then
      if hasDigit then [current] + PartsFrom(s, i + 1, 0, false) else PartsFrom(s, i + 1, current, false)
    else PartsFrom(s, i + 1, current, hasDigit)
  }

  function Parts(s: string): seq<int> {
    PartsFrom(s, 0, 0, false)
  }

  method ParseNumericParts(s: string) returns (parts: seq<int>)
    ensures parts == Parts(s)
  {
    parts := [];
    var current := 0;
    var hasDigit := false;
    for i := 0 to |s|
      invariant parts + PartsFrom(s, i, current, hasDigit) == Parts(s)
    {
      ghost var before := PartsFrom(s, i, current, hasDigit);
      if '0' <= s[i] <= '9' {
        current := Wrap64(current * 10 + (s[i] as int - '0' as int));
        hasDigit := true;
      } else if s[i] == '.' || s[i] == '_' {
        if hasDigit {
          assert before == [current] + PartsFrom(s, i + 1, 0, false);
          parts := parts + [current];
          current := 0;
          hasDigit := false;
        }
      }
    }
    if hasDigit {
      parts := parts + [current];
    }
  }

  // What the version of a name is, for names written as a version.

  predicate IsNumber(d: string) {
    d != "" && forall i | 0 <= i < |d| :: '0' <= d[i] <= '9'
  }

  /** The value of a decimal number. */
  function Value(d: string): int
    requires forall i | 0 <= i < |d| :: IsDigit(d[i])
  {
    if d == "" then 0 else 10 * Value(d[..|d| - 1]) + Digit(d[|d| - 1])
  }

  /** Decimal: nothing is 0, and a further digit comes to ten times what stands before it and the digit. */
  lemma Decimal(d: string, c: char)
    requires '0' <= c <= '9' && forall i | 0 <= i < |d| :: '0' <= d[i] <= '9'
    ensures Value("") == 0 && Value(d + [c]) == 10 * Value(d) + (c as int - 48)
  {
    assert (d + [c])[..|d|] == d;
  }

  /** Numbers and, after each but the last, the separator that follows it. */
  datatype Version = Last(number: string) | More(number: string, sep: char, rest: Version)

  predicate IsVersion(v: Version) {
    IsNumber(v.number) && (v.More? ==> (v.sep == '.' || v.sep == '_') && IsVersion(v.rest))
  }

  function Text(v: Version): string {
    match v
    case Last(d) => d
    case More(d, sep, rest) => d + [sep] + Text(rest)
  }

  function Values(v: Version): seq<int>
    requires IsVersion(v)
  {
    match v
    case Last(d) => [Value(d)]
    case More(d, _, rest) => [Value(d)] + Values(rest)
  }

  predicate FitsInt64(v: Version)
    requires IsVersion(v)
  {
    Value(v.number) < 0x8000_0000_0000_0000 && (v.More? ==> FitsInt64(v.rest))
  }

  lemma {:induction false} ValueNonNegative(d: string)
    requires forall i | 0 <= i < |d| :: IsDigit(d[i])
    ensures Value(d) >= 0
  {
    if d != "" {
      ValueNonNegative(d[..|d| - 1]);
    }
  }

  lemma PartsDigit(s: string, i: nat, current: int, hasDigit: bool)
    requires i < |s| && IsDigit(s[i]) && 0 <= current * 10 + Digit(s[i]) < 0x8000_0000_0000_0000
    ensures PartsFrom(s, i, current, hasDigit) == PartsFrom(s, i + 1, current * 10 + Digit(s[i]), true)
  {
    assert Wrap64(current * 10 + Digit(s[i])) == current * 10 + Digit(s[i]);
  }

  lemma PartsSep(s: string, i: nat, current: int)
    requires i < |s| && IsSep(s[i])
    ensures PartsFrom(s, i, current, true) == [current] + PartsFrom(s, i + 1, 0, false)
  {
  }

  /** A separator without a number before it, and any other character, is passed over. */
  lemma PartsSkip(s: string, i: nat, current: int, hasDigit: bool)
    requires i < |s| && !('0' <= s[i] <= '9') && (hasDigit ==> s[i] != '.' && s[i] != '_')
    ensures PartsFrom(s, i, current, hasDigit) == PartsFrom(s, i + 1, current, hasDigit)
  {
  }

  lemma PartsEnd(s: string, current: int)
    ensures PartsFrom(s, |s|, current, true) == [current]
  {
  }

  /** Reading the digits of a number that fits leaves its value as the current number. */
  lemma {:induction false} PartsReadNumber(s: string, i: nat, d: string, n: nat)
    requires IsNumber(d) && Value(d) < 0x8000_0000_0000_0000 && n <= |d|
    requires i + |d| <= |s| && s[i..i + |d|] == d
    ensures PartsFrom(s, i, 0, false) == PartsFrom(s, i + n, Value(d[..n]), n > 0)
  {
    hide PartsFrom;
    if n > 0 {
      PartsReadNumber(s, i, d, n - 1);
      assert d[..n][..n - 1] == d[..n - 1];
      assert s[i + n - 1] == s[i..i + |d|][n - 1] == d[n - 1];
      ValueNonNegative(d[..n]);
      ValueGrows(d, n);
      PartsDigit(s, i + n - 1, Value(d[..n - 1]), n - 1 > 0);
    }
  }

  lemma {:induction false} ValueGrows(d: string, n: nat)
    requires (forall i | 0 <= i < |d| :: IsDigit(d[i])) && n <= |d|
    ensures Value(d[..n]) <= Value(d)
    decreases |d| - n
  {
    if n < |d| {
      ValueGrows(d, n + 1);
      assert d[..n + 1][..n] == d[..n];
      ValueNonNegative(d[..n]);
    } else {
      assert d[..n] == d;
    }
  }

  lemma {:induction false} PartsOfText(s: string, i: nat, v: Version)
    requires IsVersion(v) && FitsInt64(v) && i <= |s| && s[i..] == Text(v)
    ensures PartsFrom(s, i, 0, false) == Values(v)
    decreases v
  {
    hide PartsFrom, Value;
    var d := v.number;
    assert s[i..i + |d|] == s[i..][..|d|] == d;
    PartsReadNumber(s, i, d, |d|);
    assert d[..|d|] == d;
    if v.More? {
      assert s[i + |d|] == s[i..][|d|] == v.sep;
      assert s[i + |d| + 1..] == s[i..][|d| + 1..] == Text(v.rest);
      PartsSep(s, i + |d|, Value(d));
      PartsOfText(s, i + |d| + 1, v.rest);
    } else {
      PartsEnd(s, Value(d));
    }
  }

  lemma {:induction false} DigitsEndOfNumber(s: string, i: nat, d: string, n: nat)
    requires IsNumber(d) && n <= |d| && i + |d| <= |s| && s[i..i + |d|] == d
    requires i + |d| == |s| || !IsDigit(s[i + |d|])
    ensures DigitsEnd(s, i + n) == i + |d|
    decreases |d| - n
  {
    if n < |d| {
      assert s[i + n] == s[i..i + |d|][n] == d[n];
      DigitsEndOfNumber(s, i, d, n + 1);
    }
  }

  /** A text that does not continue the version before it. */
  predicate EndsVersion(rest: string) {
    || rest == ""
    || (!('0' <= rest[0] <= '9')
        && (|rest| > 1 && (rest[0] == '.' || rest[0] == '_') ==> !('0' <= rest[1] <= '9')))
  }

  /** The character at `i + k`, read off what follows `i`. */
  lemma At(s: string, i: nat, tail: string, k: nat)
    requires i <= |s| && s[i..] == tail && k < |tail|
    ensures s[i + k] == tail[k]
  {
    assert s[i + k] == s[i..][k];
  }

  lemma NumberEnds(s: string, i: nat, d: string, rest: string)
    requires IsNumber(d) && i <= |s| && s[i..] == d + rest && (rest == "" || !IsDigit(rest[0]))
    ensures DigitsEnd(s, i) == i + |d|
  {
    assert s[i..i + |d|] == s[i..][..|d|] == d;
    if rest != "" {
      At(s, i, d + rest, |d|);
    }
    DigitsEndOfNumber(s, i, d, 0);
  }

  lemma GroupsStep(s: string, k: nat, e: nat)
    requires k + 1 < |s| && IsSep(s[k]) && IsDigit(s[k + 1]) && DigitsEnd(s, k + 1) == e
    ensures GroupsEnd(s, k) == GroupsEnd(s, e)
  {
  }

  lemma GroupsStop(s: string, k: nat)
    requires k <= |s| && !(k + 1 < |s| && IsSep(s[k]) && IsDigit(s[k + 1]))
    ensures GroupsEnd(s, k) == k
  {
  }

  lemma AfterNumber(s: string, i: nat, d: string, sep: char, tail: string)
    requires i <= |s| && s[i..] == d + ([sep] + tail)
    ensures i + |d| < |s| && s[i + |d|] == sep && s[i + |d| + 1..] == tail
  {
    At(s, i, d + ([sep] + tail), |d|);
    assert s[i + |d| + 1..] == s[i..][|d| + 1..] == tail;
  }

  lemma FirstDigit(s: string, j: nat, v: Version, rest: string)
    requires IsVersion(v) && j <= |s| && s[j..] == Text(v) + rest
    ensures j < |s| && IsDigit(s[j])
  {
    assert s[j] == s[j..][0] == v.number[0];
  }

  lemma {:induction false} GroupsOfText(s: string, i: nat, v: Version, rest: string)
    requires IsVersion(v) && EndsVersion(rest) && i <= |s| && s[i..] == Text(v) + rest
    ensures DigitsEnd(s, i) == i + |v.number|
    ensures GroupsEnd(s, i + |v.number|) == i + |Text(v)|
    decreases v, 1
  {
    hide DigitsEnd, GroupsEnd, IsNumber, IsDigit;
    var d := v.number;
    if v.More? {
      GroupsOfMore(s, i, v, rest);
    } else {
      GroupsOfLast(s, i, d, rest);
    }
  }

  lemma GroupsOfLast(s: string, i: nat, d: string, rest: string)
    requires IsNumber(d) && EndsVersion(rest) && i <= |s| && s[i..] == d + rest
    ensures DigitsEnd(s, i) == i + |d| && GroupsEnd(s, i + |d|) == i + |d|
  {
    hide DigitsEnd, GroupsEnd;
    NumberEnds(s, i, d, rest);
    if |rest| > 1 {
      At(s, i, d + rest, |d|);
      At(s, i, d + rest, |d| + 1);
    }
    GroupsStop(s, i + |d|);
  }

  lemma {:induction false} GroupsOfMore(s: string, i: nat, v: Version, rest: string)
    requires IsVersion(v) && v.More? && EndsVersion(rest) && i <= |s| && s[i..] == Text(v) + rest
    ensures DigitsEnd(s, i) == i + |v.number|
    ensures GroupsEnd(s, i + |v.number|) == i + |Text(v)|
    decreases v, 0
  {
    hide DigitsEnd, GroupsEnd, IsNumber, EndsVersion, Text;
    var d, tail, j := v.number, Text(v.rest) + rest, i + |v.number| + 1;
    MoreText(v, rest);
    SepIsNoDigit(v.sep);
    NumberEnds(s, i, d, [v.sep] + tail);
    AfterNumber(s, i, d, v.sep, tail);
    FirstDigit(s, j, v.rest, rest);
    GroupsOfText(s, j, v.rest, rest);
    GroupsStep(s, i + |d|, j + |v.rest.number|);
  }

  lemma MoreText(v: Version, rest: string)
    requires v.More?
    ensures Text(v) + rest == v.number + ([v.sep] + (Text(v.rest) + rest))
    ensures |Text(v)| == |v.number| + 1 + |Text(v.rest)|
  {
  }

  lemma SepIsNoDigit(c: char)
    ensures IsSep(c) ==> !IsDigit(c)
  {
  }

  predicate IsPrefix(prefix: string) {
    prefix == "" || prefix == "v" || prefix == "V"
  }

  lemma StartAfterPrefix(prefix: string, text: string)
    requires IsPrefix(prefix) && text != "" && IsDigit(text[0])
    ensures Start(prefix + text) == |prefix|
  {
  }

  lemma VersionFound(name: string, v: Version, rest: string)
    requires IsVersion(v) && EndsVersion(rest) && name[Start(name)..] == Text(v) + rest
    ensures FindVersion(name) == Some(Text(v))
  {
    hide Text, GroupsEnd;
    var i := Start(name);
    GroupsOfText(name, i, v, rest);
    SliceAt(name, i, Text(v), rest);
  }

  lemma SliceAt(s: string, i: nat, t: string, rest: string)
    requires i <= |s| && s[i..] == t + rest
    ensures i + |t| <= |s| && s[i..i + |t|] == t
  {
    assert |s| == i + |t| + |rest|;
    assert s[i..i + |t|] == s[i..][..|t|];
  }

  /**
   The version of a name is the list of numbers it starts with: for a name made of an optional v, a version
   whose numbers fit in 64 bits, and a text that does not continue it, those numbers are what is compared.
   */
  lemma VersionOfName(prefix: string, v: Version, rest: string)
    requires IsPrefix(prefix) && IsVersion(v) && FitsInt64(v) && EndsVersion(rest)
    ensures
      var name := prefix + (Text(v) + rest);
      && FindVersion(name) == Some(Text(v))
      && Parts(FindVersion(name).value) == Values(v)
  {
    assert Text(v)[0] == v.number[0];
    StartAfterPrefix(prefix, Text(v) + rest);
    VersionFound(prefix + (Text(v) + rest), v, rest);
    PartsOfText(Text(v), 0, v);
  }

  // ---------------------------------------------------------------------------------------------
  // The order of names.

  function VersionParts(name: string): seq<int>
    requires Versioned(name)
  {
    Parts(FindVersion(name).value)
  }

  /** By version where both names have one, and by text where the versions do not decide. */
  predicate NameLess(a: string, b: string) {
    if Versioned(a) && Versioned(b) && VersionParts(a) != VersionParts(b) then LexLess(VersionParts(a), VersionParts(b))
    else StrLess(a, b)
  }

  method CompareMigrationNames(a: string, b: string) returns (less: bool)
    ensures less <==> NameLess(a, b)
  {
    var matchA, matchB := FindVersion(a), FindVersion(b);
    if matchA.Some? && matchB.Some? {
      var partsA := ParseNumericParts(matchA.value);
      var partsB := ParseNumericParts(matchB.value);
      var i := 0;
      while i < |partsA| && i < |partsB|
        invariant 0 <= i <= |partsA| && i <= |partsB| && partsA[..i] == partsB[..i]
      {
        if partsA[i] != partsB[i] {
          LexFirstDifference(partsA, partsB, i);
          return partsA[i] < partsB[i];
        }
        i := i + 1;
      }
      LexFirstDifference(partsA, partsB, i);
      if |partsA| != |partsB| {
        return |partsA| < |partsB|;
      }
      assert partsA == partsA[..i] == partsB[..i] == partsB;
    }
    less := StrLess(a, b);
  }

  /** Whatever the names, each pair is ordered one way. */
  lemma NameTotal(a: string, b: string)
    ensures !NameLess(a, a)
    ensures NameLess(a, b) ==> !NameLess(b, a)
    ensures a != b ==> NameLess(a, b) || NameLess(b, a)
  {
    LexIrreflexive(Codes(a));
    StrTotal(a, b);
    if Versioned(a) && Versioned(b) {
      var p, q := VersionParts(a), VersionParts(b);
      LexTotal(p, q);
      LexAsymmetric(p, q);
    }
  }

  lemma LexAsymmetric(p: seq<int>, q: seq<int>)
    ensures LexLess(p, q) ==> !LexLess(q, p)
  {
    if LexLess(p, q) && LexLess(q, p) {
      LexTransitive(p, q, p);
      LexIrreflexive(p);
    }
  }

  lemma StrTotal(a: string, b: string)
    ensures StrLess(a, b) ==> !StrLess(b, a)
    ensures a != b ==> StrLess(a, b) || StrLess(b, a)
  {
    LexAsymmetric(Codes(a), Codes(b));
    LexTotal(Codes(a), Codes(b));
    if Codes(a) == Codes(b) {
      CodesInjective(a, b);
    }
  }

  /** On names with a version the order is strict and total. */
  lemma NameOrder(a: string, b: string, c: string)
    requires Versioned(a) && Versioned(b) && Versioned(c)
    ensures !NameLess(a, a)
    ensures NameLess(a, b) ==> !NameLess(b, a)
    ensures NameLess(a, b) && NameLess(b, c) ==> NameLess(a, c)
    ensures a != b ==> NameLess(a, b) || NameLess(b, a)
  {
    NameTotal(a, b);
    if NameLess(a, b) && NameLess(b, c) {
      NameTransitive(a, b, c);
    }
  }

  lemma NameTransitive(a: string, b: string, c: string)
    requires Versioned(a) && Versioned(b) && Versioned(c) && NameLess(a, b) && NameLess(b, c)
    ensures NameLess(a, c)
  {
    var p, q, r := VersionParts(a), VersionParts(b), VersionParts(c);
    if p == q && q == r {
      LexTransitive(Codes(a), Codes(b), Codes(c));
    } else if p != q && q != r {
      LexTransitive(p, q, r);
      if p == r {
        LexIrreflexive(p);
      }
    }
  }

  /** Two versions in order, and a name without a version that stands between their texts the other way round. */
  predicate Circle(a: string, b: string, n: string) {
    && Versioned(a) && Versioned(b) && !Versioned(n)
    && LexLess(VersionParts(a), VersionParts(b)) && StrLess(b, n) && StrLess(n, a)
  }

  ghost predicate NoCircle(names: set<string>) {
    forall a, b, n | a in names && b in names && n in names :: !Circle(a, b, n)
  }

  ghost predicate TransitiveOn(names: set<string>) {
    forall a, b, c | a in names && b in names && c in names && NameLess(a, b) && NameLess(b, c) :: NameLess(a, c)
  }

  lemma CircleTurns(a: string, b: string, n: string)
    requires Circle(a, b, n)
    ensures NameLess(a, b) && NameLess(b, n) && NameLess(n, a)
  {
    LexIrreflexive(VersionParts(a));
  }

  /** Names that go round have exactly one without a version among them, and that one makes the circle. */
  lemma TurnsMeanCircle(a: string, b: string, c: string)
    requires NameLess(a, b) && NameLess(b, c) && NameLess(c, a)
    ensures Circle(a, b, c) || Circle(b, c, a) || Circle(c, a, b)
  {
    hide Versioned, VersionParts, StrLess;
    if Versioned(a) && Versioned(b) && Versioned(c) {
      NameTransitive(a, b, c);
      NameTotal(a, c);
    } else if Versioned(a) && Versioned(b) {
      CircleFound(a, b, c);
    } else if Versioned(b) && Versioned(c) {
      CircleFound(b, c, a);
    } else if Versioned(c) && Versioned(a) {
      CircleFound(c, a, b);
    } else {
      StrTransitive(a, b, c);
      StrTotal(a, c);
    }
  }

  lemma StrTransitive(a: string, b: string, c: string)
    requires StrLess(a, b) && StrLess(b, c)
    ensures StrLess(a, c)
  {
    LexTransitive(Codes(a), Codes(b), Codes(c));
  }

  lemma CircleFound(a: string, b: string, n: string)
    requires NameLess(a, b) && NameLess(b, n) && NameLess(n, a) && Versioned(a) && Versioned(b) && !Versioned(n)
    ensures Circle(a, b, n)
  {
    hide Versioned, VersionParts, StrLess;
    StrTransitive(b, n, a);
    StrTotal(a, b);
  }

  /**
   When the order is one: on a set of names it is transitive if and only if no name without a version stands
   between the texts of two versions the wrong way round.
   */
  lemma OrderedExactly(names: set<string>)
    ensures TransitiveOn(names) <==> NoCircle(names)
  {
    hide NameLess, Circle;
    if TransitiveOn(names) {
      forall a, b, n | a in names && b in names && n in names ensures !Circle(a, b, n) {
        if Circle(a, b, n) {
          CircleTurns(a, b, n);
          NameTotal(a, b);
        }
      }
    }
    if NoCircle(names) {
      forall a, b, c | a in names && b in names && c in names && NameLess(a, b) && NameLess(b, c)
        ensures NameLess(a, c) {
        NameTotal(a, c);
        NameTotal(a, b);
        if NameLess(c, a) {
          TurnsMeanCircle(a, b, c);
        }
      }
    }
  }

  /** Without a circle the order is strict and total, names without a version included. */
  lemma StrictOrder(names: set<string>, a: string, b: string, c: string)
    requires NoCircle(names) && a in names && b in names && c in names
    ensures !NameLess(a, a)
    ensures NameLess(a, b) ==> !NameLess(b, a)
    ensures NameLess(a, b) && NameLess(b, c) ==> NameLess(a, c)
    ensures a != b ==> NameLess(a, b) || NameLess(b, a)
  {
    hide NameLess, NoCircle;
    OrderedExactly(names);
    NameTotal(a, b);
  }

  /** A circle of three. */
  lemma UnversionedNamesCycle()
    ensures Circle("v9", "V10", "a") && !TransitiveOn({"v9", "V10", "a"})
    ensures NameLess("V10", "a") && NameLess("a", "v9") && NameLess("v9", "V10")
  {
    NinthAndTenth();
    CircleTurns("v9", "V10", "a");
    OrderedExactly({"v9", "V10", "a"});
  }

  lemma NinthAndTenth()
    ensures Circle("v9", "V10", "a")
  {
    hide Versioned, VersionParts, StrLess;
    Nine();
    Ten();
    Unversioned();
    TextsOfThree();
  }

  lemma Nine()
    ensures Versioned("v9") && VersionParts("v9") == [9]
  {
    VersionOfName("v", Last("9"), "");
    assert Text(Last("9")) == "9" && "v" + ("9" + "") == "v9" && "9"[..0] == "";
  }

  lemma Ten()
    ensures Versioned("V10") && VersionParts("V10") == [10]
  {
    assert Value("10"[..1]) == 1 by {
      assert "10"[..1][..0] == "";
    }
    VersionOfName("V", Last("10"), "");
    assert Text(Last("10")) == "10" && "V" + ("10" + "") == "V10";
  }

  lemma Unversioned()
    ensures !Versioned("a")
  {
  }

  lemma TextsOfThree()
    ensures StrLess("V10", "a") && StrLess("a", "v9")
  {
    assert Codes("V10")[0] == 86 && Codes("a")[0] == 97 && Codes("v9")[0] == 118;
  }

  predicate IsVersionLTE(name: string, version: string) {
    !NameLess(version, name)
  }

  /**
   What `isVersionLTE` decides on versioned names: a smaller version, or the same version with a text that is
   not greater than the version's text. So it means "at or below the version", which a baseline is to be,
   exactly for the names that are not of the same version with a greater text.
   */
  lemma VersionLTEMeans(name: string, version: string)
    requires Versioned(name) && Versioned(version)
    ensures
      var p, q := VersionParts(name), VersionParts(version);
      && (IsVersionLTE(name, version) <==> LexLess(p, q) || (p == q && !StrLess(version, name)))
      && ((IsVersionLTE(name, version) <==> LexLess(p, q) || p == q) <==> !(p == q && StrLess(version, name)))
  {
    var p, q := VersionParts(name), VersionParts(version);
    LexTotal(p, q);
    if LexLess(p, q) && LexLess(q, p) {
      LexTransitive(p, q, p);
    }
    LexIrreflexive(p);
  }

  /** A baseline at "V2" leaves out the migration of version 2. */
  lemma BaselineV2LeavesOutV2()
    ensures !IsVersionLTE("V2__roles", "V2")
  {
    hide Versioned, VersionParts, StrLess;
    TwoAndTwo();
    LongerText();
  }

  lemma TwoAndTwo()
    ensures Versioned("V2__roles") && Versioned("V2") && VersionParts("V2__roles") == VersionParts("V2")
  {
    hide PartsFrom, GroupsEnd, DigitsEnd, FindVersion, Values;
    assert "2"[..0] == "" && FitsInt64(Last("2"));
    VersionOfName("V", Last("2"), "__roles");
    VersionOfName("V", Last("2"), "");
    assert "V" + ("2" + "__roles") == "V2__roles" && "V" + ("2" + "") == "V2";
  }

  lemma LongerText()
    ensures StrLess("V2", "V2__roles")
  {
    LexFirstDifference(Codes("V2"), Codes("V2__roles"), 2);
  }

  lemma VersionedNoCircle(names: set<string>)
    requires forall n | n in names :: Versioned(n)
    ensures NoCircle(names)
  {
  }

  lemma EmptyNameIsLeast(a: string)
    ensures !NameLess(a, "") && (a != "" ==> NameLess("", a))
  {
    assert !Versioned("");
    NameTotal(a, "");
  }

  /** One of the executed names, taken in any order; without a circle among them the greatest. */
  method FindLatestExecutedMigration(executed: set<string>) returns (latest: string)
    ensures if executed == {} then latest == "" else latest in executed
    ensures NoCircle(executed) ==> forall n | n in executed :: n == latest || NameLess(n, latest)
  {
    hide NameLess, NoCircle;
    latest := "";
    var rest := executed;
    while rest != {}
      invariant rest <= executed
      invariant if rest == executed then latest == "" else latest in executed - rest
      invariant NoCircle(executed) ==> forall n | n in executed - rest :: n == latest || NameLess(n, latest)
      decreases |rest|
    {
      var name :| name in rest;
      var less := false;
      if latest != "" {
        less := CompareMigrationNames(latest, name);
      }
      if NoCircle(executed) && rest != executed {
        EmptyNameIsLeast(name);
        forall n | n in executed - rest ensures (less ==> NameLess(n, name)) && (latest == "" ==> n == "") {
          EmptyNameIsLeast(n);
          StrictOrder(executed, n, latest, name);
        }
        StrictOrder(executed, latest, name, latest);
      }
      if latest == "" || less {
        latest := name;
      }
      rest := rest - {name};
    }
  }
}
