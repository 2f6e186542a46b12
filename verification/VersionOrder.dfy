/** Version comparison, for any two strings. Text is ordered by code points, which is the order of its
    UTF-8 bytes. */
module VersionOrder {
  import opened Text

  // ---------------------------------------------------------------- parts

  /** The text before the first separator, and the text after it if there is one. */
  function CutAt(s: string, sep: char): (r: (string, Option<string>))
  {
    if s == "" then ("", None)
    else if s[0] == sep then ("", Some(s[1..]))
    else
      var (before, after) := CutAt(s[1..], sep);
      ([s[0]] + before, after)
  }

  function SplitVersion(raw: string): (seq<string>, string) {
    var value := CutAt(TrimPrefix(TrimSpace(raw), "v"), '+').0;
    var (core, pre) := CutAt(value, '-');
    (Split(core, '.'), if pre.Some? then pre.value else "")
  }

  /** A missing part is zero, so is one that is no number; a number out of range is the nearest in range. */
  function NumericPart(parts: seq<string>, i: nat): int {
    if i >= |parts| then 0
    else
      match Atoi(parts[i])
      case Number(v) => v
      case OutOfRange(v) => v
      case NotANumber => 0
  }

  function Sign(a: int, b: int): int {
    if a < b then -1 else if a > b then 1 else 0
  }

  function CompareText(a: string, b: string): int {
    if a == "" && b == "" then 0
    else if a == "" then -1
    else if b == "" then 1
    else if a[0] != b[0] then (if a[0] < b[0] then -1 else 1)
    else CompareText(a[1..], b[1..])
  }

  /** The parts from `i` to `n`. */
  function CompareParts(a: seq<string>, b: seq<string>, i: nat, n: nat): int
    decreases n - i
  {
    if i >= n then 0
    else
      var s := Sign(NumericPart(a, i), NumericPart(b, i));
      if s != 0 then s else CompareParts(a, b, i + 1, n)
  }

  function Longer<T>(a: seq<T>, b: seq<T>): nat {
    if |b| > |a| then |b| else |a|
  }

  /** One prerelease identifier against another: numbers first, by value; the rest, and equal numbers, as
      text. */
  function CompareIdentifier(a: string, b: string): int {
    match (Atoi(a), Atoi(b))
    case (Number(v), Number(w)) => if v != w then Sign(v, w) else CompareText(a, b)
    case (Number(_), _) => -1
    case (_, Number(_)) => 1
    case _ => CompareText(a, b)
  }

  function CompareIdentifiers(a: seq<string>, b: seq<string>): int {
    if a == [] && b == [] then 0
    else if a == [] then -1
    else if b == [] then 1
    else
      var s := CompareIdentifier(a[0], b[0]);
      if s != 0 then s else CompareIdentifiers(a[1..], b[1..])
  }

  /** No prerelease comes after any. */
  function CompareSuffix(a: string, b: string): int {
    if a == "" && b != "" then 1
    else if a != "" && b == "" then -1
    else CompareIdentifiers(Split(a, '.'), Split(b, '.'))
  }

  function Order(a: string, b: string): int {
    var ((aCore, aPre), (bCore, bPre)) := (SplitVersion(a), SplitVersion(b));
    var s := CompareParts(aCore, bCore, 0, Longer(aCore, bCore));
    if s != 0 then s else CompareSuffix(aPre, bPre)
  }

  // ---------------------------------------------------------------- as loops

  method CompareNumericParts(a: seq<string>, b: seq<string>) returns (r: int)
    ensures r == CompareParts(a, b, 0, Longer(a, b))
  {
    var n := |a|;
    if |b| > n {
      n := |b|;
    }
    for i := 0 to n
      invariant CompareParts(a, b, 0, n) == CompareParts(a, b, i, n)
    {
      var av, bv := NumericPart(a, i), NumericPart(b, i);
      if av > bv {
        return 1;
      }
      if av < bv {
        return -1;
      }
    }
    return 0;
  }

  /** The comparison from the identifiers at `i` on. */
  function CompareFrom(a: seq<string>, b: seq<string>, i: nat): int
    requires i <= |a| && i <= |b|
    decreases |a| - i
  {
    if i == |a| || i == |b| then Sign(|a|, |b|)
    else
      var s := CompareIdentifier(a[i], b[i]);
      if s != 0 then s else CompareFrom(a, b, i + 1)
  }

  lemma {:induction false} FromIsRest(a: seq<string>, b: seq<string>, i: nat)
    requires i <= |a| && i <= |b|
    ensures CompareFrom(a, b, i) == CompareIdentifiers(a[i..], b[i..])
    decreases |a| - i
  {
    if i < |a| && i < |b| {
      assert a[i..][1..] == a[i + 1..] && b[i..][1..] == b[i + 1..];
      FromIsRest(a, b, i + 1);
    }
  }

  method ComparePair(a: string, b: string) returns (r: int)
    ensures r == CompareIdentifier(a, b)
  {
    var av, bv := Atoi(a), Atoi(b);
    if av.Number? && bv.Number? && av.value != bv.value {
      return if av.value < bv.value then -1 else 1;
    }
    if av.Number? && !bv.Number? {
      return -1;
    }
    if !av.Number? && bv.Number? {
      return 1;
    }
    return CompareText(a, b);
  }

  method CompareLists(a: seq<string>, b: seq<string>) returns (r: int)
    ensures r == CompareFrom(a, b, 0)
  {
    r := 0;
    var i := 0;
    while r == 0 && i < |a| && i < |b|
      invariant 0 <= i <= |a| && i <= |b|
      invariant CompareFrom(a, b, 0) == if r != 0 then r else CompareFrom(a, b, i)
    {
      r := ComparePair(a[i], b[i]);
      i := i + 1;
    }
    if r == 0 && |a| != |b| {
      r := if |a| < |b| then -1 else 1;
    }
  }

  method ComparePrerelease(a: string, b: string) returns (r: int)
    ensures r == CompareIdentifiers(Split(a, '.'), Split(b, '.'))
  {
    var aParts, bParts := Split(a, '.'), Split(b, '.');
    r := CompareLists(aParts, bParts);
    FromIsRest(aParts, bParts, 0);
    assert aParts[0..] == aParts && bParts[0..] == bParts;
  }

  method Compare(a: string, b: string) returns (r: int)
    ensures r == Order(a, b)
  {
    var (aCore, aPre) := SplitVersion(a);
    var (bCore, bPre) := SplitVersion(b);
    var cmp := CompareNumericParts(aCore, bCore);
    if cmp != 0 {
      return cmp;
    }
    if aPre == "" && bPre != "" {
      return 1;
    }
    if aPre != "" && bPre == "" {
      return -1;
    }
    r := ComparePrerelease(aPre, bPre);
  }

  // ---------------------------------------------------------------- a total preorder on all strings

  lemma {:induction false} TextOrder(a: string, b: string, c: string)
    ensures CompareText(a, b) == 0 - CompareText(b, a) && -1 <= CompareText(a, b) <= 1
    ensures CompareText(a, b) == 0 <==> a == b
    ensures CompareText(a, b) <= 0 && CompareText(b, c) <= 0 ==> CompareText(a, c) <= 0
  {
    if a != "" && b != "" {
      assert a == [a[0]] + a[1..] && b == [b[0]] + b[1..];
      TextOrder(a[1..], b[1..], if c != "" then c[1..] else "");
    }
  }

  lemma IdentifierOrder(a: string, b: string, c: string)
    ensures CompareIdentifier(a, b) == 0 - CompareIdentifier(b, a) && -1 <= CompareIdentifier(a, b) <= 1
    ensures CompareIdentifier(a, b) == 0 <==> a == b
    ensures CompareIdentifier(a, b) <= 0 && CompareIdentifier(b, c) <= 0 ==> CompareIdentifier(a, c) <= 0
  {
    TextOrder(a, b, c);
    TextOrder(b, c, a);
    TextOrder(a, c, b);
  }

  lemma {:induction false} IdentifiersOrder(a: seq<string>, b: seq<string>, c: seq<string>)
    ensures CompareIdentifiers(a, b) == 0 - CompareIdentifiers(b, a) && -1 <= CompareIdentifiers(a, b) <= 1
    ensures CompareIdentifiers(a, b) == 0 <==> a == b
    ensures CompareIdentifiers(a, b) <= 0 && CompareIdentifiers(b, c) <= 0 ==> CompareIdentifiers(a, c) <= 0
  {
    if a != [] && b != [] {
      assert a == [a[0]] + a[1..] && b == [b[0]] + b[1..];
      IdentifierOrder(a[0], b[0], if c != [] then c[0] else "");
      IdentifiersOrder(a[1..], b[1..], if c != [] then c[1..] else []);
      if c != [] {
        IdentifierOrder(b[0], c[0], a[0]);
        IdentifierOrder(a[0], c[0], b[0]);
      }
    }
  }

  lemma SuffixOrder(a: string, b: string, c: string)
    ensures CompareSuffix(a, b) == 0 - CompareSuffix(b, a) && -1 <= CompareSuffix(a, b) <= 1
    ensures CompareSuffix(a, b) <= 0 && CompareSuffix(b, c) <= 0 ==> CompareSuffix(a, c) <= 0
  {
    IdentifiersOrder(Split(a, '.'), Split(b, '.'), Split(c, '.'));
  }

  /** Parts beyond both lists are zero on both sides. */
  lemma {:induction false} PartsBeyond(a: seq<string>, b: seq<string>, i: nat, n: nat, m: nat)
    requires Longer(a, b) <= n <= m
    ensures CompareParts(a, b, i, m) == CompareParts(a, b, i, n)
    decreases m - i
  {
    if i < m {
      PartsBeyond(a, b, i + 1, n, m);
      if n <= i {
        PartsZero(a, b, i + 1, m);
      }
    }
  }

  lemma {:induction false} PartsZero(a: seq<string>, b: seq<string>, i: nat, m: nat)
    requires Longer(a, b) <= i
    ensures CompareParts(a, b, i, m) == 0
    decreases m - i
  {
    if i < m {
      PartsZero(a, b, i + 1, m);
    }
  }

  lemma {:induction false} PartsOrderUpTo(a: seq<string>, b: seq<string>, c: seq<string>, i: nat, n: nat)
    ensures CompareParts(a, b, i, n) == 0 - CompareParts(b, a, i, n) && -1 <= CompareParts(a, b, i, n) <= 1
    ensures CompareParts(a, b, i, n) <= 0 && CompareParts(b, c, i, n) <= 0 ==> CompareParts(a, c, i, n) <= 0
    ensures CompareParts(a, b, i, n) <= 0 && CompareParts(b, c, i, n) <= 0 && CompareParts(a, c, i, n) == 0 ==>
              CompareParts(a, b, i, n) == 0 && CompareParts(b, c, i, n) == 0
    decreases n - i
  {
    if i < n {
      PartsOrderUpTo(a, b, c, i + 1, n);
    }
  }

  /** Comparison is reflexive, sign-antisymmetric and transitive on all strings. */
  lemma TotalPreorder(a: string, b: string, c: string)
    ensures Order(a, a) == 0
    ensures -1 <= Order(a, b) <= 1 && Order(a, b) == 0 - Order(b, a)
    ensures Order(a, b) <= 0 && Order(b, c) <= 0 ==> Order(a, c) <= 0
  {
    var (x, p) := SplitVersion(a);
    var (y, q) := SplitVersion(b);
    var (z, r) := SplitVersion(c);
    var n := Longer(x, y) + |z|;
    PartsBeyond(x, y, 0, Longer(x, y), n);
    PartsBeyond(y, x, 0, Longer(y, x), n);
    PartsBeyond(y, z, 0, Longer(y, z), n);
    PartsBeyond(x, z, 0, Longer(x, z), n);
    PartsOrderUpTo(x, y, z, 0, n);
    PartsOrderUpTo(x, x, x, 0, Longer(x, x));
    SuffixOrder(p, q, r);
    SuffixOrder(p, p, p);
  }
}
