/** When comparison is the precedence of section 11 of Semantic Versioning 2.0.0. */
module VersionSemver {
  import opened Text
  import opened VersionOrder

  // ---------------------------------------------------------------- versions and their precedence

  datatype Identifier = Num(n: nat) | Alnum(text: string)

  datatype SemVer = SemVer(core: seq<nat>, pre: seq<Identifier>, build: Option<string>)

  predicate IdentifierChar(c: char) {
    IsDigit(c) || 'a' <= c <= 'z' || 'A' <= c <= 'Z' || c == '-'
  }

  predicate ValidIdentifier(id: Identifier) {
    id.Alnum? ==> id.text != "" && !AllDigits(id.text) && forall c :: c in id.text ==> IdentifierChar(c)
  }

  predicate Valid(v: SemVer) {
    && |v.core| == 3
    && (forall id :: id in v.pre ==> ValidIdentifier(id))
    && (v.build.Some? ==> forall c :: c in v.build.value ==> IdentifierChar(c) || c == '.')
  }

  function Precede(a: Identifier, b: Identifier): int {
    match (a, b)
    case (Num(m), Num(n)) => Sign(m, n)
    case (Num(_), Alnum(_)) => -1
    case (Alnum(_), Num(_)) => 1
    case (Alnum(s), Alnum(t)) => CompareText(s, t)
  }

  function PrecedeAll(a: seq<Identifier>, b: seq<Identifier>): int {
    if a == [] && b == [] then 0
    else if a == [] then -1
    else if b == [] then 1
    else
      var s := Precede(a[0], b[0]);
      if s != 0 then s else PrecedeAll(a[1..], b[1..])
  }

  function PrecedeCore(a: seq<nat>, b: seq<nat>): int
    requires |a| == |b|
  {
    if a == [] then 0
    else
      var s := Sign(a[0], b[0]);
      if s != 0 then s else PrecedeCore(a[1..], b[1..])
  }

  /** Section 11: the three numbers, then a version with a prerelease before one without, then the
      identifiers from left to right, the longer list last; build metadata does not count. */
  function Precedence(a: SemVer, b: SemVer): int
    requires Valid(a) && Valid(b)
  {
    var s := PrecedeCore(a.core, b.core);
    if s != 0 then s
    else if a.pre == [] && b.pre != [] then 1
    else if a.pre != [] && b.pre == [] then -1
    else PrecedeAll(a.pre, b.pre)
  }

  // ---------------------------------------------------------------- rendering

  function Shown(id: Identifier): string {
    match id
    case Num(n) => Itoa(n)
    case Alnum(t) => t
  }

  function ShownAll(ids: seq<Identifier>): (r: seq<string>)
    ensures |r| == |ids| && forall i :: 0 <= i < |ids| ==> r[i] == Shown(ids[i])
  {
    if ids == [] then [] else [Shown(ids[0])] + ShownAll(ids[1..])
  }

  function ShownCore(core: seq<nat>): (r: seq<string>)
    ensures |r| == |core| && forall i :: 0 <= i < |core| ==> r[i] == Itoa(core[i])
  {
    if core == [] then [] else [Itoa(core[0])] + ShownCore(core[1..])
  }

  function Suffix(mark: string, text: Option<string>): string {
    if text.Some? then mark + text.value else ""
  }

  function PreText(v: SemVer): Option<string> {
    if v.pre == [] then None else Some(Join(ShownAll(v.pre), "."))
  }

  function Render(v: SemVer): string {
    Join(ShownCore(v.core), ".") + Suffix("-", PreText(v)) + Suffix("+", v.build)
  }

  // ---------------------------------------------------------------- reading a rendered version back

  lemma {:induction false} CutAtFirst(before: string, sep: char, rest: string)
    requires sep !in before
    ensures CutAt(before + [sep] + rest, sep) == (before, Some(rest))
  {
    var s := before + [sep] + rest;
    if before != "" {
      assert s[1..] == before[1..] + [sep] + rest;
      CutAtFirst(before[1..], sep, rest);
      assert [before[0]] + before[1..] == before;
    } else {
      assert s[1..] == rest;
    }
  }

  lemma {:induction false} CutAtNone(s: string, sep: char)
    requires sep !in s
    ensures CutAt(s, sep) == (s, None)
  {
    if s != "" {
      CutAtNone(s[1..], sep);
      assert [s[0]] + s[1..] == s;
    }
  }

  lemma CutSuffix(before: string, sep: char, mark: string, text: Option<string>)
    requires sep !in before && mark == [sep]
    ensures CutAt(before + Suffix(mark, text), sep) == (before, text)
  {
    if text.Some? {
      ConcatAssoc(before, mark, text.value);
      CutAtFirst(before, sep, text.value);
    } else {
      assert before + "" == before;
      CutAtNone(before, sep);
    }
  }

  lemma {:induction false} JoinChars(parts: seq<string>, sep: string)
    ensures forall c :: c in Join(parts, sep) ==> c in sep || exists p :: p in parts && c in p
  {
    if |parts| > 1 {
      JoinChars(parts[1..], sep);
      forall c | c in Join(parts, sep)
        ensures c in sep || exists p :: p in parts && c in p
      {
        if c !in sep && c !in parts[0] {
          assert c in Join(parts[1..], sep);
          var p :| p in parts[1..] && c in p;
          assert p in parts;
        } else if c !in sep {
          assert parts[0] in parts;
        }
      }
    } else if |parts| == 1 {
      assert parts[0] in parts;
    }
  }

  lemma ItoaChars(n: nat)
    ensures forall c :: c in Itoa(n) ==> IsDigit(c)
  {
  }

  lemma CoreChars(core: seq<nat>)
    ensures forall c :: c in Join(ShownCore(core), ".") ==> IsDigit(c) || c == '.'
  {
    JoinChars(ShownCore(core), ".");
    forall p, c | p in ShownCore(core) && c in p
      ensures IsDigit(c)
    {
      var i :| 0 <= i < |core| && ShownCore(core)[i] == p;
      ItoaChars(core[i]);
    }
  }

  lemma ShownChars(ids: seq<Identifier>)
    requires forall id :: id in ids ==> ValidIdentifier(id)
    ensures forall p :: p in ShownAll(ids) ==> p != "" && forall c :: c in p ==> IdentifierChar(c)
  {
    forall p | p in ShownAll(ids)
      ensures p != "" && forall c :: c in p ==> IdentifierChar(c)
    {
      var i :| 0 <= i < |ids| && ShownAll(ids)[i] == p;
      assert ValidIdentifier(ids[i]);
      if ids[i].Num? {
        ItoaChars(ids[i].n);
      }
    }
  }

  lemma PreChars(v: SemVer)
    requires Valid(v) && v.pre != []
    ensures PreText(v).value != "" && forall c :: c in PreText(v).value ==> IdentifierChar(c) || c == '.'
  {
    ShownChars(v.pre);
    JoinChars(ShownAll(v.pre), ".");
    assert ShownAll(v.pre)[0] in ShownAll(v.pre);
  }

  lemma {:induction false} TrimNothing(s: string)
    requires forall c :: c in s ==> !IsSpace(c)
    ensures TrimSpace(s) == s
  {
    if s != "" {
      assert s[0] in s && s[|s| - 1] in s;
    }
  }

  lemma RenderedChars(v: SemVer)
    requires Valid(v)
    ensures forall c :: c in Render(v) ==> IdentifierChar(c) || c == '.' || c == '+'
    ensures Render(v) != "" && IsDigit(Render(v)[0])
  {
    CoreChars(v.core);
    if v.pre != [] {
      PreChars(v);
    }
    var core := ShownCore(v.core);
    assert core[0] == Itoa(v.core[0]);
    assert Join(core, ".") == core[0] + "." + Join(core[1..], ".");
    assert Render(v)[0] == core[0][0];
  }

  /** A rendered version comes apart into its parts. */
  lemma SplitRendered(v: SemVer)
    requires Valid(v)
    ensures SplitVersion(Render(v)) == (ShownCore(v.core), if v.pre == [] then "" else PreText(v).value)
  {
    var text, core := Render(v), Join(ShownCore(v.core), ".");
    RenderedChars(v);
    TrimNothing(text);
    var v0 := "v";
    assert !HasPrefix(text, v0) by {
      assert v0[0] == 'v';
    }
    CoreChars(v.core);
    if v.pre != [] {
      PreChars(v);
    }
    var value := core + Suffix("-", PreText(v));
    assert forall c :: c in value ==> IdentifierChar(c) || c == '.';
    CutSuffix(value, '+', "+", v.build);
    CutSuffix(core, '-', "-", PreText(v));
    forall p | p in ShownCore(v.core)
      ensures '.' !in p
    {
      var i :| 0 <= i < |v.core| && ShownCore(v.core)[i] == p;
      ItoaChars(v.core[i]);
    }
    SplitJoin(ShownCore(v.core), '.');
  }

  lemma SplitPre(v: SemVer)
    requires Valid(v) && v.pre != []
    ensures Split(PreText(v).value, '.') == ShownAll(v.pre) && PreText(v).value != ""
  {
    PreChars(v);
    ShownChars(v.pre);
    SplitJoin(ShownAll(v.pre), '.');
  }

  // ---------------------------------------------------------------- agreement

  /** A numeric identifier too large for the machine, or one like `-1` that reads as a number. */
  predicate Misread(id: Identifier) {
    match id
    case Num(n) => n > MaxInt
    case Alnum(t) => Atoi(t).Number?
  }

  /** Every number fits the machine and nothing else reads as one. */
  predicate Plain(v: SemVer) {
    (forall n :: n in v.core ==> n <= MaxInt) && (forall id :: id in v.pre ==> !Misread(id))
  }

  lemma AtoiShown(n: nat)
    ensures Atoi(Itoa(n)) == if n <= MaxInt then Number(n) else OutOfRange(MaxInt)
  {
    ItoaValue(n);
  }

  lemma IdentifiersAgree(a: Identifier, b: Identifier)
    requires !Misread(a) && !Misread(b)
    ensures CompareIdentifier(Shown(a), Shown(b)) == Precede(a, b)
  {
    if a.Num? {
      AtoiShown(a.n);
    }
    if b.Num? {
      AtoiShown(b.n);
    }
    TextOrder(Shown(a), Shown(b), "");
  }

  lemma {:induction false} ListsAgree(a: seq<Identifier>, b: seq<Identifier>)
    requires forall id :: id in a + b ==> !Misread(id)
    ensures CompareIdentifiers(ShownAll(a), ShownAll(b)) == PrecedeAll(a, b)
  {
    if a != [] && b != [] {
      assert a[0] in a + b && b[0] in a + b;
      IdentifiersAgree(a[0], b[0]);
      assert forall id :: id in a[1..] + b[1..] ==> id in a + b;
      ListsAgree(a[1..], b[1..]);
      TailOfCons(Shown(a[0]), ShownAll(a[1..]));
      TailOfCons(Shown(b[0]), ShownAll(b[1..]));
    }
  }

  function Clamped(n: nat): nat {
    if n > MaxInt then MaxInt else n
  }

  function ClampedCore(core: seq<nat>): (r: seq<nat>)
    ensures |r| == |core| && forall i :: 0 <= i < |core| ==> r[i] == Clamped(core[i])
  {
    if core == [] then [] else [Clamped(core[0])] + ClampedCore(core[1..])
  }

  lemma PartShown(core: seq<nat>, i: nat)
    requires i < |core|
    ensures NumericPart(ShownCore(core), i) == Clamped(core[i])
  {
    AtoiShown(core[i]);
  }

  /** The numbers are compared as they are clamped. */
  lemma {:induction false} CoresCompare(a: seq<nat>, b: seq<nat>, i: nat)
    requires |a| == |b| && i <= |a|
    ensures CompareParts(ShownCore(a), ShownCore(b), i, |a|) == PrecedeCore(ClampedCore(a)[i..], ClampedCore(b)[i..])
    decreases |a| - i
  {
    if i < |a| {
      PartShown(a, i);
      PartShown(b, i);
      CoresCompare(a, b, i + 1);
      assert ClampedCore(a)[i..][1..] == ClampedCore(a)[i + 1..];
      assert ClampedCore(b)[i..][1..] == ClampedCore(b)[i + 1..];
    }
  }

  /** What the comparison makes of two rendered versions. */
  lemma OrderRendered(a: SemVer, b: SemVer)
    requires Valid(a) && Valid(b)
    ensures Order(Render(a), Render(b)) ==
            var s := PrecedeCore(ClampedCore(a.core), ClampedCore(b.core));
            if s != 0 then s
            else if a.pre == [] && b.pre == [] then 0
            else if a.pre == [] then 1
            else if b.pre == [] then -1
            else CompareIdentifiers(ShownAll(a.pre), ShownAll(b.pre))
  {
    SplitRendered(a);
    SplitRendered(b);
    CoresCompare(a.core, b.core, 0);
    assert ClampedCore(a.core)[0..] == ClampedCore(a.core) && ClampedCore(b.core)[0..] == ClampedCore(b.core);
    if a.pre != [] {
      SplitPre(a);
    }
    if b.pre != [] {
      SplitPre(b);
    }
    IdentifiersOrder(Split("", '.'), Split("", '.'), []);
  }

  lemma PlainCore(core: seq<nat>)
    requires forall n :: n in core ==> n <= MaxInt
    ensures ClampedCore(core) == core
  {
    assert forall i :: 0 <= i < |core| ==> core[i] in core;
  }

  /** On plain versions the comparison is the precedence of the standard. */
  lemma PlainAgree(a: SemVer, b: SemVer)
    requires Valid(a) && Valid(b) && Plain(a) && Plain(b)
    ensures Order(Render(a), Render(b)) == Precedence(a, b)
  {
    OrderRendered(a, b);
    PlainCore(a.core);
    PlainCore(b.core);
    assert forall id :: id in a.pre + b.pre ==> id in a.pre || id in b.pre;
    ListsAgree(a.pre, b.pre);
  }

  // ---------------------------------------------------------------- and only there

  lemma {:induction false} CoreItself(core: seq<nat>)
    ensures PrecedeCore(core, core) == 0
  {
    if core != [] {
      CoreItself(core[1..]);
    }
  }

  lemma {:induction false} AboveClamped(core: seq<nat>)
    requires exists n :: n in core && n > MaxInt
    ensures PrecedeCore(core, ClampedCore(core)) == 1
  {
    assert core == [core[0]] + core[1..];
    assert ClampedCore(core)[1..] == ClampedCore(core[1..]);
    if core[0] <= MaxInt {
      AboveClamped(core[1..]);
    }
  }

  /** The first identifier in which two lists differ decides. */
  lemma {:induction false} FirstDifference(a: seq<Identifier>, b: seq<Identifier>, i: nat)
    requires i < |a| && i < |b| && a[..i] == b[..i]
    requires Precede(a[i], b[i]) != 0 && CompareIdentifier(Shown(a[i]), Shown(b[i])) != 0
    ensures PrecedeAll(a, b) == Precede(a[i], b[i])
    ensures CompareIdentifiers(ShownAll(a), ShownAll(b)) == CompareIdentifier(Shown(a[i]), Shown(b[i]))
  {
    TailOfCons(Shown(a[0]), ShownAll(a[1..]));
    TailOfCons(Shown(b[0]), ShownAll(b[1..]));
    if i > 0 {
      assert a[0] == a[..i][0] == b[..i][0] == b[0];
      assert a[1..][..i - 1] == a[..i][1..] == b[..i][1..] == b[1..][..i - 1];
      TextOrder(Shown(a[0]), Shown(b[0]), "");
      IdentifierOrder(Shown(a[0]), Shown(b[0]), "");
      FirstDifference(a[1..], b[1..], i - 1);
    }
  }

  /** A valid identifier that reads as a number starts with a minus sign. */
  lemma MisreadIsNotPositive(t: string)
    requires ValidIdentifier(Alnum(t)) && Misread(Alnum(t))
    ensures Atoi(t).value <= 0
  {
    assert t[0] in t;
  }

  /** An identifier against which the comparison errs. */
  lemma Rival(id: Identifier) returns (other: Identifier)
    requires ValidIdentifier(id) && Misread(id)
    ensures ValidIdentifier(other) && !Misread(other) && Precede(id, other) != 0
    ensures CompareIdentifier(Shown(id), Shown(other)) == 0 - Precede(id, other)
  {
    if id.Num? {
      AtoiShown(id.n);
      ItoaChars(id.n);
      var dash := "-";
      other := Alnum(dash);
      assert dash[0] == '-' && !IsDigit('-');
      assert dash[1..] == "";
      assert Atoi(dash) == NotANumber;
      assert Itoa(id.n)[0] in Itoa(id.n);
    } else {
      MisreadIsNotPositive(id.text);
      AtoiShown(1);
      other := Num(1);
    }
  }

  lemma {:induction false} FirstMisread(ids: seq<Identifier>) returns (i: nat)
    requires exists id :: id in ids && Misread(id)
    ensures i < |ids| && Misread(ids[i]) && forall j :: 0 <= j < i ==> !Misread(ids[j])
  {
    if Misread(ids[0]) {
      i := 0;
    } else {
      assert ids == [ids[0]] + ids[1..];
      i := FirstMisread(ids[1..]);
      i := i + 1;
    }
  }

  lemma BigCoreDisagrees(a: SemVer) returns (b: SemVer)
    requires Valid(a) && exists n :: n in a.core && n > MaxInt
    ensures Valid(b) && Plain(b) && Order(Render(a), Render(b)) != Precedence(a, b)
  {
    b := SemVer(ClampedCore(a.core), [], None);
    OrderRendered(a, b);
    AboveClamped(a.core);
    PlainCore(b.core);
    CoreItself(b.core);
  }

  lemma PlainUpTo(ids: seq<Identifier>, i: nat, other: Identifier)
    requires i < |ids| && forall id :: id in ids ==> ValidIdentifier(id)
    requires forall j :: 0 <= j < i ==> !Misread(ids[j])
    requires ValidIdentifier(other) && !Misread(other)
    ensures forall id :: id in ids[..i] + [other] ==> ValidIdentifier(id) && !Misread(id)
  {
  }

  lemma MisreadDisagrees(a: SemVer) returns (b: SemVer)
    requires Valid(a) && forall n :: n in a.core ==> n <= MaxInt
    requires exists id :: id in a.pre && Misread(id)
    ensures Valid(b) && Plain(b) && Order(Render(a), Render(b)) != Precedence(a, b)
  {
    var i := FirstMisread(a.pre);
    assert a.pre[i] in a.pre;
    var other := Rival(a.pre[i]);
    b := SemVer(a.core, a.pre[..i] + [other], None);
    PlainUpTo(a.pre, i, other);
    OrderRendered(a, b);
    PlainCore(a.core);
    CoreItself(a.core);
    assert b.pre[..i] == a.pre[..i] && b.pre[i] == other;
    FirstDifference(a.pre, b.pre, i);
  }

  lemma NotPlainDisagrees(a: SemVer) returns (b: SemVer)
    requires Valid(a) && !Plain(a)
    ensures Valid(b) && Plain(b) && Order(Render(a), Render(b)) != Precedence(a, b)
  {
    if exists n :: n in a.core && n > MaxInt {
      b := BigCoreDisagrees(a);
    } else {
      b := MisreadDisagrees(a);
    }
  }

  /** A version is compared as the standard says with every plain version exactly when it is plain: its
      numbers fit the machine and no identifier such as `-1` reads as a number. */
  lemma AgreesIffPlain(a: SemVer)
    requires Valid(a)
    ensures Plain(a) <==> forall b :: Valid(b) && Plain(b) ==> Order(Render(a), Render(b)) == Precedence(a, b)
  {
    if Plain(a) {
      forall b | Valid(b) && Plain(b)
        ensures Order(Render(a), Render(b)) == Precedence(a, b)
      {
        PlainAgree(a, b);
      }
    } else {
      var b := NotPlainDisagrees(a);
    }
  }
}
