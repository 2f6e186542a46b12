/** Strings as the Go standard library treats them: prefixes, splitting, joining, trimming and
    decimal numbers. A string is a sequence of code points. */
module Text {

  datatype Option<+T> = None | Some(value: T)

  datatype Result<+T, +E> = Ok(value: T) | Err(error: E)

  predicate HasPrefix(s: string, prefix: string) {
    prefix <= s
  }

  predicate HasSuffix(s: string, suffix: string) {
    |suffix| <= |s| && s[|s| - |suffix|..] == suffix
  }

  function TrimSuffix(s: string, suffix: string): string {
    if HasSuffix(s, suffix) then s[..|s| - |suffix|] else s
  }

  function TrimPrefix(s: string, prefix: string): string {
    if HasPrefix(s, prefix) then s[|prefix|..] else s
  }

  /** The Unicode white space that `strings.TrimSpace` and `strings.Fields` cut at. */
  predicate IsSpace(c: char) {
    || '\t' <= c <= '\r' || c == ' ' || c == '\U{85}' || c == '\U{A0}' || c == '\U{1680}'
    || '\U{2000}' <= c <= '\U{200A}' || c == '\U{2028}' || c == '\U{2029}' || c == '\U{202F}'
    || c == '\U{205F}' || c == '\U{3000}'
  }

  function TrimLeft(s: string): string {
    if s != "" && IsSpace(s[0]) then TrimLeft(s[1..]) else s
  }

  function TrimRight(s: string): string {
    if s != "" && IsSpace(s[|s| - 1]) then TrimRight(s[..|s| - 1]) else s
  }

  function TrimSpace(s: string): string {
    TrimRight(TrimLeft(s))
  }

  /** `strings.Split` at a one-character separator: always at least one part. */
  function Split(s: string, sep: char): (parts: seq<string>)
    ensures |parts| >= 1
  {
    if s == "" then [""]
    else
      var rest := Split(s[1..], sep);
      if s[0] == sep then [""] + rest else [[s[0]] + rest[0]] + rest[1..]
  }

  function Join(parts: seq<string>, sep: string): string {
    if parts == [] then ""
    else if |parts| == 1 then parts[0]
    else parts[0] + sep + Join(parts[1..], sep)
  }

  /** The offset just after the last `/`, or 0: what `LastIndex(s, "/") + 1` gives. */
  function AfterLastSlash(s: string): (i: nat)
    ensures i <= |s|
  {
    if s == "" then 0
    else if s[|s| - 1] == '/' then |s|
    else AfterLastSlash(s[..|s| - 1])
  }

  lemma ConcatAssoc<T>(a: seq<T>, b: seq<T>, c: seq<T>)
    ensures (a + b) + c == a + (b + c)
  {
  }

  lemma TailOfCons<T>(x: T, rest: seq<T>)
    ensures ([x] + rest)[0] == x && ([x] + rest)[1..] == rest
  {
  }

  lemma {:induction false} JoinSplit(s: string, sep: char)
    ensures Join(Split(s, sep), [sep]) == s
  {
    if s != "" {
      JoinSplit(s[1..], sep);
      var rest := Split(s[1..], sep);
      if s[0] == sep {
        assert ([""] + rest)[1..] == rest;
        assert Join([""] + rest, [sep]) == "" + [sep] + Join(rest, [sep]);
      } else {
        var head := [s[0]] + rest[0];
        assert ([head] + rest[1..])[1..] == rest[1..];
        assert Join([head] + rest[1..], [sep]) == [s[0]] + Join(rest, [sep]);
      }
    }
  }

  /** Text without the separator is one part. */
  lemma {:induction false} SplitWhole(s: string, sep: char)
    requires sep !in s
    ensures Split(s, sep) == [s]
  {
    if s != "" {
      assert forall c :: c in s[1..] ==> c in s;
      SplitWhole(s[1..], sep);
      assert [s[0]] + s[1..] == s;
    }
  }

  /** Splitting `first + sep + rest`, where `first` is free of the separator. */
  lemma {:induction false} SplitAtSep(first: string, rest: string, sep: char)
    requires sep !in first
    ensures Split(first + [sep] + rest, sep) == [first] + Split(rest, sep)
  {
    var s := first + [sep] + rest;
    if first == "" {
      assert s[1..] == rest;
    } else {
      assert s[1..] == first[1..] + [sep] + rest;
      assert forall c :: c in first[1..] ==> c in first;
      SplitAtSep(first[1..], rest, sep);
      assert [first[0]] + first[1..] == first;
    }
  }

  lemma {:induction false} SplitJoin(parts: seq<string>, sep: char)
    requires parts != []
    requires forall p :: p in parts ==> sep !in p
    ensures Split(Join(parts, [sep]), sep) == parts
  {
    if |parts| == 1 {
      SplitWhole(parts[0], sep);
    } else {
      assert forall p :: p in parts[1..] ==> p in parts;
      SplitJoin(parts[1..], sep);
      SplitAtSep(parts[0], Join(parts[1..], [sep]), sep);
    }
  }

  lemma {:induction false} SplitPartsFree(s: string, sep: char)
    ensures forall p :: p in Split(s, sep) ==> sep !in p
  {
    if s != "" {
      SplitPartsFree(s[1..], sep);
      var rest := Split(s[1..], sep);
      assert forall p :: p in rest[1..] ==> p in rest;
    }
  }

  // ---------------------------------------------------------------- decimal numbers

  const MaxInt: int := 0x7FFF_FFFF_FFFF_FFFF
  const MinInt: int := -0x8000_0000_0000_0000

  predicate IsDigit(c: char) {
    '0' <= c <= '9'
  }

  predicate AllDigits(s: string) {
    s != "" && forall i :: 0 <= i < |s| ==> IsDigit(s[i])
  }

  function DigitsValue(s: string): nat
    requires forall i :: 0 <= i < |s| ==> IsDigit(s[i])
  {
    if s == "" then 0
    else
      assert IsDigit(s[|s| - 1]);
      10 * DigitsValue(s[..|s| - 1]) + (s[|s| - 1] as int - '0' as int)
  }

  datatype Parsed = Number(value: int) | OutOfRange(clamped: int) | NotANumber

  /** `strconv.Atoi` on a 64-bit machine: an optional sign and decimal digits. */
  function Atoi(s: string): (r: Parsed)
    ensures r.Number? ==> MinInt <= r.value <= MaxInt
  {
    var digits := if s != "" && (s[0] == '-' || s[0] == '+') then s[1..] else s;
    if !AllDigits(digits) then NotANumber
    else
      var v: int := if s[0] == '-' then 0 - DigitsValue(digits) else DigitsValue(digits);
      if v > MaxInt then OutOfRange(MaxInt)
      else if v < MinInt then OutOfRange(MinInt)
      else Number(v)
  }

  function Digit(d: nat): char
    requires d < 10
  {
    ('0' as int + d) as char
  }

  /** Decimal rendering without sign or leading zeros. */
  function Itoa(n: nat): (s: string)
    ensures AllDigits(s)
  {
    if n < 10 then [Digit(n)] else Itoa(n / 10) + [Digit(n % 10)]
  }

  lemma {:induction false} ItoaValue(n: nat)
    ensures DigitsValue(Itoa(n)) == n
  {
    if n < 10 {
      assert Itoa(n)[..0] == "";
    } else {
      ItoaValue(n / 10);
      assert Itoa(n)[..|Itoa(n)| - 1] == Itoa(n / 10);
    }
  }

  lemma AtoiItoa(n: nat)
    requires n <= MaxInt
    ensures Atoi(Itoa(n)) == Number(n)
  {
    ItoaValue(n);
  }
}
