/**
  The Python string operations the generator is built from, on `string` (a
  sequence of Unicode scalar values): case mapping, `str.replace` with
  one-character arguments, `str.capitalize`, `sep.join`, `str.split`,
  `str(n)` for naturals, zero-padded numerals, and `''.join(random.choices(pool, k))`
  with the random draws made explicit.  The inverses (`Split`, `ParseDecimal`)
  are here so that every formatting function can be proved against them.
*/
module Text {

  // ---------------------------------------------------------------------
  // Character classes

  predicate IsAsciiLower(c: char) { 'a' <= c <= 'z' }
  predicate IsAsciiUpper(c: char) { 'A' <= c <= 'Z' }
  predicate IsDigit(c: char) { '0' <= c <= '9' }

  /** Upper-case Cyrillic, U+0400 to U+042F (Ѐ..Џ and А..Я). */
  predicate IsCyrillicUpper(c: char) { 'Ѐ' <= c <= 'Я' }
  /** Lower-case Cyrillic, U+0430 to U+045F (а..я and ѐ..џ). */
  predicate IsCyrillicLower(c: char) { 'а' <= c <= 'џ' }

  predicate IsUpper(c: char) { IsAsciiUpper(c) || IsCyrillicUpper(c) }
  predicate IsLower(c: char) { IsAsciiLower(c) || IsCyrillicLower(c) }

  predicate AllDigits(s: string) { forall i :: 0 <= i < |s| ==> IsDigit(s[i]) }

  /** A non-empty run of decimal digits. */
  predicate IsNumeral(s: string) { |s| > 0 && AllDigits(s) }

  // ---------------------------------------------------------------------
  // Case mapping (the part of Unicode's simple case mapping the reference
  // lists use: ASCII and the basic Cyrillic block)

  function Lower(c: char): char
  {
    if IsAsciiUpper(c) || 'А' <= c <= 'Я' then (c as int + 32) as char
    else if 'Ѐ' <= c <= 'Џ' then (c as int + 80) as char
    else c
  }

  function Upper(c: char): char
  {
    if IsAsciiLower(c) || 'а' <= c <= 'я' then (c as int - 32) as char
    else if 'ѐ' <= c <= 'џ' then (c as int - 80) as char
    else c
  }

  /** Lower and Upper are inverse bijections between the two classes and leave everything else alone. */
  lemma CaseMapping(c: char)
    ensures IsUpper(c) ==> IsLower(Lower(c)) && Upper(Lower(c)) == c
    ensures IsLower(c) ==> IsUpper(Upper(c)) && Lower(Upper(c)) == c
    ensures !IsUpper(c) ==> Lower(c) == c
    ensures !IsLower(c) ==> Upper(c) == c
    ensures !IsUpper(Lower(c)) && !IsLower(Upper(c))
  {
  }

  /** `str.lower()`, character by character. */
  function LowerStr(s: string): string
  {
    seq(|s|, i requires 0 <= i < |s| => Lower(s[i]))
  }

  /** `str.capitalize()`: the first character upper-cased, the rest lower-cased. */
  function Capitalize(s: string): string
  {
    if s == [] then [] else [Upper(s[0])] + LowerStr(s[1..])
  }

  /** A text that `Capitalize` leaves readable: lower-case letters and separators only. */
  predicate NoUpper(s: string) { forall i :: 0 <= i < |s| ==> !IsUpper(s[i]) }

  /** Lower-casing undoes `Capitalize` on a text with no upper-case letter. */
  lemma LowerCapitalize(s: string)
    requires NoUpper(s)
    ensures |Capitalize(s)| == |s|
    ensures LowerStr(Capitalize(s)) == s
  {
    if s != [] {
      CaseMapping(s[0]);
      var c := Capitalize(s);
      forall i | 0 <= i < |s| ensures LowerStr(c)[i] == s[i] {
        CaseMapping(s[i]);
      }
    }
  }

  // ---------------------------------------------------------------------
  // str.replace(old, new) with one-character `old` and `new`

  function ReplaceChar(s: string, from: char, to: char): (r: string)
    ensures |r| == |s|
    ensures forall i :: 0 <= i < |s| ==> r[i] == if s[i] == from then to else s[i]
    decreases |s|
  {
    if s == [] then []
    else (if s[0] == from then [to] else [s[0]]) + ReplaceChar(s[1..], from, to)
  }

  // ---------------------------------------------------------------------
  // sep.join(parts) and s.split(sep) for a one-character separator

  function Join(parts: seq<string>, sep: char): string
    decreases |parts|
  {
    if |parts| == 0 then ""
    else if |parts| == 1 then parts[0]
    else parts[0] + [sep] + Join(parts[1..], sep)
  }

  /** `s.split(sep)`: the maximal pieces between separators; "" splits into [""]. */
  function Split(s: string, sep: char): (parts: seq<string>)
    ensures |parts| >= 1
    decreases |s|
  {
    if s == [] then [""]
    else
      var rest := Split(s[1..], sep);
      if s[0] == sep then [""] + rest
      else [[s[0]] + rest[0]] + rest[1..]
  }

  lemma {:induction false} SplitWithoutSep(w: string, sep: char)
    requires sep !in w
    ensures Split(w, sep) == [w]
    decreases |w|
  {
    if w != [] {
      SplitWithoutSep(w[1..], sep);
      assert [w[0]] + w[1..] == w;
    }
  }

  lemma {:induction false} SplitAtFirstSep(w: string, sep: char, t: string)
    requires sep !in w
    ensures Split(w + [sep] + t, sep) == [w] + Split(t, sep)
    decreases |w|
  {
    if w == [] {
      assert w + [sep] + t == [sep] + t;
      assert ([sep] + t)[1..] == t;
    } else {
      SplitAtFirstSep(w[1..], sep, t);
      assert (w + [sep] + t)[1..] == w[1..] + [sep] + t;
      assert [w[0]] + w[1..] == w;
    }
  }

  /** Splitting undoes joining when no part holds the separator. */
  lemma {:induction false} SplitJoin(parts: seq<string>, sep: char)
    requires |parts| >= 1
    requires forall i :: 0 <= i < |parts| ==> sep !in parts[i]
    ensures Split(Join(parts, sep), sep) == parts
    decreases |parts|
  {
    if |parts| == 1 {
      SplitWithoutSep(parts[0], sep);
    } else {
      SplitJoin(parts[1..], sep);
      SplitAtFirstSep(parts[0], sep, Join(parts[1..], sep));
      assert [parts[0]] + parts[1..] == parts;
    }
  }

  lemma JoinPair(a: string, b: string, sep: char)
    ensures Join([a, b], sep) == a + [sep] + b
  {
    assert [a, b][1..] == [b];
  }

  // ---------------------------------------------------------------------
  // Decimal numerals: str(n) and zero-padded fields

  function DigitChar(d: int): (c: char)
    requires 0 <= d < 10
    ensures IsDigit(c)
  {
    ('0' as int + d) as char
  }

  function DigitValue(c: char): int
  {
    c as int - '0' as int
  }

  /** The number a run of decimal digits denotes (leading zeros allowed). */
  function ParseDecimal(s: string): nat
    requires AllDigits(s)
    decreases |s|
  {
    if s == [] then 0 else ParseDecimal(s[..|s| - 1]) * 10 + DigitValue(s[|s| - 1])
  }

  lemma ParseLastDigit(s: string, c: char)
    requires AllDigits(s) && IsDigit(c)
    ensures AllDigits(s + [c]) && ParseDecimal(s + [c]) == ParseDecimal(s) * 10 + DigitValue(c)
  {
    assert (s + [c])[..|s|] == s;
  }

  /** `str(n)` for a natural: digits, no leading zero, and reading it back gives n. */
  function Decimal(n: nat): (r: string)
    ensures IsNumeral(r)
    ensures r[0] == '0' ==> n == 0
    ensures ParseDecimal(r) == n
    decreases n
  {
    if n < 10 then
      [DigitChar(n)]
    else
      var r := Decimal(n / 10) + [DigitChar(n % 10)];
      ParseLastDigit(Decimal(n / 10), DigitChar(n % 10));
      r
  }

  function Pow10(k: nat): nat
  {
    if k == 0 then 1 else 10 * Pow10(k - 1)
  }

  /** The `width` lowest decimal digits of n, zero-padded (strftime's %Y, %m, %d). */
  function Padded(n: nat, width: nat): (r: string)
    ensures |r| == width && AllDigits(r)
    ensures n < Pow10(width) ==> ParseDecimal(r) == n
    decreases width
  {
    if width == 0 then
      ""
    else
      var r := Padded(n / 10, width - 1) + [DigitChar(n % 10)];
      ParseLastDigit(Padded(n / 10, width - 1), DigitChar(n % 10));
      r
  }

  // ---------------------------------------------------------------------
  // ''.join(random.choices(pool, k=len(draws))), the draws made explicit

  /** The elements drawn from `pool`, `draws[i]` being the index of the i-th draw. */
  function Choices<T>(pool: seq<T>, draws: seq<nat>): seq<T>
    requires AllDraws(draws, |pool|)
  {
    seq(|draws|, i requires 0 <= i < |draws| => pool[draws[i]])
  }

  /** Every draw is an index into a pool of `bound` elements. */
  predicate AllDraws(draws: seq<nat>, bound: nat)
  {
    forall i :: 0 <= i < |draws| ==> draws[i] < bound
  }

  /** Whatever the draws, every element drawn comes from the pool. */
  lemma ChoicesFromPool<T>(pool: seq<T>, draws: seq<nat>)
    requires AllDraws(draws, |pool|)
    ensures forall i :: 0 <= i < |draws| ==> Choices(pool, draws)[i] in pool
  {
    forall i | 0 <= i < |draws| ensures Choices(pool, draws)[i] in pool {
      assert Choices(pool, draws)[i] == pool[draws[i]];
    }
  }

  /** Drawing one more element appends it: the loop form of `random.choices`. */
  lemma ChoicesSnoc<T>(pool: seq<T>, draws: seq<nat>, i: nat)
    requires i < |draws| && AllDraws(draws, |pool|)
    ensures Choices(pool, draws[..i + 1]) == Choices(pool, draws[..i]) + [pool[draws[i]]]
  {
    assert forall k :: 0 <= k <= i ==> draws[..i + 1][k] == draws[k];
  }

  function IndexOf<T(==)>(pool: seq<T>, x: T): (k: nat)
    requires x in pool
    ensures k < |pool| && pool[k] == x
    decreases |pool|
  {
    if pool[0] == x then 0 else 1 + IndexOf(pool[1..], x)
  }

  /** Every sequence over `pool` is some outcome of the draws: the draws lose nothing. */
  lemma ChoicesCover<T>(pool: seq<T>, s: seq<T>)
    requires forall i :: 0 <= i < |s| ==> s[i] in pool
    ensures exists draws :: AllDraws(draws, |pool|) && |draws| == |s| && Choices(pool, draws) == s
  {
    var draws := seq(|s|, i requires 0 <= i < |s| => IndexOf(pool, s[i]));
    assert AllDraws(draws, |pool|);
    assert Choices(pool, draws) == s;
  }

  /** `n` consecutive code points from `first`, as Python's `string` constants list them. */
  function CharRange(first: char, n: nat): string
    requires first as int + n <= 0xD800
  {
    seq(n, i requires 0 <= i < n => (first as int + i) as char)
  }

  lemma InCharRange(first: char, n: nat, c: char)
    requires first as int + n <= 0xD800
    ensures c in CharRange(first, n) <==> first <= c && (c as int) < first as int + n
  {
    if first <= c && (c as int) < first as int + n {
      assert CharRange(first, n)[c as int - first as int] == c;
    }
  }
}
