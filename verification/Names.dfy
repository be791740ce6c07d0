/**
 Random name generation (pkg/registry/names/generate.go): the bit-slicing
 rejection sampler and the 63-byte name builder.

 A source of random numbers is a stream of draws. Every draw is read as twelve
 base-32 digits, lowest first; digits that do not index the alphabet are skipped.
 Drawn numbers are not negative, so masking with 31 is the remainder by 32 and
 shifting right by 5 is the quotient by 32.
 */
module Names {
  import opened Wrappers
  import opened Api

  const MAX_NAME_LENGTH := 63
  const RANDOM_LENGTH := 5
  const MAX_GENERATED_NAME_LENGTH := MAX_NAME_LENGTH - RANDOM_LENGTH

  const ALPHANUMS: string := "bcdfghjklmnpqrstvwxz2456789"

  const INT63_LIMIT := 0x8000_0000_0000_0000

  /** Successive draws. The generator keeps them below INT63_LIMIT; the sampler does not rely on it. */
  type Stream = seq<nat>

  /** A suffix of the length the sampler returns. The results on generated names hold for any letters. */
  type Suffix = s: string | |s| == RANDOM_LENGTH witness "bbbbb"

  /** Only letters of `abc`. The results on the sampler hold for every alphabet. */
  predicate Over(abc: string, s: string) {
    forall i | 0 <= i < |s| :: s[i] in abc
  }

  // ---- The specification ----

  /** The `i`-th base-32 digit of `x`, lowest digit first. */
  function Digit(x: nat, i: nat): (d: nat)
    ensures d < 32
  {
    if i == 0 then x % 32 else Digit(x / 32, i - 1)
  }

  /** The concatenation of the twelve low digits of each draw. */
  function Digits(s: Stream): (ds: seq<nat>)
    ensures |ds| == |s| * 12
  {
    if s == [] then [] else seq(12, i requires 0 <= i => Digit(s[0], i)) + Digits(s[1..])
  }

  /** The letter of a digit, if it indexes the alphabet. */
  function Accepted(abc: string, d: nat): string {
    if d < |abc| then [abc[d]] else ""
  }

  /** The letters of the accepted ones among the first `m` digits. */
  function Letters(abc: string, ds: seq<nat>, m: nat): string
    requires m <= |ds|
  {
    if m == 0 then "" else Letters(abc, ds, m - 1) + Accepted(abc, ds[m - 1])
  }

  /** Without the last of the `m` digits there would be fewer than `n` letters. */
  ghost predicate AllNeeded(abc: string, ds: seq<nat>, n: nat, m: nat)
    requires m <= |ds|
  {
    m == 0 || |Letters(abc, ds, m - 1)| < n
  }

  /** `m` is the least number of digits that hold `n` letters. */
  ghost predicate Consumes(abc: string, ds: seq<nat>, n: nat, m: nat) {
    && m <= |ds|
    && |Letters(abc, ds, m)| == n
    && AllNeeded(abc, ds, n, m)
  }

  lemma {:induction false} LettersGrow(abc: string, ds: seq<nat>, j: nat, m: nat)
    requires j <= m <= |ds|
    ensures Letters(abc, ds, j) <= Letters(abc, ds, m)
    decreases m
  {
    if j < m {
      LettersGrow(abc, ds, j, m - 1);
    }
  }

  lemma {:induction false} LettersAreOver(abc: string, ds: seq<nat>, m: nat)
    requires m <= |ds|
    ensures Over(abc, Letters(abc, ds, m))
  {
    if m > 0 {
      LettersAreOver(abc, ds, m - 1);
    }
  }

  /** The positions of the digits that index an alphabet of a given size, among the first `m`. */
  function Indexing(ds: seq<nat>, size: nat, m: nat): set<nat>
    requires m <= |ds|
  {
    set p | 0 <= p < m && ds[p] < size
  }

  /** The letters are those of the digits below the size of the alphabet, one each and in order; no other digit gives one. */
  lemma {:induction false} LettersOfIndexingDigits(abc: string, ds: seq<nat>, m: nat) returns (at: seq<nat>)
    requires m <= |ds|
    ensures Positions(at, Indexing(ds, |abc|, m)) && |Letters(abc, ds, m)| == |at|
    ensures forall j | 0 <= j < |at| :: at[j] < m && ds[at[j]] < |abc| && Letters(abc, ds, m)[j] == abc[ds[at[j]]]
  {
    if m == 0 {
      at := [];
    } else {
      var before := LettersOfIndexingDigits(abc, ds, m - 1);
      if ds[m - 1] < |abc| {
        OneMorePosition(before, Indexing(ds, |abc|, m - 1), m - 1);
        assert Indexing(ds, |abc|, m) == Indexing(ds, |abc|, m - 1) + {m - 1};
        at := before + [m - 1];
      } else {
        assert Indexing(ds, |abc|, m) == Indexing(ds, |abc|, m - 1);
        at := before;
      }
    }
  }

  /** `name` spells the first digits that index the alphabet, which are those at the positions `at`. */
  ghost predicate SpellsTheFirst(name: string, abc: string, ds: seq<nat>, at: seq<nat>) {
    && |at| == |name| && Increasing(at)
    && (forall j | 0 <= j < |at| :: at[j] < |ds| && ds[at[j]] < |abc| && name[j] == abc[ds[at[j]]])
    && (at != [] ==> forall p: nat | p <= at[|at| - 1] && p < |ds| && ds[p] < |abc| :: p in at)
  }

  lemma ConsumedSpellTheFirst(abc: string, ds: seq<nat>, n: nat, m: nat) returns (at: seq<nat>)
    requires Consumes(abc, ds, n, m)
    ensures |at| == n && SpellsTheFirst(Letters(abc, ds, m), abc, ds, at)
    ensures m == if n == 0 then 0 else at[n - 1] + 1
  {
    at := LettersOfIndexingDigits(abc, ds, m);
    if m > 0 {
      assert m - 1 in at by {
        LastDigitIndexes(abc, ds, m);
        assert m - 1 in Indexing(ds, |abc|, m);
      }
      LastIsGreatest(at, m - 1);
    }
  }

  lemma LastIsGreatest(at: seq<nat>, p: nat)
    requires Increasing(at) && p in at && forall q | q in at :: q <= p
    ensures at[|at| - 1] == p
  {
    var i :| 0 <= i < |at| && at[i] == p;
    assert at[|at| - 1] in at;
  }

  /** A digit that adds a letter indexes the alphabet. */
  lemma LastDigitIndexes(abc: string, ds: seq<nat>, m: nat)
    requires 0 < m <= |ds| && |Letters(abc, ds, m - 1)| < |Letters(abc, ds, m)|
    ensures ds[m - 1] < |abc|
  {
  }

  /** At most one number of digits is consumed for a given length. */
  lemma ConsumptionIsUnique(abc: string, ds: seq<nat>, n: nat, m1: nat, m2: nat)
    requires Consumes(abc, ds, n, m1) && Consumes(abc, ds, n, m2)
    ensures m1 == m2
  {
    if m1 < m2 {
      LettersGrow(abc, ds, m1, m2 - 1);
    } else if m2 < m1 {
      LettersGrow(abc, ds, m2, m1 - 1);
    }
  }

  // ---- The sampler ----

  /** A number from which `j` digits were shifted out. */
  function Shift(x: nat, j: nat): nat {
    if j == 0 then x else Shift(x, j - 1) / 32
  }

  lemma {:induction false} DigitOfShift(x: nat, j: nat, i: nat)
    ensures Digit(Shift(x, j), i) == Digit(x, j + i)
    decreases j
  {
    if j > 0 {
      DigitOfShift(x, j - 1, i + 1);
    }
  }

  lemma {:induction false} DigitsAt(s: Stream, j: nat, i: nat)
    requires j < |s| && i < 12
    ensures Digits(s)[j * 12 + i] == Digit(s[j], i)
  {
    if j > 0 {
      DigitsAt(s[1..], j - 1, i);
    }
  }

  /** The shared generator: a stream and how many numbers were drawn from it. */
  class Rng {
    const stream: Stream
    var drawn: nat

    constructor (stream: Stream)
      ensures this.stream == stream && drawn == 0
    {
      this.stream := stream;
      drawn := 0;
    }

    /** The digits still to come. */
    ghost function Ahead(): seq<nat>
      requires drawn <= |stream|
      reads this
    {
      Digits(stream[drawn..])
    }

    method Int63() returns (x: nat)
      requires drawn < |stream|
      modifies this
      ensures x == stream[old(drawn)] && drawn == old(drawn) + 1
    {
      x := stream[drawn];
      drawn := drawn + 1;
    }
  }

  /**
   Where the sampler stands after reading `m` digits from draw `p` on: `remaining`
   digits of the last draw are left in `random`.
   */
  ghost predicate Standing(s: Stream, p: nat, drawn: nat, m: nat, random: nat, remaining: nat) {
    && p < drawn <= |s|
    && remaining <= 12
    && m + remaining == (drawn - p) * 12
    && (m > 0 ==> remaining < 12)
    && random == Shift(s[drawn - 1], 12 - remaining)
  }

  /** Draws are made only when a digit is needed, apart from the first. */
  lemma DrawCount(s: Stream, p: nat, drawn: nat, m: nat, random: nat, remaining: nat)
    requires Standing(s, p, drawn, m, random, remaining)
    ensures drawn == p + Max(1, (m + 11) / 12)
  {
  }

  /** One turn of the sampler's loop up to the acceptance test: draw if needed, mask, shift. */
  method NextDigit(rng: Rng, random: nat, remaining: nat, ghost p: nat, ghost m: nat)
    returns (idx: nat, random': nat, remaining': nat)
    requires Standing(rng.stream, p, rng.drawn, m, random, remaining)
    requires m < (|rng.stream| - p) * 12
    modifies rng
    ensures idx == Digits(rng.stream[p..])[m]
    ensures Standing(rng.stream, p, rng.drawn, m + 1, random', remaining')
  {
    random', remaining' := random, remaining;
    if remaining == 0 {
      random' := rng.Int63();
      remaining' := 12;
    }
    idx := random' % 32;
    ghost var j := rng.drawn - 1;
    DigitOfShift(rng.stream[j], 12 - remaining', 0);
    DigitsAt(rng.stream[p..], j - p, 12 - remaining');
    random' := random' / 32;
    remaining' := remaining' - 1;
  }

  /** The loop body's write: the letter of an accepted digit goes behind the first `i`. */
  method Append(b: array<char>, i: nat, abc: string, d: nat) returns (i': nat)
    requires i < b.Length
    modifies b
    ensures i <= i' <= i + 1 && b[..i'] == old(b[..i]) + Accepted(abc, d)
  {
    if d < |abc| {
      b[i] := abc[d];
      return i + 1;
    }
    return i;
  }

  /** One turn of the loop: the next digit, and its letter if it is accepted. */
  method NextLetter(rng: Rng, random: nat, remaining: nat, b: array<char>, i: nat, abc: string, ghost p: nat, ghost m: nat, ghost ds: seq<nat>)
    returns (random': nat, remaining': nat, i': nat)
    requires Standing(rng.stream, p, rng.drawn, m, random, remaining)
    requires ds == Digits(rng.stream[p..]) && m < |ds| == (|rng.stream| - p) * 12
    requires i < b.Length && b[..i] == Letters(abc, ds, m)
    modifies rng, b
    ensures Standing(rng.stream, p, rng.drawn, m + 1, random', remaining')
    ensures i <= i' <= b.Length && b[..i'] == Letters(abc, ds, m + 1)
  {
    var idx;
    idx, random', remaining' := NextDigit(rng, random, remaining, p, m);
    assert Letters(abc, ds, m + 1) == b[..i] + Accepted(abc, idx);
    i' := Append(b, i, abc, idx);
  }

  /**
   The sampler refines the specification: it returns the letters of the first
   digits that hold `n` accepted ones, and draws max(1, ceil(m / 12)) numbers for
   `m` digits. It ends whenever the digits ahead hold `n` letters.
   */
  method String(abc: string, rng: Rng, n: nat) returns (name: string, ghost m: nat)
    requires rng.drawn < |rng.stream| && |Letters(abc, rng.Ahead(), |rng.Ahead()|)| >= n
    modifies rng
    ensures Consumes(abc, old(rng.Ahead()), n, m)
    ensures name == Letters(abc, old(rng.Ahead()), m)
    ensures |name| == n && Over(abc, name)
    ensures exists at :: SpellsTheFirst(name, abc, old(rng.Ahead()), at)
    ensures rng.drawn == old(rng.drawn) + Max(1, (m + 11) / 12)
  {
    var b := new char[n];
    ghost var p, ds := rng.drawn, rng.Ahead();
    assert ds == Digits(rng.stream[p..]) && |ds| == (|rng.stream| - p) * 12;
    var random: nat := rng.Int63();
    var remaining: nat := 12;
    var i := 0;
    m := 0;
    while i < n
      invariant i <= n
      invariant Standing(rng.stream, p, rng.drawn, m, random, remaining)
      invariant m <= |ds| && b[..i] == Letters(abc, ds, m)
      invariant AllNeeded(abc, ds, n, m)
      modifies b, rng
      decreases |ds| - m
    {
      random, remaining, i := NextLetter(rng, random, remaining, b, i, abc, p, m, ds);
      m := m + 1;
    }
    LettersAreOver(abc, ds, m);
    ghost var at := ConsumedSpellTheFirst(abc, ds, n, m);
    DrawCount(rng.stream, p, rng.drawn, m, random, remaining);
    name := b[..];
  }

  // ---- Every string over the alphabet can come out ----

  function Pow32(i: nat): (p: nat)
    ensures 0 < p
  {
    if i == 0 then 1 else 32 * Pow32(i - 1)
  }

  lemma Pow32IsMonotone(i: nat, j: nat)
    requires i <= j
    ensures Pow32(i) <= Pow32(j)
  {
  }

  /** The number whose low digits are `ds`. */
  function Pack(ds: seq<nat>): (x: nat)
    requires forall i | 0 <= i < |ds| :: ds[i] < 32
    ensures x < Pow32(|ds|)
  {
    if ds == [] then 0 else ds[0] + 32 * Pack(ds[1..])
  }

  lemma {:induction false} DigitOfPack(ds: seq<nat>, i: nat)
    requires forall i | 0 <= i < |ds| :: ds[i] < 32
    requires i < |ds|
    ensures Digit(Pack(ds), i) == ds[i]
  {
    assert Pack(ds) == ds[0] + 32 * Pack(ds[1..]);
    if i > 0 {
      assert Pack(ds) / 32 == Pack(ds[1..]);
      DigitOfPack(ds[1..], i - 1);
    }
  }

  /** Draws that spell the digits `ds`, twelve a draw. */
  function Spell(ds: seq<nat>): (s: Stream)
    requires forall i | 0 <= i < |ds| :: ds[i] < 32
    ensures s != [] && forall j | 0 <= j < |s| :: s[j] < INT63_LIMIT
  {
    Pow32IsMonotone(Min(|ds|, 12), 12);
    assert Pow32(12) == 0x1000_0000_0000_0000;
    if |ds| <= 12 then [Pack(ds)] else [Pack(ds[..12])] + Spell(ds[12..])
  }

  lemma {:induction false} SpelledDigits(ds: seq<nat>)
    requires forall i | 0 <= i < |ds| :: ds[i] < 32
    ensures ds <= Digits(Spell(ds))
  {
    var first := if |ds| <= 12 then ds else ds[..12];
    forall i | 0 <= i < |first| ensures Digit(Pack(first), i) == first[i] {
      DigitOfPack(first, i);
    }
    if |ds| > 12 {
      SpelledDigits(ds[12..]);
    }
  }

  lemma {:induction false} LettersOfIndices(abc: string, w: string, ds: seq<nat>, m: nat)
    requires m <= |w| <= |ds|
    requires forall i | 0 <= i < |w| :: ds[i] < |abc| && abc[ds[i]] == w[i]
    ensures Letters(abc, ds, m) == w[..m]
  {
    if m > 0 {
      LettersOfIndices(abc, w, ds, m - 1);
    }
  }

  ghost function Index(abc: string, c: char): (i: nat)
    requires c in abc
    ensures i < |abc| && abc[i] == c
  {
    var i :| 0 <= i < |abc| && abc[i] == c;
    i
  }

  /** Every string over the alphabet is what the sampler returns for some stream. */
  lemma EveryStringIsProduced(abc: string, w: string) returns (s: Stream)
    requires |abc| <= 32 && Over(abc, w)
    ensures s != [] && forall j | 0 <= j < |s| :: s[j] < INT63_LIMIT
    ensures Consumes(abc, Digits(s), |w|, |w|) && Letters(abc, Digits(s), |w|) == w
  {
    var ds := seq(|w|, i requires 0 <= i < |w| => Index(abc, w[i]));
    s := Spell(ds);
    SpelledDigits(ds);
    LettersOfIndices(abc, w, Digits(s), |w|);
    if w != "" {
      LettersOfIndices(abc, w, Digits(s), |w| - 1);
    }
  }

  // ---- Names built from a base ----

  /** The part of a base that generated names keep. */
  function Cut(base: string): string {
    if |base| > MAX_GENERATED_NAME_LENGTH then base[..MAX_GENERATED_NAME_LENGTH] else base
  }

  function GeneratedName(base: string, suffix: Suffix): (name: string)
    ensures RANDOM_LENGTH <= |name| <= MAX_NAME_LENGTH
  {
    Cut(base) + suffix
  }

  /** Two generated names are equal only if both parts are. */
  lemma GeneratedNamesAreUnique(base1: string, suffix1: Suffix, base2: string, suffix2: Suffix)
    ensures GeneratedName(base1, suffix1) == GeneratedName(base2, suffix2) <==> Cut(base1) == Cut(base2) && suffix1 == suffix2
  {
    var name1, name2 := GeneratedName(base1, suffix1), GeneratedName(base2, suffix2);
    assert name1[..|Cut(base1)|] == Cut(base1) && name1[|Cut(base1)|..] == suffix1;
    assert name2[..|Cut(base2)|] == Cut(base2) && name2[|Cut(base2)|..] == suffix2;
  }

  method GenerateName(rng: Rng, base: string) returns (name: string, ghost suffix: Suffix)
    requires rng.drawn < |rng.stream| && |Letters(ALPHANUMS, rng.Ahead(), |rng.Ahead()|)| >= RANDOM_LENGTH
    modifies rng
    ensures name == GeneratedName(base, suffix) && Over(ALPHANUMS, suffix)
    ensures suffix <= Letters(ALPHANUMS, old(rng.Ahead()), |old(rng.Ahead())|)
  {
    ghost var ds := rng.Ahead();
    var random, m := String(ALPHANUMS, rng, RANDOM_LENGTH);
    suffix := random;
    LettersGrow(ALPHANUMS, ds, m, |ds|);
    var kept := base;
    if |base| > MAX_GENERATED_NAME_LENGTH {
      kept := base[..MAX_GENERATED_NAME_LENGTH];
    }
    name := kept + random;
  }

  /** The base fits, or the random part happens to repeat what was cut off. */
  predicate KeepsBase(base: string, suffix: Suffix) {
    || |base| <= MAX_GENERATED_NAME_LENGTH
    || (|base| <= MAX_NAME_LENGTH && HasPrefix(suffix, base[MAX_GENERATED_NAME_LENGTH..]))
  }

  /** Exactly when a generated name still carries the whole base as a prefix. */
  lemma OwnershipBoundary(base: string, suffix: Suffix)
    ensures HasPrefix(GeneratedName(base, suffix), base) <==> KeepsBase(base, suffix)
  {
    var name := GeneratedName(base, suffix);
    if MAX_GENERATED_NAME_LENGTH < |base| <= MAX_NAME_LENGTH {
      var kept, lost := base[..MAX_GENERATED_NAME_LENGTH], base[MAX_GENERATED_NAME_LENGTH..];
      assert base == kept + lost;
      assert name == kept + suffix;
      if HasPrefix(name, base) {
        assert forall i | 0 <= i < |lost| :: lost[i] == base[|kept| + i] == name[|kept| + i] == suffix[i];
      }
    }
  }

  lemma PrefixOfSum(a: string, b: string, p: string)
    ensures |p| <= |a| ==> (HasPrefix(a + b, p) <==> HasPrefix(a, p))
    ensures |p| > |a| && HasPrefix(a + b, p) ==> HasPrefix(p, a)
  {
    assert |p| <= |a| ==> (a + b)[..|p|] == a[..|p|];
    assert (a + b)[..|a|] == a;
  }

  lemma PrefixOfCut(base: string, p: string)
    ensures HasPrefix(Cut(base), p) ==> HasPrefix(base, p)
    ensures HasPrefix(p, Cut(base)) && |base| > MAX_GENERATED_NAME_LENGTH ==> Cut(p) == Cut(base)
  {
  }

  /** Exactly when it carries an unrelated one: both are cut to the same 58 bytes and the random part completes the other. */
  lemma ForeignBoundary(base: string, other: string, suffix: Suffix)
    requires Unrelated(base, other)
    ensures HasPrefix(GeneratedName(base, suffix), other) <==>
            Cut(base) == Cut(other) && KeepsBase(other, suffix)
  {
    PrefixOfSum(Cut(base), suffix, other);
    PrefixOfCut(base, other);
    if Cut(base) == Cut(other) {
      OwnershipBoundary(other, suffix);
    }
  }
}
