/** What `Generate` promises, proved about the model of module Password: the validation
    errors and their order, the length of the password, where its bytes come from, that no
    byte repeats when repeats are disallowed, and how many bytes each pool contributes. */
module PasswordProperties {
  import opened CryptoRand
  import opened Password

  /** No byte occurs twice. */
  predicate Distinct(s: ByteString) {
    forall i, j :: 0 <= i < j < |s| ==> s[i] != s[j]
  }

  /** No byte is in both. */
  predicate Disjoint(a: ByteString, b: ByteString) {
    forall c :: c in a ==> c !in b
  }

  /** How many bytes of `s` are bytes of `pool`. */
  function Count(s: ByteString, pool: ByteString): (n: nat)
    ensures n <= |s|
  {
    if s == [] then 0 else (if s[0] in pool then 1 else 0) + Count(s[1..], pool)
  }

  lemma {:induction false} CountConcat(a: ByteString, b: ByteString, pool: ByteString)
    ensures Count(a + b, pool) == Count(a, pool) + Count(b, pool)
  {
    if a == [] {
      assert a + b == b;
    } else {
      assert (a + b)[1..] == a[1..] + b;
      CountConcat(a[1..], b, pool);
    }
  }

  /** `Contains` holds exactly when `sub` starts at some position of `s`. */
  lemma {:induction false} ContainsOccurrence(s: ByteString, sub: ByteString)
    ensures Contains(s, sub) <==> exists i | 0 <= i <= |s| :: sub <= s[i..]
    decreases |s|
  {
    assert s[0..] == s;
    if s != [] {
      ContainsOccurrence(s[1..], sub);
      if Contains(s[1..], sub) {
        var j :| 0 <= j <= |s[1..]| && sub <= s[1..][j..];
        assert s[1..][j..] == s[j + 1..];
      }
      if i :| 0 < i <= |s| && sub <= s[i..] {
        assert s[1..][i - 1..] == s[i..];
      }
    }
  }

  /** `strings.Contains` with a one-byte string is membership of that byte. */
  lemma {:induction false} ContainsByte(s: ByteString, b: byte)
    ensures Contains(s, [b]) <==> b in s
    decreases |s|
  {
    if s != [] {
      ContainsByte(s[1..], b);
      assert s == [s[0]] + s[1..];
    }
  }

  // ---------------------------------------------------------------------------------------
  // randomInsert and randomElement

  /** Splicing `val` into `s` at `i` adds exactly the bytes of `val`, and cutting them out
      again gives back `s`. */
  lemma Spliced(s: ByteString, val: ByteString, i: int)
    requires 0 <= i <= |s|
    ensures multiset(s[..i] + val + s[i..]) == multiset(s) + multiset(val)
    ensures (s[..i] + val + s[i..])[..i] + (s[..i] + val + s[i..])[i + |val|..] == s
  {
    var r := s[..i] + val + s[i..];
    assert s == s[..i] + s[i..];
    assert r[..i] == s[..i];
    assert r[i + |val|..] == s[i..];
  }

  /** Splicing `val` into `s` adds the bytes of `val` to the count of any pool. */
  lemma SplicedCount(s: ByteString, val: ByteString, i: int, pool: ByteString)
    requires 0 <= i <= |s|
    ensures Count(s[..i] + val + s[i..], pool) == Count(s, pool) + Count(val, pool)
  {
    assert s == s[..i] + s[i..];
    CountConcat(s[..i] + val, s[i..], pool);
    CountConcat(s[..i], val, pool);
    CountConcat(s[..i], s[i..], pool);
  }

  /** A byte of `s` with `val` spliced in comes from `s` or from `val`. */
  lemma SplicedMembers(s: ByteString, val: ByteString, i: int)
    requires 0 <= i <= |s|
    ensures forall c :: c in s[..i] + val + s[i..] ==> c in s || c in val
  {
    assert s == s[..i] + s[i..];
  }

  /** `randomInsert` is undone by removing what it inserted: the result is one longer per
      inserted byte, holds `val` at the drawn position, and the rest is `s` in order. */
  lemma RandomInsertInverse(s: ByteString, val: ByteString, src: Source)
    requires RandomInsert(s, val, src).Ok?
    ensures |RandomInsert(s, val, src).value| == |s| + |val|
    ensures multiset(RandomInsert(s, val, src).value) == multiset(s) + multiset(val)
    ensures exists i | 0 <= i <= |s| ::
              RandomInsert(s, val, src).value[i..i + |val|] == val
              && RandomInsert(s, val, src).value[..i] + RandomInsert(s, val, src).value[i + |val|..] == s
  {
    var r := RandomInsert(s, val, src).value;
    var i :| 0 <= i <= |s| && r == s[..i] + val + s[i..];
    Spliced(s, val, i);
    assert r[i..i + |val|] == val;
  }

  /** Every position in `[0, len(s)]` is the outcome of some random source. */
  lemma RandomInsertReachable(s: ByteString, val: ByteString, i: nat, rest: Source)
    requires s != [] && i <= |s|
    ensures RandomInsert(s, val, [i] + rest) == Ok(s[..i] + val + s[i..], rest)
  {
    EveryValueReachable(|s| + 1, i, rest);
  }

  /** Every byte of a non-empty pool is the outcome of some random source. */
  lemma RandomElementReachable(s: ByteString, k: nat, rest: Source)
    requires k < |s|
    ensures RandomElement(s, [k] + rest) == Ok([s[k]], rest)
  {
    EveryValueReachable(|s|, k, rest);
    assert s[k..k + 1] == [s[k]];
  }

  /** On a pool of ASCII bytes, the source's `string(s[n])` is the one-byte string `s[n:n+1]`. */
  lemma AsWrittenAgreesOnAscii(s: ByteString, src: Source)
    requires forall i | 0 <= i < |s| :: s[i] as int < 0x80
    ensures RandomElementAsWritten(s, src) == RandomElement(s, src)
  {
    match Int(src, |s|)
    case Value(n, rest) =>
      assert s[n..n + 1] == [s[n]];
    case _ =>
  }

  /** The two bytes of "é" as a pool: the source's `randomElement` turns the byte 0xC3 into
      the two-byte encoding of U+00C3, whose second byte 0x83 is not in the pool at all,
      while the one-byte pick gives 0xC3 itself. */
  lemma AsWrittenWidensHighByte()
    ensures var pool: ByteString := [0xC3 as char, 0xA9 as char];
            var o := RandomElementAsWritten(pool, [0]);
            o == Ok([0xC3 as char, 0x83 as char], []) && |o.value| == 2 && o.value[1] !in pool
            && RandomElement(pool, [0]) == Ok([0xC3 as char], [])
  {
    var pool: ByteString := [0xC3 as char, 0xA9 as char];
    assert pool[0..1] == [0xC3 as char];
  }

  // ---------------------------------------------------------------------------------------
  // One fill phase

  /** Every byte added by a phase is a byte of its pool, and a phase with nothing to do adds
      nothing. */
  lemma {:induction false} PhaseMembers(pool: ByteString, todo: int, allowRepeat: bool, result: ByteString, src: Source)
    requires Phase(pool, todo, allowRepeat, result, src).Ok?
    ensures forall c :: c in Phase(pool, todo, allowRepeat, result, src).value ==>
              c in result || (0 < todo && c in pool)
    decreases |src|
  {
    if 0 < todo {
      PhaseStep(pool, todo, allowRepeat, result, src);
      var picked := RandomElement(pool, src);
      var ch := picked.value;
      if !allowRepeat && Contains(result, ch) {
        PhaseMembers(pool, todo, allowRepeat, result, picked.rest);
      } else {
        var inserted := RandomInsert(result, ch, picked.rest);
        var i :| 0 <= i <= |result| && inserted.value == result[..i] + ch + result[i..];
        SplicedMembers(result, ch, i);
        assert ch == [ch[0]];
        PhaseMembers(pool, todo - 1, allowRepeat, inserted.value, inserted.rest);
      }
    }
  }

  /** Splicing a byte that is not yet present keeps a string free of repeats. */
  lemma DistinctSplice(s: ByteString, b: byte, i: int)
    requires 0 <= i <= |s| && Distinct(s) && b !in s
    ensures Distinct(s[..i] + [b] + s[i..])
  {
    var r := s[..i] + [b] + s[i..];
    assert forall k | 0 <= k < |r| :: r[k] == if k < i then s[k] else if k == i then b else s[k - 1];
  }

  /** With repeats disallowed, a phase keeps the password free of repeated bytes: a drawn
      byte already present is rejected. */
  lemma {:induction false} PhaseDistinct(pool: ByteString, todo: int, result: ByteString, src: Source)
    requires Distinct(result)
    requires Phase(pool, todo, false, result, src).Ok?
    ensures Distinct(Phase(pool, todo, false, result, src).value)
    decreases |src|
  {
    if 0 < todo {
      PhaseStep(pool, todo, false, result, src);
      var picked := RandomElement(pool, src);
      var ch := picked.value;
      assert ch == [ch[0]];
      ContainsByte(result, ch[0]);
      if Contains(result, ch) {
        PhaseDistinct(pool, todo, result, picked.rest);
      } else {
        var inserted := RandomInsert(result, ch, picked.rest);
        var i :| 0 <= i <= |result| && inserted.value == result[..i] + ch + result[i..];
        DistinctSplice(result, ch[0], i);
        PhaseDistinct(pool, todo - 1, inserted.value, inserted.rest);
      }
    }
  }

  /** A phase adds `todo` bytes of its pool: `todo` more bytes of any superset of the pool,
      and none of a pool disjoint from it. */
  lemma {:induction false} PhaseCounts(pool: ByteString, todo: int, allowRepeat: bool, result: ByteString,
                                       src: Source, other: ByteString)
    requires Phase(pool, todo, allowRepeat, result, src).Ok?
    ensures (forall c :: c in pool ==> c in other) ==>
              Count(Phase(pool, todo, allowRepeat, result, src).value, other) == Count(result, other) + Max0(todo)
    ensures Disjoint(pool, other) ==>
              Count(Phase(pool, todo, allowRepeat, result, src).value, other) == Count(result, other)
    decreases |src|
  {
    if 0 < todo {
      PhaseStep(pool, todo, allowRepeat, result, src);
      var picked := RandomElement(pool, src);
      var ch := picked.value;
      if !allowRepeat && Contains(result, ch) {
        PhaseCounts(pool, todo, allowRepeat, result, picked.rest, other);
      } else {
        var inserted := RandomInsert(result, ch, picked.rest);
        var i :| 0 <= i <= |result| && inserted.value == result[..i] + ch + result[i..];
        SplicedCount(result, ch, i, other);
        assert ch == [ch[0]];
        assert Count(ch, other) == if ch[0] in other then 1 else 0;
        PhaseCounts(pool, todo - 1, allowRepeat, inserted.value, inserted.rest, other);
      }
    }
  }

  /** A phase fails only because the source could not be read, or because the pool is empty
      and `rand.Int` panics, which happens exactly when there is something to draw. */
  lemma {:induction false} PhaseErrors(pool: ByteString, todo: int, allowRepeat: bool, result: ByteString, src: Source)
    ensures Phase(pool, todo, allowRepeat, result, src).Err? ==>
              Phase(pool, todo, allowRepeat, result, src).error in {RandomIntFailed, NonPositiveMaxPanic}
    ensures Phase(pool, todo, allowRepeat, result, src) == Err(NonPositiveMaxPanic) <==> 0 < todo && pool == []
    decreases |src|
  {
    if 0 < todo && pool != [] {
      PhaseStep(pool, todo, allowRepeat, result, src);
      var picked := RandomElement(pool, src);
      if picked.Ok? {
        var ch := picked.value;
        if !allowRepeat && Contains(result, ch) {
          PhaseErrors(pool, todo, allowRepeat, result, picked.rest);
        } else {
          var inserted := RandomInsert(result, ch, picked.rest);
          if inserted.Ok? {
            PhaseErrors(pool, todo - 1, allowRepeat, inserted.value, inserted.rest);
          }
        }
      }
    }
  }

  /** With repeats allowed and a non-empty pool, a phase of `todo` steps needs at most two
      draws per step (one to pick, one to place), so a source that can give that many
      values never makes it fail. */
  lemma {:induction false} PhaseSucceeds(pool: ByteString, todo: int, result: ByteString, src: Source)
    requires 0 < todo ==> pool != []
    requires 2 * Max0(todo) <= |src|
    ensures Phase(pool, todo, true, result, src).Ok?
    ensures |src| - 2 * Max0(todo) <= |Phase(pool, todo, true, result, src).rest|
    decreases |src|
  {
    if 0 < todo {
      PhaseStep(pool, todo, true, result, src);
      var picked := RandomElement(pool, src);
      var inserted := RandomInsert(result, picked.value, picked.rest);
      PhaseSucceeds(pool, todo - 1, inserted.value, inserted.rest);
    }
  }

  // ---------------------------------------------------------------------------------------
  // Generate

  /** The validation errors are decided before any draw: they depend on the generator and the
      input only, and the random source is not touched. */
  lemma ValidationPrecedesDraws(g: Generator, input: Input, src: Source, e: Error)
    requires Validate(g, input) == Some(e)
    ensures Generation(g, input, src) == Err(e)
  {
  }

  /** `Generate` returns a validation error exactly when the checks report it; every other
      error comes from the random source. */
  lemma GenerationErrors(g: Generator, input: Input, src: Source)
    requires Generation(g, input, src).Err?
    ensures var e := Generation(g, input, src).error;
            Validate(g, input) == Some(e)
            || (Validate(g, input) == None && (e == RandomIntFailed || e == NonPositiveMaxPanic))
  {
    if Validate(g, input) == None {
      var ar := input.allowRepeat;
      var letters := Phase(Letters(g, input), LetterCount(input) as int, ar, [], src);
      PhaseErrors(Letters(g, input), LetterCount(input) as int, ar, [], src);
      if letters.Ok? {
        var digits := Phase(g.digits, input.digits as int, ar, letters.value, letters.rest);
        PhaseErrors(g.digits, input.digits as int, ar, letters.value, letters.rest);
        if digits.Ok? {
          PhaseErrors(g.symbols, input.symbols as int, ar, digits.value, digits.rest);
        }
      }
    }
  }

  /** `ErrExceedsTotalLength` fires exactly when the digits and symbols together exceed the
      length (when the subtraction does not overflow); equality is allowed. */
  lemma ExceedsTotalLengthExactly(g: Generator, input: Input, src: Source)
    requires InInt64(input.length as int - input.digits as int - input.symbols as int)
    ensures Generation(g, input, src) == Err(ExceedsTotalLength) <==>
              input.length as int < input.digits as int + input.symbols as int
  {
    if Generation(g, input, src) == Err(ExceedsTotalLength) {
      GenerationErrors(g, input, src);
    }
  }

  /** The only panic: repeats allowed and a pool that has to be drawn from is empty. */
  lemma GenerationPanics(g: Generator, input: Input, src: Source)
    requires Generation(g, input, src) == Err(NonPositiveMaxPanic)
    ensures input.allowRepeat
    ensures (0 < LetterCount(input) && Letters(g, input) == [])
            || (0 < input.digits && g.digits == []) || (0 < input.symbols && g.symbols == [])
  {
    var ar := input.allowRepeat;
    var letters := Phase(Letters(g, input), LetterCount(input) as int, ar, [], src);
    PhaseErrors(Letters(g, input), LetterCount(input) as int, ar, [], src);
    if letters.Ok? {
      var digits := Phase(g.digits, input.digits as int, ar, letters.value, letters.rest);
      PhaseErrors(g.digits, input.digits as int, ar, letters.value, letters.rest);
      if digits.Ok? {
        PhaseErrors(g.symbols, input.symbols as int, ar, digits.value, digits.rest);
      }
    }
  }

  /** The password has one byte per letter, digit and symbol asked for; with non-negative
      counts and no overflow, that is `Length` bytes. */
  lemma GenerateLength(g: Generator, input: Input, src: Source)
    requires Generation(g, input, src).Ok?
    ensures |Generation(g, input, src).value| ==
              LetterCount(input) as int + Max0(input.digits as int) + Max0(input.symbols as int)
    ensures 0 <= input.digits && 0 <= input.symbols
            && InInt64(input.length as int - input.digits as int - input.symbols as int) ==>
              |Generation(g, input, src).value| == input.length as int
  {
  }

  /** Every byte of the password is a letter (lower, or upper unless `noUpper`), a digit or a
      symbol of the generator, and only from a pool that was asked for. */
  lemma GenerateMembers(g: Generator, input: Input, src: Source)
    requires Generation(g, input, src).Ok?
    ensures forall c :: c in Generation(g, input, src).value ==>
              (0 < LetterCount(input) && c in Letters(g, input))
              || (0 < input.digits && c in g.digits) || (0 < input.symbols && c in g.symbols)
  {
    var ar := input.allowRepeat;
    var letters := Phase(Letters(g, input), LetterCount(input) as int, ar, [], src);
    PhaseMembers(Letters(g, input), LetterCount(input) as int, ar, [], src);
    var digits := Phase(g.digits, input.digits as int, ar, letters.value, letters.rest);
    PhaseMembers(g.digits, input.digits as int, ar, letters.value, letters.rest);
    PhaseMembers(g.symbols, input.symbols as int, ar, digits.value, digits.rest);
  }

  /** With `noUpper`, no byte is drawn from the upper-case pool; when that pool shares no byte
      with the others, none of its bytes appears. */
  lemma GenerateNoUpper(g: Generator, input: Input, src: Source)
    requires input.noUpper && Generation(g, input, src).Ok?
    ensures forall c :: c in Generation(g, input, src).value ==>
              c in g.lowerLetters || c in g.digits || c in g.symbols
    ensures Disjoint(g.upperLetters, g.lowerLetters + g.digits + g.symbols) ==>
              forall c :: c in Generation(g, input, src).value ==> c !in g.upperLetters
  {
    GenerateMembers(g, input, src);
  }

  /** With repeats disallowed, no byte occurs twice in the password. */
  lemma GenerateNoRepeats(g: Generator, input: Input, src: Source)
    requires !input.allowRepeat && Generation(g, input, src).Ok?
    ensures Distinct(Generation(g, input, src).value)
  {
    var letters := Phase(Letters(g, input), LetterCount(input) as int, false, [], src);
    PhaseDistinct(Letters(g, input), LetterCount(input) as int, [], src);
    var digits := Phase(g.digits, input.digits as int, false, letters.value, letters.rest);
    PhaseDistinct(g.digits, input.digits as int, letters.value, letters.rest);
    PhaseDistinct(g.symbols, input.symbols as int, digits.value, digits.rest);
  }

  /** With pools that share no byte, the password holds exactly `chars` letters, `Digits`
      digits and `Symbols` symbols. */
  lemma GenerateCounts(g: Generator, input: Input, src: Source)
    requires Generation(g, input, src).Ok?
    requires Disjoint(Letters(g, input), g.digits) && Disjoint(Letters(g, input), g.symbols)
    requires Disjoint(g.digits, g.symbols)
    ensures Count(Generation(g, input, src).value, Letters(g, input)) == LetterCount(input) as int
    ensures Count(Generation(g, input, src).value, g.digits) == Max0(input.digits as int)
    ensures Count(Generation(g, input, src).value, g.symbols) == Max0(input.symbols as int)
  {
    var ar, chars := input.allowRepeat, LetterCount(input) as int;
    var letterPool := Letters(g, input);
    var letters := Phase(letterPool, chars, ar, [], src);
    var digits := Phase(g.digits, input.digits as int, ar, letters.value, letters.rest);
    var symbols := Phase(g.symbols, input.symbols as int, ar, digits.value, digits.rest);
    assert symbols == Generation(g, input, src);
    assert Disjoint(g.digits, letterPool) && Disjoint(g.symbols, letterPool) && Disjoint(g.symbols, g.digits);

    PhaseCounts(letterPool, chars, ar, [], src, letterPool);
    PhaseCounts(g.digits, input.digits as int, ar, letters.value, letters.rest, letterPool);
    PhaseCounts(g.symbols, input.symbols as int, ar, digits.value, digits.rest, letterPool);

    PhaseCounts(letterPool, chars, ar, [], src, g.digits);
    PhaseCounts(g.digits, input.digits as int, ar, letters.value, letters.rest, g.digits);
    PhaseCounts(g.symbols, input.symbols as int, ar, digits.value, digits.rest, g.digits);

    PhaseCounts(letterPool, chars, ar, [], src, g.symbols);
    PhaseCounts(g.digits, input.digits as int, ar, letters.value, letters.rest, g.symbols);
    PhaseCounts(g.symbols, input.symbols as int, ar, digits.value, digits.rest, g.symbols);
  }

  /** With repeats allowed, a letter count `chars` that is not negative and every pool that is
      asked for non-empty, a source that can give two values per password byte makes `Generate`
      succeed. */
  lemma GenerateSucceedsWithRepeats(g: Generator, input: Input, src: Source)
    requires input.allowRepeat && 0 <= LetterCount(input)
    requires 0 < LetterCount(input) ==> Letters(g, input) != []
    requires 0 < input.digits ==> g.digits != []
    requires 0 < input.symbols ==> g.symbols != []
    requires 2 * (LetterCount(input) as int + Max0(input.digits as int) + Max0(input.symbols as int)) <= |src|
    ensures Generation(g, input, src).Ok?
  {
    var letters := Phase(Letters(g, input), LetterCount(input) as int, true, [], src);
    PhaseSucceeds(Letters(g, input), LetterCount(input) as int, [], src);
    var digits := Phase(g.digits, input.digits as int, true, letters.value, letters.rest);
    PhaseSucceeds(g.digits, input.digits as int, letters.value, letters.rest);
    PhaseSucceeds(g.symbols, input.symbols as int, digits.value, digits.rest);
  }

  // ---------------------------------------------------------------------------------------
  // The generator's configuration

  /** Setting a pool to what it already holds changes nothing, and of two settings of the
      same pool the later one wins. */
  lemma BuildersOverwrite(g: Generator, p: ByteString, q: ByteString)
    ensures g.WithLowerLetters(g.lowerLetters) == g && g.WithUpperLetters(g.upperLetters) == g
    ensures g.WithDigits(g.digits) == g && g.WithSymbols(g.symbols) == g
    ensures g.WithLowerLetters(p).WithLowerLetters(q) == g.WithLowerLetters(q)
    ensures g.WithUpperLetters(p).WithUpperLetters(q) == g.WithUpperLetters(q)
    ensures g.WithDigits(p).WithDigits(q) == g.WithDigits(q)
    ensures g.WithSymbols(p).WithSymbols(q) == g.WithSymbols(q)
  {
  }

  /** The default pools: 26 lower-case letters, 26 upper-case letters, 10 digits and 30
      symbols, none of them with repeats. */
  lemma DefaultPoolSizes()
    ensures |LowerLetters| == 26 && |UpperLetters| == 26 && |Digits| == 10 && |Symbols| == 30
    ensures Distinct(LowerLetters) && Distinct(UpperLetters) && Distinct(Digits) && Distinct(Symbols)
  {
    IncreasingDistinct(LowerLetters);
    IncreasingDistinct(UpperLetters);
    IncreasingDistinct(Digits);
    SymbolsDistinct();
  }

  /** The 30 default symbols are pairwise different. */
  lemma SymbolsDistinct()
    ensures Distinct(Symbols)
  {
    forall i, j | 0 <= i < j < |Symbols|
      ensures Symbols[i] != Symbols[j]
    {
      assert Symbols == "~!@#$%^&*()_+`-={}|[]\\:\"<>?,./";
    }
  }

  /** No two default pools share a byte. */
  lemma DefaultPoolsDisjoint()
    ensures Disjoint(LowerLetters, UpperLetters) && Disjoint(LowerLetters, Digits)
    ensures Disjoint(LowerLetters, Symbols) && Disjoint(UpperLetters, Digits)
    ensures Disjoint(UpperLetters, Symbols) && Disjoint(Digits, Symbols)
  {
    assert InRange(LowerLetters, 'a', 'z');
    assert InRange(UpperLetters, 'A', 'Z');
    assert InRange(Digits, '0', '9');
    assert OutsideRange(UpperLetters, 'a', 'z') && OutsideRange(Digits, 'a', 'z');
    assert OutsideRange(Digits, 'A', 'Z');
    SymbolsOutsideRanges();
    RangesDisjoint(LowerLetters, UpperLetters, 'a', 'z');
    RangesDisjoint(LowerLetters, Digits, 'a', 'z');
    RangesDisjoint(LowerLetters, Symbols, 'a', 'z');
    RangesDisjoint(UpperLetters, Digits, 'A', 'Z');
    RangesDisjoint(UpperLetters, Symbols, 'A', 'Z');
    RangesDisjoint(Digits, Symbols, '0', '9');
  }

  lemma SymbolsOutsideRanges()
    ensures OutsideRange(Symbols, 'a', 'z') && OutsideRange(Symbols, 'A', 'Z') && OutsideRange(Symbols, '0', '9')
  {
    SymbolsOutside('a', 'z');
    SymbolsOutside('A', 'Z');
    SymbolsOutside('0', '9');
  }

  /** Each symbol lies below '0', between '9' and 'A', between 'Z' and 'a', or above 'z'. */
  lemma SymbolsOutside(lo: char, hi: char)
    requires (lo, hi) in {('a', 'z'), ('A', 'Z'), ('0', '9')}
    ensures OutsideRange(Symbols, lo, hi)
  {
    forall i | 0 <= i < |Symbols|
      ensures Symbols[i] < '0' || ('9' < Symbols[i] < 'A') || ('Z' < Symbols[i] < 'a') || 'z' < Symbols[i]
    {
    }
  }

  /** Every byte of `s` lies between `lo` and `hi`. */
  predicate InRange(s: ByteString, lo: char, hi: char) {
    forall i | 0 <= i < |s| :: lo <= s[i] <= hi
  }

  /** No byte of `s` lies between `lo` and `hi`. */
  predicate OutsideRange(s: ByteString, lo: char, hi: char) {
    forall i | 0 <= i < |s| :: s[i] < lo || hi < s[i]
  }

  lemma RangesDisjoint(a: ByteString, b: ByteString, lo: char, hi: char)
    requires InRange(a, lo, hi) && OutsideRange(b, lo, hi)
    ensures Disjoint(a, b) && Disjoint(b, a)
  {
  }

  lemma IncreasingDistinct(s: ByteString)
    requires forall i | 0 <= i < |s| - 1 :: s[i] < s[i + 1]
    ensures Distinct(s)
  {
    forall i, j | 0 <= i < j < |s|
      ensures s[i] < s[j]
    {
      var k := i + 1;
      while k < j
        invariant i < k <= j && s[i] < s[k]
      {
        k := k + 1;
      }
    }
  }

  // ---------------------------------------------------------------------------------------
  // The cases of password/generate_test.go

  /** Digits or symbols asked for with a total length of 0. */
  lemma DigitsOrSymbolsExceedLength(src: Source)
    ensures Generation(NewGenerator(), Input(0, 1, 0, false, false), src) == Err(ExceedsTotalLength)
    ensures Generation(NewGenerator(), Input(0, 0, 1, false, false), src) == Err(ExceedsTotalLength)
  {
  }

  /** The default pools cannot supply 1000 distinct letters, 11 distinct digits or 31
      distinct symbols. */
  lemma DefaultPoolsExhausted(src: Source)
    ensures Generation(NewGenerator(), Input(1000, 0, 0, false, false), src) == Err(LettersExceedsAvailable)
    ensures Generation(NewGenerator(), Input(52, 11, 0, false, false), src) == Err(DigitsExceedsAvailable)
    ensures Generation(NewGenerator(), Input(52, 0, 31, false, false), src) == Err(SymbolsExceedsAvailable)
  {
  }

  /** The empty input passes validation (digits plus symbols equal to the length is allowed)
      and gives the empty password without a draw. */
  lemma EmptyInput(src: Source)
    ensures Generation(NewGenerator(), Input(0, 0, 0, false, false), src) == Ok([], src)
  {
  }

  /** Lower-case only: with `noUpper` and no digits or symbols, every byte is a lower-case
      letter. */
  lemma LowercaseOnly(length: int64, allowRepeat: bool, src: Source)
    requires 0 <= length && Generation(NewGenerator(), Input(length, 0, 0, true, allowRepeat), src).Ok?
    ensures forall c :: c in Generation(NewGenerator(), Input(length, 0, 0, true, allowRepeat), src).value ==>
              c in LowerLetters
  {
    GenerateMembers(NewGenerator(), Input(length, 0, 0, true, allowRepeat), src);
  }

  /** 52 bytes with 10 digits and 30 symbols and no repeats: when it succeeds, the password
      has 52 distinct bytes: 12 letters, 10 digits and 30 symbols. */
  lemma NoRepeatsDefault(src: Source)
    requires Generation(NewGenerator(), Input(52, 10, 30, false, false), src).Ok?
    ensures var p := Generation(NewGenerator(), Input(52, 10, 30, false, false), src).value;
            |p| == 52 && Distinct(p)
            && Count(p, LowerLetters + UpperLetters) == 12 && Count(p, Digits) == 10 && Count(p, Symbols) == 30
  {
    var g, input := NewGenerator(), Input(52, 10, 30, false, false);
    DefaultPoolsDisjoint();
    assert Letters(g, input) == LowerLetters + UpperLetters;
    assert Disjoint(LowerLetters + UpperLetters, Digits);
    assert Disjoint(LowerLetters + UpperLetters, Symbols);
    GenerateLength(g, input, src);
    GenerateNoRepeats(g, input, src);
    GenerateCounts(g, input, src);
  }

  /** Custom pools of five bytes each: the password never holds 'f', 'F', '5' or '&'. */
  lemma CustomPoolsStayInside(src: Source)
    ensures var o := Generation(CustomGenerator(), Input(52, 10, 10, false, true), src);
            o.Ok? ==> 'f' !in o.value && 'F' !in o.value && '5' !in o.value && '&' !in o.value
  {
    var g, input := CustomGenerator(), Input(52, 10, 10, false, true);
    var o := Generation(g, input, src);
    if o.Ok? {
      GenerateMembers(g, input, src);
      assert Letters(g, input) == g.lowerLetters + g.upperLetters;
      CustomPoolsExclude(g);
    }
  }

  /** None of 'f', 'F', '5' and '&' is in a pool of the custom generator. */
  lemma CustomPoolsExclude(g: Generator)
    requires g == CustomGenerator()
    ensures forall c :: c in g.lowerLetters + g.upperLetters || c in g.digits || c in g.symbols ==>
              c != 'f' && c != 'F' && c != '5' && c != '&'
  {
    assert InRange(g.lowerLetters, 'a', 'e') && InRange(g.upperLetters, 'A', 'E');
    assert InRange(g.digits, '0', '4') && InRange(g.symbols, '!', '@');
    assert '&' !in g.symbols;
  }

  /** The generator of that test, built with the four `With*` builders. */
  function CustomGenerator(): (g: Generator)
    ensures g == Generator("abcde", "ABCDE", "01234", "!@#$%")
  {
    NewGenerator().WithLowerLetters("abcde").WithUpperLetters("ABCDE").WithSymbols("!@#$%").WithDigits("01234")
  }

  /** Negative counts are not rejected: a digit count of -1 with length 0 leaves one letter
      to place, so the password is one byte longer than `Length`. */
  lemma NegativeDigitsLengthen()
    ensures Generation(NewGenerator(), Input(0, -1, 0, false, true), [0]) == Ok("a", [])
  {
    var g, input := NewGenerator(), Input(0, -1, 0, false, true);
    assert LetterCount(input) == 1;
    RandomElementReachable(Letters(g, input), 0, []);
    assert Letters(g, input)[0] == 'a';
  }
}
