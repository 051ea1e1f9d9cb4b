/** The password generator of package `password` (password/generate.go).

    A `Generator` holds four character pools. `Generate` validates an `Input`, then fills the
    password in three phases (letters, digits, symbols): each step draws one byte of a pool
    and, unless repeats are disallowed and the byte is already present, splices it into the
    password at a random position. Randomness comes from the oracle of module CryptoRand. */
module Password {
  import opened CryptoRand

  /** A byte of a Go string, written as the character with the same code, so that ASCII
      literals read as themselves. */
  type byte = c: char | c as int < 0x100 witness 'a'

  /** A Go `string`: a sequence of bytes (`len` counts bytes, `s[i]` is a byte). */
  type ByteString = seq<byte>

  /** Go's `int` on a 64-bit platform. */
  newtype int64 = x: int | -0x8000_0000_0000_0000 <= x < 0x8000_0000_0000_0000

  const LowerLetters: ByteString := "abcdefghijklmnopqrstuvwxyz"
  const UpperLetters: ByteString := "ABCDEFGHIJKLMNOPQRSTUVWXYZ"
  const Digits: ByteString := "0123456789"
  const Symbols: ByteString := "~!@#$%^&*()_+`-={}|[]\\:\"<>?,./"

  datatype Option<T> = None | Some(value: T)

  /** The errors `Generate` returns. The last one is not an error value of the source but a
      panic inside `rand.Int`, which the model reports as an outcome. */
  datatype Error =
    | ExceedsTotalLength
    | LettersExceedsAvailable
    | DigitsExceedsAvailable
    | SymbolsExceedsAvailable
      /** "failed to generate random integer": the random source could not be read */
    | RandomIntFailed
      /** `rand.Int` panics when asked for a value below a bound `<= 0` (an empty pool) */
    | NonPositiveMaxPanic

  /** A value together with what is left of the random source, or an error. On an error Go
      returns the empty string, so no partial password exists. */
  datatype Outcome<T> = Ok(value: T, rest: Source) | Err(error: Error)

  /** The parameters of one `Generate` call. */
  datatype Input = Input(length: int64, digits: int64, symbols: int64, noUpper: bool, allowRepeat: bool)

  /** A generator is a value: every `With*` builder returns a copy and leaves the receiver as
      it was. */
  datatype Generator = Generator(lowerLetters: ByteString, upperLetters: ByteString,
                                 digits: ByteString, symbols: ByteString)
  {
    function WithLowerLetters(pool: ByteString): (g: Generator)
      ensures g.lowerLetters == pool
      ensures g.upperLetters == upperLetters && g.digits == digits && g.symbols == symbols
    {
      this.(lowerLetters := pool)
    }

    function WithUpperLetters(pool: ByteString): (g: Generator)
      ensures g.upperLetters == pool
      ensures g.lowerLetters == lowerLetters && g.digits == digits && g.symbols == symbols
    {
      this.(upperLetters := pool)
    }

    function WithDigits(pool: ByteString): (g: Generator)
      ensures g.digits == pool
      ensures g.lowerLetters == lowerLetters && g.upperLetters == upperLetters && g.symbols == symbols
    {
      this.(digits := pool)
    }

    function WithSymbols(pool: ByteString): (g: Generator)
      ensures g.symbols == pool
      ensures g.lowerLetters == lowerLetters && g.upperLetters == upperLetters && g.digits == digits
    {
      this.(symbols := pool)
    }

    /** `Generator.Generate`: validation in the source's order, then the three fill loops. */
    method Generate(input: Input, src: Source) returns (r: Outcome<ByteString>)
      ensures r == Generation(this, input, src)
    {
      var letters := lowerLetters;
      if !input.noUpper {
        letters := letters + upperLetters;
      }

      var chars := Sub(Sub(input.length, input.digits), input.symbols);
      if chars < 0 {
        return Err(ExceedsTotalLength);
      }
      if !input.allowRepeat && chars as int > |letters| {
        return Err(LettersExceedsAvailable);
      }
      if !input.allowRepeat && input.digits as int > |digits| {
        return Err(DigitsExceedsAvailable);
      }
      if !input.allowRepeat && input.symbols as int > |symbols| {
        return Err(SymbolsExceedsAvailable);
      }

      r := FillPhase(letters, chars as int, input.allowRepeat, [], src);
      if r.Err? {
        return;
      }
      r := FillPhase(digits, input.digits as int, input.allowRepeat, r.value, r.rest);
      if r.Err? {
        return;
      }
      r := FillPhase(symbols, input.symbols as int, input.allowRepeat, r.value, r.rest);
    }

    /** `Generator.MustGenerate`: a panic of Go is a call Dafny does not allow, so the caller
        must know that `Generate` succeeds. */
    method MustGenerate(input: Input, src: Source) returns (password: ByteString, rest: Source)
      requires Generation(this, input, src).Ok?
      ensures Generation(this, input, src) == Ok(password, rest)
    {
      var r := Generate(input, src);
      password, rest := r.value, r.rest;
    }
  }

  /** `NewGenerator`: the default pools. */
  function NewGenerator(): (g: Generator)
    ensures g.lowerLetters == LowerLetters && g.upperLetters == UpperLetters
    ensures g.digits == Digits && g.symbols == Symbols
  {
    Generator(LowerLetters, UpperLetters, Digits, Symbols)
  }

  /** The package-level `Generate` shortcut. */
  method Generate(input: Input, src: Source) returns (r: Outcome<ByteString>)
    ensures r == Generation(NewGenerator(), input, src)
  {
    r := NewGenerator().Generate(input, src);
  }

  /** The package-level `MustGenerate` shortcut. */
  method MustGenerate(input: Input, src: Source) returns (password: ByteString, rest: Source)
    requires Generation(NewGenerator(), input, src).Ok?
    ensures Generation(NewGenerator(), input, src) == Ok(password, rest)
  {
    password, rest := NewGenerator().MustGenerate(input, src);
  }

  // ---------------------------------------------------------------------------------------
  // 64-bit integer arithmetic

  const TwoTo64: int := 0x1_0000_0000_0000_0000

  predicate InInt64(x: int) {
    -0x8000_0000_0000_0000 <= x < 0x8000_0000_0000_0000
  }

  /** Two's complement wrap-around of a mathematical integer into `int64`: add or subtract
      2^64 until the value is in range. */
  function Wrap(x: int): (w: int64)
    ensures InInt64(x) ==> w as int == x
    ensures 0x8000_0000_0000_0000 <= x < 0x8000_0000_0000_0000 + TwoTo64 ==> w as int == x - TwoTo64
    ensures -0x8000_0000_0000_0000 - TwoTo64 <= x < -0x8000_0000_0000_0000 ==> w as int == x + TwoTo64
    decreases if x < 0 then -x else x + 1
  {
    if x < -0x8000_0000_0000_0000 then Wrap(x + TwoTo64)
    else if 0x8000_0000_0000_0000 <= x then Wrap(x - TwoTo64)
    else x as int64
  }

  /** Go's `a - b` on `int`: the difference, wrapped once when it leaves the range. */
  function Sub(a: int64, b: int64): (d: int64)
    ensures InInt64(a as int - b as int) ==> d as int == a as int - b as int
    ensures !InInt64(a as int - b as int) ==>
              d as int == a as int - b as int + (if a < b then TwoTo64 else -TwoTo64)
  {
    Wrap(a as int - b as int)
  }

  // ---------------------------------------------------------------------------------------
  // Validation

  /** The letter pool: lower letters, plus upper letters unless `noUpper`. */
  function Letters(g: Generator, input: Input): (letters: ByteString)
    ensures input.noUpper ==> letters == g.lowerLetters
    ensures !input.noUpper ==> letters == g.lowerLetters + g.upperLetters
  {
    if input.noUpper then g.lowerLetters else g.lowerLetters + g.upperLetters
  }

  /** `chars := Length - Digits - Symbols`, evaluated left to right in `int64`. */
  function LetterCount(input: Input): (chars: int64)
    ensures InInt64(input.length as int - input.digits as int - input.symbols as int) ==>
              chars as int == input.length as int - input.digits as int - input.symbols as int
  {
    Sub(Sub(input.length, input.digits), input.symbols)
  }

  /** The checks `Generate` makes before any random draw, in the source's order: the total
      length first, then, only when repeats are disallowed, letters, digits and symbols. */
  function Validate(g: Generator, input: Input): (e: Option<Error>)
    ensures e == Some(ExceedsTotalLength) <==> LetterCount(input) < 0
    ensures e == Some(LettersExceedsAvailable) <==>
              0 <= LetterCount(input) && !input.allowRepeat && LetterCount(input) as int > |Letters(g, input)|
    ensures e == Some(DigitsExceedsAvailable) <==>
              0 <= LetterCount(input) && !input.allowRepeat && LetterCount(input) as int <= |Letters(g, input)|
              && input.digits as int > |g.digits|
    ensures e == Some(SymbolsExceedsAvailable) <==>
              0 <= LetterCount(input) && !input.allowRepeat && LetterCount(input) as int <= |Letters(g, input)|
              && input.digits as int <= |g.digits| && input.symbols as int > |g.symbols|
    ensures e == None <==>
              0 <= LetterCount(input) && (input.allowRepeat ||
                (LetterCount(input) as int <= |Letters(g, input)| && input.digits as int <= |g.digits|
                 && input.symbols as int <= |g.symbols|))
  {
    var letters := Letters(g, input);
    var chars := LetterCount(input);
    if chars < 0 then Some(ExceedsTotalLength)
    else if !input.allowRepeat && chars as int > |letters| then Some(LettersExceedsAvailable)
    else if !input.allowRepeat && input.digits as int > |g.digits| then Some(DigitsExceedsAvailable)
    else if !input.allowRepeat && input.symbols as int > |g.symbols| then Some(SymbolsExceedsAvailable)
    else None
  }

  // ---------------------------------------------------------------------------------------
  // Random helpers

  /** `strings.Contains`: `sub` occurs in `s` as a contiguous part. */
  predicate Contains(s: ByteString, sub: ByteString)
    decreases |s|
  {
    sub <= s || (s != [] && Contains(s[1..], sub))
  }

  /** `randomInsert(s, val)`: `val` spliced into `s` at a drawn position in `[0, len(s)]`;
      an empty `s` gives `val` without a draw. */
  function RandomInsert(s: ByteString, val: ByteString, src: Source): (o: Outcome<ByteString>)
    ensures s == [] ==> o == Ok(val, src)
    ensures o.Err? <==> s != [] && src == []
    ensures o.Err? ==> o.error == RandomIntFailed
    ensures o.Ok? && s != [] ==> o.rest == src[1..]
    ensures o.Ok? ==> exists i | 0 <= i <= |s| :: o.value == s[..i] + val + s[i..]
  {
    if s == [] then
      assert val == s[..0] + val + s[0..];
      Ok(val, src)
    else
      match Int(src, |s| + 1)
      case Value(i, rest) =>
        assert s[..i] + val + s[i..] == s[..i] + val + s[i..];
        Ok(s[..i] + val + s[i..], rest)
      case _ => Err(RandomIntFailed)
  }

  /** `randomElement(s)` as this model has it: the one-byte string `s[n:n+1]` for a drawn
      index `n` in `[0, len(s))`. The source converts the byte with `string(s[n])` instead
      (see `RandomElementAsWritten`); the two agree on every ASCII pool. */
  function RandomElement(s: ByteString, src: Source): (o: Outcome<ByteString>)
    ensures s == [] <==> o == Err(NonPositiveMaxPanic)
    ensures s != [] && src == [] <==> o == Err(RandomIntFailed)
    ensures o.Ok? ==> |o.value| == 1 && o.value[0] in s && src != [] && o.rest == src[1..]
  {
    match Int(src, |s|)
    case NonPositiveMax => Err(NonPositiveMaxPanic)
    case ReadError => Err(RandomIntFailed)
    case Value(n, rest) => Ok(s[n..n + 1], rest)
  }

  /** Go's conversion `string(b)` of an integer: the UTF-8 encoding of the code point `b`.
      Code points below 0x80 take one byte, the others two. */
  function EncodeRune(b: byte): (r: ByteString)
    ensures b as int < 0x80 ==> r == [b]
    ensures 0x80 <= b as int ==> |r| == 2 && 0xC0 <= r[0] as int && 0x80 <= r[1] as int < 0xC0
    ensures 0x80 <= b as int ==> (r[0] as int - 0xC0) * 0x40 + (r[1] as int - 0x80) == b as int
  {
    if b as int < 0x80 then [b]
    else [(0xC0 + b as int / 0x40) as char, (0x80 + b as int % 0x40) as char]
  }

  /** `randomElement(s)` exactly as password/generate.go writes it: `string(s[n])`. */
  function RandomElementAsWritten(s: ByteString, src: Source): (o: Outcome<ByteString>)
    ensures s == [] <==> o == Err(NonPositiveMaxPanic)
    ensures s != [] && src == [] <==> o == Err(RandomIntFailed)
    ensures o.Ok? ==> exists n | 0 <= n < |s| :: o.value == EncodeRune(s[n])
  {
    match Int(src, |s|)
    case NonPositiveMax => Err(NonPositiveMaxPanic)
    case ReadError => Err(RandomIntFailed)
    case Value(n, rest) => Ok(EncodeRune(s[n]), rest)
  }

  // ---------------------------------------------------------------------------------------
  // Generation

  function Max0(x: int): nat {
    if x < 0 then 0 else x
  }

  /** One fill loop of `Generate` with `todo` bytes still to add to `result`: draw a byte of
      `pool`; when repeats are disallowed and it already occurs, draw again without counting
      (the source's `i--; continue`); otherwise splice it in at a random position. */
  function Phase(pool: ByteString, todo: int, allowRepeat: bool, result: ByteString, src: Source)
    : (o: Outcome<ByteString>)
    ensures o.Ok? ==> |o.value| == |result| + Max0(todo) && |o.rest| <= |src|
    decreases |src|
  {
    if todo <= 0 then Ok(result, src)
    else
      match RandomElement(pool, src)
      case Err(e) => Err(e)
      case Ok(ch, afterPick) =>
        if !allowRepeat && Contains(result, ch) then
          Phase(pool, todo, allowRepeat, result, afterPick)
        else
          match RandomInsert(result, ch, afterPick)
          case Err(e) => Err(e)
          case Ok(grown, afterInsert) => Phase(pool, todo - 1, allowRepeat, grown, afterInsert)
  }

  /** What `Generator.Generate` returns: a validation error before any draw, or the result of
      the letter, digit and symbol phases run one after the other. */
  function Generation(g: Generator, input: Input, src: Source): (o: Outcome<ByteString>)
    ensures o.Ok? ==> Validate(g, input) == None && |o.rest| <= |src|
  {
    match Validate(g, input)
    case Some(e) => Err(e)
    case None =>
      match Phase(Letters(g, input), LetterCount(input) as int, input.allowRepeat, [], src)
      case Err(e) => Err(e)
      case Ok(withLetters, afterLetters) =>
        match Phase(g.digits, input.digits as int, input.allowRepeat, withLetters, afterLetters)
        case Err(e) => Err(e)
        case Ok(withDigits, afterDigits) =>
          Phase(g.symbols, input.symbols as int, input.allowRepeat, withDigits, afterDigits)
  }

  /** One step of `Phase` with something left to do, as the loop below takes it. */
  lemma PhaseStep(pool: ByteString, todo: int, allowRepeat: bool, result: ByteString, src: Source)
    requires 0 < todo
    ensures var picked := RandomElement(pool, src);
            Phase(pool, todo, allowRepeat, result, src) ==
              if picked.Err? then Err(picked.error)
              else if !allowRepeat && Contains(result, picked.value) then Phase(pool, todo, allowRepeat, result, picked.rest)
              else
                var inserted := RandomInsert(result, picked.value, picked.rest);
                if inserted.Err? then Err(inserted.error)
                else Phase(pool, todo - 1, allowRepeat, inserted.value, inserted.rest)
  {
  }

  /** One of the three counted `for` loops of `Generate` (they differ only in pool and count):
      the loop variable goes back by one on a rejected draw. */
  method FillPhase(pool: ByteString, count: int, allowRepeat: bool, result0: ByteString, src0: Source)
    returns (o: Outcome<ByteString>)
    ensures o == Phase(pool, count, allowRepeat, result0, src0)
  {
    var result, src := result0, src0;
    var i := 0;
    ghost var goal := Phase(pool, count, allowRepeat, result0, src0);
    while i < count
      invariant 0 <= i <= Max0(count)
      invariant Phase(pool, count - i, allowRepeat, result, src) == goal
      decreases |src|
    {
      PhaseStep(pool, count - i, allowRepeat, result, src);
      var picked := RandomElement(pool, src);
      if picked.Err? {
        return Err(picked.error);
      }
      var ch := picked.value;
      if !allowRepeat && Contains(result, ch) {
        src := picked.rest;
        i := i - 1;
      } else {
        var inserted := RandomInsert(result, ch, picked.rest);
        if inserted.Err? {
          return Err(inserted.error);
        }
        result, src := inserted.value, inserted.rest;
      }
      i := i + 1;
    }
    return Ok(result, src);
  }
}
