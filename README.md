# go-password: the constrained password generator, modelled in Dafny

This project models the generator of package `password` (password/generate.go). A
`Generator` holds four character pools: lower-case letters, upper-case letters, digits and
symbols. `NewGenerator` sets them to the defaults. Each `With*` builder returns a copy with
one pool replaced.

`Generate(Input)` works in four steps:

1. It builds the letter pool: lower letters, plus upper letters unless `NoUpper`.
2. It computes `chars = Length - Digits - Symbols`.
3. It checks the input in a fixed order: total length first, then (only when repeats are
   disallowed) letters, digits and symbols.
4. It fills the password in three loops: letters, then digits, then symbols. Each step draws
   one byte of a pool. This is the corrected pick of "## Findings": the source converts the
   drawn byte with `string(b)`, which gives two bytes for a byte of 0x80 or more. If repeats
   are disallowed and the byte is already present, it draws again without counting the step.
   Otherwise it splices the byte in at a random position.

Modelling choices:

- **Strings.** A Go string is a byte sequence, so `ByteString` is a `seq<byte>`. Each byte is
  written as the character with the same code, so ASCII literals read as themselves.
- **Integers.** `Input`'s counts are 64-bit `int64`. The subtraction at
  password/generate.go:126 wraps around as Go's does (`Password.Sub`).
- **Randomness.** Randomness is an injected oracle (module `CryptoRand`): a finite stream of
  values. A draw `rand.Int(rand.Reader, max)` takes the next value modulo `max`. An empty
  stream is a failure of the source, and a bound `<= 0` is the panic of `rand.Int`. Every
  index in range is reachable (`CryptoRand.EveryValueReachable`).
- **Termination.** Every rejected draw uses up a value of the stream, so the rejection loops
  terminate without any restriction on the pools.
- **Spec and code.** `Password.Phase` and `Password.Generation` are the specification
  functions. `Password.FillPhase` is the loop and `Password.Generator.Generate` is the
  method, and each is proved equal to its specification function. The properties are
  lemmas about those functions, in module `PasswordProperties`.

Facts the model makes explicit:

- **Equality is allowed.** `Digits + Symbols == Length` passes the length check, despite the
  wording of `ErrExceedsTotalLength`.
- **Negative counts are not rejected.** The loops skip them, but `chars` grows. So
  `Input{Length: 0, Digits: -1, AllowRepeat: true}` gives a one-byte password
  (`PasswordProperties.NegativeDigitsLengthen`). In general the length is
  `chars + max(Digits, 0) + max(Symbols, 0)`.
- **Empty pool panics.** An empty pool that has to be drawn from with repeats allowed makes
  `rand.Int` panic. The model reports this as the outcome `NonPositiveMaxPanic`.
- **30 symbols.** The default symbol constant at password/generate.go:32 holds 30
  characters, and the test that expects 31 symbols to fail agrees with it.

## Model

| member | source | states |
|---|---|---|
| CryptoRand.Int | password/generate.go:231 | `rand.Int(rand.Reader, max)`: panics exactly when `max <= 0`; otherwise fails when the source is exhausted, or gives a value below `max` and consumes one value (the `max == 1` case is under Left out) |
| CryptoRand.EveryValueReachable | password/generate.go:241 | every value in `[0, max)` is the outcome of some source |
| Password.NewGenerator | password/generate.go:75-82 | the four pools are the default constants |
| Password.Generator.WithLowerLetters | password/generate.go:86-89 | the copy has the new lower-case pool and the other three pools of the receiver |
| Password.Generator.WithUpperLetters | password/generate.go:93-96 | the copy has the new upper-case pool and the other three pools of the receiver |
| Password.Generator.WithDigits | password/generate.go:100-103 | the copy has the new digit pool and the other three pools of the receiver |
| Password.Generator.WithSymbols | password/generate.go:107-110 | the copy has the new symbol pool and the other three pools of the receiver |
| Password.Letters | password/generate.go:121-124 | the letter pool is the lower-case pool, followed by the upper-case pool unless `NoUpper` |
| Password.Wrap | password/generate.go:126 | two's complement wrap: exact inside the `int64` range; a value up to 2^64 past either end comes back shifted by 2^64 |
| Password.Sub | password/generate.go:126 | Go's `int64` subtraction: exact when the difference fits |
| Password.LetterCount | password/generate.go:126 | `chars` equals `Length - Digits - Symbols` whenever that fits in `int64` |
| Password.Validate | password/generate.go:126-141 | each validation error fires exactly under its condition and only after the earlier checks pass; no error exactly when all checks pass |
| Password.Contains | password/generate.go:152 | `strings.Contains(result, ch)`, defined as a prefix of `s` or contained in `s` without its first byte; `ContainsOccurrence` proves it means an occurrence at some position |
| Password.RandomInsert | password/generate.go:226-237 | an empty string gives `val` with no draw; otherwise it fails only on an exhausted source, and on success the result is `s[:i] + val + s[i:]` for some `0 <= i <= len(s)` with one value consumed |
| Password.RandomElement | password/generate.go:240-246 | panics exactly on an empty pool; otherwise fails when the source is exhausted, and on success gives one byte that belongs to the pool and consumes one value |
| Password.EncodeRune | password/generate.go:245 | Go's `string(b)`: one byte below 0x80, otherwise the two-byte UTF-8 sequence whose payload bits are `b` |
| Password.RandomElementAsWritten | password/generate.go:240-246 | the source's pick: the UTF-8 encoding of some pool byte; panics exactly on an empty pool, otherwise fails when the source is exhausted |
| Password.Phase | password/generate.go:146-161 | a successful fill loop grows the password by exactly `max(todo, 0)` bytes and never lengthens the source |
| Password.Generation | password/generate.go:120-200 | the specification of `Generate`: a success has passed validation and never lengthens the source; its properties are the `Generate*` lemmas below |
| Password.FillPhase | password/generate.go:164-179 | the counted loop with `i--` on a rejected draw computes exactly `Phase`, including its early error returns |
| Password.Generator.Generate | password/generate.go:120-200 | `Generate` returns exactly `Generation`: the validation errors, then the three fill loops |
| Password.Generator.MustGenerate | password/generate.go:203-209 | callable only where `Generate` succeeds, and returns its password |
| Password.Generate | password/generate.go:212-214 | the package shortcut returns what `NewGenerator().Generate` returns |
| Password.MustGenerate | password/generate.go:217-223 | the package shortcut returns what `NewGenerator().MustGenerate` returns, under the same condition |
| PasswordProperties.ContainsOccurrence | password/generate.go:152 | `strings.Contains(s, sub)` holds exactly when `sub` starts at some position of `s` |
| PasswordProperties.ContainsByte | password/generate.go:152 | `strings.Contains` with a one-byte string is membership of that byte |
| PasswordProperties.Spliced | password/generate.go:236 | splicing adds exactly the bytes of `val` (as a multiset), and cutting them out gives back `s` |
| PasswordProperties.SplicedCount | password/generate.go:236 | splicing adds the bytes of `val` to the count of any pool |
| PasswordProperties.SplicedMembers | password/generate.go:236 | every byte of the spliced string comes from `s` or from `val` |
| PasswordProperties.RandomInsertInverse | password/generate.go:226-237 | the result is `len(s) + len(val)` long, holds `val` at some position `i <= len(s)`, and removing it gives back `s` |
| PasswordProperties.RandomInsertReachable | password/generate.go:231-236 | every insertion position in `[0, len(s)]` is the outcome of some source |
| PasswordProperties.RandomElementReachable | password/generate.go:241-245 | every byte of a non-empty pool is the outcome of some source |
| PasswordProperties.AsWrittenAgreesOnAscii | password/generate.go:245 | on ASCII pools the source's `string(s[n])` equals the one-byte pick the model uses |
| PasswordProperties.AsWrittenWidensHighByte | password/generate.go:245 | for the pool of the bytes of "é", the source's pick gives two bytes, one not in the pool; the corrected pick gives one pool byte |
| PasswordProperties.PhaseMembers | password/generate.go:146-161 | every byte added by a loop belongs to its pool, and a loop with a count `<= 0` adds nothing |
| PasswordProperties.PhaseDistinct | password/generate.go:152-155 | with repeats disallowed, a loop keeps the password free of repeated bytes |
| PasswordProperties.PhaseCounts | password/generate.go:146-161 | a loop adds `max(todo, 0)` bytes of any superset of its pool and none of a pool disjoint from it |
| PasswordProperties.PhaseErrors | password/generate.go:147-160 | a loop fails only with a source error or the panic, and panics exactly when it has work and its pool is empty |
| PasswordProperties.PhaseSucceeds | password/generate.go:146-161 | with repeats allowed and a non-empty pool, a source holding two values per step makes the loop succeed and consume at most that many |
| PasswordProperties.ValidationPrecedesDraws | password/generate.go:126-141 | a validation error is returned whatever the random source holds, so it is decided before any draw |
| PasswordProperties.GenerationErrors | password/generate.go:120-200 | a validation error is returned only when the checks report it; every other error comes from the random source |
| PasswordProperties.ExceedsTotalLengthExactly | password/generate.go:126-129 | without overflow, `ErrExceedsTotalLength` is returned if and only if `Digits + Symbols > Length` |
| PasswordProperties.GenerationPanics | password/generate.go:241 | a panic happens only with repeats allowed and an empty pool whose count is positive |
| PasswordProperties.GenerateLength | password/generate.go:143-199 | the password has `chars + max(Digits,0) + max(Symbols,0)` bytes, which is `Length` for non-negative counts without overflow |
| PasswordProperties.GenerateMembers | password/generate.go:121-197 | every byte is from the letter pool, the digits or the symbols, and only from a pool with a positive count |
| PasswordProperties.GenerateNoUpper | password/generate.go:121-124 | with `NoUpper` every byte is a lower-case letter, digit or symbol, so no byte of a disjoint upper-case pool appears |
| PasswordProperties.GenerateNoRepeats | password/generate.go:152-191 | with repeats disallowed no byte occurs twice in the password |
| PasswordProperties.GenerateCounts | password/generate.go:143-199 | with disjoint pools the password holds exactly `chars` letters, `max(Digits,0)` digits and `max(Symbols,0)` symbols, which is `Digits` digits and `Symbols` symbols for non-negative counts |
| PasswordProperties.GenerateSucceedsWithRepeats | password/generate.go:143-199 | with repeats allowed, `chars >= 0` and every pool that is asked for non-empty, a source of `2 * (chars + max(Digits,0) + max(Symbols,0))` values makes `Generate` succeed, which is `2 * Length` values for non-negative counts without overflow |
| PasswordProperties.BuildersOverwrite | password/generate.go:84-110 | setting a pool to its own value changes nothing; of two settings of one pool the later wins |
| PasswordProperties.DefaultPoolSizes | password/generate.go:21-33 | the defaults hold 26, 26, 10 and 30 bytes, and no pool has repeats |
| PasswordProperties.DefaultPoolsDisjoint | password/generate.go:21-33 | no two default pools share a byte |
| PasswordProperties.DigitsOrSymbolsExceedLength | password/generate_test.go:30-44 | `Input{Digits: 1}` and `Input{Symbols: 1}` give `ErrExceedsTotalLength` |
| PasswordProperties.DefaultPoolsExhausted | password/generate_test.go:46-76 | with the defaults and no repeats, 1000 letters, 11 digits or 31 symbols give the letters, digits or symbols error |
| PasswordProperties.EmptyInput | password/generate.go:126-143 | the empty input passes validation and gives the empty password without a draw |
| PasswordProperties.LowercaseOnly | password/generate_test.go:78-95 | with `NoUpper` and no digits or symbols every byte is a lower-case letter |
| PasswordProperties.NoRepeatsDefault | password/generate_test.go:113-130 | 52 bytes with 10 digits and 30 symbols: 52 distinct bytes, 12 letters, 10 digits, 30 symbols |
| PasswordProperties.CustomGenerator | password/generate_test.go:146-150 | the builder chain yields the generator with exactly the four custom pools |
| PasswordProperties.CustomPoolsStayInside | password/generate_test.go:152-178 | with five-byte custom pools the password never holds `f`, `F`, `5` or `&` |
| PasswordProperties.NegativeDigitsLengthen | password/generate.go:126-164 | `Length 0, Digits -1` passes validation and gives a password of one byte |

## Left out

- crypto/rand: the entropy source's algorithm is not modelled. A draw is the next stream value modulo the bound, so the distribution of draws and every uniformity claim are out of scope. This includes the test that 1000 letters contain an upper-case one (password/generate_test.go:97-111).
- Non-termination: in Go a rejection loop can run forever. This happens when a pool has repeated bytes, when pools overlap, or with unlucky draws. In the model the finite source ends such a run with `RandomIntFailed` when it runs out.
- Success with repeats disallowed: it depends on the draws, so it is not proved. Success is proved only for repeats allowed (`GenerateSucceedsWithRepeats`).
- CryptoRand.Int: Go's `rand.Int` with `max == 1` returns 0 without reading the source, so it can neither fail nor consume a value. The model draws there as for any other bound, so it can fail on an exhausted source and it consumes one value. Modelling it as Go does would make a one-byte pool whose byte is already present spin forever without reading, which the finite-source termination argument cannot express.
- Password.RandomElement: for a one-byte pool it inherits that difference from `CryptoRand.Int`. It can fail on an exhausted source, where Go's `randomElement` always succeeds.
- Password.RandomElementAsWritten: the same one-byte-pool difference as `Password.RandomElement`.
- Password.Generator.Generate: the three loops at password/generate.go:146-161, 164-179 and 182-197 differ only in pool and count. They are modelled by one method, `FillPhase`, called three times.
- Password.Generator.MustGenerate: the Go panic on an error is modelled as a precondition. The panic itself is not modelled.
- Go `int` on 32-bit platforms: only the 64-bit width is modelled.
- Concurrency: the remarks on concurrent use (password/generate.go:10, 119) concern no logic. Generators are values here.
- Cost: the quadratic cost of repeated string splicing is not modelled.
- Doc examples: password/password_doc_test.go is not part of this model.

## Findings

| source | as written | input that shows it | evidently intended | confidence | as-written member | corrected member |
|---|---|---|---|---|---|---|
| password/generate.go:245 | `string(s[n])` converts the picked byte as an integer, giving the UTF-8 encoding of code point `s[n]`. This is two bytes for any byte `>= 0x80`. | `randomElement("é")`, the pool of the two bytes 0xC3 0xA9, drawing index 0, gives the bytes 0xC3 0x83: two bytes where one was meant, and 0x83 is not in the pool. A letter loop built on it would add two bytes per step; that consequence at the level of `Generate` is not modelled. | The pick is one byte of the pool, `s[n:n+1]`. This is identical on ASCII pools (`AsWrittenAgreesOnAscii`). | high; not executed | `Password.RandomElementAsWritten`, shown by `PasswordProperties.AsWrittenWidensHighByte` | `Password.RandomElement`, used by `Password.Phase` and `Password.FillPhase` |
