# oxy-python lexer, modelled in Dafny

This project models the scanner of the oxy-python front end (`lex` in
`src/parser/lexer.rs`) together with its data types: `Location`, `Token` with
`is_type`, `TokenType` and `LexError`.

`lex` makes one left-to-right pass over the characters of its input. It keeps a
token vector and a column counter, and a line counter that never changes. Each
of `+`, `-`, `*` and `/` appends a one-character token (`Plus`, `Minus`, `Star`,
`Slash`) and bumps the column counter. Any other character ends the scan at once
with `UnexpectedToken(c, loc, loc)`, and the tokens gathered so far are dropped.
The token kinds `StarStar`, `Name`, `If`, `Else`, `Indent` and `Dedent` and the
error `UnexpectedEndOfFile` exist but are never produced. Spaces are not skipped.
A `*` followed by `*` gives two `Star` tokens.

`TokenType` declares `StarStar` ("Two Stars in a row", `src/parser/lexer.rs`
lines 47-48), `Name`, `If` and `Else`. The scanning code (lines 112-132)
produces none of them, skips no spaces and never looks a character ahead. The
model follows the code.

**Transposed locations.** `Location::new` takes `(line, column)`, but every
call in `lex` passes `(column, line)`. So the stored `line` field holds the
running column counter, and the stored `column` field is always 1. The model
keeps this exactly as written, and the contracts state it. For example, the
token for the character at index `i` has `start == end == Location(i + 1, 1)`.

Layout:

- `lexer.dfy`, module `Lexer`: the data types; `KindOf`, the arms of the
  dispatch; `PushTok`, the token that the `push_tok!` macro builds; `Scan` and
  `LexSpec`, a recursive functional specification of the scan; and `Lex`, the
  imperative scanner. `Lex` is a `while` loop over an index into the input,
  with the mutable `result`, `column` and `line` variables, the
  `maybe_c`-style cursor and the early `return Err`. Its loop invariants tie it
  to `Scan`, and its postcondition is `r == LexSpec(s)`.
- `lexer_properties.dfy`, module `LexerProperties`: lemmas about `Scan` and
  `LexSpec`. They cover success exactly on operator-only text, the position and
  kind of each token, the first rejected character and its location, shifting
  and concatenation, the `**` case, the source's unit test and `is_type`.

## Model

| member | source | states |
|---|---|---|
| `Lexer.NewLocation` | src/parser/lexer.rs:13-16 | the first argument is stored as `line`, the second as `column` |
| `Lexer.IsType` | src/parser/lexer.rs:30-35 | true exactly when the token equals the same token with kind `other`; false means no choice of locations makes the token have kind `other` |
| `Lexer.PushTok` | src/parser/lexer.rs:99-110 | the token `push_tok!` appends. Its start is `Location::new(column, line)`, so `start.line == column` and `start.column == line`. Its end is `Location::new(column + span - 1, line)`. Its kind is the one given |
| `Lexer.Scan` | src/parser/lexer.rs:112-134 | the functional scan with counters starting at `column`/`line`. On success there is one token per input character. On failure the error is `UnexpectedToken` for a character outside `+-*/`, with start equal to end and `column` field equal to `line` |
| `Lexer.KindOf` | src/parser/lexer.rs:115-126 | `+`, `-`, `*`, `/` map to `Plus`, `Minus`, `Star`, `Slash` (each in both directions); every other character is rejected |
| `Lexer.Lex` | src/parser/lexer.rs:84-135 | the imperative scan returns exactly `LexSpec(s)`. The loop invariants say that after `i` characters `column == i + 1`, `line == 1`, `result` holds exactly the `i` tokens `PushTok(kind of s[k], 1, k + 1, 1)` for the first `i` characters (all operators), and those tokens followed by the scan of the rest give the whole result |
| `LexerProperties.FirstRejected` | src/parser/lexer.rs:112-126 | on text with a non-operator, the index of the first character the scan rejects; every character before it is an operator |
| `LexerProperties.ScanOperators` | src/parser/lexer.rs:99-119 | with counters `column`/`line`, operator-only text scans to `Ok` with one token per character in order. The token at index i has kind `KindOf(s[i])` and `start == end == Location(column + i, line)` (transposed fields) |
| `LexerProperties.ScanRejects` | src/parser/lexer.rs:120-126 | text with a non-operator scans to `Err(UnexpectedToken(s[j], L, L))`, where `j` is the first rejected index and `L == Location(column + j, line)`; no tokens are returned |
| `LexerProperties.ScanShift` | src/parser/lexer.rs:99-103 | starting the column counter `n` later moves every reported location `n` on and changes nothing else |
| `LexerProperties.ScanAppend` | src/parser/lexer.rs:112-134 | scanning `a + b` is scanning `a`, then `b` with the column counter `|a|` further on; the first error wins |
| `LexerProperties.LexEmpty` | src/parser/lexer.rs:86-89 | empty input gives `Ok` of no tokens |
| `LexerProperties.LexSucceedsIff` | src/parser/lexer.rs:112-134 | `lex` succeeds if and only if every character is one of `+`, `-`, `*`, `/` |
| `LexerProperties.LexTokens` | src/parser/lexer.rs:99-119 | on operator-only text, token i is `Token(Location(i + 1, 1), Location(i + 1, 1), kind of s[i])`, one per character, in input order |
| `LexerProperties.LexError` | src/parser/lexer.rs:120-126 | otherwise the result is `Err(UnexpectedToken(s[j], Location(j + 1, 1), Location(j + 1, 1)))`, where `j` is the first rejected index |
| `LexerProperties.LexProducesOnlyOperators` | src/parser/lexer.rs:115-126 | every produced token is `Plus`, `Minus`, `Star` or `Slash`, never `StarStar`, `Name`, `If`, `Else`, `Indent` or `Dedent`; every error is `UnexpectedToken` |
| `LexerProperties.LexStarStar` | src/parser/lexer.rs:118 | `"**"` gives two `Star` tokens at column counters 1 and 2, not one `StarStar` |
| `LexerProperties.LexOneToken` | src/parser/lexer.rs:179-186 | each of `"+"`, `"-"`, `"*"`, `"/"` gives exactly one token, and `is_type` holds of it for the matching kind |
| `LexerProperties.LexConcat` | src/parser/lexer.rs:112-134 | `lex(a + b)` succeeds iff `lex(a)` and `lex(b)` both do. Its tokens are then those of `a`, followed by those of `b` shifted `|a|` columns. Otherwise its error is that of `a`, or, when `a` succeeds, that of `b` shifted `|a|` columns |
| `LexerProperties.IsTypeExactlyOwnKind` | src/parser/lexer.rs:32-34 | `is_type` holds of the token's own kind and of no other |
| `LexerProperties.IsTypeComparesNameText` | src/parser/lexer.rs:37-54 | two `Name` kinds with different text are different kinds for `is_type` (derived structural equality) |

## Left out

- `src/bin.rs`: the interactive prompt built on an external line-editing crate. It reads terminal lines, loads and saves a history file and prints; it never calls `lex`. All of it is I/O.
- The `u64` width of the counters: `column` and `line` are `nat`, so overflow after 2^64 characters is not modelled.
- Rust's `chars()` decoding of UTF-8 into Unicode scalar values: the input is taken to be already a `seq<char>`.
- The unused local `p` (line 87) is left out. It has no effect.
- `#[derive(Debug)]` formatting and the test macros `print_diff!` and `lex_test!` (lines 141-177): they only print and panic. The test's assertions are the lemma `LexOneToken`.
- Iterator mechanics: the `Chars` iterator is modelled as an index `i` into the input, with `maybeC` equal to the character at `i` when there is one. The four `push_tok!(kind, 1)` expansions are written once, after the match arm picks the kind.
