# Filter-expression grammar

A model of the static `Grammar` class of SprachePlayground. This parser reads filter expressions such as

    a.b.c = 'xxx' OR '0' = c.d.e AND a.b.c = 2.123

It displays what it reads as a nested call string:

    Or(Eq(DrillDown(DrillDown(a, b), c), xxx), And(...))

The class has these rules:

- **NumberConst**: decimal text.
- **StringConst**: single-quoted text without escapes.
- **Locator**: a run of letters.
- **Four operator tokens**: `.` (DrillDown), `=` (Eq), `AND` (And), `OR` (Or).
- **Operand**: a parenthesised Term, a number, a string or a path, tried in that order.
- **Four chains**, each built with `Parse.ChainOperator`, which makes them left-associative:
  - Path: locators joined by `.`.
  - Condition: operands joined by `=`.
  - InnerTerm: conditions joined by `AND`.
  - Term: inner terms joined by `OR`.

Every token skips the whitespace around it.

The model has six modules:

- **`Chars`**: character classes, and the runs of a class that `.Many()` and `.AtLeastOnce()` consume.
- **`Syntax`**: the values the rules build.
  - An `Expr` tree (`Num`, `Str`, `Loc`, `Group`, `Apply`).
  - `Show`, which produces the same display string as the grammar's `Apply` formatter.
  - Predicates describing the tree shape each chain can build (`IsChain`), together with precedence lemmas about those shapes.
- **`Grammar`**: the rules.
  - Each rule is a function from the input and a position to `Success(value, next position)` or `Failure`.
  - `Chain(op, …)` is `Parse.ChainOperator`, written once and instantiated for `.`, `=`, `AND` and `OR`.
  - Each rule's contract states the shape of what it built, and that it moved forward.
- **`Spelling`**: what text the chains read.
  - `SpellEnd` says when a stretch of the input spells an expression: its tokens in order, with any whitespace (or none) between tokens, provided no token runs on into the next.
  - Each chain reads spelled text as exactly its expression (`ChainReads`).
  - Whatever a chain returns was read from text that spells it (`ChainSpells`).
  - Over a whole input the two directions give an if-and-only-if (`ChainReadsExactly`). This is the statement about what was consumed that the rules' own contracts leave open.
- **`RoundTrip`**: canonical text.
  - `Print` writes any tree as canonical filter text, and that text spells the tree.
  - So each chain reads the printed tree back, with any whitespace before and after it, and Term reads back its own output. This pins down precedence and left-associativity.
- **`Examples`**: the grammar's own examples, plus a few inputs with unusual spacing or a dangling operator. Each one states the returned tree, the end position and, where the grammar's examples give one, the display string.

## Model

| member | source | states |
|---|---|---|
| Grammar.Decimal | SprachePlayground/SimpleGrammarTests.cs:82 | A success reads a non-empty decimal text (digits with at most one `.`, ending in a digit) that is exactly the consumed slice, and that cannot be extended by a further digit or fraction |
| Grammar.DecimalReads | SprachePlayground/SimpleGrammarTests.cs:82 | Conversely, any maximal decimal text at a position is exactly what the decimal rule returns, with the position after it |
| Grammar.Quoted | SprachePlayground/SimpleGrammarTests.cs:84-86 | A success means the input holds `'`, the returned text and `'` at that position; the text contains no quote |
| Grammar.QuotedReads | SprachePlayground/SimpleGrammarTests.cs:84-86 | Any quote-free text between two quotes is read back as that text, ending after the closing quote |
| Grammar.QuotedUnterminated | SprachePlayground/SimpleGrammarTests.cs:84-86 | An opening quote never followed by another quote is not a string literal: the rule fails |
| Grammar.Letters | SprachePlayground/SimpleGrammarTests.cs:89 | A success is a non-empty run of letters equal to the consumed slice and not followed by a letter |
| Grammar.LettersReads | SprachePlayground/SimpleGrammarTests.cs:89 | Any maximal run of letters is exactly what the rule returns |
| Grammar.NumberConst | SprachePlayground/SimpleGrammarTests.cs:82 | The decimal text found after the leading whitespace is returned unchanged, and trailing whitespace is consumed |
| Grammar.StringConst | SprachePlayground/SimpleGrammarTests.cs:83-87 | The text between the quotes is returned, it holds no quote, and the whitespace on both sides is consumed |
| Grammar.Locator | SprachePlayground/SimpleGrammarTests.cs:89 | A maximal run of letters after the leading whitespace is returned, and the trailing whitespace is consumed |
| Grammar.Operator | SprachePlayground/SimpleGrammarTests.cs:91 | Succeeds exactly when the operator text follows the whitespace. It then returns that operator's tag and consumes at least one character |
| Grammar.Grouped | SprachePlayground/SimpleGrammarTests.cs:103-108 | A success starts at `(` after whitespace and holds a Term-shaped tree |
| Grammar.Operand | SprachePlayground/SimpleGrammarTests.cs:101-112 | A success is a grouped Term, a decimal, a quote-free string or a path. Which one is decided by the first non-blank character, and input is consumed |
| Grammar.ChainOperand | SprachePlayground/SimpleGrammarTests.cs:99-116 | Each chain's operand rule returns a tree of that level's operand shape: Locator for Path, Operand for Condition, Condition for InnerTerm, InnerTerm for Term |
| Grammar.Chain | SprachePlayground/SimpleGrammarTests.cs:99-116 | `ChainOperator` succeeds exactly when its first operand does. The tree is a left spine of that operator whose bottom-left leaf is the first operand, and whose right children are operands of the level |
| Grammar.ChainRest | SprachePlayground/SimpleGrammarTests.cs:99-116 | The repetition never fails. It only extends the running result leftward-nested and keeps the chain shape |
| Grammar.Path | SprachePlayground/SimpleGrammarTests.cs:99 | Path builds a left-nested DrillDown chain of locators |
| Grammar.Condition | SprachePlayground/SimpleGrammarTests.cs:114 | Condition builds a left-nested Eq chain of operands |
| Grammar.InnerTerm | SprachePlayground/SimpleGrammarTests.cs:115 | InnerTerm builds a left-nested And chain of conditions |
| Grammar.Term | SprachePlayground/SimpleGrammarTests.cs:116 | Term builds a left-nested Or chain of inner terms |
| Grammar.Token | SprachePlayground/SimpleGrammarTests.cs:82-91 | `.Token()` keeps the item and its success or failure. It consumes all the whitespace after the item and nothing else: every skipped character is whitespace and the next one is not |
| Syntax.OpText | SprachePlayground/SimpleGrammarTests.cs:94-97 | Each operator's text is non-empty and holds no whitespace |
| Syntax.OpsDistinct | SprachePlayground/SimpleGrammarTests.cs:94-97 | Two different operators have different tag names, and neither's text begins with the other's |
| Syntax.ApplyTextParts | SprachePlayground/SimpleGrammarTests.cs:92 | A displayed node is the tag, `(`, the left operand, `, `, the right operand and `)`, each at a known position, so both operands can be cut back out |
| Syntax.Ungroup | SprachePlayground/SimpleGrammarTests.cs:103-108 | Dropping every parenthesis leaves a tree without any, and leaves a tree that has none unchanged |
| Syntax.ShowIgnoresGroups | SprachePlayground/SimpleGrammarTests.cs:103-108 | The display string is the same with or without the parentheses written in the input, as the grouped alternative returns the inner Term's string |
| Syntax.ChainTop | SprachePlayground/SimpleGrammarTests.cs:94-97 | Precedence: the top operator of anything a chain builds binds at least as tightly as that chain's operator (OR < AND < `=` < `.`) |
| Syntax.OperandTop | SprachePlayground/SimpleGrammarTests.cs:99-116 | An operand of a chain has a top operator that binds strictly tighter than the chain's operator |
| Spelling.OperatorAfterWhiteSpace | SprachePlayground/SimpleGrammarTests.cs:91 | Leading whitespace before an operator token makes no difference to how it is read |
| Spelling.FollowsNoOperator | SprachePlayground/SimpleGrammarTests.cs:91-97 | If no operator binding at least as tightly as a level is written at the first non-blank character after a point, then every operator token of that level or tighter fails there, so the chain stops |
| Spelling.OperatorAfterLeft | SprachePlayground/SimpleGrammarTests.cs:91-97 | Given a left part whose last token is not extended by the character after it, an operator written after the whitespace that follows is read as a token up to the whitespace after it, and no tighter operator is written there |
| Spelling.ChainStarts | SprachePlayground/SimpleGrammarTests.cs:99-116 | `ChainOperator` reads its first operand and then enters the repetition with it as the running result |
| Spelling.ChainRestFolds | SprachePlayground/SimpleGrammarTests.cs:99-116 | Reading `op operand` after a left part continues the fold with `Apply(op, left, operand)` |
| Spelling.ChainRestStops | SprachePlayground/SimpleGrammarTests.cs:99-116 | Where no operator follows, or an operator follows but no operand after it, the fold ends with the running result at the current position and the operator is left unread |
| Spelling.ChainReads | SprachePlayground/SimpleGrammarTests.cs:99-116 | Any chain-shaped tree spelled in the input, with any whitespace between its tokens, is read by that chain as exactly that tree, ending after the trailing whitespace. Premise: the character after its last token does not extend that token, and no operator of that level or tighter is written at the next non-blank character (a word such as `Apple`, which only begins like `AND`, is no operator) |
| Spelling.SubReads | SprachePlayground/SimpleGrammarTests.cs:99-116 | The same for each chain's operand rule and a tree of that level's operand shape, with the same premise one strength tighter: no operator binding more tightly than the level is written next |
| Spelling.OperandAlternatives | SprachePlayground/SimpleGrammarTests.cs:101-112 | When the first non-blank character is one that a given kind of operand starts with, every alternative Operand tries before that kind fails |
| Spelling.OperandReads | SprachePlayground/SimpleGrammarTests.cs:101-112 | Any operand-shaped tree spelled in the input is read by Operand as exactly that tree, provided the character after its last token does not extend that token and no `.` is written at the next non-blank character (otherwise Operand reads on: `a` in `a.b` gives the whole path, `1` in `12` the whole number) |
| Spelling.GroupedReads | SprachePlayground/SimpleGrammarTests.cs:103-108 | A spelled parenthesised Term, with any whitespace inside the parentheses, is read back as a Group of exactly that Term |
| Spelling.ChainSpells | SprachePlayground/SimpleGrammarTests.cs:99-116 | Whatever a chain returns on any input was spelled there: past the leading whitespace come the tokens of the result in order, its last token ends, and the trailing whitespace reaches the returned position |
| Spelling.ChainOperandSpells | SprachePlayground/SimpleGrammarTests.cs:99-116 | The same for each chain's operand rule |
| Spelling.OperandSpells | SprachePlayground/SimpleGrammarTests.cs:101-112 | The same for Operand |
| Spelling.GroupedSpells | SprachePlayground/SimpleGrammarTests.cs:103-108 | The same for the parenthesised alternative: `(`, a spelled Term and `)` |
| Spelling.ChainReadsExactly | SprachePlayground/SimpleGrammarTests.cs:99-116 | A chain reads a whole input as a tree exactly when the input spells that tree, with any whitespace before, between and after its tokens |
| RoundTrip.ChainPrintSpells | SprachePlayground/SimpleGrammarTests.cs:99-116 | The canonical text of any chain-shaped tree spells that tree, ending where the text ends |
| RoundTrip.NumberConstTrims | SprachePlayground/SimpleGrammarTests.cs:82 | A decimal text with any whitespace on both sides is read as the bare text, and the whole input is consumed |
| RoundTrip.StringConstTrims | SprachePlayground/SimpleGrammarTests.cs:83-87 | A quoted text with any whitespace on both sides is read as the text between the quotes, and the whole input is consumed |
| RoundTrip.LocatorTrims | SprachePlayground/SimpleGrammarTests.cs:89 | A name with any whitespace on both sides is read as the bare name, and the whole input is consumed |
| RoundTrip.ChainReadsPadded | SprachePlayground/SimpleGrammarTests.cs:99-116 | The canonical text of any chain-shaped tree, with any whitespace before and after it, is read by the chain as that tree, consuming everything |
| RoundTrip.TermReadsItsOwnOutput | SprachePlayground/SimpleGrammarTests.cs:116 | Whatever Term returns on any input, printed canonically and parsed again, gives the same tree |
| Examples.NumberConstWhole | SprachePlayground/SimpleGrammarTests.cs:10 | `123` reads as `123`, consuming all 3 characters |
| Examples.NumberConstFraction | SprachePlayground/SimpleGrammarTests.cs:11 | `123.123` reads as `123.123` |
| Examples.NumberConstPadded | SprachePlayground/SimpleGrammarTests.cs:12 | ` 123.123 ` reads as the trimmed `123.123` |
| Examples.StringConstBare | SprachePlayground/SimpleGrammarTests.cs:21 | `'123'` reads as `123` |
| Examples.StringConstPadded | SprachePlayground/SimpleGrammarTests.cs:22 | ` '123' ` reads as `123` |
| Examples.PathSingle | SprachePlayground/SimpleGrammarTests.cs:31 | `parent` reads as the locator `parent` and displays as `parent` |
| Examples.PathDrillDown | SprachePlayground/SimpleGrammarTests.cs:32 | `parent.child` reads as one DrillDown node over the two locators and displays as `DrillDown(parent, child)` |
| Examples.PathSpaced | SprachePlayground/SimpleGrammarTests.cs:89-99 | ` a . b ` reads as one DrillDown node: whitespace around `.` is skipped as around any token |
| Examples.ConditionPadded | SprachePlayground/SimpleGrammarTests.cs:41 | ` 1 = 2 ` reads as one Eq node over the two numbers and displays as `Eq(1, 2)` |
| Examples.ConditionDangling | SprachePlayground/SimpleGrammarTests.cs:114 | `1 = ` reads as the number `1`, stopping before the `=`, which no operand follows; this is not a failure |
| Examples.InnerTermDangling | SprachePlayground/SimpleGrammarTests.cs:115 | `1 = 2 AND` reads as the condition `Eq(1, 2)`, stopping before the dangling `AND` |
| Examples.InnerTermBeforeWord | SprachePlayground/SimpleGrammarTests.cs:115 | `1 = 2 Apple` reads as the condition `Eq(1, 2)`, stopping before `Apple`: a word that only begins like `AND` is no operator |
| Examples.InnerTermAnd | SprachePlayground/SimpleGrammarTests.cs:50 | ` 1 = 2 AND 3 = 4` reads as an And node over two Eq nodes and displays as `And(Eq(1, 2), Eq(3, 4))` |
| Examples.TermOr | SprachePlayground/SimpleGrammarTests.cs:59 | ` 1 = 2 OR 3 = 4` reads as an Or node over two Eq nodes and displays as `Or(Eq(1, 2), Eq(3, 4))` |
| Examples.TermAndBeforeOr | SprachePlayground/SimpleGrammarTests.cs:60 | `AND` binds tighter than a following `OR`: the input reads as Or over an And node and an Eq node, and displays as exactly the test's `Or(And(Eq(0, 1), Eq(1, 2)), Eq(3, 4))` |
| Examples.TermAndAfterOr | SprachePlayground/SimpleGrammarTests.cs:61 | `AND` binds tighter than a preceding `OR`: the input reads as Or over an Eq node and an And node, and displays as exactly the test's `Or(Eq(3, 4), And(Eq(0, 1), Eq(1, 2)))` |
| Examples.TermMixed | SprachePlayground/SimpleGrammarTests.cs:62 | The mixed path, string and number input reads as the full nested tree and displays as the nested DrillDown/Eq/And/Or string of the example |
| Examples.TermParenthesised | SprachePlayground/SimpleGrammarTests.cs:71 | Parentheses override precedence: ` (1 = 2 OR 3 = 4) AND 5=6` reads as an And node over a Group and an Eq node, and displays as exactly the test's `And(Or(Eq(1, 2), Eq(3, 4)), Eq(5, 6))` |

## Left out

- Character classes are limited to ASCII. Whitespace, letters and digits outside ASCII, which .NET's `char.IsWhiteSpace`, `char.IsLetter` and `char.IsNumber` accept, are not modelled.
- Failures carry no error message, expectation list or position. The `.Named("expression")` label, `.Or`'s merging of the best error and the `ParseException` thrown by `Parse` are not modelled: a failure is only `Failure`.
- The rules do not require the input to be used up: a rule that stops before the end of the input succeeds, and trailing text is not an error. Each example states where its rule ends.
- A dangling operator is not an error either. When an operator token is read but no operand follows it, `Parse.ChainOperator` backtracks over the operator and returns what it has, as in `1 = ` (Examples.ConditionDangling).
- NumberConst accepts no sign: `Parse.DecimalInvariant` reads digits with an optional `.` fraction, or a `.` fraction alone (`.5`), so a leading `-` or `+` is not part of a number.
- Culture handling is left out: the decimal separator is always `.`, as with the invariant culture.
- The Sprache library itself is not part of this model, and the cited files do not record its version. The model follows the library behaviour of `Parse.ChainOperator`, which backtracks over an operator that no operand follows, and of `Parse.DecimalInvariant`, whose fraction is optional only as a whole, so the number rule fails on `12.` rather than reading `12`.
- `AND` and `OR` are matched as plain text with no word boundary, as `Parse.String` does. `1 = 2 ANDx = 3` therefore reads as an `And` condition. No keyword reservation is modelled because the code has none.
- `Print` (canonical filter text) and `SpellEnd` (what text spells an expression) are definitions of this model, not of the grammar. `SpellEnd` is the partner against which the chains are proved in both directions, and `Print` is one text that satisfies it.
- Grammar.Path, Grammar.Condition, Grammar.InnerTerm and Grammar.Term: their own contracts state only the shape of the tree and that input was consumed. What text they consumed is stated by Spelling.ChainSpells and Spelling.ChainReadsExactly.
- `Group` marks a parenthesised operand in the tree. `Show` erases it, as the grammar's display string drops the parentheses.
- Examples.TermMixed: states the display string as nested `ApplyText` calls (the grammar's `Apply` formatter) down to the operand texts, rather than as the test's literal.
- `Parse.Ref`'s lazy reference from Operand back to Term is modelled as direct mutual recursion.
