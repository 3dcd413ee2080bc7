# plox in Dafny

plox is a tree-walking interpreter for a small Lox-like language. A program
goes through four stages:

1. the **scanner** turns the source text into tokens;
2. the recursive-descent **parser** builds expression and statement trees;
3. the **resolver**, a static pass, records each variable's lexical depth and
   reports scoping mistakes;
4. the **interpreter** evaluates the trees over a chain of environments, with
   classes, bound methods, closures and anonymous functions.

Diagnostics from every stage go to one error sink. A small **AST printer**
renders expressions as parenthesised text.

This project models those stages. Each one keeps its form in the source:
the scanner, parser, resolver, environments and interpreter are classes whose
methods update fields, while the printer and the value rules are functions.

| module (file) | models |
|---|---|
| `Tokens` (tokens.dfy) | token kinds, tokens with their positions, literals, the keyword table |
| `Errors` (errors.dfy) | the error sink: an appended diagnostics log, a had-error flag and a had-runtime-error flag |
| `Scan` (scanner.dfy) | the scanner as a cursor class, specified by a pure step function `Step` and a whole-scan function `ScanFrom` |
| `Syntax` (syntax.dfy) | expression and statement trees, and the precedence shape (`Shaped`, `Level`) that the parser produces |
| `Grammar` (grammar.dfy) | the grammar as functions of the token list, a position and the log: each production's tree or failure, the position after it and the log after it |
| `GrammarReports` (grammar_facts.dfy) | every failed production reported an error, and every `Missing` slot was reported |
| `GrammarShapes` (grammar_shapes.dfy) | every parsed expression is well shaped at its production's rung of the precedence ladder |
| `GrammarCases` (grammar_cases.dfy) | what particular token sequences parse to: primaries, `super`, groupings, `for` loops, assignment targets, left grouping and right nesting |
| `Parse` (parser.dfy) | the parser as a cursor class over a token list that ends with EOF; each method is proved to follow its `Grammar` production exactly |
| `AstPrint` (ast_printer.dfy) | the AST printer |
| `Resolve` (resolver.dfy) | the resolver as a class holding a stack of scopes |
| `Environment` (environment.dfy) | environments as heap objects chained by `enclosing` |
| `Objects` (objects.dfy) | runtime values, functions, anonymous functions, classes and instances |
| `Semantics` (semantics.dfy) | truthiness, equality, `echo` text, and the operator and call-check rules |
| `Interp` (interpreter.dfy) | the interpreter class, its evaluation and execution methods, and the built-in `time` and `print` |

A Python exception is modelled as a result value:

- `Parsed.Failed` is a parse error;
- `Outcome.Thrown` is a plox runtime error, which `interpret` catches and reports;
- `Outcome.Crashed` is a host error that nothing catches, such as a builtin
  `RuntimeError`, an `IndexError` or a `ZeroDivisionError`;
- `Completion.Returned` is a `return`.

Float formatting and float arithmetic are parameters of the interpreter:

- `numberText` is the host's `str` of a float;
- `arithmetic` is the host's `+ - * / %` on floats.

The model states how their results are used, not what they are. The wall
clock is also a parameter, `clock`.

## Model

| member | source | states |
|---|---|---|
| Tokens.IdentifierKind | src/scanner.py:164-172 | a word scans to a keyword kind only when that keyword is spelled as the word, else to IDENTIFIER |
| Tokens.IdentifierKindSpelling | src/scanner.py:15-32 | a word gets a keyword's kind exactly when it is in the keyword table, and that keyword is spelled as the word |
| Tokens.SpellingIsKeyword | src/scanner.py:15-32 | every keyword kind is spelled by a table entry that maps back to the same kind |
| Errors.ErrorLog.constructor | src/errors/error.py:6-7 | the sink starts with an empty log and both flags clear |
| Errors.ErrorLog.ScannerError | src/errors/error.py:11-15 | appends one scan diagnostic at the given position and sets the error flag |
| Errors.ErrorLog.ParseError | src/errors/error.py:17-21 | appends one error at the token and sets the error flag |
| Errors.ErrorLog.ResolverError | src/errors/error.py:23-26 | appends one warning at the token and leaves both flags unchanged |
| Errors.ErrorLog.RuntimeError | src/errors/error.py:28-37 | appends one runtime error at the token and sets only the runtime-error flag |
| Scan.DigitsEnd | src/scanner.py:175-176 | the end of a maximal run of digits: every character before it is a digit and the one at it is not |
| Scan.AlnumEnd | src/scanner.py:165-166 | the end of a maximal run of letters and digits; `_` is neither, as for the host's `isalpha` and `isdigit` |
| Scan.LineEnd | src/scanner.py:119-121 | a line comment stops at the first newline or at the end of the input, without consuming the newline |
| Scan.QuoteStop | src/scanner.py:187-196 | a single-quoted string's body stops at the first quote, newline or `;` |
| Scan.MultilineWalk | src/scanner.py:213-217 | a double-quoted body stops at the first `"` or the end, and the line number never decreases |
| Scan.MultilineWalkLines | src/scanner.py:214-216 | inside a double-quoted string the line grows by the number of newlines passed, and the line start is the offset of the last of them |
| Scan.CommentWalkLines | src/scanner.py:122-132 | inside a block comment the line grows by the number of newlines passed, and the line start is the offset of the last of them |
| Scan.DotIndex | src/scanner.py:178-184 | the position of the first `.` of a number lexeme |
| Scan.OperatorKind | src/scanner.py:52-117 | an operator character gives a non-EOF kind of width 1 or 2, and width 2 only when there is a next character |
| Scan.OperatorKindGreedy | src/scanner.py:70-117 | a pair in the two-character table gives that pair's kind with width 2; any other pair gives the first character's one-character kind |
| Scan.OperatorsGreedy | src/scanner.py:70-136 | at an operator pair the step emits the two-character token; with no pair it emits the one-character token |
| Scan.StepFacts | src/scanner.py:49-156 | one scan step emits at most one token, never EOF. The token is the exact source slice and its column is its offset minus the line start. The cursor moves forward unless the step crashes |
| Scan.IdentifierStep | src/scanner.py:164-172 | an identifier step emits the maximal word, with the keyword's kind when the word is in the table and IDENTIFIER otherwise |
| Scan.LayoutStep | src/scanner.py:118-141 | whitespace, newlines and `//` comments emit nothing. A newline increments the line and sets the line start to the offset after it. A `//` comment stops before the newline |
| Scan.StringStep | src/scanner.py:186-210 | a single-quoted string emits a STRING token whose literal is the text strictly between the quotes exactly when a closing quote comes first. Otherwise it reports one error and emits nothing |
| Scan.ScanEndsWithEof | src/scanner.py:34-47 | a scan that does not crash returns tokens whose last token is an EOF token at the end of the source and whose other tokens are not EOF |
| Scan.ScanTokensSliced | src/scanner.py:272-288 | every token of a scan is its exact source slice, and every non-EOF token's column is its offset minus its line start |
| Scan.ScanFromStep | src/scanner.py:34-47 | a whole scan is one step followed by the scan of the rest |
| Scan.Scanner.constructor | src/scanner.py:8-14 | a scanner starts at offset 0 on line 1 with no tokens |
| Scan.Scanner.IsAtEnd | src/scanner.py:264-265 | past the last character, where both lookaheads give NUL |
| Scan.Scanner.Peek | src/scanner.py:242-245 | the current character, or `'\0'` at the end |
| Scan.Scanner.PeekNext | src/scanner.py:247-250 | the character after the current one, or `'\0'` past the end |
| Scan.Scanner.Match | src/scanner.py:233-240 | advances by exactly one exactly when not at the end and the current character is the expected one |
| Scan.Scanner.Advance | src/scanner.py:267-270 | returns the current character and moves by one; at the end it reports that it could not |
| Scan.Scanner.AddToken | src/scanner.py:272-288 | appends one token built from the slice `start..current` at the current line |
| Scan.Scanner.Identifier | src/scanner.py:164-172 | consumes the maximal word and appends it with its keyword or IDENTIFIER kind |
| Scan.Scanner.Digits | src/scanner.py:175-176 | consumes the maximal run of digits |
| Scan.Scanner.Number | src/scanner.py:174-184 | consumes digits, an optional fraction, and appends a NUMBER token whose literal is the lexeme's exact decimal value |
| Scan.Scanner.String | src/scanner.py:186-210 | reaches the state the string step function gives, its tokens and its reports |
| Scan.Scanner.MultilineString | src/scanner.py:212-231 | reaches the state the double-quoted-string step function gives, its tokens, reports and line counting |
| Scan.Scanner.BlockComment | src/scanner.py:122-132 | reaches the block-comment step function's position and line; it fails exactly when that function crashes |
| Scan.Scanner.LineComment | src/scanner.py:119-121 | moves to the end of the line |
| Scan.Scanner.Operator | src/scanner.py:52-117 | emits the token `OperatorKind` gives, of that width |
| Scan.Scanner.ShortOperator | src/scanner.py:70-97 | for `*`, `!` and `=`, emits the token `OperatorKind` gives, of that width |
| Scan.Scanner.SignOperator | src/scanner.py:74-89 | for `+` and `-`, emits the token `OperatorKind` gives, of that width |
| Scan.Scanner.AngleOperator | src/scanner.py:98-117 | for `<`, `>` and `:`, emits the token `OperatorKind` gives, of that width |
| Scan.Scanner.Slash | src/scanner.py:118-136 | reaches the state of the slash step function: a comment, `/=` or `/` |
| Scan.Scanner.ScanToken | src/scanner.py:49-156 | reaches the state `Step` gives, with its tokens and reports; it fails exactly when `Step` crashes |
| Scan.Scanner.ScanStep | src/scanner.py:34-47 | one loop round: the whole scan from here is this round's output followed by the scan from the new position |
| Scan.Scanner.ScanTokens | src/scanner.py:34-47 | returns exactly the tokens of `ScanFrom` and appends exactly its reports; it fails exactly when that scan crashes |
| Syntax.TernaryShaped | src/parser.py:202-218 | a ternary over operands at ternary level or tighter is well shaped |
| Syntax.BinaryShaped | src/parser.py:240-308 | a binary node whose left side binds at least as tightly and whose right side binds strictly more tightly is well shaped at its operator's level |
| Syntax.LogicalShaped | src/parser.py:220-238 | the same for `or` and `and` nodes |
| Syntax.LeftAssociative | src/parser.py:240-308 | in a well-shaped binary or logical node, the right operand binds strictly more tightly, the left at least as tightly, and neither is an assignment or a ternary |
| Syntax.ChainGroupsLeft | src/parser.py:280-288 | `a - b - c` has only the left-grouped tree as a well-shaped form |
| Grammar.OperatorsAt | src/parser.py:220-308 | each rung's operators sit at that rung of the precedence ladder, and EOF is none of them |
| Grammar.ForLoop | src/parser.py:100-113 | `for` becomes `While`, inside a `Block` after the initializer when there is one. The condition defaults to `true`. The increment is appended to the body in a `Block` |
| Grammar.AssignTo | src/parser.py:192-198 | an assignment target gives a tree exactly when it is a variable, which gives `Assign`, or a property access, which gives `Set` |
| Grammar.PreviousAt | src/parser.py:439-440 | before any token is consumed, the previous token is the list's last one, EOF |
| Grammar.ConsumeAt | src/parser.py:417-421 | succeeds exactly when the next token has the kind, returning it one step on with no report; otherwise it stays put and reports the message at the previous token |
| Grammar.SkipFrom | src/parser.py:449-473 | the first sync point (EOF, after a `;`, before a statement keyword) at or after the position, and none before it |
| Grammar.SyncFrom | src/parser.py:446-473 | at EOF recovery stays; otherwise it passes at least one token and stops at the first sync point after the start |
| Grammar.ProgramFrom | src/parser.py:16-21 | a program always parses, and stops at EOF |
| Grammar.DeclarationAt | src/parser.py:23-35 | a declaration never fails, since a failure becomes `Missing`, and it moves on unless at EOF |
| Grammar.DeclaredAt | src/parser.py:25-32 | a class, function or variable declaration chosen by its keyword, or else a statement, consumes tokens when it parses and is never `Missing` |
| Grammar.ClassDeclarationAt | src/parser.py:37-54 | a class that parses consumed tokens and is a class statement |
| Grammar.SuperclassAt | src/parser.py:40-44 | a superclass is present exactly when `<` comes next, and it is the identifier after the `<` |
| Grammar.MethodsFrom | src/parser.py:48-50 | the methods stop in front of `}` or at EOF |
| Grammar.ParametersAt | src/parser.py:155-165 | with `)` next there are no parameters, no move and no report |
| Grammar.ParametersFrom | src/parser.py:157-165 | the parameter list never moves back |
| Grammar.FunctionAt | src/parser.py:151-171 | a function that parses consumed tokens |
| Grammar.VarDeclarationAt | src/parser.py:56-64 | a variable declaration that parses consumed tokens and is a `Var` |
| Grammar.StatementAt | src/parser.py:66-80 | a statement that parses consumed tokens and is never `Missing` |
| Grammar.ForStatementAt | src/parser.py:82-113 | a `for` loop that parses consumed tokens and is never `Missing` |
| Grammar.ForInitializerAt | src/parser.py:83-89 | a present initializer is never `Missing` |
| Grammar.OptionalExpressionAt | src/parser.py:91-98 | an optional expression never moves back |
| Grammar.IfAt | src/parser.py:115-124 | an `if` that parses consumed tokens and is an `If` |
| Grammar.EchoAt | src/parser.py:126-129 | an `echo` that parses consumed tokens and is an `Echo` |
| Grammar.ReturnAt | src/parser.py:131-138 | a `return` that parses consumed tokens and is a `Return` |
| Grammar.WhileAt | src/parser.py:140-144 | a `while` that parses consumed tokens and is a `While` |
| Grammar.ExpressionStatementAt | src/parser.py:146-149 | an expression statement that parses consumed tokens and is an `Expression` |
| Grammar.BlockAt | src/parser.py:173-180 | a block that parses consumed tokens |
| Grammar.BlockFrom | src/parser.py:174-180 | the rest of a block that parses consumed tokens |
| Grammar.ExpressionAt | src/parser.py:182-183 | an expression that parses consumed tokens |
| Grammar.AssignmentAt | src/parser.py:185-200 | an assignment that parses consumed tokens |
| Grammar.TernaryAt | src/parser.py:202-218 | a ternary that parses consumed tokens |
| Grammar.TernaryFrom | src/parser.py:205-216 | the `?` parts never move back |
| Grammar.ChainAt | src/parser.py:220-308 | an operand chain that parses consumed tokens |
| Grammar.ChainFrom | src/parser.py:223-306 | the operators of a chain never move back |
| Grammar.UnaryAt | src/parser.py:310-316 | a unary expression that parses consumed tokens |
| Grammar.IncrementAt | src/parser.py:318-329 | a step expression that parses consumed tokens |
| Grammar.CallAt | src/parser.py:331-345 | a call chain that parses consumed tokens |
| Grammar.CallFrom | src/parser.py:334-343 | the suffixes never move back |
| Grammar.FinishCallAt | src/parser.py:347-357 | a call that parses consumed tokens and is a call on the given callee |
| Grammar.ArgumentsAt | src/parser.py:348-355 | the argument list never moves back |
| Grammar.ArgumentsFrom | src/parser.py:350-355 | the argument list never moves back |
| Grammar.AnonymAt | src/parser.py:359-381 | an anonymous function or primary that parses consumed tokens |
| Grammar.PrimaryAt | src/parser.py:383-408 | a primary that parses consumed tokens |
| GrammarReports.ProgramReports | src/parser.py:16-21 | the log only grows, and a program holding `Missing` reported at least one error |
| GrammarReports.DeclarationReports | src/parser.py:23-35 | a `Missing` declaration reported an error, and recovery left the cursor at EOF or at a sync point |
| GrammarReports.DeclaredReports | src/parser.py:25-32 | the log only grows, and a failed declaration reported at least one error |
| GrammarReports.ClassDeclarationReports | src/parser.py:37-54 | the log only grows, and a failed parse of a class declaration reported at least one error |
| GrammarReports.SuperclassReports | src/parser.py:40-44 | the log only grows, and a failed parse of a superclass clause reported at least one error |
| GrammarReports.MethodsReports | src/parser.py:48-50 | the log only grows, and a failed parse of a class's methods reported at least one error |
| GrammarReports.ParametersReports | src/parser.py:155-165 | the log only grows, and a failed parse of a parameter list reported at least one error |
| GrammarReports.ParametersFromReports | src/parser.py:157-165 | the log only grows, and a failed parse of the rest of a parameter list reported at least one error |
| GrammarReports.FunctionReports | src/parser.py:151-171 | the log only grows, and a failed parse of a function reported at least one error |
| GrammarReports.VarDeclarationReports | src/parser.py:56-64 | the log only grows, and a failed parse of a variable declaration reported at least one error |
| GrammarReports.StatementReports | src/parser.py:66-80 | the log only grows, and a failed parse of a statement reported at least one error |
| GrammarReports.ForStatementReports | src/parser.py:82-113 | the log only grows, and a failed parse of a `for` loop reported at least one error |
| GrammarReports.ForInitializerReports | src/parser.py:83-89 | the log only grows, and a failed parse of a `for` initializer reported at least one error |
| GrammarReports.OptionalExpressionReports | src/parser.py:91-98 | the log only grows, and a failed parse of an optional expression reported at least one error |
| GrammarReports.IfReports | src/parser.py:115-124 | the log only grows, and a failed parse of an `if` reported at least one error |
| GrammarReports.EchoReports | src/parser.py:126-129 | the log only grows, and a failed parse of an `echo` reported at least one error |
| GrammarReports.ReturnReports | src/parser.py:131-138 | the log only grows, and a failed parse of a `return` reported at least one error |
| GrammarReports.WhileReports | src/parser.py:140-144 | the log only grows, and a failed parse of a `while` reported at least one error |
| GrammarReports.ExpressionStatementReports | src/parser.py:146-149 | the log only grows, and a failed parse of an expression statement reported at least one error |
| GrammarReports.BlockReports | src/parser.py:173-180 | the log only grows; a failed block reported an error, and so did a block holding `Missing` |
| GrammarReports.BlockFromReports | src/parser.py:174-180 | the same for the rest of a block |
| GrammarReports.ExpressionReports | src/parser.py:182-183 | the log only grows, and a failed parse of an expression reported at least one error |
| GrammarReports.AssignmentReports | src/parser.py:185-200 | the log only grows, and a failed parse of an assignment reported at least one error |
| GrammarReports.TernaryReports | src/parser.py:202-218 | the log only grows, and a failed parse of a ternary reported at least one error |
| GrammarReports.TernaryFromReports | src/parser.py:205-216 | the log only grows, and a failed parse of the `?` parts of a ternary reported at least one error |
| GrammarReports.ChainReports | src/parser.py:220-308 | the log only grows, and a failed parse of an operand chain reported at least one error |
| GrammarReports.ChainFromReports | src/parser.py:223-306 | the log only grows, and a failed parse of a chain's operators reported at least one error |
| GrammarReports.UnaryReports | src/parser.py:310-316 | the log only grows, and a failed parse of a unary expression reported at least one error |
| GrammarReports.IncrementReports | src/parser.py:318-329 | the log only grows, and a failed parse of a step expression reported at least one error |
| GrammarReports.CallReports | src/parser.py:331-345 | the log only grows, and a failed parse of a call chain reported at least one error |
| GrammarReports.CallFromReports | src/parser.py:334-343 | the log only grows, and a failed parse of a call's suffixes reported at least one error |
| GrammarReports.FinishCallReports | src/parser.py:347-357 | the log only grows, and a failed parse of a call's arguments and `)` reported at least one error |
| GrammarReports.ArgumentsReports | src/parser.py:348-355 | the log only grows, and a failed parse of an argument list reported at least one error |
| GrammarReports.ArgumentsFromReports | src/parser.py:350-355 | the log only grows, and a failed parse of the rest of an argument list reported at least one error |
| GrammarReports.AnonymReports | src/parser.py:359-381 | the log only grows, and a failed parse of an anonymous function reported at least one error |
| GrammarReports.PrimaryReports | src/parser.py:383-408 | the log only grows, and a failed parse of a primary reported at least one error |
| GrammarShapes.ExpressionShaped | src/parser.py:182-183 | every parsed expression is well shaped |
| GrammarShapes.AssignmentShaped | src/parser.py:185-200 | an assignment's value may be any well-shaped expression, so assignments nest to the right |
| GrammarShapes.TernaryAtShaped | src/parser.py:202-218 | a ternary is well shaped, at ternary level or tighter |
| GrammarShapes.TernaryFromShaped | src/parser.py:205-216 | each `?` part keeps the tree well shaped at ternary level or tighter |
| GrammarShapes.ChainShaped | src/parser.py:220-308 | a rung's chain is well shaped at that rung or tighter |
| GrammarShapes.ChainFromShaped | src/parser.py:223-306 | each operator takes the tree so far as its left operand and a strictly tighter one as its right, so the rung groups to the left |
| GrammarShapes.NodeShaped | src/parser.py:226-306 | the node a rung builds is well shaped, at that rung's level |
| GrammarShapes.UnaryShaped | src/parser.py:310-316 | a unary expression is well shaped at unary level or tighter |
| GrammarShapes.IncrementShaped | src/parser.py:318-329 | a step expression is well shaped at prefix level or tighter |
| GrammarShapes.CallShaped | src/parser.py:331-345 | a call chain is well shaped at call level or tighter |
| GrammarShapes.CallFromShaped | src/parser.py:334-343 | the suffixes keep the tree well shaped at call level or tighter |
| GrammarShapes.FinishCallShaped | src/parser.py:347-357 | a call is well shaped at call level |
| GrammarShapes.ArgumentsShaped | src/parser.py:348-355 | every argument is well shaped |
| GrammarShapes.ArgumentsFromShaped | src/parser.py:350-355 | every argument is well shaped |
| GrammarShapes.AnonymShaped | src/parser.py:359-381 | an anonymous function or primary is at primary level |
| GrammarShapes.PrimaryShaped | src/parser.py:383-408 | a primary is well shaped at primary level, including a parenthesised expression |
| GrammarCases.PrimaryCases | src/parser.py:383-408 | `false`, `true`, `none`, numbers and strings, `self` and names give their literal, self or variable node one token on, with no report; any other token reports "Expected expression." at itself, or at the previous token at EOF, and does not move |
| GrammarCases.SuperCases | src/parser.py:392-396 | `super :: name` gives `Super` at the keyword with the method name. A missing `::` or name fails with one report at the token before it |
| GrammarCases.GroupingCases | src/parser.py:402-405 | `( e )` gives `Grouping(e)`; a missing `)` fails with one report at the token before it |
| GrammarCases.ParametersFromNames | src/parser.py:157-165 | each round appends one identifier token after those collected before |
| GrammarCases.ParametersNames | src/parser.py:155-165 | every parameter is an identifier token |
| GrammarCases.TooManyParametersReported | src/parser.py:158-159 | with 255 parameters collected, "Can't have more than 255 parameters." is reported at the next token and parsing goes on |
| GrammarCases.TooManyArgumentsReported | src/parser.py:351-352 | with 255 arguments collected, "Can't have more than 255 arguments." is reported at the next token and parsing goes on |
| GrammarCases.OptionalCases | src/parser.py:91-98 | an optional expression is absent, without moving, exactly when its stop token is next; otherwise it is the expression there |
| GrammarCases.ForInitializerCases | src/parser.py:83-89 | a `for` initializer is absent, past the `;`, exactly when `;` comes first; after `let` it is the variable declaration; otherwise it is an expression statement |
| GrammarCases.ForDesugaring | src/parser.py:82-113 | a `for` loop that parses is `ForLoop` of its parsed parts: initializer, optional condition, the second `;`, optional increment (each absent part as `OptionalCases` says) and body |
| GrammarCases.AssignmentTargets | src/parser.py:185-200 | without `=` the target is the result. After `=`, a variable target gives `Assign` and a property gives `Set` over the value. Any other target is the result, with "Invalid assignment target." reported at the `=` after the value's reports |
| GrammarCases.Leaf | src/parser.py:390-400 | a number, string or name is a primary-level, well-shaped tree |
| GrammarCases.UnaryLeaf | src/parser.py:310-400 | a leaf with no suffix parses as itself, one token long, at the unary rung |
| GrammarCases.ChainLeaf | src/parser.py:220-308 | a leaf followed by no operator of the rung or a tighter one parses as itself at that rung |
| GrammarCases.ChainLift | src/parser.py:220-308 | a looser rung parses what a tighter one does when none of its own operators follows |
| GrammarCases.TernaryLift | src/parser.py:202-218 | an `or` expression not followed by `?` is the whole ternary |
| GrammarCases.ExpressionLift | src/parser.py:182-218 | an `or` expression followed by neither `?` nor `=` is the whole expression |
| GrammarCases.ExpressionLeaf | src/parser.py:182-400 | a lone leaf is a whole expression |
| GrammarCases.TermGroupsLeft | src/parser.py:280-288 | `a - b - c` parses as `(a - b) - c` |
| GrammarCases.ExpressionGroupsLeft | src/parser.py:182-288 | the same as a whole expression |
| GrammarCases.AssignmentNestsRight | src/parser.py:185-194 | `a = b = c` parses as `a = (b = c)` |
| GrammarCases.InvalidTargetReported | src/parser.py:185-200 | `1 = 2` parses as `1`, ending after the `2`, and reports "Invalid assignment target." at the `=` |
| Parse.Parser.constructor | src/parser.py:11-14 | the cursor starts at the first token |
| Parse.Parser.Peek | src/parser.py:436-437 | the token at the cursor, which is EOF on the last position |
| Parse.Parser.Previous | src/parser.py:439-440 | the token before the cursor, or the last token (EOF) at position 0 |
| Parse.Parser.IsAtEnd | src/parser.py:433-434 | at the EOF token; always true on the last position |
| Parse.Parser.Check | src/parser.py:423-426 | true exactly when not at EOF and the next token has the kind asked for; never true for EOF |
| Parse.Parser.Advance | src/parser.py:428-434 | moves by one unless at EOF, where the cursor stays; returns the token before the new cursor |
| Parse.Parser.Match | src/parser.py:410-415 | consumes exactly one token exactly when `MatchAt` holds: not at EOF and the kind is one of those asked for; otherwise nothing changes |
| Parse.Parser.Error | src/parser.py:442-444 | appends one error at the token, sets the error flag and fails |
| Parse.Parser.Consume | src/parser.py:417-421 | leaves the cursor and the log as `ConsumeAt` gives them, and sets the error flag exactly on a mismatch |
| Parse.Parser.Sync | src/parser.py:446-473 | leaves the cursor where `SyncFrom` says recovery stops |
| Parse.Parser.Parse | src/parser.py:16-21 | returns the statements `ProgramFrom` gives, with its cursor and log. The log only grows, and a result holding `Missing` reported at least one error |
| Parse.Parser.Declaration | src/parser.py:23-35 | yields exactly the tree or failure of `DeclarationAt`, leaves the cursor at its position and the log as it gives it |
| Parse.Parser.Declared | src/parser.py:25-32 | yields exactly the tree or failure of `DeclaredAt`, leaves the cursor at its position and the log as it gives it |
| Parse.Parser.ClassDeclaration | src/parser.py:37-54 | yields exactly the tree or failure of `ClassDeclarationAt`, leaves the cursor at its position and the log as it gives it |
| Parse.Parser.Superclass | src/parser.py:40-44 | yields exactly the result of `SuperclassAt`, leaves the cursor at its position and the log as it gives it |
| Parse.Parser.Methods | src/parser.py:48-50 | yields exactly the methods `MethodsFrom` gives, leaves the cursor at its position and the log as it gives it |
| Parse.Parser.Parameters | src/parser.py:155-165 | yields exactly the tree or failure of `ParametersAt`, leaves the cursor at its position and the log as it gives it |
| Parse.Parser.Function | src/parser.py:151-171 | yields exactly the tree or failure of `FunctionAt`, leaves the cursor at its position and the log as it gives it |
| Parse.Parser.VarDeclaration | src/parser.py:56-64 | yields exactly the tree or failure of `VarDeclarationAt`, leaves the cursor at its position and the log as it gives it |
| Parse.Parser.Statement | src/parser.py:66-80 | yields exactly the tree or failure of `StatementAt`, leaves the cursor at its position and the log as it gives it |
| Parse.Parser.ForStatement | src/parser.py:82-113 | yields exactly the tree or failure of `ForStatementAt`, leaves the cursor at its position and the log as it gives it |
| Parse.Parser.IfStatement | src/parser.py:115-124 | yields exactly the tree or failure of `IfAt`, leaves the cursor at its position and the log as it gives it |
| Parse.Parser.Echo | src/parser.py:126-129 | yields exactly the tree or failure of `EchoAt`, leaves the cursor at its position and the log as it gives it |
| Parse.Parser.ReturnStatement | src/parser.py:131-138 | yields exactly the tree or failure of `ReturnAt`, leaves the cursor at its position and the log as it gives it |
| Parse.Parser.WhileStatement | src/parser.py:140-144 | yields exactly the tree or failure of `WhileAt`, leaves the cursor at its position and the log as it gives it |
| Parse.Parser.ExpressionStatement | src/parser.py:146-149 | yields exactly the tree or failure of `ExpressionStatementAt`, leaves the cursor at its position and the log as it gives it |
| Parse.Parser.Block | src/parser.py:173-180 | yields exactly the tree or failure of `BlockAt`, leaves the cursor at its position and the log as it gives it |
| Parse.Parser.Expression | src/parser.py:182-183 | yields exactly the tree or failure of `ExpressionAt`, leaves the cursor at its position and the log as it gives it |
| Parse.Parser.Assignment | src/parser.py:185-200 | yields exactly the tree or failure of `AssignmentAt`, leaves the cursor at its position and the log as it gives it |
| Parse.Parser.Ternary | src/parser.py:202-218 | yields exactly the tree or failure of `TernaryAt`, leaves the cursor at its position and the log as it gives it |
| Parse.Parser.Or | src/parser.py:220-228 | yields exactly the tree or failure of `ChainAt(OrLevel)`, leaves the cursor at its position and the log as it gives it |
| Parse.Parser.And | src/parser.py:230-238 | yields exactly the tree or failure of `ChainAt(AndLevel)`, leaves the cursor at its position and the log as it gives it |
| Parse.Parser.Equality | src/parser.py:240-248 | yields exactly the tree or failure of `ChainAt(EqualityLevel)`, leaves the cursor at its position and the log as it gives it |
| Parse.Parser.Comparison | src/parser.py:250-263 | yields exactly the tree or failure of `ChainAt(ComparisonLevel)`, leaves the cursor at its position and the log as it gives it |
| Parse.Parser.CompoundAssign | src/parser.py:265-278 | yields exactly the tree or failure of `ChainAt(CompoundLevel)`, leaves the cursor at its position and the log as it gives it |
| Parse.Parser.Term | src/parser.py:280-288 | yields exactly the tree or failure of `ChainAt(TermLevel)`, leaves the cursor at its position and the log as it gives it |
| Parse.Parser.Modulo | src/parser.py:290-298 | yields exactly the tree or failure of `ChainAt(ModuloLevel)`, leaves the cursor at its position and the log as it gives it |
| Parse.Parser.Factor | src/parser.py:300-308 | yields exactly the tree or failure of `ChainAt(FactorLevel)`, leaves the cursor at its position and the log as it gives it |
| Parse.Parser.Unary | src/parser.py:310-316 | yields exactly the tree or failure of `UnaryAt`, leaves the cursor at its position and the log as it gives it |
| Parse.Parser.Increment | src/parser.py:318-329 | yields exactly the tree or failure of `IncrementAt`, leaves the cursor at its position and the log as it gives it |
| Parse.Parser.Call | src/parser.py:331-345 | yields exactly the tree or failure of `CallAt`, leaves the cursor at its position and the log as it gives it |
| Parse.Parser.FinishCall | src/parser.py:347-357 | yields exactly the tree or failure of `FinishCallAt`, leaves the cursor at its position and the log as it gives it |
| Parse.Parser.Anonym | src/parser.py:359-381 | yields exactly the tree or failure of `AnonymAt`, leaves the cursor at its position and the log as it gives it |
| Parse.Parser.Primary | src/parser.py:383-408 | yields exactly the tree or failure of `PrimaryAt`, leaves the cursor at its position and the log as it gives it |
| AstPrint.Spaced | src/debug/ast_printer.py:55-58 | the joined parts are empty exactly when there are no parts, and otherwise the first character is a space |
| AstPrint.Parenthesize | src/debug/ast_printer.py:55-58 | the text opens with `(` and the name and closes with ` )` |
| AstPrint.ParenthesizeOne | src/debug/ast_printer.py:55-58 | `(name p )` for one sub-expression |
| AstPrint.ParenthesizeTwo | src/debug/ast_printer.py:55-58 | `(name p q )` for two sub-expressions, in order |
| AstPrint.ParenthesizeThree | src/debug/ast_printer.py:55-58 | `(name p q r )` for three sub-expressions, in order |
| AstPrint.Print | src/debug/ast_printer.py:52-53 | stub node kinds give None; every other non-literal prints parenthesised |
| AstPrint.Shown | src/debug/ast_printer.py:55-58 | a nested stub prints as the host text `None` |
| AstPrint.BinaryPrint | src/debug/ast_printer.py:26-27 | `(op left right )` |
| AstPrint.UnaryPrint | src/debug/ast_printer.py:29-30 | `(op operand )` |
| AstPrint.PostfixPrint | src/debug/ast_printer.py:32-33 | `(postfix op operand )` |
| AstPrint.PrefixPrint | src/debug/ast_printer.py:35-36 | `(prefix op operand )` |
| AstPrint.GroupingPrint | src/debug/ast_printer.py:38-39 | `(group inner )` |
| AstPrint.TernaryPrint | src/debug/ast_printer.py:20-21 | `(ternary condition then else )` |
| AstPrint.LiteralPrint | src/debug/ast_printer.py:47-50 | a falsy literal (none, false, 0, empty string) prints `none`; any other prints its host text, so `true` prints `True` |
| AstPrint.NestedStub | src/debug/ast_printer.py:38-39 | a group around a stub prints `(group None )` |
| Resolve.Depth | src/resolver.py:198-203 | the depth found counts scopes from the innermost one that holds the name |
| Resolve.DepthInnermost | src/resolver.py:198-203 | there is no depth exactly when no scope holds the name; otherwise no scope nearer than the recorded one holds it |
| Resolve.Resolver.constructor | src/resolver.py:27-33 | no scopes, outside any function and class, nothing resolved |
| Resolve.Resolver.BeginScope | src/resolver.py:218-219 | pushes one empty scope |
| Resolve.Resolver.EndScope | src/resolver.py:221-222 | pops the innermost scope |
| Resolve.Resolver.Declare | src/resolver.py:224-231 | maps the name to not-yet-defined in the innermost scope, reporting a redeclaration. It does nothing with no scope |
| Resolve.Resolver.Define | src/resolver.py:233-237 | maps the name to defined in the innermost scope; it does nothing with no scope; defining an already declared name changes no name's depth |
| Resolve.DepthKeys | src/resolver.py:198-203 | depths depend only on which names each scope holds, not on whether they are defined yet |
| Resolve.Resolver.ResolveLocal | src/resolver.py:198-203 | always marks the name resolved, and records the innermost depth when a scope holds the name |
| Resolve.Resolver.ResolveFunction | src/resolver.py:205-216 | leaves the scope stack and the enclosing function kind as they were; every use inside the body (`StmtsUses`) is added to `resolved`; depths are recorded only for nodes of the body (`StmtsNodes`) and none already recorded is lost or changed |
| Resolve.Resolver.Resolve | src/resolver.py:191-193 | leaves the scope stack below the innermost scope and the function and class kinds as they were; adds exactly the uses inside the statements to `resolved`; depths are recorded only for nodes inside it, and none recorded before is lost or changed |
| Resolve.Resolver.ResolveStmt | src/resolver.py:195-196 | a block leaves the scope stack as it found it; exactly the uses inside the statement (`StmtUses`) are added to `resolved`; depths are recorded only for nodes inside it, and none recorded before is lost or changed; for an expression, `echo` or `return` statement, and a `let` initializer, the expression's direct nodes get their innermost depths |
| Resolve.Resolver.VisitBlock | src/resolver.py:72-75 | the pushed scope is popped again; the uses inside the block are added to `resolved`; depths are recorded only for nodes inside it, and none recorded before is lost or changed |
| Resolve.Resolver.VisitFunction | src/resolver.py:80-83 | the function's name is defined in the current scope before its body is resolved; the body's uses are added to `resolved`; depths are recorded only for nodes inside it, and none recorded before is lost or changed |
| Resolve.Resolver.VisitClass | src/resolver.py:35-70 | a class inheriting from itself is warned about, the class kind is restored, and the superclass name and the methods' uses are added to `resolved`; depths are recorded only for nodes inside it, and none recorded before is lost or changed |
| Resolve.Resolver.DeclareClassName | src/resolver.py:39-48 | declares and defines the name, then warns when the superclass has the same name; records no depth |
| Resolve.Resolver.ClassBody | src/resolver.py:50-70 | the `super` and `self` scopes are pushed and popped again; inside, the class kind is SUBCLASS when there is a superclass; the superclass name and the methods' uses are added to `resolved`; depths are recorded only for nodes inside it, and none recorded before is lost or changed |
| Resolve.Resolver.SuperScope | src/resolver.py:54-68 | the `super` scope is pushed and popped again; the methods' uses are added to `resolved`; depths are recorded only for nodes inside it, and none recorded before is lost or changed |
| Resolve.Resolver.ResolveMethods | src/resolver.py:58-65 | the `self` scope is pushed and popped again; every method body's uses are added to `resolved`; depths are recorded only for nodes inside it, and none recorded before is lost or changed |
| Resolve.Resolver.VisitIf | src/resolver.py:88-92 | the condition and both branches, when present, are resolved: their uses are added to `resolved`; the stack is kept; depths are recorded only for nodes inside it, and none recorded before is lost or changed |
| Resolve.Resolver.VisitReturn | src/resolver.py:97-105 | `return` at top level is an error; a value returned from `init` is warned about; the returned value's direct nodes get their innermost depths, no other node gets one, and none recorded before is lost |
| Resolve.Resolver.VisitVar | src/resolver.py:107-112 | the name ends up defined and recorded as a candidate unused variable; depths are recorded only for nodes of the initializer, whose direct nodes get their innermost depths in the scopes that hold the declared name |
| Resolve.Resolver.InitializeThenDefine | src/resolver.py:109-111 | the initializer is resolved with the name declared but not defined, then the name is defined; the initializer's direct nodes keep their innermost depths |
| Resolve.Resolver.NoteDeclared | src/resolver.py:107-112 | the first token declaring a name is the one kept for it |
| Resolve.Resolver.VisitWhile | src/resolver.py:114-116 | the condition and the body are resolved: their uses are added to `resolved`; the stack is kept; depths are recorded only for nodes inside it, and none recorded before is lost or changed |
| Resolve.Resolver.ResolveExpr | src/resolver.py:139-182 | resolving an expression leaves the stack and the kinds as they were and adds exactly its uses (`Uses`: variable reads, assignment targets, `self`, `super`, anonymous function bodies) to `resolved`; every variable, assignment, `self` and `super` node outside an anonymous function's body (`Direct`) gets the innermost depth of its name, or keeps what it had when no scope holds it; no other node gets a depth and no earlier depth is lost |
| Resolve.Resolver.VisitSet | src/resolver.py:126-128 | the value, then the object, resolved with their uses and depths as `ResolveExpr` states |
| Resolve.Resolver.VisitTernary | src/resolver.py:154-157 | the condition and both branches resolved with their uses and depths as `ResolveExpr` states |
| Resolve.Resolver.VisitOperands | src/resolver.py:145-147 | both operands of an arithmetic or logical operator resolved with their uses and depths as `ResolveExpr` states |
| Resolve.Resolver.VisitAssign | src/resolver.py:173-175 | the value is resolved, then the assignment node itself is recorded at the innermost depth of its target |
| Resolve.RecordsCompose | src/resolver.py:139-182 | two passes that each record depths only for their own nodes, each settling its direct nodes, compose into one pass over both |
| Resolve.Resolver.VisitCall | src/resolver.py:149-152 | the callee and every argument are resolved: their uses are added to `resolved`, their direct variable nodes get their innermost depths, and no other node gets one; the stack is kept |
| Resolve.Resolver.VisitSelf | src/resolver.py:118-121 | `self` outside a class is warned about, and only there; it is resolved, and the node alone gets the innermost depth of `self` when a scope holds it |
| Resolve.Resolver.VisitSuper | src/resolver.py:130-137 | `super` outside a class, or in a class without a superclass, is warned about; it is resolved, and the node alone gets the innermost depth of `super` when a scope holds it |
| Resolve.Resolver.VisitVariable | src/resolver.py:177-182 | reading a name in its own initializer is an error; the node alone is recorded at the innermost depth of its name, and keeps what it had when no scope holds it |
| Resolve.Resolver.ReportUnused | src/resolver.py:188-189 | appends one unused-variable warning |
| Resolve.Resolver.Analyze | src/resolver.py:184-189 | after resolving, `resolved` has grown by the program's uses, and there is one warning for exactly the declared names not among them; depths are recorded only for nodes inside it, and none recorded before is lost or changed |
| Resolve.Resolver.ReportUnresolved | src/resolver.py:186-189 | one warning per declared name never resolved, each once |
| Environment.Env.constructor | src/environment.py:9-11 | a new environment is empty and encloses the given one |
| Environment.Env.AncestryDistinct | src/environment.py:36-40 | the `enclosing` chain has no cycle |
| Environment.Env.Scopes | src/environment.py:13-31 | the chain's maps, innermost first |
| Environment.Env.Define | src/environment.py:33-34 | writes only this environment's own map, overwriting any previous value |
| Environment.Env.Get | src/environment.py:13-20 | the value from the nearest environment holding the name, or `Undefined variable` when none does |
| Environment.Env.Overwrite | src/environment.py:22-27 | an assignment in this environment changes only its own map |
| Environment.Env.Assign | src/environment.py:22-31 | rebinds the name in the nearest environment holding it, and no other; it fails when none holds it |
| Environment.Env.Ancestor | src/environment.py:36-40 | follows `enclosing` exactly `distance` times; exactly at the end of the chain the result is null, and a longer distance fails as stepping out of null does |
| Environment.Env.GetAt | src/environment.py:42-43 | reads only the ancestor's own map; an absent name gives the empty slot rather than walking further |
| Environment.Env.AssignAt | src/environment.py:45-46 | writes the ancestor's own map whether or not the name was there; nothing else changes |
| Environment.Nearest | src/environment.py:13-20 | the first map in the chain holding the name; none holds it when there is none |
| Environment.RebindThenNearest | src/environment.py:22-31 | after an assignment, the nearest binding of the name is the new value, and other names resolve as before |
| Environment.NearestUnique | src/environment.py:13-20 | the nearest holder is unique |
| Objects.Bindings | src/objects/function.py:24-27 | a call frame binds exactly the parameter names |
| Objects.BindingsAt | src/objects/function.py:24-27 | parameter `i` is bound to argument `i` unless a later parameter has the same name |
| Objects.BindingsValues | src/objects/function.py:24-27 | every bound value is one of the arguments |
| Objects.NewFrame | src/objects/function.py:24-27 | a fresh environment enclosing the closure, holding the parameter bindings |
| Objects.PloxFunction.constructor | src/objects/function.py:14-19 | records the declaration, the closure and whether it is an initializer |
| Objects.PloxFunction.Bind | src/objects/function.py:38-41 | a fresh function with the same declaration and initializer flag, whose closure is a fresh environment enclosing the old closure and holding only `self` |
| Objects.PloxFunction.CallResult | src/objects/function.py:30-36 | a plain function returns the value carried by `return`, or none. An initializer returns the closure's `self` after a `return`, and the closure's `this` when it completes normally |
| Objects.BoundInitializerResult | src/objects/function.py:31-40 | a bound initializer gives its instance after `return`, and none when it completes normally, because `bind` never defines `this` |
| Objects.PloxAnonymFunction.constructor | src/objects/function.py:51-53 | records parameters, body and closure |
| Objects.PloxClass.constructor | src/objects/klass.py:6-9 | records name, methods and superclass |
| Objects.PloxClass.Tables | src/objects/klass.py:29-34 | the method tables along the superclass chain, own first |
| Objects.PloxClass.FindMethod | src/objects/klass.py:29-34 | the method from the nearest table along the superclass chain that holds the name, or none |
| Objects.PloxClass.Arity | src/objects/klass.py:23-27 | 0 without an `init` along the chain, otherwise `init`'s parameter count |
| Objects.OwnMethodOverrides | src/objects/klass.py:29-34 | a class's own method shadows any inherited one |
| Objects.InheritedMethod | src/objects/klass.py:29-34 | a method the class lacks comes from the superclass |
| Objects.PloxInstance.constructor | src/objects/klass.py:38-40 | an instance starts with no fields |
| Objects.PloxInstance.Set | src/objects/klass.py:54-55 | changes only the named field |
| Semantics.IsTruthy | src/interpreter.py:367-372 | only none and false are falsy |
| Semantics.ZeroAndEmptyAreTruthy | src/interpreter.py:367-372 | 0 and the empty string are truthy |
| Semantics.IsEqual | src/interpreter.py:374-375 | numbers and booleans compare by numeric value; everything else compares structurally or by identity |
| Semantics.IsEqualReflexive | src/interpreter.py:374-375 | every value of the model equals itself; the model's numbers are exact reals, so the host's NaN, which is not equal to itself, has no counterpart (see "## Left out") |
| Semantics.IsEqualSymmetric | src/interpreter.py:374-375 | equality is symmetric |
| Semantics.IsEqualTransitive | src/interpreter.py:374-375 | equality is transitive |
| Semantics.BoolsEqualNumbers | src/interpreter.py:374-375 | `true == 1` and `false == 0`, as in the host |
| Semantics.Stringify | src/interpreter.py:377-387 | `none` for none; a float's text without a trailing `.0`; the host text otherwise |
| Semantics.LiteralValue | src/interpreter.py:347-348 | a literal's value is primitive, and a number exactly for a number literal |
| Semantics.NumberOperand | src/interpreter.py:357-360 | succeeds exactly for a number, else throws "Operand must be a number" |
| Semantics.NumberOperands | src/interpreter.py:362-365 | succeeds exactly for two numbers, else throws "Operands must be numbers" |
| Semantics.BinaryValue | src/interpreter.py:199-245 | type errors for numeric operators. `/` throws when either side is zero, and `%` by zero crashes. `+` joins when either side is a string, and throws when neither side is a string and the two are not both numbers. `==` and `!=` use equality |
| Semantics.JoinStrings | src/interpreter.py:209-210 | two strings joined by `+` give their concatenation |
| Semantics.CompoundValue | src/interpreter.py:246-281 | a compound assignment needs a variable target and numeric operands, and `/=` throws when either side is zero |
| Semantics.UnaryValue | src/interpreter.py:283-293 | `!` negates truthiness; `-` needs a number; any other operator gives none |
| Semantics.StepValue | src/interpreter.py:295-335 | `++` and `--` need a variable target holding a number, and step it by one |
| Semantics.ArityOf | src/interpreter.py:149-168 | only functions, anonymous functions, classes and built-ins are callable. A function's arity is its parameter count, a class's is that of its `init`, and a built-in's is 0 |
| Semantics.CallCheck | src/interpreter.py:157-166 | a non-callable throws "Can only call functions and classes." and a count mismatch throws the arity message; the call proceeds exactly when the count is the arity |
| Semantics.ShortCircuits | src/interpreter.py:187-197 | `or` stops on a truthy left operand and `and` on a falsy one |
| Interp.Interpreter.constructor | src/interpreter.py:20-26 | the current environment is the globals, which hold only `time` and `print` |
| Interp.Interpreter.Resolve | src/interpreter.py:41-42 | records the depth for the node and changes nothing else |
| Interp.Interpreter.LookUp | src/interpreter.py:350-355 | a resolved read uses the recorded depth, reading none for an absent name; an unresolved read goes to the globals and throws when the name is undefined there |
| Interp.Interpreter.Evaluate | src/interpreter.py:35-36 | evaluation keeps the heap invariant and the current environment; a literal gives its value, as `visit_literal_expr` does; an anonymous function gives, as `visit_anonym_func_expr` does, a fresh function over its parameters, its body and the current environment |
| Interp.Interpreter.VisitSuper | src/interpreter.py:117-127 | `super.m` without a recorded depth crashes. Once the superclass is found, a method `m` missing along its chain crashes with the undefined-property error. Otherwise the result is a fresh function with `m`'s declaration, initializer flag and closure, bound to the `self` found one environment nearer than `super` (none when absent there) |
| Interp.Interpreter.SuperAndSelf | src/interpreter.py:117-122 | without a recorded depth it crashes, and past the end of the chain it crashes. The class found is the one stored as `super` at the recorded depth, and `self` is read at depth minus one, none when absent |
| Interp.Interpreter.Property | src/objects/klass.py:45-52 | a field shadows a method. Otherwise the method found along the class chain is bound to the instance, and an undefined property crashes |
| Interp.Interpreter.VisitSet | src/interpreter.py:129-137 | a failing object fails the expression; a non-instance crashes with "Only instances have fields." before the value is evaluated; otherwise a failing value fails it, or the field is set to the value, no other field changes, and the value is the result |
| Interp.Interpreter.VisitGet | src/interpreter.py:139-143 | a failing object fails the expression; a non-instance crashes with "Only instances have properties."; on an instance a field shadows a method, a method found along the class chain comes back bound to the instance, and a missing one crashes |
| Interp.Interpreter.VisitCall | src/interpreter.py:149-168 | the callee, then every argument, are evaluated before any check; the first failure among them is the result; then a non-callable or an arity mismatch throws the `CallCheck` error at the parenthesis |
| Interp.Interpreter.VisitAssign | src/interpreter.py:170-178 | a failing value fails the expression; with a recorded depth the value is written into that scope (a crash when there is no such environment), otherwise the global is rebound or "Undefined variable" is thrown; the value is the result |
| Interp.Interpreter.Invoke | src/interpreter.py:157-168 | a failed call check throws without running anything. `time()` gives the clock. `print()` writes an empty line and gives none. A class gives a fresh instance of itself |
| Interp.Interpreter.CallFunction | src/objects/function.py:24-36 | running a function keeps the heap invariant and the current environment; an error in the body propagates, and otherwise the body's completion decides the result as `CallResult` does (the returned value, none, or the bound instance for an initializer) |
| Interp.Interpreter.CallAnon | src/objects/function.py:58-67 | running an anonymous function keeps the heap invariant and the current environment; an error in the body propagates, a `return` gives its value and a normal completion gives none |
| Interp.Interpreter.CallClass | src/objects/klass.py:14-21 | calling a class gives a fresh instance of it |
| Interp.Interpreter.NewInstance | src/objects/klass.py:16 | the instance is fresh and has no fields |
| Interp.Interpreter.Instantiate | src/objects/klass.py:14-21 | without an `init` the instance is returned; with one, its own result is discarded |
| Interp.Interpreter.Initialize | src/objects/klass.py:17-21 | a successful initializer run yields the instance itself |
| Interp.Interpreter.Store | src/interpreter.py:170-178 | a resolved write goes to the map at the recorded depth, and an unresolved one rebinds the globals, throwing when the name is undefined there; the value is the result |
| Interp.Interpreter.VisitTernary | src/interpreter.py:180-185 | a failing condition fails the whole expression |
| Interp.Interpreter.VisitLogical | src/interpreter.py:187-197 | a left operand that decides the result is the result |
| Interp.Interpreter.VisitBinary | src/interpreter.py:199-281 | both operands, then `BinaryValue` of them; for `+=`, `-=`, `*=` and `/=` a failed `CompoundValue` check is the result, otherwise the variable is rebound, in the scopes as they were after the operands, to the computed number, which is the result, or the undefined-variable error is thrown when no scope holds it |
| Interp.Interpreter.Operate | src/interpreter.py:203-281 | a non-compound operator gives `BinaryValue`; a compound operator gives `CompoundValue`'s error (assignment to a literal, non-numbers, division by zero for `/=`) with the scopes unchanged, or rebinds the nearest holder of the variable to the number and yields it, or throws the undefined-variable error |
| Interp.Interpreter.Rebound | src/interpreter.py:246-281 | rebinds the variable along the chain; throws when it is undefined |
| Interp.Interpreter.VisitUnary | src/interpreter.py:283-293 | the result is `UnaryValue` of the operand's value, or the operand's failure |
| Interp.Interpreter.VisitStep | src/interpreter.py:295-335 | a failing operand fails the expression. An operator other than `++` and `--` gives none. A step that fails its checks gives its error with the scopes unchanged. Otherwise the variable is rebound to the stepped number and the result is the new number for prefix and the old value for postfix, or the undefined-variable error when no scope holds it |
| Interp.Interpreter.Stepped | src/interpreter.py:295-335 | the variable is rebound to the stepped number; the result is the new number for prefix and the old value for postfix, or the undefined-variable error when no scope holds the name; a failed check or another operator leaves the scopes unchanged |
| Interp.Interpreter.Execute | src/interpreter.py:38-39 | execution keeps the heap invariant and the current environment; a statement that failed to parse crashes |
| Interp.Interpreter.VisitExpression | src/interpreter.py:110-111 | the expression's failure, or normal completion with its value dropped |
| Interp.Interpreter.VisitEcho | src/interpreter.py:113-115 | the value's `Stringify` text is appended to the output after what evaluating it printed; a failure appends nothing more |
| Interp.Interpreter.VisitReturn | src/interpreter.py:99-104 | completes as `Returned` with the value, or with none when there is no value; a failing value fails the statement |
| Interp.Interpreter.ExecuteBlock | src/interpreter.py:44-52 | the previous environment is back afterwards, whatever the statements did; the block completes normally exactly when every statement did, and otherwise the statement after the `ran` normal ones ended it |
| Interp.Interpreter.VisitVar | src/interpreter.py:92-97 | the name is defined in the current environment, with the initializer's value or none |
| Interp.Interpreter.VisitFunction | src/interpreter.py:82-84 | defines the name to a fresh non-initializer function closing over the current environment; other names are untouched |
| Interp.Interpreter.VisitIf | src/interpreter.py:86-90 | a failing condition fails the statement; a falsy condition with no `else` does nothing |
| Interp.Interpreter.VisitWhile | src/interpreter.py:106-108 | the loop keeps the heap invariant and the current environment |
| Interp.Interpreter.VisitClass | src/interpreter.py:57-80 | the declaration keeps the heap invariant and the current environment |
| Interp.Interpreter.DeclareClass | src/interpreter.py:71-75 | a fresh class with the given name and superclass, with one method per declared name |
| Interp.Interpreter.SuperScope | src/interpreter.py:66-68 | a fresh environment over the current one holding only `super` |
| Interp.MethodTable | src/interpreter.py:71-74 | one fresh function per method name, closing over the given environment, an initializer exactly for `init`; for a repeated name the last declaration of that name is kept |
| Interp.Interpreter.Interpret | src/interpreter.py:28-33 | the statement outcome that ended the run decides the result: a thrown error is reported once as a RUNTIME_ERROR entry with its token and message and the run ends normally; no throw leaves the log and the runtime flag unchanged; a crash, exhaustion or a top-level return ends the run with that failure; the error flag is untouched |

## Left out

- Float arithmetic and formatting are the parameters `arithmetic` and `numberText`. The model does not say what `str(float)` prints or what `-`, `*`, `/` and `%` compute, only where their results go. A number literal's value is the lexeme's exact decimal value, not its nearest float. Numbers are exact reals, so the host's infinities and NaN are not represented: a literal too large for a float becomes `inf` in the host, `inf - inf` is NaN, and NaN is not equal to itself, whereas every model number equals itself.
- Python's Unicode `isalpha`, `isalnum` and `isdigit` are modelled on ASCII letters and digits. `_` is neither a letter nor a digit, as in the host, so it cannot start or continue an identifier.
- Token and node equality in the host is by `str()`. The resolved and unused-name sets are keyed by (kind, text). The interpreter's `locals` map is keyed by the node value itself.
- src/plox.py (file reading, the prompt loop, exit codes and stage gating on the error flag) is not part of this model.
- Terminal output of diagnostics, and the positions formatted for it in src/errors/error.py, are left out: a diagnostic is a record in the log.
- `print(...)` and `echo` write to an `output` sequence. The built-in `print` writes an empty line. The clock is the parameter `clock`.
- A `while` loop, and evaluation in general, run on a fuel budget. Running out gives `Exhausted`, which the host never produces.
- A declaration that failed to parse is the statement `Missing`. Executing it crashes, as the host's call on `None` would.
- A crash carries a description of the host error rather than a Python exception object.
- Instance property lookup (`PloxInstance.get`) is the interpreter method `Property`, because it allocates a bound method.
- src/objects/callable.py and src/errors/exceptions.py only declare interfaces. The exception classes are the `Outcome` cases.
- Interp.Interpreter.Evaluate: states the literal and anonymous-function rules itself; every other node's rule is stated by the visit method or value function it calls, except a grouping, whose value being its inner expression's is not stated (it is the recursive call's result).
- Interp.Interpreter.Execute: states the crash for a statement that failed to parse; the other statement rules are stated by the visit methods, except a block, for which only the restored environment (`ExecuteBlock`) is stated, not that its statements run in order.
- Interp.Interpreter.Interpret: does not state that `stopped` is the outcome of the statement that ended the run, nor that the statements after it do not run; only the result and the report are tied to `stopped`.
- Interp.Interpreter.VisitWhile: states only the heap invariant; that the body runs while the condition is truthy is not stated.
- Interp.Interpreter.VisitClass: states only the heap invariant. The class it builds is stated by `DeclareClass`, `SuperScope` and `MethodTable`.
- Interp.Interpreter.VisitTernary: states only that a failed condition is the result; which branch runs and whose value is the result is not stated.
- Interp.Interpreter.VisitIf: does not state which branch ran when there is a choice.
- Interp.Interpreter.VisitLogical: does not state that the right operand's value is the result when the left does not decide.
- Interp.Interpreter.ExecuteBlock: states when the block completes normally and how many statements did so before it stopped, but not what each statement did or that they ran in order; those depend on each statement's own execution, for which no functional reference exists.
- Interp.Interpreter.CallFunction: states the result in terms of the body's completion; which completion the body reaches is not stated anywhere (see `ExecuteBlock`), and the parameter frame is `NewFrame`'s.
- Interp.Interpreter.CallAnon: as `CallFunction`, the body's completion itself is not stated anywhere.
- The scanner's `advance` past the end raises `IndexError` in the host. The model's `Advance` returns a flag instead, and a block comment left open at the end of the input crashes the scan.
- At the top level the AST printer returns None for a stub node; the model's `Print` returns `None`.
- AstPrint.Print: the host's printer class (src/debug/ast_printer.py:4) lacks `visit_anonym_func_expr`, which the abstract expression visitor requires (src/values/expr.py:261-263). The host therefore refuses to instantiate it, and no part of the program constructs one. The model gives the behaviour the visit methods are written to have, with an anonymous function as one more stub.
- Resolve.Resolver.ResolveFunction: frames the recorded depths (only nodes inside it, none lost or changed) but does not state their values, because the declarations it resolves change the scopes as it goes; `ResolveExpr` states the values for each expression in the scopes it runs under.
- Resolve.Resolver.Resolve: frames the recorded depths (only nodes inside it, none lost or changed) but does not state their values, because the declarations it resolves change the scopes as it goes; `ResolveExpr` states the values for each expression in the scopes it runs under.
- Resolve.Resolver.ResolveStmt: for a block, function, class, `if` or `while` statement, frames the recorded depths (only nodes inside it, none lost or changed) but does not state their values, because the declarations it resolves change the scopes as it goes; `ResolveExpr` states the values for each expression in the scopes it runs under.
- Resolve.Resolver.VisitBlock: frames the recorded depths (only nodes inside it, none lost or changed) but does not state their values, because the declarations it resolves change the scopes as it goes; `ResolveExpr` states the values for each expression in the scopes it runs under.
- Resolve.Resolver.VisitFunction: frames the recorded depths (only nodes inside it, none lost or changed) but does not state their values, because the declarations it resolves change the scopes as it goes; `ResolveExpr` states the values for each expression in the scopes it runs under.
- Resolve.Resolver.VisitClass: frames the recorded depths (only nodes inside it, none lost or changed) but does not state their values, because the declarations it resolves change the scopes as it goes; `ResolveExpr` states the values for each expression in the scopes it runs under.
- Resolve.Resolver.ClassBody: frames the recorded depths (only nodes inside it, none lost or changed) but does not state their values, because the declarations it resolves change the scopes as it goes; `ResolveExpr` states the values for each expression in the scopes it runs under.
- Resolve.Resolver.SuperScope: frames the recorded depths (only nodes inside it, none lost or changed) but does not state their values, because the declarations it resolves change the scopes as it goes; `ResolveExpr` states the values for each expression in the scopes it runs under.
- Resolve.Resolver.ResolveMethods: frames the recorded depths (only nodes inside it, none lost or changed) but does not state their values, because the declarations it resolves change the scopes as it goes; `ResolveExpr` states the values for each expression in the scopes it runs under.
- Resolve.Resolver.VisitIf: frames the recorded depths (only nodes inside it, none lost or changed) but does not state their values, because the declarations it resolves change the scopes as it goes; `ResolveExpr` states the values for each expression in the scopes it runs under.
- Resolve.Resolver.VisitWhile: frames the recorded depths (only nodes inside it, none lost or changed) but does not state their values, because the declarations it resolves change the scopes as it goes; `ResolveExpr` states the values for each expression in the scopes it runs under.
- Resolve.Resolver.Analyze: frames the recorded depths (only nodes inside it, none lost or changed) but does not state their values, because the declarations it resolves change the scopes as it goes; `ResolveExpr` states the values for each expression in the scopes it runs under.
- Resolve.Resolver.ResolveStmt: a `Missing` statement resolves as nothing, where the host's `accept` call on `None` would raise. The driver in src/plox.py:48-55 stops before resolving whenever parsing reported an error, and `GrammarReports.ProgramReports` shows that a program holding `Missing` reported one, so the host never resolves such a program.
- The parser's had-error flag is stated by `Error` and `Consume`, which set it with each report. The productions state the log they leave, not the flag.
