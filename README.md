# A verified model of the Swift compiler's middle and back end

This project models, in Dafny, the core of a small educational compiler written in
Swift. The compiler turns a tiny expression language into x86-64 assembly. What is
modelled is every stage after tokenizing:

- the **parser**, which turns a token list into an expression tree: integer literals,
  names, `+ - * /` with the usual precedence, and parentheses;
- the **typechecker**, which walks the tree with one flat symbol table of variable types;
- the **symbol table** `SymTab<T>`, a map updated in place;
- the **IR generator**, which flattens the tree into three-address instructions over fresh
  temporaries `x0`, `x1`, …;
- **`Locals`**, which gives each IR variable an 8-byte stack slot `-<offset>(%rbp)`;
- the **intrinsics handler**, which gives the instruction lines for each built-in operator;
- the **assembly generator**, which writes the prologue, each instruction's lines and the
  epilogue;
- the supporting **value types**: the structural equality of expression trees, locations
  and their loose equality, and the built-in signature table.

The Swift structs that mutate themselves are modelled as Dafny classes:

- `Parser` with its `position`;
- `Typechecker` and `SymTab`;
- `IrGenerator` with its instruction list, two symbol tables and variable counter;
- `Locals`;
- `AssemblyGenerator` with its line buffer.

Each method is proved against a specification function of the old state. The
specification functions live in their own modules: `ParserSpec`, `TypecheckerSpec`,
`IrGeneratorSpec`, `LocalsSpec` and `AssemblySpec`. The properties the compiler relies on
are proved as lemmas about those functions. These include:

- The parser inverts a printer.
- Typing only ever extends the environment.
- The IR generator only emits instructions that read variables already written, into
  fresh temporaries that all have a recorded type.
- The assembly generator stops exactly at the first instruction with an unknown variable.
- The IR generator's output meets the assembly generator's precondition (module `Pipeline`).

Swift's `throws` is modelled as a `Result` or an `Option` error. Swift's `Int` conversion
of token text is modelled as a 64-bit range check.

## Model

| member | source | states |
|---|---|---|
| Locations.LocationEqualsIsEquivalence | Sources/Models/Location.swift:9-14 | Location equality ignores positions when neither side has a file, and is still reflexive, symmetric and transitive. |
| Locations.NoFileLocationsEqual | Sources/Models/Location.swift:10-12 | Two locations without a file are always equal. |
| Locations.LocationEqualsWithFile | Sources/Models/Location.swift:13 | When either side has a file, equality holds exactly when file and position both agree. |
| Locations.NoFileNeverEqualsFile | Sources/Models/Location.swift:9-14 | A location without a file never equals one with a file, in either order. |
| SymTabs.MapLookup | Sources/Services/SymTab.swift:12-14 | A lookup finds a value exactly when the key is bound, and the value found is the bound one. |
| SymTabs.SymTab.constructor | Sources/Services/SymTab.swift:4-6 | The table starts as exactly the given bindings. |
| SymTabs.SymTab.Insert | Sources/Services/SymTab.swift:8-10 | Insert binds or rebinds one key and leaves every other binding as it was. |
| SymTabs.SymTab.Lookup | Sources/Services/SymTab.swift:12-14 | Lookup returns the current binding of the key, or none when the key is unbound. |
| SymTabs.LookupAfterInsert | Sources/Services/SymTab.swift:8-14 | After an insert, the key reads back the new value and every other key reads back what it read before. |
| SymTabs.InsertKeepsKeys | Sources/Services/SymTab.swift:8-10 | Insert never removes a key, and a second insert of the same key overwrites the first. |
| TypecheckUtilities.ArithmeticSignatures | Sources/Utils/TypecheckUtilities.swift:2-6 | `+ - * / %` take two Ints and return Int. |
| TypecheckUtilities.ComparisonSignatures | Sources/Utils/TypecheckUtilities.swift:7-10 | `< <= > >=` take two Ints and return Bool. |
| TypecheckUtilities.EqualitySignatures | Sources/Utils/TypecheckUtilities.swift:11-12 | `==` and `!=` take two operands of one shared type and return Bool. |
| TypecheckUtilities.LogicalSignatures | Sources/Utils/TypecheckUtilities.swift:13-14 | `and` and `or` take two Bools and return Bool. |
| TypecheckUtilities.BuiltInFunctionSignatures | Sources/Utils/TypecheckUtilities.swift:15-17 | `print_int` takes an Int and `print_bool` a Bool, both returning Unit; `read_int` takes nothing and returns Int. |
| TypecheckUtilities.BuiltInNames | Sources/Utils/TypecheckUtilities.swift:1-18 | The table has an entry exactly for the 13 operators and the three runtime functions. |
| TypecheckUtilities.OperatorsAreBinary | Sources/Utils/TypecheckUtilities.swift:2-14 | Every operator entry has exactly two parameters. |
| Expressions.NewBlockExpression | Sources/Models/Expressions/BlockExpresion.swift:7-14 | The block initializer keeps its statements, result expression and location, and leaves the type unset. |
| Expressions.NewVarDeclarationExpression | Sources/Models/Expressions/VarDeclarationExpression.swift:9-17 | The declaration initializer keeps name, value, annotation and location; annotation and location default to none, and the type is unset. |
| Expressions.NewNotExpression | Sources/Models/Expressions/NotExpression.swift:8-12 | The `not` initializer keeps operand, operator text and location, and leaves the type unset. |
| Expressions.EraseOption | Sources/Utils/ExpressionUtilities.swift:2-4 | Erasing an optional tree keeps its presence. |
| Expressions.EraseAll | Sources/Models/Expressions/BlockExpresion.swift:16-26 | Erasing a statement list keeps its length. |
| Expressions.EraseAllAt | Sources/Models/Expressions/BlockExpresion.swift:16-26 | Erasing a statement list erases each statement in place. |
| Expressions.EqualIffErasedEqual | Sources/Utils/ExpressionUtilities.swift:1-34 | Structural equality holds exactly when the two trees agree once locations, resolved types and `not` operator text are dropped. |
| Expressions.CompoundEqualIffErasedEqual | Sources/Utils/ExpressionUtilities.swift:17-33 | The same characterisation for `if`, `while`, block and call nodes. |
| Expressions.OptionEqualIffErasedEqual | Sources/Utils/ExpressionUtilities.swift:1-4 | `areExpressionsEqual` on optional trees holds exactly when the erased options are equal. |
| Expressions.AllEqualIffErasedEqual | Sources/Models/Expressions/BlockExpresion.swift:16-26 | Two statement lists are pairwise equal and of the same length exactly when their erasures are equal. |
| Expressions.EqualIsEquivalence | Sources/Utils/ExpressionUtilities.swift:1-34 | Structural equality is reflexive, symmetric and transitive. |
| Expressions.AbsentExpressions | Sources/Utils/ExpressionUtilities.swift:2-4 | Two absent trees are equal, and an absent tree never equals a present one. |
| Expressions.DifferentKindsUnequal | Sources/Utils/ExpressionUtilities.swift:2-4 | Trees of different kinds are never equal. |
| Expressions.LiteralEquality | Sources/Utils/ExpressionUtilities.swift:7-16 | An Int literal never equals a Bool literal; two literals of one sort are equal exactly when their values are. |
| Expressions.BlockEquality | Sources/Models/Expressions/BlockExpresion.swift:16-26 | Blocks are equal exactly when they have as many statements, the statements are pairwise equal and the results are equal; blocks of different lengths are unequal. |
| Expressions.VarDeclarationEquality | Sources/Models/Expressions/VarDeclarationExpression.swift:19-23 | Declarations are equal exactly when name, value and annotation agree. |
| Expressions.VarDeclarationAnnotationMatters | Sources/Models/Expressions/VarDeclarationExpression.swift:19-23 | A declaration annotated `Int` differs from the same declaration without an annotation. |
| Expressions.NotEquality | Sources/Models/Expressions/NotExpression.swift:14-16 | `not` nodes are equal exactly when their operands are. |
| Expressions.PrecedenceTableShape | Sources/Utils/ExpressionUtilities.swift:36-44 | The precedence table has seven levels from `=` up to `* / %`, and no operator appears twice. |
| Strings.DigitChar | Sources/Services/Locals.swift:24 | A digit character has the digit's value. |
| Strings.NatToString | Sources/Services/Locals.swift:24 | The decimal text of a natural number is a non-empty string of digits. |
| Strings.IntToString | Sources/Services/AssemblyGenerator.swift:68 | The text of an integer starts with `-` or a digit. |
| Strings.ParseInt | Sources/Services/Parser.swift:36 | A parsed integer lies in the 64-bit range of Swift's `Int`. |
| Strings.DigitsValueOfNatToString | Sources/Services/Locals.swift:24 | The digits written for `n` have the value `n`. |
| Strings.ParseNatText | Sources/Services/Parser.swift:36 | The text of a natural number up to `Int.max` reads back as that number. |
| Strings.ParseNegativeText | Sources/Services/Parser.swift:36 | A minus sign before the text of `n`, for `0 < n <= 2^63`, reads back as `-n`. |
| Strings.ParseIntOfIntToString | Sources/Services/Parser.swift:36 | Reading back the text of any 64-bit integer gives that integer. |
| Strings.NatToStringInjective | Sources/Services/Locals.swift:24 | Different numbers have different decimal texts. |
| Strings.CountCharAppend | Sources/Services/AssemblyGenerator.swift:9-11 | Counting a character distributes over concatenation. |
| Strings.JoinNewlineCount | Sources/Services/AssemblyGenerator.swift:9-11 | Joining n lines that contain no newline gives a text with n - 1 newlines. |
| ParserSpec.SuffixTransitive | Sources/Services/Parser.swift:27 | A suffix of a suffix of the tokens is a suffix of the tokens. |
| ParserSpec.TailIsSuffix | Sources/Services/Parser.swift:27 | Moving past one token leaves a suffix. |
| ParserSpec.Consume | Sources/Services/Parser.swift:18-29 | `consume` leaves a suffix of the tokens. |
| ParserSpec.ParseIntLiteral | Sources/Services/Parser.swift:31-43 | Parsing an integer literal leaves a suffix of the tokens. |
| ParserSpec.ParseIdentifier | Sources/Services/Parser.swift:45-57 | Parsing a name leaves a suffix of the tokens. |
| ParserSpec.ParseFactor | Sources/Services/Parser.swift:59-76 | Parsing a factor leaves a suffix of the tokens. |
| ParserSpec.ParseParenthesized | Sources/Services/Parser.swift:78-83 | Parsing a parenthesized expression leaves a suffix of the tokens. |
| ParserSpec.TermLoop | Sources/Services/Parser.swift:90-97 | The term loop leaves a suffix of the tokens. |
| ParserSpec.ParseTerm | Sources/Services/Parser.swift:85-100 | Parsing a term leaves a suffix of the tokens. |
| ParserSpec.ExpressionLoop | Sources/Services/Parser.swift:107-114 | The expression loop leaves a suffix of the tokens. |
| ParserSpec.ParseExpression | Sources/Services/Parser.swift:102-117 | Parsing an expression leaves a suffix of the tokens. |
| ParserSpec.Parse | Sources/Services/Parser.swift:13-16 | `parse` leaves a suffix of the tokens. |
| Parsing.Parser.constructor | Sources/Services/Parser.swift:1-7 | A parser starts at position 0 of its tokens. |
| Parsing.Parser.Peek | Sources/Services/Parser.swift:9-11 | `peek` gives the next token, or none exactly at the end of input. |
| Parsing.Parser.Parse | Sources/Services/Parser.swift:13-16 | `parse` returns the result of `ParserSpec.Parse` on the unread tokens and moves past what it read. |
| Parsing.Parser.Consume | Sources/Services/Parser.swift:18-29 | `consume` returns the result of `ParserSpec.Consume` on the unread tokens and moves past one token exactly when it returns one. |
| Parsing.Parser.ParseIntLiteral | Sources/Services/Parser.swift:31-43 | Agrees with `ParserSpec.ParseIntLiteral` on the unread tokens, for both the result and the new position. |
| Parsing.Parser.ParseIdentifier | Sources/Services/Parser.swift:45-57 | Agrees with `ParserSpec.ParseIdentifier`, for both the result and the new position. |
| Parsing.Parser.ParseFactor | Sources/Services/Parser.swift:59-76 | Agrees with `ParserSpec.ParseFactor`, for both the result and the new position. |
| Parsing.Parser.ParseParenthesized | Sources/Services/Parser.swift:78-83 | Agrees with `ParserSpec.ParseParenthesized`, for both the result and the new position. |
| Parsing.Parser.ParseTerm | Sources/Services/Parser.swift:85-100 | The `while` loop agrees with `ParserSpec.ParseTerm`, for both the result and the new position. |
| Parsing.Parser.ParseExpression | Sources/Services/Parser.swift:102-117 | The `while` loop agrees with `ParserSpec.ParseExpression`, for both the result and the new position. |
| ParserProperties.ConsumeLosesNothing | Sources/Services/Parser.swift:18-29 | The token `consume` returns, followed by the rest, is the input, and otherwise nothing moves. It throws only on a value outside a non-empty accepted list, and returns none only at the end of input. |
| ParserProperties.PrintFactorOfOperator | Sources/Services/Parser.swift:63-66 | An operator tree printed as a factor is wrapped in `(` and `)`. |
| ParserProperties.IntTokenIsNotOpenParen | Sources/Services/Parser.swift:64-66 | An integer token is never taken for `(`. |
| ParserProperties.TermFromFactor | Sources/Services/Parser.swift:85-89 | A term starts with a factor and continues with the loop. |
| ParserProperties.ExpressionFromTerm | Sources/Services/Parser.swift:102-106 | An expression starts with a term and continues with the loop. |
| ParserProperties.TermLoopStep | Sources/Services/Parser.swift:90-97 | A `*` or `/` followed by a factor extends the left operand to the left. |
| ParserProperties.TermLoopStop | Sources/Services/Parser.swift:90 | The term loop stops, consuming nothing, before any token other than `*` or `/`. |
| ParserProperties.ExpressionLoopStep | Sources/Services/Parser.swift:107-114 | A `+` or `-` followed by a term extends the left operand to the left. |
| ParserProperties.ExpressionLoopStop | Sources/Services/Parser.swift:107 | The expression loop stops, consuming nothing, before any token other than `+` or `-`. |
| ParserProperties.FactorLiteral | Sources/Services/Parser.swift:31-43 | A 64-bit integer token parses to that literal and is consumed. |
| ParserProperties.FactorIdentifier | Sources/Services/Parser.swift:45-57 | A name token parses to that name and is consumed. |
| ParserProperties.FactorParenthesized | Sources/Services/Parser.swift:78-83 | `(`, an expression and `)` parse to the inner expression and consume the `)`. |
| ParserProperties.FactorRoundTrip | Sources/Services/Parser.swift:59-76 | A printed factor parses back to its tree, whatever follows it. |
| ParserProperties.ParenthesizedRoundTrip | Sources/Services/Parser.swift:78-83 | A parenthesized operator tree parses back to itself. |
| ParserProperties.TermRoundTrip | Sources/Services/Parser.swift:85-100 | A printed term parses to the term loop started on its tree. |
| ParserProperties.ProductRoundTrip | Sources/Services/Parser.swift:90-97 | A printed product parses its left operand, then its operator and right factor. |
| ParserProperties.ExpressionRoundTrip | Sources/Services/Parser.swift:102-117 | A printed expression parses to the expression loop started on its tree when no `*` or `/` follows. |
| ParserProperties.SumRoundTrip | Sources/Services/Parser.swift:107-114 | A printed sum parses its left operand, then its operator and right term. |
| ParserProperties.ParsePrintRoundTrip | Sources/Services/Parser.swift:13-16 | Parsing the printed tokens of any tree gives back the tree and consumes every token. |
| ParserProperties.PrintInjective | Sources/Services/Parser.swift:13-16 | Different trees print to different tokens. |
| ParserProperties.ParseLeavesTrailingTokens | Sources/Services/Parser.swift:13-16 | `parse` stops before the first token that cannot continue the expression and leaves it unread. |
| ParserProperties.AtEndOfInput | Sources/Services/Parser.swift:59-62 | At the end of input a factor, a term and an expression are all none. |
| ParserProperties.EmptyInput | Sources/Services/Parser.swift:13-16 | Parsing no tokens gives none. |
| ParserProperties.FailuresPropagate | Sources/Services/Parser.swift:85-117 | An error in the first factor is the term's error, and the term's error is the expression's. |
| ParserProperties.OperatorWithoutOperand | Sources/Services/Parser.swift:92-94 | An operator at the end of input is reported as no token found, carrying that operator. |
| ParserProperties.ExpressionLoopFailure | Sources/Services/Parser.swift:107-114 | An error in the term after `+` or `-` is the loop's error. |
| ParserProperties.OrphanAdditiveOperator | Sources/Tests/ParserTests.swift:105-127 | A trailing `+` or `-` fails with no token found after that operator. |
| ParserProperties.OrphanAfterTerm | Sources/Services/Parser.swift:92-94 | A trailing `*` or `/` after a term fails with no token found after that operator. |
| ParserProperties.OrphanAfterSum | Sources/Services/Parser.swift:92-94 | A trailing `*` or `/` after a sum fails inside the last term. |
| ParserProperties.OrphanMultiplicativeOperator | Sources/Tests/ParserTests.swift:105-127 | A trailing `*` or `/` fails with no token found after that operator. |
| ParserProperties.FactorTypeError | Sources/Services/Parser.swift:73-74 | A token that is not `(`, a literal or a name fails as an unexpected token type and nothing is consumed. |
| ParserProperties.IntegerOutOfRange | Sources/Services/Parser.swift:36-38 | An integer token whose text does not fit an `Int` is rejected and not consumed. |
| ParserProperties.LeftAssociativeExample | Sources/Tests/ParserTests.swift:42-61 | `10 + a - 3` groups as `(10 + a) - 3`. |
| ParserProperties.PrecedenceExample | Sources/Tests/ParserTests.swift:63-82 | `2 - 10 * 2` groups as `2 - (10 * 2)`. |
| ParserProperties.ParenthesesExample | Sources/Tests/ParserTests.swift:84-103 | `(2 - 10) * 2` groups as written. |
| ParserProperties.EmptyParenthesesExample | Sources/Tests/ParserTests.swift:129-141 | `()` fails on the `)` where a literal or a name was expected. |
| ParserProperties.EmptyParentheses | Sources/Services/Parser.swift:59-83 | Any `(` token followed by a `)` punctuation token fails on the `)`. |
| ParserProperties.ParenthesizedFailure | Sources/Services/Parser.swift:59-83 | After a `(`, an error in the inner expression is the error and rest of the whole parse. |
| ParserProperties.UnclosedParenthesis | Sources/Services/Parser.swift:78-83 | A `(` with no `)` before the end of input is accepted, and `(` alone parses to none. |
| TypecheckerSpec.Typecheck | Sources/Services/Typechecker.swift:4-23 | Typechecking only extends the environment: names are added and the names already bound keep their types. |
| TypecheckerSpec.TypecheckStatements | Sources/Services/Typechecker.swift:87-97 | A block's statements only extend the environment, and their successful result is Unit. |
| TypecheckerSpec.DeclarationFreeKeepsEnv | Sources/Services/Typechecker.swift:67-85 | Only variable declarations change the environment. |
| TypecheckerSpec.DeclarationFreeStatementsKeepEnv | Sources/Services/Typechecker.swift:87-97 | Statements without declarations leave the environment unchanged. |
| TypecheckerSpec.BinaryOpMatchesSignature | Sources/Services/Typechecker.swift:37-50 | An arithmetic, comparison or logical operator typechecks exactly when its operand types are the table's parameter types, and then has the table's return type. |
| TypecheckerSpec.BinaryOpErrors | Sources/Services/Typechecker.swift:27-57 | The operator errors, in the order the checks run: a type mismatch names both types, non-Int arithmetic expects Int, non-Bool logic expects Bool, and any other operator is unsupported. |
| TypecheckerSpec.AssignmentAndEqualityRules | Sources/Services/Typechecker.swift:33-35 | Assignment between equal types is Unit, and `==` and `!=` fail as unsupported. |
| TypecheckerSpec.VarDeclarationRule | Sources/Services/Typechecker.swift:67-85 | For any location and node type: a declaration succeeds exactly when its value typechecks, agrees with any annotation and the name is free, and is then Unit binding the name to the value's type. Otherwise the value's error comes first, then `inaproppriateType(annotation, [valueType])`, then `identifierAlreadyDeclared(id)`. |
| TypecheckerSpec.RedeclarationFails | Sources/Services/Typechecker.swift:67-85 | A name already bound can never be declared again; when the value and annotation are fine the error is `identifierAlreadyDeclared(id)`. |
| TypecheckerSpec.IfRule | Sources/Services/Typechecker.swift:99-116 | For any location and node type: a condition error propagates and a non-Bool condition gives expected Bool. With a Bool condition and no else, or a failing then-branch, the `if` is the then-branch's outcome. An else-branch's error propagates, an agreeing else gives the then-type, and a disagreeing one gives `inaproppriateType(thenType, [elseType])`. |
| TypecheckerSpec.BlockRule | Sources/Services/Typechecker.swift:87-97 | For any location and node type: a statement error is the block's outcome. Without a result expression the block is Unit; with one it is that expression's outcome, in the environment its statements left. |
| TypecheckerSpec.DeclarationStaysBound | Sources/Services/Typechecker.swift:83-97 | A declaration among a block's statements binds its name, to the type its value had at that point, in the environment all later statements and the result see. |
| TypecheckerSpec.BlockDeclarationStaysBound | Sources/Services/Typechecker.swift:83-97 | A name any statement of a block declares is still bound, with that type, after the whole block typechecks. |
| TypecheckerSpec.DeclarationVisibleAfterStatement | Sources/Services/Typechecker.swift:87-97 | In `{ var x: Int = 1; x }` the block is Int and `x` stays bound to Int after it. |
| TypecheckerSpec.ArithmeticAndComparisonExamples | Sources/Tests/TypecheckerTests.swift:9-21 | `1 + 2 - 3` is Int and `1 + 2 - 3 > 4` is Bool. |
| TypecheckerSpec.VarDeclarationExample | Sources/Tests/TypecheckerTests.swift:23-33 | `var x: Int = 1` is Unit, its value is Int, and `x` is then Int. |
| TypecheckerSpec.InvalidDeclarationExample | Sources/Tests/TypecheckerTests.swift:35-44 | `var x: Int = true` fails with expected Int, got Bool. |
| TypecheckerSpec.InvalidAssignmentExample | Sources/Tests/TypecheckerTests.swift:52-61 | `{ var x: Int = 1; x = true; }` fails with expected Int, got Bool. |
| TypecheckerSpec.UndefinedIdentifierExample | Sources/Tests/TypecheckerTests.swift:63-72 | `{ x = 2; }` fails on the undefined name `x`. |
| TypecheckerSpec.IfExample | Sources/Tests/TypecheckerTests.swift:74-79 | `if 4 > 2 then { 1 } else { 2 }` is Int. |
| TypecheckerSpec.InvalidConditionExample | Sources/Tests/TypecheckerTests.swift:81-90 | `if 4 * 2 then { 1 }` fails with expected Bool, got Int. |
| TypecheckerSpec.UnequalBranchesExample | Sources/Tests/TypecheckerTests.swift:92-102 | `if 4 > 2 then { 1 } else { true }` fails with expected Int, got Bool. |
| Typechecking.Typechecker.constructor | Sources/Services/Typechecker.swift:1-2 | A typechecker starts with an empty symbol table. |
| Typechecking.Typechecker.Typecheck | Sources/Services/Typechecker.swift:4-23 | Returns the type `TypecheckerSpec.Typecheck` gives, and leaves the symbol table as that function's environment, also on error. |
| Typechecking.Typechecker.TypecheckBinaryOpExpression | Sources/Services/Typechecker.swift:27-57 | Agrees with the specification on an operator node, for both the result and the table. |
| Typechecking.Typechecker.TypecheckIdentifierExpression | Sources/Services/Typechecker.swift:59-65 | Agrees with the specification on a name, and changes nothing. |
| Typechecking.Typechecker.TypecheckVarDeclarationExpression | Sources/Services/Typechecker.swift:67-85 | Agrees with the specification on a declaration, for both the result and the table. |
| Typechecking.Typechecker.TypecheckBlockExpression | Sources/Services/Typechecker.swift:87-97 | The statement loop agrees with the specification on a block, for both the result and the table. |
| Typechecking.Typechecker.TypecheckIfExpression | Sources/Services/Typechecker.swift:99-116 | Agrees with the specification on an `if`, for both the result and the table. |
| Ir.DestinationsAppend | Sources/Services/IrGenerator.swift:55-110 | Appending an instruction adds exactly its destination to the written variables. |
| Ir.DestinationsPrefix | Sources/Services/IrGenerator.swift:55-110 | A prefix of an instruction list writes a subset of its variables. |
| Ir.InDestinations | Sources/Services/IrGenerator.swift:55-110 | The destination of any instruction of the list is among the list's written variables. |
| Ir.VarName | Sources/Services/IrGenerator.swift:31-37 | The k-th temporary is named `x` followed by the digits of k. |
| Ir.VarNameInjective | Sources/Services/IrGenerator.swift:31-37 | Temporaries with different numbers have different names. |
| Ir.TempsStep | Sources/Services/IrGenerator.swift:31-37 | The next temporary is new: it is not among the earlier ones. |
| Ir.TempNamesOfTemps | Sources/Services/IrGenerator.swift:31-37 | The name of an issued temporary is among the issued names. |
| IrGeneratorSpec.NewVar | Sources/Services/IrGenerator.swift:31-37 | The next temporary is `x<counter>`. The counter goes up by one, its type is recorded, and instructions and symbols are untouched. |
| IrGeneratorSpec.Declare | Sources/Services/IrGenerator.swift:93-100 | The end of a declaration only grows the state. |
| IrGeneratorSpec.Visit | Sources/Services/IrGenerator.swift:14-29 | Visiting only grows the state: instructions are appended, bindings are kept and numbers are never reused. |
| IrGeneratorSpec.Generate | Sources/Services/IrGenerator.swift:8-12 | Generation only grows the state. |
| IrGeneratorSpec.InitialStateWellFormed | Sources/Services/IrGenerator.swift:1-6 | A fresh generator's state is well formed. |
| IrGeneratorSpec.PrefixDestinations | Sources/Services/IrGenerator.swift:55-110 | An earlier instruction list writes a subset of a later one's variables. |
| IrGeneratorSpec.NewVarWellFormed | Sources/Services/IrGenerator.swift:31-37 | A new temporary keeps the state well formed and has never been written. |
| IrGeneratorSpec.EmitWellFormed | Sources/Services/IrGenerator.swift:55-110 | Emitting an instruction that reads only written variables, into a fresh issued temporary, keeps the state well formed. |
| IrGeneratorSpec.FreshEmitWellFormed | Sources/Services/IrGenerator.swift:55-81 | Taking a new temporary and emitting into it keeps the state well formed and writes the temporary. |
| IrGeneratorSpec.BindWellFormed | Sources/Services/IrGenerator.swift:98 | Binding a name to a written variable keeps the state well formed. |
| IrGeneratorSpec.VisitWellFormed | Sources/Services/IrGenerator.swift:14-29 | Visiting any tree keeps the state well formed: reads only of written variables, single assignment, only issued temporaries, names bound to written variables, every temporary typed. A successful result has been written. |
| IrGeneratorSpec.LiteralWellFormed | Sources/Services/IrGenerator.swift:55-65 | Visiting a literal keeps the state well formed, and its result has been written. |
| IrGeneratorSpec.BinaryOpWellFormed | Sources/Services/IrGenerator.swift:67-81 | Visiting an operator node keeps the state well formed, and its result has been written. |
| IrGeneratorSpec.BinaryOpSteps | Sources/Services/IrGenerator.swift:67-81 | An operator node fails with its left operand's error, else with its right operand's, and only then reaches the closing call. |
| IrGeneratorSpec.CallWellFormed | Sources/Services/IrGenerator.swift:72-80 | A call over two written operands into a new temporary keeps the state well formed. |
| IrGeneratorSpec.VarDeclarationWellFormed | Sources/Services/IrGenerator.swift:83-101 | Visiting a declaration keeps the state well formed, and its result has been written. |
| IrGeneratorSpec.DeclareWellFormed | Sources/Services/IrGenerator.swift:93-100 | The end of a declaration keeps the state well formed, and its result has been written. |
| IrGeneratorSpec.BindCopyWellFormed | Sources/Services/IrGenerator.swift:93-99 | Binding the name to a new temporary and copying the value into it keeps the state well formed. |
| IrGeneratorSpec.GenerateWellFormed | Sources/Services/IrGenerator.swift:8-12 | Generating any expression list keeps the state well formed. |
| IrGeneratorSpec.VisitCallsAreBinary | Sources/Services/IrGenerator.swift:73-78 | Every call a visit emits, including those of nested operator nodes, has exactly two arguments. |
| IrGeneratorSpec.GenerateCallsAreBinary | Sources/Services/IrGenerator.swift:8-12 | Generating any expression list, even one that throws, only emits two-argument calls. |
| IrGeneratorSpec.VisitCounts | Sources/Services/IrGenerator.swift:14-110 | A successful visit emits one instruction, and uses one temporary, per literal, operator and declaration node. |
| IrGeneratorSpec.LiteralVisit | Sources/Services/IrGenerator.swift:55-65 | A typed, located Int literal takes the next temporary, records its type and loads the value into it. |
| IrGeneratorSpec.BoolLiteralVisit | Sources/Services/IrGenerator.swift:55-65 | A typed, located Bool literal takes the next temporary, records its type and loads the value into it with `LoadConst<Bool>`. |
| IrGeneratorSpec.BinaryOpVisit | Sources/Services/IrGenerator.swift:67-81 | A successful operator node visits left then right, and then emits one call of the operator over their temporaries into a new one. |
| IrGeneratorSpec.VarDeclarationVisit | Sources/Services/IrGenerator.swift:83-101 | For any location and node type, a redeclaration fails with nothing changed. A successful declaration has a location and binds the name to a new temporary of the value's type and copies the value into it. |
| IrGeneratorSpec.IdentifierVisit | Sources/Services/IrGenerator.swift:103-110 | A name emits nothing: it yields its bound temporary, or fails exactly when unbound. |
| IrGeneratorSpec.MissingLocationTakesANumber | Sources/Services/IrGenerator.swift:55-65 | A literal without a location fails, but only after using up a temporary number. |
| IrGeneratorSpec.UnimplementedKinds | Sources/Services/IrGenerator.swift:26-27 | `not`, `if`, `while`, block and call nodes stop generation and change nothing. |
| IrGeneratorSpec.DestinationsAreTyped | Sources/Services/IrGenerator.swift:35 | Every variable a well-formed run writes has a recorded type. |
| IrGeneration.IrGenerator.constructor | Sources/Services/IrGenerator.swift:1-6 | A generator starts with empty tables and counter zero. |
| IrGeneration.IrGenerator.Generate | Sources/Services/IrGenerator.swift:8-12 | The loop over the expressions agrees with `IrGeneratorSpec.Generate`, for both the error and the whole new state. |
| IrGeneration.IrGenerator.Visit | Sources/Services/IrGenerator.swift:14-29 | Agrees with `IrGeneratorSpec.Visit`, for both the result and the whole new state. |
| IrGeneration.IrGenerator.NewVar | Sources/Services/IrGenerator.swift:31-37 | Agrees with `IrGeneratorSpec.NewVar`. |
| IrGeneration.IrGenerator.UnwrapLocation | Sources/Services/IrGenerator.swift:39-44 | Gives the node's location, or a missing-location error exactly when it has none. |
| IrGeneration.IrGenerator.UnwrapType | Sources/Services/IrGenerator.swift:46-51 | Gives the node's type, or a missing-type error exactly when it has none. |
| IrGeneration.IrGenerator.HandleLiteralExpression | Sources/Services/IrGenerator.swift:55-65 | Agrees with the specification on a literal. |
| IrGeneration.IrGenerator.HandleBinaryOpExpression | Sources/Services/IrGenerator.swift:67-81 | Agrees with the specification on an operator node. |
| IrGeneration.IrGenerator.HandleVarDeclarationExpression | Sources/Services/IrGenerator.swift:83-101 | Agrees with the specification on a declaration, the duplicate check included. |
| IrGeneration.IrGenerator.HandleIdentifierExpression | Sources/Services/IrGenerator.swift:103-110 | Agrees with the specification on a name. |
| LocalsSpec.StackLocation | Sources/Services/Locals.swift:15-20 | The slot offset is found exactly when the variable has one; otherwise the error is `irVarNotFound` with that variable. |
| LocalsSpec.StackLocationText | Sources/Services/Locals.swift:22-25 | The operand text is `-<offset>(%rbp)` exactly when the variable has a slot; otherwise the same error. |
| LocalsSpec.SlotMapKeys | Sources/Services/Locals.swift:7-13 | Exactly the listed variables get a slot. |
| LocalsSpec.SlotOfLastOccurrence | Sources/Services/Locals.swift:7-13 | A variable's slot is fixed by its last occurrence in the list: 8 times its position, counting from 1. |
| LocalsSpec.DistinctSlots | Sources/Services/Locals.swift:7-13 | Without repetitions, the i-th variable (from 0) sits at `8 * (i + 1)`. |
| LocalsSpec.SlotsInFrame | Sources/Services/Locals.swift:7-13 | Every offset is a multiple of 8 between 8 and the stack size. |
| LocalsSpec.SlotsDisjoint | Sources/Services/Locals.swift:7-13 | Different variables never share a slot, even when the list repeats a variable. |
| LocalsSpec.SlotTextInjective | Sources/Services/Locals.swift:22-25 | Different offsets give different operand texts. |
| LocalsSpec.LookupFailsIffAbsent | Sources/Services/Locals.swift:15-20 | A lookup fails, with that variable, exactly when it was not listed. |
| LocalsSpec.ThreeVariableLayout | Sources/Tests/LocalsTests.swift:12-25 | `x0`, `x1`, `print_int` get slots 8, 16 and 24 (texts `-8(%rbp)`, `-16(%rbp)`, `-24(%rbp)`) in a 24-byte frame. |
| LocalsObject.Locals.constructor | Sources/Services/Locals.swift:7-13 | The `reduce` loop builds exactly the slot table of the list, and the stack size is 8 per entry. |
| LocalsObject.Locals.GetStackLocation | Sources/Services/Locals.swift:15-20 | Agrees with `LocalsSpec.StackLocation` on the object's table. |
| LocalsObject.Locals.GestStackLocation | Sources/Services/Locals.swift:22-25 | Agrees with `LocalsSpec.StackLocationText` on the object's table. |
| Intrinsics.IntComparison | Sources/Services/IntrinsicsHandler.swift:140-148 | The comparison appends four or five lines to the `inout` array and keeps what was in it. |
| Intrinsics.HandleIntrinsic | Sources/Services/IntrinsicsHandler.swift:2-33 | Lines come back exactly for the 13 listed operators, two to five of them. Any other operator throws `unknownIntrinsicsOperator` with its name. |
| Intrinsics.MoveResultText | Sources/Services/IntrinsicsHandler.swift:39-41 | The closing store is `movq <register>, <destination>`, left out when the destination is the register itself. |
| Intrinsics.ArithmeticLines | Sources/Services/IntrinsicsHandler.swift:52-80 | `+`, `-` and `*` load the first operand into `%rax`, apply `addq`, `subq` or `imulq` with the second, and store `%rax` unless it is the destination. |
| Intrinsics.DivisionLines | Sources/Services/IntrinsicsHandler.swift:82-102 | `/` and `%` sign-extend, divide by the second operand, and store the quotient from `%rax` or the remainder from `%rdx`. |
| Intrinsics.ComparisonShape | Sources/Services/IntrinsicsHandler.swift:140-148 | A comparison clears `%rax`, compares the operands in `%rdx`, sets `%al` and stores `%rax` unless it is the destination. |
| Intrinsics.ComparisonLines | Sources/Services/IntrinsicsHandler.swift:104-148 | Each of the six comparisons gives those lines with its own set-on-condition instruction. |
| Intrinsics.EqualityAndLessCases | Sources/Services/IntrinsicsHandler.swift:14-19 | `==`, `!=` and `<` use `sete`, `setne` and `setl`. |
| Intrinsics.OrderingCases | Sources/Services/IntrinsicsHandler.swift:20-25 | `<=`, `>` and `>=` use `setle`, `setg` and `setge`. |
| Intrinsics.ComparisonDispatch | Sources/Services/IntrinsicsHandler.swift:14-25 | Every comparison dispatches to the comparison lines with the instruction the table names. |
| Intrinsics.UnaryLines | Sources/Services/IntrinsicsHandler.swift:35-50 | `unary_not` flips the low bit in the destination itself; `unary_-` negates in `%rax` and stores it unless it is the destination. |
| Intrinsics.OperatorTablesPartition | Sources/Services/IntrinsicsHandler.swift:151-154 | The listed operators are exactly the arithmetic, division, comparison and unary ones, and these groups do not overlap. |
| Intrinsics.StoreRecognisable | Sources/Services/IntrinsicsHandler.swift:39-41 | After lines that end in no store, the last line is the store exactly when the destination differs from the result register. |
| Intrinsics.ResultStoredLast | Sources/Services/IntrinsicsHandler.swift:35-148 | For every operator except `unary_not`, the last line stores the result register exactly when the destination differs from it. |
| Intrinsics.ComparisonStoredLast | Sources/Services/IntrinsicsHandler.swift:145-147 | The same for the comparisons, whose result is in `%rax`. |
| Intrinsics.OtherStoredLast | Sources/Services/IntrinsicsHandler.swift:35-102 | The same for arithmetic, division and negation. |
| Intrinsics.ExtraArgumentsIgnored | Sources/Services/IntrinsicsHandler.swift:35-148 | Only the first one or two argument slots are ever read. |
| AssemblySpec.Slot | Sources/Services/AssemblyGenerator.swift:66 | A slot text is found exactly when the variable has a slot; otherwise the locals error is passed on. |
| AssemblySpec.SlotsLength | Sources/Services/AssemblyGenerator.swift:97 | Looking up a list of slots gives one text per variable. |
| AssemblyProperties.FirstMissingAppend | Sources/Services/AssemblyGenerator.swift:97 | The first unknown variable of a longer list is that of the prefix, else the new one when unknown. |
| AssemblyProperties.SlotsFailAtFirstMissing | Sources/Services/AssemblyGenerator.swift:97 | Mapping the lookup over a list fails exactly when a variable is unknown, with the first unknown one; on success the texts are the slots. |
| AssemblyProperties.InstructionFailsIffMissing | Sources/Services/AssemblyGenerator.swift:26-45 | An instruction fails exactly when a variable it reads or writes has no slot, and the error names the first such variable. |
| AssemblyProperties.SuppliedAppend | Sources/Services/AssemblyGenerator.swift:20 | Argument counts that suffice for two lists suffice for their concatenation. |
| AssemblyProperties.CopyFailsIffMissing | Sources/Services/AssemblyGenerator.swift:81-86 | A copy fails exactly when the source or destination has no slot, the source checked first. |
| AssemblyProperties.LowerSnoc | Sources/Services/AssemblyGenerator.swift:20 | Lowering one more instruction is one more step after the rest. |
| AssemblyProperties.StepThen | Sources/Services/AssemblyGenerator.swift:20 | One more step after two runs is one more step after the second. |
| AssemblyProperties.SuppliedPrefix | Sources/Services/AssemblyGenerator.swift:20 | A prefix of a list with enough arguments has enough arguments. |
| AssemblyProperties.LowerPrefixStep | Sources/Services/AssemblyGenerator.swift:20 | Lowering one more instruction of a prefix is one more step. |
| AssemblyProperties.StepAfterPrefix | Sources/Services/AssemblyGenerator.swift:47-53 | A step taken with lines already in the buffer leaves them in front. |
| AssemblyProperties.ErrorIsFinal | Sources/Services/AssemblyGenerator.swift:20 | Once an instruction throws, the remaining instructions add nothing. |
| AssemblyProperties.LowerAppend | Sources/Services/AssemblyGenerator.swift:20 | Lowering a concatenation lowers the first part and then, unless it threw, the second. |
| AssemblyProperties.LowerAllSucceed | Sources/Services/AssemblyGenerator.swift:20 | When no instruction throws, the lines are the concatenation of each instruction's lines. |
| AssemblyProperties.StopsAtFirstFailure | Sources/Services/AssemblyGenerator.swift:18-22 | When instruction j is the first to throw, the output holds exactly the lines of the instructions before it, and the error is its error. |
| AssemblyProperties.FailsIffSomeInstructionFails | Sources/Services/AssemblyGenerator.swift:18-22 | Generation fails exactly when some instruction throws. |
| AssemblyProperties.SuccessfulLayout | Sources/Services/AssemblyGenerator.swift:129-149 | A complete output is the nine prologue lines ending with the frame allocation, the instructions' lines and the seven epilogue lines. |
| AssemblyProperties.AllVariablesListed | Sources/Services/AssemblyGenerator.swift:13-16 | When every variable the instructions use is listed for `Locals`, no instruction throws and generation succeeds. |
| AssemblyProperties.AllPresentNoneMissing | Sources/Services/Locals.swift:7-13 | When every variable is listed, none is missing from the slot table. |
| AssemblyProperties.LineCounts | Sources/Services/AssemblyGenerator.swift:55-127 | Lines added per instruction: a label 2, a jump 1, a constant 1 or 2 (by width), a Bool 1, a copy 2, a conditional jump 3, an intrinsic 2 to 5, a print or `read_int` 2, any other call 0. |
| AssemblyProperties.SlotsSnoc | Sources/Services/AssemblyGenerator.swift:97 | Looking up one more known variable appends its slot text. |
| AssemblyProperties.SlotsSnocFails | Sources/Services/AssemblyGenerator.swift:97 | Looking up one more unknown variable fails with that variable. |
| AssemblyProperties.SlotsStep | Sources/Services/AssemblyGenerator.swift:97 | One more variable of a list whose prefix was found appends its slot, or fails with it. |
| AssemblyProperties.SlotsPrefixFailure | Sources/Services/AssemblyGenerator.swift:97 | Once a prefix fails, the whole list fails in the same way. |
| AssemblyProperties.BinaryOpCallUsesIntrinsic | Sources/Services/AssemblyGenerator.swift:96-105 | A call named after a listed operator becomes exactly that operator's lines over the two operand slots and the destination slot. |
| AssemblyProperties.ThreeSlots | Sources/Services/AssemblyGenerator.swift:97-99 | Two operands and a destination with slots give their three slot texts. |
| AssemblyProperties.UnlistedCallsEmitNothing | Sources/Services/AssemblyGenerator.swift:95-127 | A call to anything other than a listed operator, a print function or `read_int` emits nothing; `=`, `and` and `or` are such calls. |
| AssemblyProperties.JumpMatchesLabel | Sources/Services/AssemblyGenerator.swift:55-62 | A jump names its target exactly as the label's own line defines it. |
| AssemblyProperties.BoolConstantStored | Sources/Services/AssemblyGenerator.swift:75-79 | A Bool constant is stored as 1 or 0. |
| AssemblyProperties.WideLoadAsWrittenIsMalformed | Sources/Services/AssemblyGenerator.swift:69-71 | As written, the store line of a constant outside 32 bits ends in an extra `)` and is not the store line used everywhere else. |
| AssemblyProperties.WideLoadStoresLikeCopy | Sources/Services/AssemblyGenerator.swift:64-73 | As corrected, a wide constant's final line is the same store a copy into that slot ends with; constants that fit are unaffected. |
| AssemblyGeneration.AssemblyGenerator.constructor | Sources/Services/AssemblyGenerator.swift:13-16 | A generator starts with an empty buffer and the slot table and frame size of the given variable list. |
| AssemblyGeneration.AssemblyGenerator.Generate | Sources/Services/AssemblyGenerator.swift:18-22 | The buffer gains exactly `AssemblySpec.Assembly`: prologue, instruction lines, then the epilogue unless an instruction threw; the error is the first one thrown. |
| Pipeline.BinaryCallsSupplied | Sources/Services/AssemblyGenerator.swift:95-117 | Two-argument calls give the assembly generator every argument slot it indexes. |
| Pipeline.GeneratedCodeSupplied | Sources/Services/IrGenerator.swift:73-78 | The instructions a fresh IR generator emits meet the assembly generator's argument precondition. |
| AssemblyGeneration.AssemblyGenerator.HandleInstructions | Sources/Services/AssemblyGenerator.swift:20 | The loop appends the lowering of the instructions and returns its error. |
| AssemblyGeneration.AssemblyGenerator.HandleInstruction | Sources/Services/AssemblyGenerator.swift:26-45 | Appends the instruction's lines, or nothing and the error. |
| AssemblyGeneration.AssemblyGenerator.Emit | Sources/Services/AssemblyGenerator.swift:47-53 | Appends one line. |
| AssemblyGeneration.AssemblyGenerator.EmitAll | Sources/Services/AssemblyGenerator.swift:47-53 | Appends the lines in order. |
| AssemblyGeneration.AssemblyGenerator.HandleJumpInstruction | Sources/Services/AssemblyGenerator.swift:55-57 | Appends the jump's line. |
| AssemblyGeneration.AssemblyGenerator.HandleLabel | Sources/Services/AssemblyGenerator.swift:59-62 | Appends an empty line and the label line. |
| AssemblyGeneration.AssemblyGenerator.HandleLoadInt | Sources/Services/AssemblyGenerator.swift:64-73 | Appends the constant load (immediate, or through `%rax` with the corrected store), or fails on an unknown destination. |
| AssemblyGeneration.AssemblyGenerator.HandleLoadBool | Sources/Services/AssemblyGenerator.swift:75-79 | Appends the Bool load, or fails on an unknown destination. |
| AssemblyGeneration.AssemblyGenerator.HandleCopy | Sources/Services/AssemblyGenerator.swift:81-86 | Appends the copy through `%rax`, or fails on the first unknown variable. |
| AssemblyGeneration.AssemblyGenerator.HandleConditionalJump | Sources/Services/AssemblyGenerator.swift:88-93 | Appends the test and the two jumps, or fails on an unknown condition. |
| AssemblyGeneration.AssemblyGenerator.HandleCall | Sources/Services/AssemblyGenerator.swift:95-127 | Appends an intrinsic's, a print's or `read_int`'s lines, or fails on an unknown variable. |
| AssemblyGeneration.AssemblyGenerator.HandleIntrinsicCall | Sources/Services/AssemblyGenerator.swift:96-105 | Appends the operator's lines over the argument slots and the destination slot. |
| AssemblyGeneration.AssemblyGenerator.ArgumentLocations | Sources/Services/AssemblyGenerator.swift:97 | The loop returns the slot texts of the arguments, or the error of the first unknown one. |
| AssemblyGeneration.AssemblyGenerator.StartFile | Sources/Services/AssemblyGenerator.swift:129-139 | Appends the prologue, whose last line reserves the stack size. |
| AssemblyGeneration.AssemblyGenerator.EndFile | Sources/Services/AssemblyGenerator.swift:141-149 | Appends the epilogue. |

## Left out

- Tokenizing is not part of this model: `Tokenizer`, `RegexMatcher` and the regular
  expressions behind them. The parser takes a token list.
- `ErrorHandler`'s printing, the command line, `CompilerRunner`, `FileHelper` and `main` are
  I/O and are not modelled.
- `getIrVarsFromInstructions` is not part of this model. The assembly generator's
  constructor takes the variable list that `Locals` is built from as a parameter.
  `AssemblyProperties.AllVariablesListed` states what that list must contain.
- `IrUtilities` is not modelled; no modelled operation uses it.
- The parser tests for `if`, blocks, calls and declarations target a richer parser than
  `Parser.swift`, which only handles literals, names, `+ - * /` and parentheses. Only the
  tests that `Parser.swift` can parse are stated, and `%` is absent from its loops as in
  the code. The typechecker tests parse their input with that richer parser. The model
  states them over the trees that parser would build.
- AssemblyGeneration.AssemblyGenerator.HandleLoadInt: for a constant too wide for an
  immediate it follows `AssemblySpec.LoadIntLines`, so the store it appends is the
  corrected `movq %rax, <slot>`, not the `movq %rax, <slot>)` of
  `AssemblyGenerator.swift:71`. `AssemblySpec.InstructionLines`, `AssemblySpec.Assembly`
  and `AssemblyGeneration.AssemblyGenerator.Generate` therefore describe the corrected
  output. The line as written is `AssemblySpec.LoadIntLinesAsWritten`; see "## Findings".
- The typechecker has no rule for `while`, `not` or calls, and the IR generator has none
  for `not`, `if`, `while`, blocks or calls. Both call `fatalError` there. The model turns
  that crash into an error result: `UnsupportedExpressionType` and `UnimplementedExpression`.
- Swift's array-index traps become preconditions. `argsRefs[0]` and `argsRefs[1]` of an
  intrinsic and `arguments[0]` of a print call must exist (`ArgumentsSupplied`). The IR
  generator's output always meets this (`Pipeline.GeneratedCodeSupplied`).
- The intrinsics handler's helpers build a local array by appending. They are modelled as
  functions returning the finished list. The `inout` array of `intComparison` is a
  parameter and a return value.
- The `Decimal` and `pow` range test of `handleLoadInt` is modelled as the integer bounds
  -2^31 ≤ v < 2^31.
- The IR generator's `varTypes` table is keyed by the temporary's name. The source passes
  the `IrVar` itself to a string-keyed table.
- `String.Index` positions of a `Location` are plain integer offsets.
- The `asm` property, the newline-joined buffer, is a function with no contract of its
  own. `Strings.JoinNewlineCount` states its line structure.
- An `if` without `else` is typed as its then-branch, following the code
  (`Typechecker.swift:114`), not as Unit, which a branch that may not run would suggest.
- `Parsing.Parser.Consume`'s variadic argument is a sequence.

## Findings

| source | as written | input that shows it | evidently intended | confidence | as-written member | corrected member |
|---|---|---|---|---|---|---|
| Sources/Services/AssemblyGenerator.swift:71 | The store line of a constant that does not fit in 32 bits ends with an extra `)`. | Loading 2147483648 into the slot `-8(%rbp)` writes `movq %rax, -8(%rbp))`, which does not assemble. | `movq %rax, -8(%rbp)`, the store every other instruction writes. | not executed | AssemblyProperties.WideLoadAsWrittenIsMalformed | AssemblyProperties.WideLoadStoresLikeCopy |
