# rayac, verified

A model in Dafny of the core of rayac, a small compiler front end with a C back end, and proofs about it. It
covers the lexer, the parser, the semantic pass with its tables, the arena and the part of the C generator that
compiles `defer` away. Nothing here runs: the statements are checked by the Dafny verifier
(`dafny verify dfyconfig.toml`).

The parts, in the order in which they build on each other:

- `Ast`, `Tokens`: the syntax tree and the token kinds. A null node pointer is the constructor `NoExpr`,
  `NoBlock`, `NoStmt` or `NoType`.
- `Lexing`, `Lexer`, `LexTiling`, `Relexing`: what is read at a position, the lexer object, the tiling of the
  source by tokens and gaps, and maximal munch with the re-lexing of printed tokens.
- `ParserSpec`, `Parser`, `Declarations`: the parser as functions over a token list, the parser object proved to
  compute them, and declarations with the recovery loop.
- `PrattRoundTrip`, `TypeRoundTrip`, `BlockRoundTrip`, `ExprText`, `FrontEnd`: printing expressions, types and
  blocks and parsing them back, the generator's expression output, and the round trip through source text.
- `Semantics`, `CTarget`, `Lowering`, `CText`: source statements with scoped defers, structured C, and the lowering
  between them. Expressions are opaque actions with a trace, except that `unsafe` blocks are run as blocks where they
  stand as statements, at the end of a block or in a `defer`; both sides run on the same fuel, so "same answer for
  every fuel" covers endless runs as well.
- `Emission`, `GenEnds`, `LoweredText`, `CGen`: what the generator writes from its two stacks, for which bodies that
  ends, that it is the text of the lowering, and the generator object itself.
- `DeferCorrect`, `DeferExact`, `DeferWitness`, `DeferTrace`, `GenRight`: the lowering is right, exactly when it is,
  what it does with each registration, and when the generator as a whole is right.
- `Divergence`: the divergence analysis against the same semantics.
- `Types`, `Fnv`, `TypeTable`, `Scopes`, `MethodTable`: coercion, the hash-consed type table, scopes as bucket
  chains and the method table.
- `Checker`, `Sema`, `UnsafeGating`, `ScalarRuns`, `ScalarSound`, `ScalarSafe`, `ConstEval`: the checker as
  functions, the checker object, unsafe gating, the soundness of scalar bodies, and constant evaluation.
- `Bits`, `Arena`: alignment arithmetic on bits, and the allocator.

Imperative code is modelled as classes and loops, each proved against a function; what the source promises is
proved about the function. Inductions are written out: lemmas for which Dafny would add a hypothesis of its own
have that switched off.

## Where the code falls short

These are facts about the code that the proofs made precise; the model follows the code.

- A function's trailing expression is returned before the defers of its outermost block, which then never run
  (src/codegen_c.c:320-330), and a block silently drops every defer after the 32nd (src/codegen_c.c:508-510):
  `DeferWitness.LoweringExact`.
- A `return` in a deferred `unsafe` block pastes all defers, that block included, so generating it never ends and
  overruns the stack of 64 levels; a `break` or `continue` of a loop around the block does the same
  (src/codegen_c.c:243-252, 370-373, 518-533): `GenEnds.EmissionExact`, `GenEnds.DeferredReturnFails`,
  `GenRight.GeneratorExact`.
- An `unsafe` block inside of an expression, as in `return unsafe { *p };` or `var x = unsafe { *p };`, is written as
  a block in braces where C wants an expression (src/codegen_c.c:773-776): such text is no C, and the results leave
  such bodies out.
- The generator takes every binary expression for a range, so `for i: t in a + b` runs from `a` to `b`
  (src/codegen_c.c:428-430). It tests the end of a range anew on every round (src/codegen_c.c:450-459) and evaluates
  the operand of a `return` after the defers have run (src/codegen_c.c:370-380). Nothing else says what the source
  means in the last two cases, so the meaning of the source is taken from the generator there.
- The divergence analysis misses `else if` (src/sema.c:130-136): `Divergence.ElseIfMissed`,
  `Divergence.DivergenceIgnoresElseIf`.
- Coercion does not compose through pointers and is not antisymmetric for references, and it stores a pointer as
  the value behind it (src/type.c:187-190): `Types.CoerceMutual`, `Types.CoerceThrough`, `ScalarSound.StoreExact`.
- The checker accepts `~` and `%` on floats, comparisons between any two types, compound assignments on booleans,
  and any trailing value, or none, in a function that has a `return` somewhere (src/sema.c:501-505, 691-730): the
  `Exact` lemmas of `ScalarSound`, `ScalarSafe.TrailingUnchecked`, `ScalarSafe.DeadReturnAccepted` and
  `ScalarSafe.MissingUnchecked`. It also takes the value of a last nested block for the result, which the generator
  does not return: `ScalarSafe.BlockResultAccepted`.
- Only the dereference operator is gated. A raw pointer is also read through `p.f` (src/sema.c:831-832), through a
  method call on it (src/sema.c:952-956) and by the coercion to the type behind it wherever a value is stored, passed
  or returned (src/type.c:190): `UnsafeGating.FieldUngated`, `UnsafeGating.CallUngated`, `UnsafeGating.StoreUngated`.
- Constant division by zero is zero without an error, and the quotient of a negative constant is in general not the
  integer quotient (src/sema.c:285-286): `ConstEval.DivisionUnchecked`, `ConstEval.DivisionExact`. Negating the word
  2^63 is a signed overflow (src/sema.c:293), undefined in C; the model wraps there: `ConstEval.NegationExact`.
- The lexer makes `Self` a keyword (src/lexer.c:40) that the type parser does not know (src/parser.c:734-740), so
  `Self` cannot be written as a type: `FrontEnd.SelfTypeRejected`. A condition that ends in a capitalised name
  of its own swallows the block after it as a struct literal, while a capitalised field does not
  (src/parser.c:241-248): `PrattRoundTrip.BraceExact`.
- A method declared twice is resolved to the last declaration by the checker and to the first by the generator:
  `MethodTable.AgreeExactly`.

## Model

| member | source | states |
|---|---|---|
| `DeferExact.LoweringPreserves` | src/codegen_c.c:312-553 | For every covered body in which no reachable block, deferred blocks included, drops a defer that does something, and no trailing result skips an outermost one: under every meaning of the expressions, every fuel and every start state, the emitted C gives the same final state, result and kind of completion as the source body |
| `DeferWitness.LoweringExact` | src/codegen_c.c:506-512 | A covered body is lowered rightly under every meaning of its expressions if and only if it is good: no reachable block, deferred blocks included, drops a 33rd or later defer that performs an action, and no trailing result skips such a defer of the outermost block; otherwise a meaning and a start state are constructed under which the answers differ |
| `GenRight.GeneratorExact` | src/codegen_c.c:243-553 | For every body of the modelled statements with at most 32 defers a scope and within the fixed stacks: the generator's output ends, reads as C and answers as the source under every meaning of the expressions, fuel and start state if and only if no `return`, and no `break` or `continue` of an outer loop, stands in a deferred block, and no trailing result skips a defer of the outermost block that does something |
| `GenEnds.EmissionExact` | src/codegen_c.c:243-252 | Within the fixed stacks a body has a text if and only if no jump leaves a deferred block that is kept (one of the first 32 of its scope); otherwise the generator pastes the block again and again until its stack of levels is overrun, whatever the nesting |
| `GenEnds.BlockFails` | src/codegen_c.c:312-338 | A block with such a deferred block, however deep inside, in a deferred block or in a loop, has no text on top of any levels and loops |
| `GenEnds.BlockEnds` | src/codegen_c.c:312-338 | Without such a deferred block the output of a block ends on top of all levels its jumps may paste, if their copies and its nesting fit the stacks |
| `GenEnds.DeferredReturnFails` | src/codegen_c.c:370-373 | The body `{ defer unsafe { return; }; }`, of the modelled statements and two blocks deep, has no text |
| `GenRight.CoveredExact` | src/codegen_c.c:506-512 | Without dropped defers, the bodies the lowering covers are exactly those with a text |
| `LoweredText.BlockSays` | src/codegen_c.c:312-338 | Wherever the output for a covered block ends, it is the text of the lowered block, the copies of its deferred blocks and of those around it included |
| `LoweredText.CopyAnywhere` | src/codegen_c.c:243-252 | A deferred block that no jump leaves is lowered alike wherever it is pasted: the levels and loops around the copy do not matter |
| `DeferCorrect.CopyRuns` | src/codegen_c.c:773-776 | Running the copy of a deferred expression, a block with defers of its own or not, does what running the expression means |
| `DeferCorrect.BodyLowering` | src/codegen_c.c:312-338 | With the limit of 32 built into the source semantics, every covered body and its emitted C agree, except that a trailing expression is returned before the outermost defers, which then never run; that case is described exactly |
| `DeferCorrect.SimStmts` | src/codegen_c.c:317-319 | Running the emitted statements reaches what the source statements reach, after paying the defers each exit owes to the levels it leaves |
| `DeferCorrect.SimBlock` | src/codegen_c.c:312-338 | An emitted block does what the source block does, whatever its exit, and leaves the outer levels' defers to their own exits |
| `DeferCorrect.SimLoop` | src/codegen_c.c:413-423 | `break` and `continue` run the defers of the levels inside the loop and no others, on every iteration |
| `DeferTrace.EmittedDefersRunOnce` | src/codegen_c.c:243-252 | Every completed run of the emitted code of a good body performs exactly the actions of a log in which each registration runs exactly once, always the latest one that has not run yet, and none is left over |
| `DeferTrace.ScanCounts` | src/codegen_c.c:243-252 | A log read against a stack of registrations that ends empty holds as many runs of each expression as registrations |
| `DeferTrace.BodyAccounts` | src/codegen_c.c:312-338 | A completed source body accounts for every action it performed and leaves no registration behind |
| `CGen.Generator.EmitDefers` | src/codegen_c.c:243-252 | Appends the pending defers from the top level down to a level, newest first, generating deferred blocks on top of all levels; both stacks and the indent are as before |
| `CGen.Generator.EmitLevel` | src/codegen_c.c:245-251 | Appends the deferred expressions of one level, the last one first, with the stacks restored after each |
| `CGen.Generator.EmitBlock` | src/codegen_c.c:312-338 | Appends exactly the text of the block for these stacks; the level it opens is dropped again, and no index leaves the fixed stacks |
| `CGen.Generator.EmitStmts` | src/codegen_c.c:317-319 | Appends the text of the statements and leaves on the top level exactly the defers they register, up to 32 |
| `CGen.Generator.EmitTrailing` | src/codegen_c.c:320-327 | Appends the trailing expression, as a `return` where the block is a function body |
| `CGen.Generator.EmitExpr` | src/codegen_c.c:773-776 | Appends an expression with its semicolon, an `unsafe` block as a block of its own |
| `CGen.Generator.EmitStmt` | src/codegen_c.c:343-553 | Appends exactly the text of the statement and registers exactly the defers it stands for |
| `CGen.Generator.EmitLoop` | src/codegen_c.c:413-459 | The loop head, then the body under a loop base equal to the current defer level, which is popped again |
| `CGen.Generator.EmitLoopDefers` | src/codegen_c.c:518-533 | Before `break` or `continue`: the defers of the levels opened since the innermost loop; outside of loops nothing |
| `CGen.Generator.EmitElse` | src/codegen_c.c:398-407 | `else` with a block or with the next `if` of a chain, or nothing |
| `CGen.GenerateBody` | src/codegen_c.c:922-953 | For every body in which no jump leaves a deferred block, within the fixed stacks, the output is its text; that of a covered body, read as C, is its lowered form and nothing else |
| `CText.ReadPrint` | src/codegen_c.c:312-338 | Printing structured C and reading it back is the identity, up to what follows |
| `CTarget.RunAppend` | src/codegen_c.c:312-338 | Running emitted code in two pieces is running the pieces one after the other |
| `Divergence.BlockDivergenceSound` | src/sema.c:115-163 | When the analysis calls a block diverging, no run of it falls out of its end: for all nestings, with `noreturn` calls that do not return and exhaustive matches |
| `Divergence.DivergenceExact` | src/sema.c:115-150 | Without `else if` and `noreturn` calls the analysis says yes if and only if no meaning of the expressions, no fuel and no state lets a run fall out |
| `Divergence.ElseIfMissed` | src/sema.c:130-136 | No `if` with an `else if` is ever called diverging, while some run passes it if and only if some run passes one of its two branches |
| `Divergence.DivergenceIgnoresElseIf` | src/sema.c:115-150 | With `else if` anywhere the analysis says yes if and only if no run falls out of the block left when all `else if` branches are taken away |
| `Types.CoerceIffDirect` | src/type.c:165-197 | The recursive coercion test holds if and only if some layer of the target below optionals and error unions is reached by one direct coercion |
| `Types.CoerceReflexive` | src/type.c:166-166 | Every type coerces to itself |
| `Types.CoerceTransitive` | src/type.c:165-197 | Coercion is transitive on types without pointers and references |
| `Types.CoerceMutual` | src/type.c:165-197 | Two different types coerce to each other if and only if one is a reference to the other, which is itself no reference |
| `Types.CoerceAntisymmetric` | src/type.c:165-197 | Coercion is antisymmetric between types that are no references, pointers included; with transitivity it is a partial order on types without pointers and references |
| `Types.ComposeExact` | src/type.c:165-197 | A coercion followed by a direct one to another type is a direct coercion if and only if it is not blocked: exactly which steps over pointers and references do not compose |
| `Types.CoerceThrough` | src/type.c:165-197 | A coercion from one type to another can be followed by every coercion of the other if and only if the two are equal, or a mutable reference and its base (no number, pointer or reference), a value and a reference to it, a mutable reference and its constant form, or a pointer to a constant reference to a reference; in all other cases a type is given that the second coerces to and the first does not |
| `Types.CoerceNotAnOrder` | src/type.c:187-190 | For every type, a pointer to a pointer to it coerces to it in two steps and not in one |
| `TypeTable.HashShape` | src/type.c:14-60 | The computed hash depends only on the shape, with the wrap-around and truncation of the source |
| `TypeTable.ShapeEq` | src/type.c:62-88 | The comparison loop says yes exactly for equal shapes: same kind, same scalars, same part objects |
| `TypeTable.OneObjectPerTree` | src/type.c:90-98 | In a canonical table two types are the same object if and only if they denote the same type tree |
| `TypeTable.SameShape` | src/type.c:90-98 | In a canonical table equal trees have equal shapes, so they meet in one bucket |
| `TypeTable.PushCanonical` | src/type.c:95-97 | Adding a type of a new shape keeps the table canonical: one bucket per shape, no two equal shapes in a chain |
| `TypeTable.Table.Intern` | src/type.c:90-98 | Returns the one object with the shape, adding it if there is none; the table stays canonical and no older type changes |
| `TypeTable.Table.Search` | src/type.c:93-94 | The chain walk finds the object of the shape, or there is none in the table |
| `TypeTable.Table.Pointer` | src/type.c:121-124 | The returned object denotes a pointer to the tree of the base |
| `TypeTable.Table.Optional` | src/type.c:141-144 | The returned object denotes the optional of the tree of the base |
| `TypeTable.Table.ErrorUnion` | src/type.c:146-149 | The returned object denotes the error union of the two trees |
| `TypeTable.Table.Function` | src/type.c:151-159 | The returned object denotes the function type of the parameter and result trees |
| `TypeTable.Table.PointerEquality` | src/type.c:161-161 | After any calls on one table, two of its types are the same object if and only if they denote the same tree |
| `Scopes.FindInBucket` | src/symbol.c:33-38 | Searching one bucket finds what searching all bindings of the scope finds |
| `Scopes.Scope.Insert` | src/symbol.c:40-45 | The new binding comes first, the bucket chains still spell out all bindings |
| `Scopes.Scope.LookupCurrent` | src/symbol.c:33-38 | Returns the latest binding of the name in the scope, or null when there is none |
| `Scopes.ScopeStack.Open` | src/symbol.c:12-23 | An empty scope is put in front; everything visible stays visible |
| `Scopes.ScopeStack.Close` | src/sema.c:524-524 | The innermost scope is dropped, all others are as before |
| `Scopes.ScopeStack.Insert` | src/symbol.c:40-45 | The binding is added to the innermost scope only |
| `Scopes.ScopeStack.Lookup` | src/symbol.c:25-31 | Returns the binding in the nearest enclosing scope that has one, as a list environment would |
| `Scopes.NestedRestores` | src/sema.c:514-526 | After any balanced run of openings, insertions in inner scopes and closings, every lookup answers as before |
| `Scopes.Run` | src/sema.c:514-526 | Any sequence of openings, insertions of new symbols and closings, made on the scopes, leaves the list environment that playing the sequence on lists gives |
| `ParserSpec.ParseBp` | src/parser.c:412-439 | The cursor never moves back nor passes the end of file, and an expression that is not null has consumed a token; remaining tokens with a rank measure the whole mutual recursion |
| `ParserSpec.ParseBlock` | src/parser.c:450-501 | Ends on every readable token list, moves only forward, and a block that is not null has consumed a token |
| `ParserSpec.ParseStmt` | src/parser.c:507-633 | The same for statements |
| `ParserSpec.ParseType` | src/parser.c:695-764 | The same for types |
| `Parser.Parser.Bp` | src/parser.c:412-439 | Cursor, tree and error flag are those of the specification, for every binding power |
| `Parser.Parser.Infix` | src/parser.c:418-438 | The operator loop builds the left-associated tree of the specification and ends with an optional cast |
| `Parser.Parser.Prefix` | src/parser.c:292-346 | Prefix operators, `try` and `unsafe` as specified |
| `Parser.Parser.Primary` | src/parser.c:200-286 | Literals, names, struct and array literals and parentheses as specified, an error otherwise |
| `Parser.Parser.Postfix` | src/parser.c:352-406 | The postfix loop reads fields, calls, method calls, indexes and slices as specified |
| `Parser.Parser.Elems` | src/parser.c:262-279 | Array elements with the sentinel comma as specified; null elements are dropped |
| `Parser.Parser.Inits` | src/parser.c:185-195 | Field initialisers as specified, with or without a last comma |
| `Parser.Parser.Args` | src/parser.c:363-371 | Arguments as specified, one more for every comma |
| `Parser.Parser.Items` | src/parser.c:458-497 | The block loop: statements, then a trailing expression, a closing brace or an error, as specified |
| `Parser.Parser.Statement` | src/parser.c:507-633 | Every statement form except `match`, as specified |
| `Parser.Parser.IfStatement` | src/parser.c:542-554 | `else if` becomes a statement node, `else` a block node |
| `Parser.Parser.ForStatement` | src/parser.c:563-574 | The loop variable, its type, the iterated expression and the body as specified |
| `Parser.Parser.TypeExpression` | src/parser.c:695-764 | A primary type with an optional `?` or error-union suffix, as specified |
| `Parser.Parser.PrimaryType` | src/parser.c:701-755 | The prefix forms, function types and named types as specified |
| `Declarations.TopLevel` | src/parser.c:1171-1224 | A declaration has consumed a token; without one an error has been reported |
| `Declarations.ExtendMethod` | src/parser.c:1086-1127 | Every round of the method loop consumes a token, also where no `fn` stands |
| `Declarations.TraitMethod` | src/parser.c:1031-1058 | Every round of the trait loop consumes a token |
| `Declarations.Unit` | src/parser.c:1230-1273 | Parsing a unit ends, exactly at the end-of-file token; recovery drops tokens only after an error, and the declarations and all dropped tokens, those inside of traits and extensions included, are together no more than the tokens read |
| `PrattRoundTrip.PrintThenParse` | src/parser.c:412-439 | An expression printed with the parentheses its powers need, or with all of them, anywhere in a token list, parses back to itself without error and the parser stops at the first token after it |
| `PrattRoundTrip.BraceExact` | src/parser.c:241-248 | Before an opening brace a printed expression is read whole if and only if its last leaf is not a capitalised name of its own (the name of a field may be); otherwise the parser reads past the brace |
| `PrattRoundTrip.ExpressionRoundTrip` | src/codegen_c.c:643-656 | The same with nothing assumed about the surroundings: printed in either style, the generator's fully parenthesised one included, and followed by the end of file |
| `TypeRoundTrip.TypeReads` | src/parser.c:695-764 | A type text is read back to the type, for every type with printable lengths in which a suffix stands only after a type whose text takes it no more |
| `TypeRoundTrip.ParsedType` | src/parser.c:695-764 | Every type read without an error is of that shape, whatever its lengths |
| `TypeRoundTrip.NoOtherType` | src/parser.c:695-764 | A type with printable lengths that has no text is the result of no successful parse, of any token list at any place |
| `BlockRoundTrip.BlockReads` | src/parser.c:450-501 | A printed block, anywhere in a readable token list, is parsed back to itself without error up to the token after it: declarations, assignments, `if` with `else if` chains, loops, `defer`, `errdefer`, jumps, nested blocks and a trailing expression |
| `BlockRoundTrip.StmtReads` | src/parser.c:507-633 | The same for each statement that a keyword or a brace starts |
| `BlockRoundTrip.ExprItemReads` | src/parser.c:479-490 | The same for assignments and expression statements |
| `BlockRoundTrip.ConditionReads` | src/parser.c:543-544 | A printed expression before a brace is read whole if and only if it is a condition: one that does not end in a capitalised name of its own |
| `ExprText.Writer.EmitExpr` | src/codegen_c.c:585-725 | Appends exactly the fully parenthesised text of the expression, the one the round trip reads back |
| `ExprText.Writer.EmitArgs` | src/codegen_c.c:649-656 | The argument loop writes the list with a comma before every argument but the first |
| `FrontEnd.SelfTypeRejected` | src/parser.c:734-740 | The lexer makes `Self` a keyword that the type parser rejects, so its branch for a type named `Self` is dead on lexed text |
| `PrattRoundTrip.ShowParses` | src/parser.c:146-174 | The text of an expression shown for a power is read whole by a call for that power |
| `PrattRoundTrip.ShowReads` | src/parser.c:418-431 | A call for a lower power reads the same expression and goes on with its operator loop |
| `Lexer.Lexer.Skip` | src/lexer.c:80-122 | Skips exactly the longest run of white space and comments, counting lines and errors |
| `Lexer.Lexer.SkipComment` | src/lexer.c:92-115 | Stops where the nesting returns to zero, at the seventeenth level with an error, or at the end |
| `Lexer.Lexer.Ident` | src/lexer.c:162-165 | Reads exactly the identifier characters |
| `Lexer.Lexer.Number` | src/lexer.c:174-205 | Reads exactly the number: base prefixes, no point before `..`, exponents with a sign |
| `Lexer.Lexer.String` | src/lexer.c:224-241 | Reads to the closing quote, a newline (an error) or the end, with escapes |
| `Lexer.Lexer.Character` | src/lexer.c:244-261 | Reads a character literal; without a closing quote it is an error |
| `Lexer.Lexer.Punctuation` | src/lexer.c:263-346 | The branches on the next characters read the operator of `Lexing.Operator`, which is spelled there (`Relexing.OperatorSpelled`) and the longest one spelled there (`Relexing.LongestOperator`), or one character with an error |
| `Lexer.Lexer.Next` | src/lexer.c:145-351 | Returns the head of the token stream and leaves the tail; the end of file comes again and again; the line counter is right |
| `Lexer.Lexer.Peek` | src/lexer.c:353-359 | Peeking, any number of times, changes neither the answer nor the stream |
| `Lexer.Lexer.Drop` | src/lexer.c:361-364 | Drops exactly one token of the stream |
| `Lexer.Lexer.All` | src/lexer.c:145-351 | Reading until the end of file ends and gives the whole stream |
| `Lexing.NextLexeme` | src/lexer.c:145-170 | A token lies inside the source, is not empty unless it is the end of file, and carries its text and line |
| `LexTiling.StreamTiles` | src/lexer.c:145-351 | For every source: the tokens are in order, each gap between them is made of white space and comments only, each token's line is one plus the newlines before it, and the last is the end of file |
| `LexTiling.TilesRebuild` | src/lexer.c:124-131 | Gaps and token texts put together are the source |
| `LexTiling.CommentDepth` | src/lexer.c:94-115 | A skipped block comment ends where its depth is zero for the first time, or at the seventeenth level (the one error), or with the source |
| `LexTiling.GapStops` | src/lexer.c:80-122 | No white space or comment starts where a gap ends |
| `Relexing.OperatorSpelled` | src/lexer.c:263-346 | The operator read is spelled by the characters there, and its length is that of its spelling |
| `Relexing.LongestOperator` | src/lexer.c:263-346 | Maximal munch: no operator spelled by the next characters is longer than the one read |
| `Relexing.Relexes` | src/lexer.c:145-346 | Names, keywords, operators, decimal integers and closed strings printed with single spaces are lexed to the same kinds and texts |
| `FrontEnd.SourceRoundTrip` | src/parser.c:441-444 | Lexer and parser together: an expression written as source text, in either style, is read back to itself |
| `FrontEnd.LexedReadable` | src/lexer.c:145-351 | The tokens of every source without the word `match` are a list on which the parser's termination is proved |
| `Sema.Sema.Expression` | src/sema.c:647-1050 | Type, error count, `return` flag and restored context are those of the specification, for every form of expression |
| `Sema.Sema.MethodCallType` | src/sema.c:948-1012 | Self is set only while the signature is resolved; receiver and arguments are compared as specified |
| `Sema.Sema.Args` | src/sema.c:766-778 | Arguments are checked and compared one by one, and only when their number is right |
| `Sema.Sema.Capture` | src/sema.c:1016-1050 | The error is bound in a scope of its own; a fallback must diverge or produce the success type |
| `Sema.Sema.Elems` | src/sema.c:881-897 | The element type is widened along the elements as specified |
| `Sema.Sema.Inits` | src/sema.c:926-944 | Every initialiser is compared with the declared field of its name |
| `Sema.Sema.BlockType` | src/sema.c:514-526 | A block is checked in a scope of its own, which is closed again |
| `Sema.Sema.Statement` | src/sema.c:528-642 | Errors, type and the extended scope are those of the specification, for every statement |
| `Sema.Sema.FnBody` | src/sema.c:459-509 | The scopes, the unsafe flag and Self are as before, and the error count grows by the errors of the specification |
| `Sema.Sema.Params` | src/sema.c:476-492 | Parameters are bound in order; `self` sets the type of Self |
| `UnsafeGating.FunctionGating` | src/sema.c:728-741 | A function is accepted if and only if it would be accepted as an unsafe function and it is one, or every dereference of a raw pointer in its body lies in an unsafe block |
| `UnsafeGating.ExprGates` | src/sema.c:807-814 | Outside of unsafe code an expression is accepted if and only if it is accepted inside and its raw dereferences are all gated; its type is the same |
| `UnsafeGating.BlockGates` | src/sema.c:514-526 | The same for blocks, with the scopes their statements build up |
| `UnsafeGating.FieldUngated` | src/sema.c:831-832 | Outside of unsafe code `p.f` on a raw pointer is checked as `(*p).f` is, without its error |
| `UnsafeGating.CallUngated` | src/sema.c:952-956 | A method called on a raw pointer is checked as on the value behind it, without the error of the dereference |
| `UnsafeGating.StoreUngated` | src/type.c:190-190 | A variable takes a raw pointer to its type as it takes the value behind it, without the error of the dereference |
| `ScalarSafe.FunctionSafe` | src/sema.c:459-509 | No run of an accepted scalar function whose body is safe goes wrong, on any machine, from any store of the right kinds: no operator, condition, store, assignment or result meets a value of the wrong kind, and no run ends without the result the function owes. Safe is a condition on types and control flow alone, computed from the body before any run |
| `ScalarSound.FunctionSound` | src/sema.c:459-509 | A run of any accepted scalar function goes wrong if and only if it reaches an operator, a store or a result whose types are not safe, or ends without the result it owes; in every other case all variables and the result have their declared kinds |
| `ScalarSound.ExprSound` | src/sema.c:686-750 | An accepted scalar expression evaluates to a value of its static kind, and fails if and only if it reaches an operator whose operand types are not safe |
| `ScalarSound.StmtsSound` | src/sema.c:528-642 | After every run of accepted statements each variable holds a value of its declared kind and the scopes are those the checker computed; the run goes wrong if and only if it reaches an unsafe place |
| `ScalarSound.BinaryExact` | src/sema.c:691-719 | An accepted binary operator on values of its operand types goes wrong if and only if it is `%` with a float or an unsuitable comparison; otherwise its value has the static kind |
| `ScalarSound.ComparisonExact` | src/sema.c:703-705 | Every comparison is accepted, and it goes wrong if and only if its operands are not two numbers, nor two booleans compared for equality |
| `ScalarSound.UnaryExact` | src/sema.c:721-730 | An accepted unary operator fails if and only if it is `~` on a float |
| `ScalarSound.CompoundExact` | src/sema.c:624-638 | An accepted compound assignment fails if and only if its operands are not two integers, nor a float and a number with an operator floats have |
| `ScalarSound.AssignExact` | src/sema.c:624-638 | An accepted assignment, plain or compound, goes wrong if and only if the two types do not fit its operator; what it stores has the declared kind |
| `ScalarSound.StoreExact` | src/type.c:187-190 | A store goes wrong if and only if the kinds differ; among the stores the checker accepts these are exactly the pointers and references stored as the scalar behind them |
| `ScalarSafe.TrailingUnchecked` | src/sema.c:499-503 | For every body with a `return` somewhere: it is accepted whatever the type of its trailing expression, and every run in which that expression has a value goes wrong if and only if the result cannot hold its type |
| `ScalarSafe.DeadReturnAccepted` | src/sema.c:499-503 | So for all accepted `v` and all error-free `e`: `if false { return v; } e` is accepted, and goes wrong if and only if the result cannot hold the type of `e` |
| `ScalarSafe.MissingUnchecked` | src/sema.c:501-504 | Every body with a `return` somewhere and without a trailing expression is accepted for a scalar result, and a run lacks its result if and only if the statements let it through to the end or a loop jump leaves them |
| `ScalarSafe.EarlyReturnAccepted` | src/sema.c:501-504 | For every `v` that may be returned, a function with the body `if false { return v; }` is accepted, and every run of it lacks its result |
| `ScalarSafe.BlockResultAccepted` | src/sema.c:500-504 | A function with the body `{ e }` inside of its braces is accepted where the type of `e` suits, and every run of it that evaluates `e` lacks its result |
| `ConstEval.EvalExact` | src/sema.c:274-310 | An expression with an integer value that divides only 64-bit naturals is evaluated, without error, to that value modulo 2^64, through any acyclic constants |
| `ConstEval.ErrorsExact` | src/sema.c:274-310 | An error is reported if and only if the expression is not built from literals, constants, the five operators and negation |
| `ConstEval.DivisionUnchecked` | src/sema.c:285-286 | Every division and remainder whose divisor is zero modulo 2^64 answers zero and adds no error |
| `ConstEval.DivisionExact` | src/sema.c:285-286 | For operands of any 64-bit values, signed or not, and a nonzero divisor: the evaluated quotient or remainder is the wrapped exact one if and only if the listed condition on the two values holds |
| `ConstEval.QuotientExact` | src/sema.c:285-285 | The quotient of the words is the word of the truncated quotient if and only if both are natural, or the divisor is one, or one of three stated corner cases holds |
| `ConstEval.RemainderExact` | src/sema.c:286-286 | The same for the remainder, where divisibility of 2^64 by the divisor matters |
| `ConstEval.NegationExact` | src/sema.c:291-293 | The negation is that of the operand read as a signed word, and defined in C if and only if the operand is not 2^63 |
| `MethodTable.Table.Add` | src/sema.c:19-29 | The new method comes first in its bucket; all chains still spell out the declarations |
| `MethodTable.Table.Lookup` | src/sema.c:31-40 | Answers like a newest-first scan of all declarations |
| `MethodTable.Table.Collect` | src/sema.c:248-261 | The table holds every method of every extend declaration, in source order |
| `MethodTable.FindMethod` | src/codegen_c.c:34-48 | Answers like an oldest-first scan of all declarations |
| `MethodTable.LatestInSlot` | src/sema.c:31-40 | Searching one bucket newest first finds what searching all declarations finds |
| `MethodTable.AgreeExactly` | src/codegen_c.c:34-48 | The checker and the generator resolve every method alike if and only if no (type, method) pair is declared twice |
| `Bits.PowerTest` | src/arena.c:9-11 | The bit test holds exactly for the powers of two |
| `Bits.AlignUpIs` | src/arena.c:13-24 | Masking after adding gives the least multiple of the alignment, where the sum does not wrap |
| `Arena.FitTestIs` | src/arena.c:69-75 | Without size overflow the offset is the least multiple from the mark and the fit test is the true one |
| `Arena.FitTestErrs` | src/arena.c:72-73 | With a larger size the test errs if and only if the sum wraps round to at most the capacity |
| `Arena.Arena.AllocAligned` | src/arena.c:63-90 | First fit: the block starts at the least multiple of its alignment from the mark of the first chunk it fits into, or in a new chunk when it fits into none; all live blocks stay apart and below the marks, no mark passes a capacity; `None` exactly for an invalid alignment |
| `Arena.Arena.Realloc` | src/arena.c:92-98 | The new block starts with the bytes of the old one, and no live block changes |
| `Arena.Arena.Reset` | src/arena.c:120-126 | All chunks are empty, none is live, the chain is kept |

## Left out

- Lowering of `errdefer`, `match`, `try` and `try else`: the generator emits a comment or only the inner expression.
- The slice-iterating `for` of the generator: it opens no defer level and no loop base, so the defer results do not cover it; neither is a `break` or `continue` outside of a loop, nor a range written with another operator than `..`, covered.
- `unsafe` blocks, `try` and `try else` inside of expressions: the defer results cover `unsafe` blocks as statements, at the end of a block and in a `defer` only.
- `GenRight.GeneratorExact`: bodies with more than 32 defers in a scope are left to `GenEnds.EmissionExact` and `DeferWitness.LoweringExact`, because a jump out of a deferred block has no meaning of its own when the block is dropped.
- Name capture between a deferred expression and the declarations around its copies: expressions are opaque actions.
- Nesting beyond the generator's fixed stacks of 64 levels: `CGen.GenerateBody` asks for less, by a bound that counts the copies of dropped defers too.
- Parsing of `match` statements and patterns: their arm loop need not consume a token, so no measure exists.
- `Declarations.Unit`: the contents of declarations other than names and bodies are not recorded, only that every parse ends and where.
- `BlockRoundTrip.BlockReads`: `try`, `unsafe`, casts, slices, array and struct literals inside expressions have no printed form here.
- Casts and method calls through fields in the round trip: a cast ends its expression level, and `o.f(x)` of a field reads as a method call.
- The generator's renderings that the language's own parser does not read: `->`, slices, method calls, string and character literals as C writes them.
- `FrontEnd.SourceRoundTrip`: floats, character literals and non-decimal integers are not covered, because numeric conversion by the C library is not modelled.
- Column numbers, file names and the texts of diagnostics; errors are counted.
- `else if` and `match` arms inside the checker: the first is read as if it were a block, the second is not checked; the gating and soundness results exclude both.
- Type resolution, fields of types and method signatures inside the checker are parameters (`Checker.Names`), so its results hold for all of them; pass one, imports and generics are not modelled.
- The `noreturn` type that type resolution builds outside of the type table, unions, enums, traits and generic parameters as type shapes: they behave like structs.
- `ScalarSound.FunctionSound`: calls, pointers, `for`, `defer` and `unsafe` blocks are outside of the fragment; integers have no width there, only a kind, and which branch of a body a run takes is not decided: `ScalarSafe.FunctionSafe` is sufficient, and `ScalarSound.FunctionSound` is exact for each run.
- `ConstEval.EvalExact`: constants shadowed by inner scopes and cyclic constants, on which the source does not return.
- Hash bytes above 127: identifiers are ASCII.
- `arena_set`, `arena_strdup`, `arena_strndup`, `arena_free_all`: they add nothing to the allocator's invariant; `malloc` is taken to succeed.
- `Arena.Arena.AllocAligned`: requests whose sizes wrap are excluded; `Arena.FitTestErrs` says when the fit test itself is wrong.
- The driver, file reading, the C compiler call, AST dumping, the runtime library and the design documents.
