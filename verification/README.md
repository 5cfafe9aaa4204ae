# Verification of the VCC compiler core

VCC compiles a small language through a lexer, an operator-precedence parser, a name
resolver, a generator of three-address code (`IRGen` and `IRBuilder`) and a lowering of that
code to LLVM blocks (`FunctionLowering`). This project models those phases in Dafny, in the
form the C++ has them: classes with the same fields, cursors and loops. Each class is proved
to compute what a function says, and the properties are proved about the functions.

| part | files |
|---|---|
| Lexer, locations | `Tokens`, `Scanning`, `Lexer`, `Coordinates`, `TokenLocations`, `Relexing` |
| Parser | `Ast`, `Grammar`, `Statements`, `Parser`, `PrattLayers`, `Printing`, `TextReader`, `RoundTrip`, `Parentheses`, `DeclLoops` |
| Name resolution | `ScopeStack`, `SymbolTable`, `NameResolution`, `SemanticAnalyzer`, `ScopingRules`, `ResolutionCorrect` |
| Three-address code | `Ir`, `Labels`, `Codegen`, `IrBuilder`, `IrGen`, `IrMachine` |
| Shape of the code | `CodegenFrame`, `Cfg`, `CfgNames`, `BlockNumbers`, `LoopStructure`, `GenLaws`, `Numbering`, `GeneratedCode`, `Traceable`, `Dataflow`, `Dominance` |
| Meaning of the code | `Int64`, `Runtime`, `Source`, `Fragment`, `SlotScopes`, `SlotAgreement`, `Simulation`, `ExprSimulation`, `StmtSimulation`, `ControlSimulation`, `Preservation`, `LazyLogic`, `LazyPrograms` |
| Target code | `Llvm`, `Lowering`, `FunctionLowering`, `LoweringFrame`, `LoweringStates`, `LoweringSteps`, `LoweringSimulation`, `LoweredShape`, `Compilation` |

## Conventions

The meaning of a source function (`Source.EvalFunction`) takes fuel and the surrounding world:
calls are events whose results come from the world, and the history of calls is part of the
result. It is the meaning the code gives the language: operands from left to right, `&&` and
`||` evaluating both sides, 64-bit wrap-around, traps for division by zero, for the smallest
integer divided by -1 and for shifts outside 0..63.

`OkFunction` is the fragment whose meaning is proved to be kept. Its bodies are built from
integer, character, boolean and nil literals, variables, binary operators, `-`, `!`, `~`,
assignment to a variable, calls of a named function, blocks, declarations with an initial
value, `return`, `if`, `while`, `vloop` and `match`, where

- every use of a name is one at which the flat slot map holds the slot of the innermost
  declaration (no use behind a block that declared the name again, none in the name's own
  initial value), and a declaration stands directly in a block;
- every `match` has no arms or reaches a wildcard arm.

It excludes `for`, `break`, `continue`, declarations without an initial value, array
literals, index, member, cast, pointer, float and string expressions, calls through an
expression, undeclared names, stale names and matches that do not reach a wildcard. The code
of a program with a stale name or such a match need not do what the program says; the rows on
`SlotsAgreeIffNoStaleUse` and `NamesUniqueIffMatchesClosed` say exactly which programs those
are.

`Lowerable` is what the lowering to the target asks in addition: `exit`, `escape` and `wait`
are not called, and the results of `print`, `println` and of the functions in `voids`, which
return nothing, are not used.

`ClosedMatches` holds when every lowered `match` has no arms or reaches a wildcard.
`TracedFunction` is the larger fragment of the dominance theorem: any expression and any
statement, as long as no name is used where the flat slot map still holds an inner slot,
matches reach a wildcard or have no arms, declarations stand directly in blocks and no array
literal is empty.

Where the code and docs/syntax.md disagree the model follows the code: docs/syntax.md:203-204
says that `&&` and `||` short-circuit, src/ir/IRGen.cpp:351-357 evaluates both sides. The
rows on `LazyLogic` and `LazyPrograms` say when that makes no difference.

## Model

| member | source | states |
|---|---|---|
| `Preservation.LoweringPreservesResults` | src/ir/IRGen.cpp:74-421 | For every `OkFunction` function, arguments and world: the generated code started at `entry` returns a value, returns nothing or traps, with a given history of calls, if and only if the source function does with some fuel. |
| `Preservation.LoweringPreservesDivergence` | src/ir/IRGen.cpp:74-421 | The generated code of an `OkFunction` function runs forever if and only if the source function runs out of every fuel. |
| `Preservation.NeverStuck` | src/ir/IRGen.cpp:74-421 | No run of the generated code of an `OkFunction` function reads an unwritten register or cell, uses a number as an address or branches to a missing block, after any number of steps. |
| `Preservation.CountedLoopsEnd` | src/ir/IRGen.cpp:183-218 | The code of an `OkFunction` function whose only loops are `vloop`s with a literal count always halts or traps (calls return, as the world is a function). |
| `LazyLogic.EagerIsLazy` | src/ir/IRGen.cpp:351-357 | An expression whose right operands of logical operators are quiet (no assignment, no call, no trap, only visible names) has the same value, state and history whether both sides are evaluated or the left one decides. |
| `LazyLogic.OperatorAgreesIff` | src/ir/IRGen.cpp:351-357 | A logical operator over operands that agree gives the same result both ways if and only if, where the left side decides, the right side ends in a value and leaves state and history alone. |
| `LazyLogic.CallOnTheRightDiffers` | src/ir/IRGen.cpp:351-357 | `false && f()`: the short-circuit reading makes no call, the code makes one. |
| `LazyPrograms.FunctionIsLazy` | src/ir/IRGen.cpp:351-357 | A function whose conditions and operands are quiet has the same result in both readings, for every fuel. |
| `LazyPrograms.LoweringKeepsLazyResults` | src/ir/IRGen.cpp:351-357 | The code of an `OkFunction` function with quiet operands ends in a result if and only if the documented short-circuit reading of the source does. |
| `SlotAgreement.SlotsAgreeIffNoStaleUse` | src/ir/IRGen.cpp:78-111 | For every function body: at every use and assignment target the flat, never restored slot map gives the slot an innermost-first scope lookup would give, if and only if no name is used where the textual check calls it stale. |
| `SlotAgreement.PlainProgramsAgree` | src/ir/IRGen.cpp:332-345 | In programs without shadowing, whose declarations stand in blocks and whose names are declared before use, the map and the scopes always agree, also where sibling blocks reuse a name. |
| `SlotAgreement.ShadowedUseDisagrees` | src/ir/IRGen.cpp:332-345 | `var x = 1; { var x = 2 } return x`: the map gives the inner slot. |
| `Dominance.DefinitionDominatesUse` | src/ir/IRGen.cpp:239-276 | In every `TracedFunction` function every path from `entry` to a use of a register, match subjects and loop slots included, passes its assignment. |
| `GeneratedCode.SingleAssignment` | include/vcc/ir/IRModule.h:63 | In the code of every function each register is assigned by at most one instruction. |
| `GeneratedCode.EveryRegisterAssigned` | include/vcc/ir/IRModule.h:63 | In the code of every function the assigned registers are exactly 1 up to the final counter. |
| `GeneratedCode.StoresAddressSlots` | src/ir/IRBuilder.cpp:62-83 | In the code of every function the address of a `Store` is a register that an `Alloca`, and nothing else, assigns. |
| `GeneratedCode.NothingReturnsInto` | src/ir/IRGen.cpp:123-133 | In the code of every function no branch names an `after_ret` block. |
| `GeneratedCode.ArityPreserved` | src/codegen/LLVMCodeGenerator.cpp:90-98 | The entry block of every function holds exactly one `Param` for each source parameter. |
| `CfgNames.NamesUniqueIffMatchesClosed` | src/ir/IRGen.cpp:239-276 | For every function body: block names are pairwise distinct, so that a branch target names one block, if and only if every lowered `match` has no arms or reaches a wildcard. |
| `CfgNames.MatchWithoutWildcardRepeatsName` | src/ir/IRGen.cpp:239-276 | `match 0 { 1 => {} }` adds its exit block twice. |
| `CfgNames.BlocksAreClosed` | src/ir/IRGen.cpp:88-93 | For every function: each block has exactly one terminator, its last instruction, and every branch target is the name of a block. |
| `Cfg.GuardNeverSuppresses` | src/ir/IRGen.cpp:135-276 | At the end of every visited statement the current block is open, so the `isTerminated` guards never leave a branch out. |
| `Cfg.OpenStmt` | src/ir/IRGen.cpp:115-318 | Visiting any statement from an open last block leaves the current block the last and open, the finished ones closed, and every target added or still to come. |
| `BlockNumbers.PlanStmt` | src/ir/IRGen.cpp:115-318 | Visiting a statement with closed matches keeps label numbers distinct and branches forward, except to loop conditions. |
| `LoopStructure.BackBranchesGoToLoopHeads` | src/ir/IRGen.cpp:123-237 | With closed matches, an edge to a block at the same or a lower position goes to a `while_cond`, `vloop_cond` or `for_cond` block. |
| `LoopStructure.LoopFreeCodeEnds` | src/ir/IRGen.cpp:123-237 | The code of a loop-free body with closed matches is no longer running after as many steps as it has instructions. |
| `Labels.LabelsDiffer` | src/ir/IRBuilder.cpp:44-46 | Labels with different numbers are different strings, whatever their prefixes, and no label is `entry`. |
| `Labels.SplitJoin` | src/ir/IRBuilder.cpp:175-181 | Splitting a conditional branch's label at its first comma gives back the two labels if and only if the first has no comma. |
| `IrBuilder.IRBuilder.NewLabel` | src/ir/IRBuilder.cpp:44-46 | The next label of the function and the counter one up; nothing else changes. |
| `IrBuilder.IRBuilder.BuildValue` | src/ir/IRBuilder.cpp:62-147 | One instruction with a fresh destination register is appended to the current block. |
| `IrBuilder.IRBuilder.BuildRet` | src/ir/IRBuilder.cpp:164-169 | A `Ret`, with the value unless it is register 0. |
| `IrBuilder.IRBuilder.BuildCondBranch` | src/ir/IRBuilder.cpp:175-181 | A conditional branch whose label joins both targets. |
| `IrGen.IRGen.VisitExpr` | src/ir/IRGen.cpp:320-470 | The visitor leaves builder, slot map and last register as the emission function says. |
| `IrGen.IRGen.VisitStmt` | src/ir/IRGen.cpp:103-318 | The same for every statement. |
| `IrGen.IRGen.VisitCounted` | src/ir/IRGen.cpp:183-218 | The counter slot, test, body and increment of a literal `vloop`. |
| `IrGen.IRGen.VisitMatch` | src/ir/IRGen.cpp:239-276 | The chain of arms up to the first wildcard; the exit block is added whatever the arms were. |
| `IrGen.IRGen.VisitFunction` | src/ir/IRGen.cpp:74-101 | One function is added to the module with exactly the emitted blocks, the earlier ones are untouched, and the builder is detached. |
| `IrGen.Generate` | src/ir/IRGen.cpp:58-72 | A module with one function for each declaration, in order, each with its name and emitted blocks. |
| `Compilation.CompilationPreservesReturns` | src/codegen/LLVMCodeGenerator.cpp:189-541 | For every `OkFunction` and `Lowerable` function: the target code returns a value with a history of calls if and only if the source function does; the same for returning nothing, when no return of the function carries a value. |
| `Compilation.CompilationPreservesDivergence` | src/codegen/LLVMCodeGenerator.cpp:189-541 | The target code of such a function runs forever if and only if the source function does. |
| `Compilation.LoweringSimulates` | src/codegen/LLVMCodeGenerator.cpp:189-541 | Every step of the three-address machine is followed by a bounded number of steps of the target, which keep registers, widened truth values, memory and history in agreement. |
| `LoweredShape.TerminatedIffMatchesClosed` | src/codegen/LLVMCodeGenerator.cpp:518-540 | For every source function: all blocks of the target end in a terminator if and only if every lowered `match` has no arms or reaches a wildcard. |
| `LoweredShape.TerminatedIffNamesUnique` | src/codegen/LLVMCodeGenerator.cpp:131-137 | For any blocks: all target blocks end in a terminator if and only if no two blocks share a name (the map of blocks keeps the last one). |
| `LoweredShape.MatchWithoutWildcardLeavesBlockOpen` | src/codegen/LLVMCodeGenerator.cpp:518-540 | `match 0 { 1 => {} }` leaves a target block without a terminator. |
| `FunctionLowerings.FunctionLowering.Lower` | src/codegen/LLVMCodeGenerator.cpp:518-540 | The walk over the blocks, with its maps and insertion point, gives the lowered blocks of the specification. |
| `FunctionLowerings.FunctionLowering.CountParams` | src/codegen/LLVMCodeGenerator.cpp:90-98 | The number of `Param` instructions in the first block. |
| `FunctionLowerings.FunctionLowering.HasReturnValue` | src/codegen/LLVMCodeGenerator.cpp:101-107 | True exactly when some `Ret` carries a value. |
| `FunctionLowerings.FunctionLowering.Resolve` | src/codegen/LLVMCodeGenerator.cpp:142-168 | The value of an operand; an undefined one where the register has none. |
| `PrattLayers.ClimbIsLayer` | src/parser/Parser.cpp:534-644 | On every token stream, at every position and for every minimum 0 to 10, the operator-precedence loop gives the same tree, end position and reports as the grammar with one function for each precedence level. |
| `RoundTrip.ParseWritten` | src/parser/Parser.cpp:616-840 | Printing any expression tree (character literals below 128), with parentheses only where the printer adds them, and parsing it gives the tree back, uses up every token and reports nothing. |
| `RoundTrip.WrittenDiffer` | src/parser/Parser.cpp:616-840 | Different trees are written differently. |
| `Parentheses.LeftParensNeeded` | src/parser/Parser.cpp:630-641 | Where a left operand with a looser operator gets parentheses, the text without them is read as another tree, whatever follows. |
| `Parentheses.RightParensNeeded` | src/parser/Parser.cpp:630-641 | The same for a right operand whose operator binds no tighter. |
| `Parentheses.AssignedOperandParensNeeded` | src/parser/Parser.cpp:616-628 | The same for an assignment as an operand that another operator follows. |
| `Parentheses.BaseParensNeeded` | src/parser/Parser.cpp:755-778 | The same for the base of a call, index, member or cast and for the target of an assignment: the text is read as a binary expression, or as an assignment to the target of the base. |
| `Parentheses.PrefixParensNeeded` | src/parser/Parser.cpp:651-680 | The same for the operand of a prefix operator, which takes only a primary expression: `-f(x)` is the call of `-f`. |
| `DeclLoops.LoopHangsIff` | src/parser/Parser.cpp:293-302 | The loop over structure fields, or over enumeration variants, runs forever on a stream if and only if within as many rounds as there are tokens it comes to a token at which its round reads nothing. |
| `DeclLoops.SemicolonAmongFields` | src/parser/Parser.cpp:293-302 | A `;` among the fields of a structure: the loop never ends. |
| `DeclLoops.VariantMoves` | src/parser/Parser.cpp:317-328 | A round of the variant loop reads something exactly when it starts at one of the tokens named. |
| `Statements.Statement` | src/parser/Parser.cpp:385-531 | On every stream a statement that does not start at Eof uses up a token, and the cursor stays in the stream. |
| `Statements.Block` | src/parser/Parser.cpp:371-383 | A block ends on every stream and never moves the cursor back; one that starts at `{` uses it up. |
| `Statements.Synchronize` | src/parser/Parser.cpp:68-93 | Recovery never moves back, moves on unless it is at Eof or at a token it may resume at, and stops at Eof, at such a token or behind a semicolon. |
| `Statements.File` | src/parser/Parser.cpp:97-180 | On every stream without structure and enumeration declarations parsing a file ends at Eof, at the last token when Eof occurs once. |
| `Parsing.Parser.ParseExpr` | src/parser/Parser.cpp:616-644 | The method, with its loop over a cursor, computes the specified parse and reports. |
| `Parsing.Parser.ParsePrimaryExpr` | src/parser/Parser.cpp:646-753 | The same for primary and prefix expressions. |
| `Parsing.Parser.ParsePostfixExpr` | src/parser/Parser.cpp:755-778 | The same for calls, indices, members and casts. |
| `Parsing.Parser.ParseType` | src/parser/Parser.cpp:793-838 | The same for types. |
| `Parsing.Parser.ParseStmt` | src/parser/Parser.cpp:385-414 | The same for statements. |
| `Parsing.Parser.ParseFunctionDecl` | src/parser/Parser.cpp:226-262 | The same for functions, with or without braces around the body. |
| `Parsing.Parser.Synchronize` | src/parser/Parser.cpp:68-93 | The same for recovery. |
| `Parsing.Parser.Parse` | src/parser/Parser.cpp:97-180 | The same for files, with the collected statements as `main`. |
| `ResolutionCorrect.AcceptsExactlyWellScoped` | src/semantic/SemanticAnalyzer.cpp:34-107 | For every module the two passes report no error if and only if the module is well scoped: used after declaration, no duplicates in a scope, functions and types hoisted, calls name functions with the right number of arguments, nothing immutable assigned. The global scope alone is left at the end. |
| `ResolutionCorrect.IndexNotLookedInto` | include/vcc/ast/ASTVisitor.h:157 | An undeclared name inside an index expression is not reported. |
| `SymbolTables.SymbolTable.EnterScope` | src/semantic/SymbolTable.cpp:40-42 | An empty scope on top. |
| `SymbolTables.SymbolTable.LeaveScope` | src/semantic/SymbolTable.cpp:44-47 | The top scope is gone; the caller must not leave the global one, as the assertion says. |
| `SymbolTables.SymbolTable.Define` | src/semantic/SymbolTable.cpp:49-51 | A symbol goes into the top scope unless the name is there; the result says which. |
| `SymbolTables.SymbolTable.Find` | src/semantic/SymbolTable.cpp:53-59 | The symbol of the innermost scope that has the name, or none. |
| `SemanticAnalyzers.SemanticAnalyzer.VisitExpr` | src/semantic/SemanticAnalyzer.cpp:272-361 | The visitor reports and leaves the scopes as the resolution functions say. |
| `SemanticAnalyzers.SemanticAnalyzer.VisitTarget` | src/semantic/SemanticAnalyzer.cpp:316-354 | The check of an assignment target, with the implicit declaration of an unknown name. |
| `SemanticAnalyzers.SemanticAnalyzer.VisitStmt` | src/semantic/SemanticAnalyzer.cpp:178-269 | The same for statements. |
| `SemanticAnalyzers.SemanticAnalyzer.Analyze` | src/semantic/SemanticAnalyzer.cpp:34-107 | Built-ins, hoisting and the walk give the specified errors; the answer is whether there are none. |
| `Scanning.RunEnd` | src/lexer/Lexer.cpp:198-263 | The longest stretch of one kind of character. |
| `Scanning.ScanToken` | src/lexer/Lexer.cpp:42-127 | A token is never empty and ends inside the text; it is in error exactly when something is reported. |
| `Scanning.Skip` | src/lexer/Lexer.cpp:152-194 | Skipping stops at the first position where neither a blank nor a comment starts. |
| `Lexing.Lexer.Advance` | src/lexer/Lexer.cpp:136-142 | One character on, with line and column those of the new position. |
| `Lexing.Lexer.SkipBlockComment` | src/lexer/Lexer.cpp:175-194 | Past the matching end of a nested comment; an open one is reported at its start. |
| `Lexing.Lexer.NextToken` | src/lexer/Lexer.cpp:35-127 | The next token, its location and the reports on the way; none where a `#` as the last character makes the lexer read past the end. |
| `Lexing.Lexer.Tokenize` | src/lexer/Lexer.cpp:25-33 | All tokens of the text, ending in one Eof. |
| `TokenLocations.LocatedAtStart` | src/lexer/Lexer.cpp:317-336 | In texts shorter than 2^32, a token's line and column are those of its first character if and only if its lexeme has no newline and it is not an unexpected character. |
| `TokenLocations.NewlineOnlyInQuotes` | src/lexer/Lexer.cpp:267-313 | Only string and character tokens contain newlines. |
| `TokenLocations.CaretUnderToken` | src/common/Diagnostics.cpp:135-149 | For a token on one line, the line shown for its location, cut at its column for the length of the lexeme, is the lexeme. |
| `Coordinates.ExtractLine` | src/common/Diagnostics.cpp:135-149 | The loop returns the text of the numbered line, and nothing where there is no such line. |
| `Relexing.JoinedLexes` | src/lexer/Lexer.cpp:25-127 | Shapes (kind and lexeme) that lex to themselves before a blank, joined with blanks behind any text, lex to exactly themselves. |
| `Relexing.LexedAgain` | src/lexer/Lexer.cpp:25-127 | For every text that lexes without an error token: joining its lexemes with blanks and lexing again gives the same kinds and lexemes. |

## Left out

- LoweringPreservesResults: only for `OkFunction`; the visitors of `for`, `break`, `continue`, declarations without an initial value, arrays, index, member, pointer, cast, float and string expressions are modelled and emit what `Codegen` says, but no meaning of those constructs is given, because `for` and index are placeholders in the generator and the others have no value in the 64-bit machine.
- LoweringPreservesDivergence: the same fragment, for the same reason.
- NeverStuck: the same fragment; outside it a stale or missing slot makes a run stuck.
- CountedLoopsEnd: the same fragment.
- CompilationPreservesReturns: the same fragment without `exit`, `escape` and `wait`, which end the target block early, and without uses of results of `print`, `println` and functions that return nothing, which are undefined in the target; a bare `return` in a function that returns a value elsewhere lowers to `unreachable` and is excluded by the condition on the result.
- CompilationPreservesDivergence: the same conditions.
- DefinitionDominatesUse: not for bodies that use a name where it is stale, whose slot register may belong to a branch not taken, with matches that do not reach a wildcard, or with an empty array literal, whose register is 0.
- LoopHangsIff: the trees the two loops build are not modelled.
- File: requires that no structure or enumeration declaration occurs, since their loops may not end.
- AcceptsExactlyWellScoped: symbols carry no types; the answer does not include the type checker's pass.
- LocatedAtStart: line and column counters are unbounded; only the conversion of the column to 32 bits is modelled.
- ParseWritten: about tokens; integer tokens carry their value, so decoding of literals by `std::stoll` is not modelled.
- LexedAgain: about kinds and lexemes; locations change.
- Register, label and fuel counters are unbounded numbers; the 32-bit wrap-around of the counters is not modelled.
- Floating-point and string values are their texts; no arithmetic on them.
- LLVM is an append-only list of blocks and a machine for the instructions used; constant folding by its builder, the verifier and the printing of modules are not modelled. Which functions return nothing is an input (`voids`).
- The calls behind `print`, `println`, `exit`, `escape` and `wait` (`printf`, `usleep`, `exit`) are not modelled.
- Structure and enumeration bodies, interfaces and declared types are read past but not kept.
- Notes and warnings (duplicate imports, previous declarations) and the texts of messages are not modelled; errors are counted by kind.
- The type checker: its types are strings and several expressions leave a stale type behind.
- IRPrinter, ASTDumper, the text emitter, the renderer apart from line extraction, the driver, the command line and the file system.
