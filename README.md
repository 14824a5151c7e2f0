# SkSL fragment-processor C++ code generator

This project models the C++ back end of the SkSL compiler, `CPPCodeGenerator`
(`src/sksl/SkSLCPPCodeGenerator.cpp`). Given a fragment processor written in
SkSL, it writes the `.cpp` half of the processor. That file contains:

- a `GrGLSL<Name>` class whose `emitCode` prints the shader's `main` as the
  format string of one `fragBuilder->codeAppendf(...)` call;
- `onSetData`, which uploads uniform values;
- the processor's key, equality, clone and test members.

One `Generator.CPPCodeGenerator` object is one generation session. Its fields
are the ones the generator updates as it goes:

- the output text;
- the list of C++ format arguments that fill the conversions in the shader
  text;
- the cache of transformed-coordinate sets, whose set-up statements are
  emitted only once;
- the temporaries that a `COLORSPACE` call adds to `main`'s prologue;
- whether a colour-space transform helper is in use;
- the errors reported so far.

What the proofs establish:

- **Every conversion has exactly one argument.** Every writer reports its
  contribution as an `Emission`: the text written, the arguments pushed and
  the errors reported. Each emission is proved *balanced*: its text never ends
  inside a conversion, and it holds exactly one conversion per pushed
  argument. The one exception is a `%s` written just before an index error,
  which is counted by that error. Escaped `%%` is not a conversion. So the
  `codeAppendf` call that `generateCode` writes receives one argument for
  every conversion in its format string. This holds with the `%=` operator
  escaped as `%%=`. The code as written leaves `%=` unescaped, which breaks
  the property (see "## Findings").
- **Run-time values.** A float, int, bool or 2-vector known only when the
  shader is built is written as placeholders plus arguments.
- **Caches and slots.** Coordinate sets are cached, sampler slots are
  numbered, and temporaries get distinct names.
- **Uniforms.** Registration and upload code are described by functions. The
  errors for a second colour-space transform and for bad key layouts are
  characterised exactly.
- **The whole file.** Every part of the file is a specification function of
  the program, its parameters and its sections. `GenerateCode` returns true
  exactly when the error sink is empty.

Modules:

| file | module | contents |
|---|---|---|
| `format.dfy` | `Format` | printf conversion counting, number printing, 32-bit truncation, list flattening |
| `ast.dfy` | `Ast` | the program, its types, variables, expressions, statements and sections |
| `uniforms.dfy` | `Uniforms` | uniform handles, registration lines, parameter key lines and key errors |
| `lowering.dfy` | `Lowering` | run-time values, coordinate names, sampler slots, temporaries |
| `boilerplate.dfy` | `Boilerplate` | the text of every part of the generated file, as functions |
| `generator.dfy` | `Generator` | the `CPPCodeGenerator` class and its writers |

## Model

| member | source | states |
|---|---|---|
| Format.Conversion | src/sksl/SkSLCPPCodeGenerator.cpp:64-72 | `%%` is an escaped percent with no conversion; any other `%c` is one conversion |
| Format.PlainHasNoPlaceholders | src/sksl/SkSLCPPCodeGenerator.cpp:436-440 | text without `%` holds no conversion in the `codeAppendf` format string |
| Format.ClosedConcat | src/sksl/SkSLCPPCodeGenerator.cpp:436-440 | after a closed text, conversions add up and closedness is decided by the rest |
| Format.NatToString | src/sksl/SkSLCPPCodeGenerator.cpp:93 | the decimal form of a number is non-empty, all digits, and has two or more digits exactly from 10 on |
| Format.IntToString | src/sksl/SkSLCPPCodeGenerator.cpp:180 | `to_string` of an integer holds no `%` and starts with `-` exactly when it is negative |
| Format.NatToStringInjective | src/sksl/SkSLCPPCodeGenerator.cpp:93 | different numbers print differently |
| Format.IntToStringInjective | src/sksl/SkSLCPPCodeGenerator.cpp:93 | different integers print differently, so cache variable names do not collide |
| Format.EscapedRoundTrip | src/sksl/SkSLCPPCodeGenerator.cpp:64-72 | doubling every `%` gives a format text with no conversion, which printf prints back as the original text |
| Format.EscapedPlain | src/sksl/SkSLCPPCodeGenerator.cpp:64-72 | text without `%` is unchanged by escaping |
| Format.Int32 | src/sksl/SkSLCPPCodeGenerator.cpp:180 | the `(int32_t)` cast lands in the 32-bit range, agrees with its input modulo 2^32, and keeps values already in range |
| Ast.NamedColorSpaceXformIsName | src/sksl/SkSLCPPCodeGenerator.cpp:15-18 | comparing a type's name with `colorSpaceXform` is testing for the transform type or a type of that name, and differs from the identity test only on another type declared under that name |
| Ast.GlobalDeclarations | src/sksl/SkSLCPPCodeGenerator.cpp:380-384 | every declaration visited comes from a variable-declaration element of the program, and every declaration of every such element is visited |
| Ast.GetSectionFinds | src/sksl/SkSLCPPCodeGenerator.cpp:304-311 | a section is found exactly when one of that name exists, and the one found has that name |
| Ast.GetSectionsMembers | src/sksl/SkSLCPPCodeGenerator.cpp:534 | the sections of a kind are exactly those of that name, and no more than all sections |
| Uniforms.NeedsUniformVar | src/sksl/SkSLCPPCodeGenerator.cpp:15-18 | a uniform handle is needed only for a uniform that is not the colour-space transform, and for every such uniform of a known type |
| Uniforms.IsPrivate | src/sksl/SkSLCPPCodeGenerator.cpp:130-135 | a private global needs no uniform handle, is not a parameter and has global storage |
| Uniforms.RegistrableDefaults | src/sksl/SkSLCPPCodeGenerator.cpp:118-128 | every type `addUniform` can register has a default value: zero for scalars and vectors, the identity for matrices, and the float4x4 identity for the colour-space transform |
| Uniforms.PrecisionToken | src/sksl/SkSLCPPCodeGenerator.cpp:335-344 | the token is one of the four precisions; high exactly when highp is set, low only when neither higher one is, default exactly when none is |
| Uniforms.UniformTypeToken | src/sksl/SkSLCPPCodeGenerator.cpp:345-366 | the token holds no conversion, and is the float4x4 token exactly for float4x4 and the colour-space transform |
| Uniforms.UniformRegistration | src/sksl/SkSLCPPCodeGenerator.cpp:331-377 | nothing is written exactly when no handle is needed; otherwise the registration line, inside an `if` block exactly when the uniform has a `when` condition |
| Uniforms.UniformTypeTokenShared | src/sksl/SkSLCPPCodeGenerator.cpp:345-366 | two registrable types get the same GPU type token exactly when they are equal, or are float4x4 and colorSpaceXform |
| Uniforms.KeyLinesCount | src/sksl/SkSLCPPCodeGenerator.cpp:592-625 | a parameter adds one key line per key word, a count fixed by its type and key mode alone |
| Uniforms.KeyErrors | src/sksl/SkSLCPPCodeGenerator.cpp:582-619 | at most two errors per parameter, all at its offset; none exactly when it is the transform, or has no key on a uniform and no identity key on a non-matrix |
| Lowering.RuntimeValueText | src/sksl/SkSLCPPCodeGenerator.cpp:137-156 | a scalar is written as one bare conversion, a 2-vector as a constructor of its own type |
| Lowering.RuntimeValueArgs | src/sksl/SkSLCPPCodeGenerator.cpp:137-156 | two arguments for a 2-vector and one otherwise, each built on the given C++ expression |
| Lowering.RuntimeValueBalanced | src/sksl/SkSLCPPCodeGenerator.cpp:137-150 | a run-time value's placeholder text is closed and has one conversion per argument: two for a 2-vector, one otherwise |
| Lowering.CoordNameInjective | src/sksl/SkSLCPPCodeGenerator.cpp:93 | different coordinate indices get different cache variables |
| Lowering.DistinctIndicesCount | src/sksl/SkSLCPPCodeGenerator.cpp:95-100 | the emitted coordinate set-up statements are as many as the distinct indices used |
| Lowering.SamplerSlot | src/sksl/SkSLCPPCodeGenerator.cpp:166-177 | a sampler parameter's slot is below the number of sampler parameters |
| Lowering.SlotIsCountBefore | src/sksl/SkSLCPPCodeGenerator.cpp:166-175 | a parameter's slot is the number of sampler parameters declared before it |
| Lowering.SamplerSlotsDistinct | src/sksl/SkSLCPPCodeGenerator.cpp:166-175 | two different sampler parameters never share a slot |
| Lowering.TempVarNamesDistinct | src/sksl/SkSLCPPCodeGenerator.cpp:250 | temporaries numbered differently have different names |
| Lowering.TempDeclaration | src/sksl/SkSLCPPCodeGenerator.cpp:251 | a temporary's declaration holds no conversion |
| Lowering.FunctionHeaderText | src/sksl/SkSLCPPCodeGenerator.cpp:277-288 | `main`'s prologue of temporaries holds no conversion |
| Boilerplate.CollectedUniformsMembers | src/sksl/SkSLCPPCodeGenerator.cpp:631-643 | the collected uniforms are exactly the declared uniforms that are not samplers |
| Boilerplate.CollectedUniformsOfProgram | src/sksl/SkSLCPPCodeGenerator.cpp:631-643 | a variable is collected exactly when it is a non-sampler uniform declared in some declaration element of the program |
| Boilerplate.PrivateVarsDeclared | src/sksl/SkSLCPPCodeGenerator.cpp:379-393 | no member is declared exactly when no global is private |
| Boilerplate.PrivateValuesAssigned | src/sksl/SkSLCPPCodeGenerator.cpp:395-409 | no value is assigned exactly when no private global has an initial value |
| Boilerplate.AnyXformCounted | src/sksl/SkSLCPPCodeGenerator.cpp:418-429 | the helper is switched on exactly when at least one transform uniform is counted |
| Boilerplate.AnyXformAt | src/sksl/SkSLCPPCodeGenerator.cpp:420-424 | a transform uniform at any position switches the helper on |
| Boilerplate.XformErrorsCount | src/sksl/SkSLCPPCodeGenerator.cpp:420-424 | every transform but the first is reported (every one if the helper was on before), each with the single-transform message |
| Boilerplate.SingleXformAccepted | src/sksl/SkSLCPPCodeGenerator.cpp:420-424 | the uniform loop reports nothing exactly when it meets at most one transform, and none if the helper was already on |
| Boilerplate.HasInUniformAt | src/sksl/SkSLCPPCodeGenerator.cpp:454-460 | any `in` uniform makes `onSetData` open the processor cast |
| Boilerplate.NoInUniformNoData | src/sksl/SkSLCPPCodeGenerator.cpp:453-488 | without `in` uniforms no upload code is written |
| Boilerplate.UniformDataTextShape | src/sksl/SkSLCPPCodeGenerator.cpp:453-488 | the upload part is empty without `in` uniforms; otherwise it is the cast and block opening once, then every upload in order |
| Boilerplate.SetDataNoSecondCast | src/sksl/SkSLCPPCodeGenerator.cpp:486-510 | once the cast is written, or when no parameter is read, the section locals are written without a cast |
| Boilerplate.SetDataCastBeforeFirstParameter | src/sksl/SkSLCPPCodeGenerator.cpp:501-506 | the cast is written once, just before the first parameter local |
| Boilerplate.AllKeyLinesCount | src/sksl/SkSLCPPCodeGenerator.cpp:579-626 | the key has as many lines as the parameters' key words together |
| Boilerplate.KeyErrorsNone | src/sksl/SkSLCPPCodeGenerator.cpp:582-619 | `writeGetKey` reports nothing exactly when every parameter's key layout is valid |
| Generator.CleanShaderComplete | src/sksl/SkSLCPPCodeGenerator.cpp:436-440 | when no error is reported and the argument list started empty, the shader text has exactly one conversion per `codeAppendf` argument |
| Generator.EmitsThen | src/sksl/SkSLCPPCodeGenerator.cpp:436-440 | two balanced writes in a row make one balanced write of their concatenation |
| Generator.CPPCodeGenerator.constructor | src/sksl/SkSLCPPCodeGenerator.cpp:20-27 | the session starts empty with full name `"Gr" + name`, keeping the errors already in the sink |
| Generator.CPPCodeGenerator.WriteRuntimeValue | src/sksl/SkSLCPPCodeGenerator.cpp:137-156 | writes the type's placeholder text and pushes its arguments, balanced |
| Generator.CPPCodeGenerator.GetSamplerHandle | src/sksl/SkSLCPPCodeGenerator.cpp:166-177 | the handle names the slot counted among the sampler parameters before it |
| Generator.CPPCodeGenerator.WriteIntLiteral | src/sksl/SkSLCPPCodeGenerator.cpp:179-181 | writes the literal truncated to 32 bits, with no conversion |
| Generator.CPPCodeGenerator.UniformReferenceArg | src/sksl/SkSLCPPCodeGenerator.cpp:200-223 | a uniform with a `when` condition tests its handle before reading it, an unguarded transform tests the helper, and any other uniform is read straight through its handle; a tested read ends in the fallback ` : "<default_value>"` of its type |
| Generator.CPPCodeGenerator.GuardedReferenceWraps | src/sksl/SkSLCPPCodeGenerator.cpp:214-222 | a uniform with a `when` condition reads `<field>Var.isValid() ? `, then exactly what the same uniform without the condition reads, then its type's default |
| Generator.CPPCodeGenerator.WriteVariableReference | src/sksl/SkSLCPPCodeGenerator.cpp:183-232 | input and output colours, samplers (by slot), uniforms (through their handle, guarded by `when`) and parameters (as run-time values) each become one balanced write; other variables print their name |
| Generator.CPPCodeGenerator.WriteSetting | src/sksl/SkSLCPPCodeGenerator.cpp:294-302 | an `sk_Args.` setting is the run-time value of the named field; any other setting prints its name |
| Generator.SourceOperatorText | src/sksl/SkSLCPPCodeGenerator.cpp:62-79 | the operator text as the code writes it: ` %% ` for `%`, and the printer's spelling for every other operator, `%=` included; it is the corrected text for every operator but `%=` |
| Generator.PercentAssignUnbalanced | src/sksl/SkSLCPPCodeGenerator.cpp:62-79 | as written, ` %= ` is a complete format text holding one conversion, so with no argument pushed it is not balanced |
| Generator.OperatorFormatText | src/sksl/SkSLCPPCodeGenerator.cpp:62-79 | the corrected operator text holds no conversion and printf prints it as the spaced operator; it is ` %% ` for `%` and the printer's text for operators without `%` |
| Generator.CPPCodeGenerator.WriteBinaryExpression | src/sksl/SkSLCPPCodeGenerator.cpp:62-79 | the operands around the corrected operator text, parenthesised by precedence; the result stays balanced |
| Generator.CPPCodeGenerator.WriteCoordsReference | src/sksl/SkSLCPPCodeGenerator.cpp:92-100 | pushes the cache variable; the set-up statement is added only on the index's first use |
| Generator.CPPCodeGenerator.WriteIndexExpression | src/sksl/SkSLCPPCodeGenerator.cpp:81-116 | a literal coordinate or sampler index becomes one `%s` with its argument (the sampler argument indented by eight spaces); a non-literal one reports an error and pushes nothing; caches are touched only for coordinates |
| Generator.CPPCodeGenerator.DeclareTemporary | src/sksl/SkSLCPPCodeGenerator.cpp:250-251 | numbers a fresh temporary and appends it to the prologue |
| Generator.CPPCodeGenerator.WriteColorSpaceCall | src/sksl/SkSLCPPCodeGenerator.cpp:249-262 | declares a fresh temporary and wraps the colour between the helper's open and close arguments |
| Generator.CPPCodeGenerator.WriteFunctionCall | src/sksl/SkSLCPPCodeGenerator.cpp:248-273 | `COLORSPACE` is lowered through a temporary; a `texture` call is followed by the sampler's swizzle, named by its slot |
| Generator.CPPCodeGenerator.WriteIfStatement | src/sksl/SkSLCPPCodeGenerator.cpp:234-239 | the output starts with `@` exactly when the `if` is static |
| Generator.CPPCodeGenerator.WriteSwitchStatement | src/sksl/SkSLCPPCodeGenerator.cpp:241-246 | the output starts with `@` exactly when the `switch` is static |
| Generator.CPPCodeGenerator.WriteVarInitializer | src/sksl/SkSLCPPCodeGenerator.cpp:158-164 | a private global is initialised from its run-time value |
| Generator.CPPCodeGenerator.WriteFunctionBody | src/sksl/SkSLCPPCodeGenerator.cpp:281-284 | one balanced emission per statement of `main`, in order, each followed by the line ending |
| Generator.CPPCodeGenerator.WriteFunction | src/sksl/SkSLCPPCodeGenerator.cpp:275-292 | `main`'s prologue declares exactly the temporaries synthesised in its body, in order, and is written before the body |
| Generator.CPPCodeGenerator.WriteProgramElement | src/sksl/SkSLCPPCodeGenerator.cpp:313-329 | sections, empty declarations and uniform, `in` or builtin declarations write nothing and change nothing |
| Generator.CPPCodeGenerator.WriteSection | src/sksl/SkSLCPPCodeGenerator.cpp:304-311 | reports whether the section exists and writes its text when it does |
| Generator.CPPCodeGenerator.AddUniform | src/sksl/SkSLCPPCodeGenerator.cpp:331-377 | writes the uniform's registration, guarded by its `when` condition, and nothing for a variable without a handle |
| Generator.CPPCodeGenerator.WritePrivateVars | src/sksl/SkSLCPPCodeGenerator.cpp:379-393 | declares a member for each private global, in program order |
| Generator.CPPCodeGenerator.WritePrivateVarValues | src/sksl/SkSLCPPCodeGenerator.cpp:395-409 | assigns each private global's initial value, in program order |
| Generator.CPPCodeGenerator.WriteUniformSetup | src/sksl/SkSLCPPCodeGenerator.cpp:418-429 | registers every uniform, reports each extra transform, and switches the helper on when any transform is met |
| Generator.CPPCodeGenerator.SetUpUniform | src/sksl/SkSLCPPCodeGenerator.cpp:419-428 | registers one uniform; a transform met while the helper is on is reported, and any transform switches the helper on |
| Generator.CPPCodeGenerator.WriteEmitCodeHead | src/sksl/SkSLCPPCodeGenerator.cpp:412-430 | the `emitCode` head, private values, uniform set-up and emit-code section, with the transform errors and helper flag |
| Generator.CPPCodeGenerator.WriteEmitCode | src/sksl/SkSLCPPCodeGenerator.cpp:411-444 | the shader text is balanced against the arguments pushed while printing it, and the `codeAppendf` call lists all arguments |
| Generator.CPPCodeGenerator.WriteUniformData | src/sksl/SkSLCPPCodeGenerator.cpp:453-485 | reports whether any `in` uniform exists, and writes the cast once followed by every upload |
| Generator.CPPCodeGenerator.WriteUniformUpload | src/sksl/SkSLCPPCodeGenerator.cpp:463-483 | uploads one `in` uniform: a rectangle as four floats, a matrix column-major, the transform through its helper, anything else as one float |
| Generator.CPPCodeGenerator.WriteSetDataGlobals | src/sksl/SkSLCPPCodeGenerator.cpp:489-515 | with a set-data section, aliases each handle and parameter before the section text; without one, nothing |
| Generator.CPPCodeGenerator.WriteSetData | src/sksl/SkSLCPPCodeGenerator.cpp:446-517 | writes `onSetData` with the section's data-manager name or `pdman` |
| Generator.CPPCodeGenerator.WriteParameterKey | src/sksl/SkSLCPPCodeGenerator.cpp:580-625 | one parameter's key lines, and its errors in order |
| Generator.CPPCodeGenerator.WriteGetKey | src/sksl/SkSLCPPCodeGenerator.cpp:575-628 | every parameter's key lines in order, and all their errors |
| Generator.CPPCodeGenerator.CheckCustomFields | src/sksl/SkSLCPPCodeGenerator.cpp:521-524 | custom fields are reported at offset 0 |
| Generator.CPPCodeGenerator.WriteGeneratedClone | src/sksl/SkSLCPPCodeGenerator.cpp:525-555 | the copy constructor copies every parameter and coordinate transform and re-registers samplers and transforms |
| Generator.CPPCodeGenerator.WriteClone | src/sksl/SkSLCPPCodeGenerator.cpp:519-557 | a custom clone section replaces the generated clone; custom fields without one are an error |
| Generator.CPPCodeGenerator.WriteTest | src/sksl/SkSLCPPCodeGenerator.cpp:559-573 | the test factory appears only with a test section |
| Generator.CPPCodeGenerator.CollectUniforms | src/sksl/SkSLCPPCodeGenerator.cpp:631-643 | collects the declared non-sampler uniforms in program order |
| Generator.CPPCodeGenerator.WritePrologue | src/sksl/SkSLCPPCodeGenerator.cpp:646-659 | the header, own include, cpp section, includes and GLSL class opening |
| Generator.CPPCodeGenerator.WriteClassMembers | src/sksl/SkSLCPPCodeGenerator.cpp:661-663 | `private:`, `onSetData` and the private members |
| Generator.CPPCodeGenerator.WriteHandles | src/sksl/SkSLCPPCodeGenerator.cpp:664-678 | one handle member per non-`in` uniform and per uniform parameter needing one, then the helper member when it is in use |
| Generator.CPPCodeGenerator.WriteClassTail | src/sksl/SkSLCPPCodeGenerator.cpp:661-683 | the class's members and handles, then `onCreateGLSLInstance` |
| Generator.CPPCodeGenerator.WriteIsEqual | src/sksl/SkSLCPPCodeGenerator.cpp:685-697 | `onIsEqual` compares every parameter field |
| Generator.CPPCodeGenerator.WriteFileEnd | src/sksl/SkSLCPPCodeGenerator.cpp:699-701 | the test factory, cpp-end section and closing `#endif` |
| Generator.CPPCodeGenerator.WriteProcessorMembers | src/sksl/SkSLCPPCodeGenerator.cpp:684-701 | key, equality, clone and file end, with key errors before clone errors |
| Generator.CPPCodeGenerator.WriteGLSLClass | src/sksl/SkSLCPPCodeGenerator.cpp:644-683 | the whole GLSL class, with a balanced shader text and the transform errors |
| Generator.CPPCodeGenerator.GenerateCode | src/sksl/SkSLCPPCodeGenerator.cpp:630-704 | the result is true exactly when the error sink is empty; the file is the GLSL class then the processor members; errors come in write order; the shader's conversions match its arguments, and a fresh session that succeeds has one argument per conversion |

## Findings

| source | as written | input that shows it | evidently intended | confidence | as-written member | corrected member |
|---|---|---|---|---|---|---|
| src/sksl/SkSLCPPCodeGenerator.cpp:62-79 | only `Token::PERCENT` is escaped; `%=` goes to the GLSL printer, which writes it into the `codeAppendf` format text unchanged | `x %= 2;` in `main`: the text ` %= ` holds one conversion and no argument is pushed for it | every `%` of an operator doubled, so `%=` is written `%%=` | not executed; high, since the count follows from the printf format rules | Generator.PercentAssignUnbalanced | Generator.OperatorFormatText |

## Left out

- `writef` (src/sksl/SkSLCPPCodeGenerator.cpp:29-49) is not modelled as a formatter. Each call is written as the text it produces. The 1024-byte stack buffer and its heap fallback make no difference to that text.
- The inherited GLSL printer (`SkSLGLSLCodeGenerator`) is not part of this model. The `Inherited...` methods of `Generator.CPPCodeGenerator` are small generic stand-ins for it. They call back into the overriding writers, as virtual dispatch does. Their text is only promised to be balanced, plus the opening token of `if`, `switch` and function signatures. Binary expressions do not go through a stand-in: `Generator.CPPCodeGenerator.WriteBinaryExpression` writes every operator, with the corrected operator text of "## Findings".
- `Generator.CPPCodeGenerator.InheritedGenerateCode`: always returns true. The GLSL printer's own failure paths are not part of this model.
- `HCodeGenerator::FieldName`, `HCodeGenerator::FieldType`, `Expression::description` and the file header are not part of this model. They are fields of the session whose values the caller supplies.
- `SectionAndParameterHelper` is not part of this model. Its parameters and sections are given to the constructor. Its section lookup is `Ast.GetSection`.
- `ABORT` and `ASSERT` paths become preconditions: an unsupported run-time, uniform or default type; a sampler missing from the parameters; a raw key on float4x4; a transform without the helper. See `Lowering.RuntimeSupported`, `Uniforms.HasUniformType`, `Uniforms.HasKeyHandling`, `Boilerplate.RegistrableUniforms`, `Boilerplate.KeysHandled` and `Generator.ProgramSupported`.
- Swapping `fOut` to a `StringStream` while `main` or the shader is printed is modelled as writing to the output and taking the written suffix.
- `fExtraEmitCodeCode` and `fFunctionHeader` are kept as the sequence of coordinate indices and temporaries whose statements were appended. Their text is computed by `Lowering.ExtraEmitCodeText` and `Lowering.FunctionHeaderText`.
- The key-dispatch branch compares types exactly, as the code does: half2, half4 and half4x4 parameters with a raw key take the one-line `b->add32` branch.
- Floating-point values are never computed; only their placeholders (`%f`) and argument expressions are modelled.
- The error reporter is a sequence of diagnostics (offset and message). `errorCount()` is its length, so errors reported before generation also make the result false.
- `Lowering.SamplerSlot` and `Generator.CPPCodeGenerator.GetSamplerHandle` find a parameter by value equality, while `getSamplerHandle` compares declaration addresses. The two agree because declarations have distinct names, but nothing in the model enforces that. If two parameters were equal as values, the model would give the later one the earlier one's slot.
- The cache of written coordinate sets (`writtenCoords`) holds unbounded integers, and the temporary counter (`varCount`) is an unbounded natural. The C++ widths of `fWrittenTransformedCoords` and `fVarCount` are declared in `SkSLCPPCodeGenerator.h`, which is not part of this model, so their overflow is not modelled. The literal index itself is a 64-bit value (`Format.int64`).
- Type identity of SkSL types is datatype equality over a closed list of the types the generator distinguishes, plus an "other" case. So the name test of `needs_uniform_var` and the identity test `== *fContext.fColorSpaceXform_Type` differ only on a user type that is declared under the name `colorSpaceXform` (`Ast.NamedColorSpaceXformIsName`).
- `Ast.Operator`: the binary operators are the arithmetic, comparison, logical, assignment and arithmetic compound-assignment ones. Bitwise and shift operators, and their compound assignments, are not modelled; their spelling holds no `%`.
