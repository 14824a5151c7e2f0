/**
 * The C++ code generator for fragment processors.  One `CPPCodeGenerator`
 * object is one generation session: it walks the program, prints the shader
 * text of `main` as the format string of a `codeAppendf` call, and collects
 * the C++ argument expressions that fill its conversions, the coordinate
 * set-up code, and the temporaries `main` needs.
 *
 * The inherited GLSL printer is represented by the `Inherited...` methods:
 * generic forms that call back into the overriding writers.
 */
module Generator {
  import opened Format
  import opened Ast
  import opened Uniforms
  import opened Lowering
  import opened Boilerplate

  /** What one printing call contributes: text written to the output, format
      arguments pushed, and errors reported. */
  datatype Emission = Emission(text: string, args: seq<string>, reported: seq<Diagnostic>)
  {
    function Then(next: Emission): Emission {
      Emission(text + next.text, args + next.args, reported + next.reported)
    }

    /** The text does not end inside a conversion, and every conversion it
        holds is filled by one pushed argument — except one per reported
        error, for the `%s` written before the error was found. */
    predicate Balanced() {
      Closed(text) && Placeholders(text) == |args| + |reported|
    }
  }

  const Nothing := Emission("", [], [])

  /** The emissions of consecutive lines, each followed by the line ending. */
  function EndLines(lines: seq<Emission>): Emission {
    if lines == [] then Nothing
    else EndLines(lines[..|lines| - 1]).Then(lines[|lines| - 1]).Then(Emission(LineEnding, [], []))
  }

  /** Balance is preserved by sequencing. */
  lemma BalancedThen(a: Emission, b: Emission)
    requires a.Balanced() && b.Balanced()
    ensures a.Then(b).Balanced()
  {
    ClosedConcat(a.text, b.text);
  }

  /** A shader printed without errors into an empty argument list is a
      complete format string: the `codeAppendf` call that carries it holds one
      argument per conversion. */
  lemma CleanShaderComplete(shader: Emission, args: seq<string>,
                            before: seq<Diagnostic>, after: seq<Diagnostic>, errors: seq<Diagnostic>)
    requires shader.Balanced() && args == [] + shader.args
    requires errors == before + shader.reported + after && errors == []
    ensures Closed(shader.text) && Placeholders(shader.text) == |args|
  {
    assert |shader.reported| <= |errors|;
  }

  /** Sequencing is associative. */
  lemma ThenAssociative(a: Emission, b: Emission, c: Emission)
    ensures a.Then(b).Then(c) == a.Then(b.Then(c))
  {
    assert a.text + b.text + c.text == a.text + (b.text + c.text);
    assert a.args + b.args + c.args == a.args + (b.args + c.args);
    assert a.reported + b.reported + c.reported == a.reported + (b.reported + c.reported);
  }

  /** Literal text without a percent sign is balanced on its own. */
  lemma PlainBalanced(s: string)
    requires Plain(s)
    ensures Emission(s, [], []).Balanced()
  {
    PlainHasNoPlaceholders(s);
  }

  /** Appending literal text keeps an emission balanced. */
  lemma ThenPlain(em: Emission, s: string)
    requires em.Balanced() && Plain(s)
    ensures em.Then(Emission(s, [], [])).Balanced()
  {
    PlainBalanced(s);
    BalancedThen(em, Emission(s, [], []));
  }

  /** Two emissions in a row, from buffers `out0`, `args0`, `errors0`
      through `out1`, `args1`, `errors1` to `out2`, `args2`, `errors2`, are
      their sequence, which stays balanced. */
  lemma EmitsThen(out0: string, out1: string, out2: string,
                  args0: seq<string>, args1: seq<string>, args2: seq<string>,
                  errors0: seq<Diagnostic>, errors1: seq<Diagnostic>, errors2: seq<Diagnostic>,
                  first: Emission, second: Emission)
    requires out1 == out0 + first.text && out2 == out1 + second.text
    requires args1 == args0 + first.args && args2 == args1 + second.args
    requires errors1 == errors0 + first.reported && errors2 == errors1 + second.reported
    requires first.Balanced() && second.Balanced()
    ensures out2 == out0 + first.Then(second).text
    ensures args2 == args0 + first.Then(second).args
    ensures errors2 == errors0 + first.Then(second).reported
    ensures first.Then(second).Balanced()
  {
    AppendAssoc(out0, first.text, second.text);
    AppendAssoc(args0, first.args, second.args);
    AppendAssoc(errors0, first.reported, second.reported);
    BalancedThen(first, second);
  }

  /** A single `%s` filled by one argument. */
  lemma ConversionBalanced(arg: string)
    ensures Emission("%s", [arg], []).Balanced()
  {
    Conversion('s');
  }

  // Operator precedences of the GLSL printer (lower binds tighter).
  const PostfixPrecedence: nat := 2
  const MultiplicativePrecedence: nat := 4
  const AdditivePrecedence: nat := 5
  const RelationalPrecedence: nat := 7
  const EqualityPrecedence: nat := 8
  const LogicalAndPrecedence: nat := 12
  const LogicalOrPrecedence: nat := 14
  const AssignmentPrecedence: nat := 16
  const TopLevelPrecedence: nat := 17

  function BinaryPrecedence(op: Operator): nat {
    match op
    case Star | Slash | Percent => MultiplicativePrecedence
    case Plus | Minus => AdditivePrecedence
    case Lt | Gt => RelationalPrecedence
    case EqEq | Neq => EqualityPrecedence
    case LogicalAnd => LogicalAndPrecedence
    case LogicalOr => LogicalOrPrecedence
    case Assign | PlusAssign | MinusAssign | StarAssign | SlashAssign | PercentAssign => AssignmentPrecedence
  }

  /** The operator text as `writeBinaryExpression` writes it: `%` is doubled
      by the override, and every other operator, `%=` included, is printed by
      the GLSL printer as it is spelled. */
  function SourceOperatorText(op: Operator): (r: string)
    ensures op != PercentAssign ==> r == OperatorFormatText(op)
  {
    if op == Percent then " %% " else " " + op.Text() + " "
  }

  /** `x %= y` in `main` leaves a `%=` conversion in the `codeAppendf` format
      text with no argument pushed for it. */
  lemma PercentAssignUnbalanced()
    ensures Closed(SourceOperatorText(PercentAssign))
    ensures Placeholders(SourceOperatorText(PercentAssign)) == 1
    ensures !Emission(SourceOperatorText(PercentAssign), [], []).Balanced()
  {
    Conversion('=');
    ClosedConcat(" ", "%=");
    ClosedConcat(" %=", " ");
    assert SourceOperatorText(PercentAssign) == " " + "%=" + " ";
  }

  /** The operator text with every `%` escaped, which is what the format
      string needs: it holds no conversion, and printf prints the operator
      back, spaced.  For `%` this is the override's ` %% `; for an operator
      without `%` it is the GLSL printer's text. */
  function OperatorFormatText(op: Operator): (r: string)
    ensures Closed(r) && Placeholders(r) == 0
    ensures Unescaped(r) == " " + op.Text() + " "
    ensures op == Percent ==> r == " %% "
    ensures op != Percent && op != PercentAssign ==> r == " " + op.Text() + " "
  {
    var spaced := " " + op.Text() + " ";
    EscapedRoundTrip(spaced);
    if op == Percent then
      assert spaced == " % ";
      assert Escaped(" ") == " " + Escaped([]);
      assert Escaped("% ") == "%%" + Escaped(" ") by { assert "% "[1..] == " "; }
      assert Escaped(" % ") == " " + Escaped("% ") by { assert " % "[1..] == "% "; }
      Escaped(spaced)
    else if op == PercentAssign then
      Escaped(spaced)
    else
      PlainConcat(" ", op.Text());
      PlainConcat(" " + op.Text(), " ");
      EscapedPlain(spaced);
      Escaped(spaced)
  }

  /** The line ending used inside the emitted format string: the two
      characters backslash and `n`, so that the newline survives being placed
      inside a C++ string literal. */
  const LineEnding: Identifier := "\\n"

  const CoordsIndexMessage := "index into sk_TransformedCoords2D must be an integer literal"
  const SamplersIndexMessage := "index into sk_TextureSamplers must be an integer literal"
  const ArgsPrefix := "sk_Args."

  const InputColorArg := "args.fInputColor ? args.fInputColor : \"half4(1)\""
  const OutputColorArg := "args.fOutputColor"
  const XformUniform := "args.fUniformHandler->getUniformCStr(fColorSpaceHelper.gamutXformUniform())"

  const HelperValid := "fColorSpaceHelper.isValid() ? "
  const HandleValid := "Var.isValid() ? "
  const UniformCStr := "args.fUniformHandler->getUniformCStr("
  const VarClose := "Var)"

  /** The ` : "<default>"` branch a guarded read falls back to. */
  function DefaultFallback(t: SLType): string
    requires HasDefaultValue(t)
  {
    " : \"" + DefaultValue(t) + "\""
  }

  function SamplerVariableArg(handle: string): string {
    "fragBuilder->getProgramBuilder()->samplerVariable(" + handle + ").c_str()"
  }

  /** The argument pushed for `sk_TextureSamplers[i]`: the sampler variable,
      indented as the emitted code is. */
  function SamplerIndexArg(handle: string): string {
    "        " + SamplerVariableArg(handle)
  }

  function SamplerSwizzleArg(handle: string): string {
    "fragBuilder->getProgramBuilder()->samplerSwizzle(" + handle + ").c_str()"
  }

  /** Opens the colour-space conversion: `(tmp = ` when a transform is present. */
  function ColorSpaceOpenArg(tmp: string): string {
    "fColorSpaceHelper.isValid() ? \"(" + tmp + " = \" : \"\""
  }

  /** Closes it: applies the gamut transform to the saved colour, clamping to alpha. */
  function ColorSpaceCloseArg(tmp: string): string {
    "fColorSpaceHelper.isValid() ? SkStringPrintf(\", half4(clamp((%s * half4(" + tmp
      + ".rgb, 1.0)).rgb, 0.0, " + tmp + ".a), " + tmp + ".a))\", " + XformUniform
      + ").c_str() : \"\""
  }

  /** `type name, ...` of a parameter list. */
  function ParameterList(params: seq<Variable>): (r: string)
    ensures Plain(r)
  {
    if params == [] then ""
    else
      var first := params[0].varType.Name() + " " + params[0].name;
      PlainConcat(params[0].varType.Name(), " ");
      PlainConcat(params[0].varType.Name() + " ", params[0].name);
      if |params| == 1 then first
      else
        PlainConcat(first, ", ");
        PlainConcat(first + ", ", ParameterList(params[1..]));
        first + ", " + ParameterList(params[1..])
  }

  /** The GLSL printer's function signature: `type name(params) `. */
  function Signature(f: FunctionDefinition): (r: string)
    ensures Plain(r)
  {
    var r := f.returnType.Name() + " " + f.declaration.fnName + "(" + ParameterList(f.parameters) + ") ";
    PlainConcat(f.returnType.Name(), " ");
    PlainConcat(f.returnType.Name() + " ", f.declaration.fnName);
    PlainConcat(f.returnType.Name() + " " + f.declaration.fnName, "(");
    PlainConcat(f.returnType.Name() + " " + f.declaration.fnName + "(", ParameterList(f.parameters));
    PlainConcat(f.returnType.Name() + " " + f.declaration.fnName + "(" + ParameterList(f.parameters), ") ");
    r
  }

  /*
   * The inputs the generator aborts on are excluded by the predicates below:
   * they state, per construct, what must hold for printing to reach its end.
   */

  /** A reference to `v` can be printed: a sampler is a parameter, the
      colour-space transform has its helper, a guarded uniform has a default
      value, and a parameter has a type with a run-time value form. */
  predicate ReferenceSupported(v: Variable, params: seq<Variable>, helperReady: bool) {
    if v.layout.builtin == InColorBuiltin || v.layout.builtin == OutColorBuiltin then true
    else if v.varType.TypeKind() == SamplerKind then v in params
    else if v.modifiers.isUniform then
      (v.varType == ColorSpaceXform ==> helperReady) &&
      (v.layout.when != "" ==> HasDefaultValue(v.varType))
    else IsParameter(v) ==> RuntimeSupported(v.varType)
  }

  predicate ExprSupported(e: Expr, params: seq<Variable>, helperReady: bool)
    decreases e
  {
    match e
    case IntLiteral(_, _) => true
    case VariableReference(_, v) => ReferenceSupported(v, params, helperReady)
    case IndexExpression(_, b, i) =>
      BuiltinOf(b) == TransformedCoords2DBuiltin || BuiltinOf(b) == TextureSamplersBuiltin
      || (ExprSupported(b, params, helperReady) && ExprSupported(i, params, helperReady))
    case BinaryExpression(_, l, _, r) =>
      ExprSupported(l, params, helperReady) && ExprSupported(r, params, helperReady)
    case FunctionCall(_, f, args) =>
      if IsBuiltinCall(e, "COLORSPACE") then
        |args| == 2 && args[1].VariableReference? && ExprSupported(args[0], params, helperReady)
      else
        (forall k :: 0 <= k < |args| ==> ExprSupported(args[k], params, helperReady)) &&
        (IsBuiltinCall(e, "texture") ==>
          |args| >= 1 && args[0].VariableReference? && args[0].variable in params)
    case Setting(_, n, t) => ArgsPrefix <= n ==> RuntimeSupported(t)
  }

  /** A declaration's initializer can be printed: a private global is passed
      as a run-time value, anything else is printed as an expression. */
  predicate InitializerSupported(d: VarDeclaration, params: seq<Variable>, helperReady: bool) {
    d.value.Some? ==>
      if IsPrivate(d.variable) then RuntimeSupported(d.variable.varType)
      else ExprSupported(d.value.value, params, helperReady)
  }

  predicate StatementSupported(s: Statement, params: seq<Variable>, helperReady: bool)
    decreases s
  {
    match s
    case ExpressionStatement(e) => ExprSupported(e, params, helperReady)
    case IfStatement(_, test, t, f) =>
      ExprSupported(test, params, helperReady) && StatementSupported(t, params, helperReady) &&
      (f.Some? ==> StatementSupported(f.value, params, helperReady))
    case SwitchStatement(_, v, cases) =>
      ExprSupported(v, params, helperReady) &&
      forall k :: 0 <= k < |cases| ==> CaseSupported(cases[k], params, helperReady)
    case Block(ss) => forall k :: 0 <= k < |ss| ==> StatementSupported(ss[k], params, helperReady)
    case ReturnStatement(r) => r.Some? ==> ExprSupported(r.value, params, helperReady)
    case VarDeclarationsStatement(ds) =>
      forall k :: 0 <= k < |ds| ==> InitializerSupported(ds[k], params, helperReady)
  }

  predicate CaseSupported(c: SwitchCase, params: seq<Variable>, helperReady: bool)
    decreases c
  {
    (c.caseLabel.Some? ==> ExprSupported(c.caseLabel.value, params, helperReady)) &&
    forall k :: 0 <= k < |c.caseBody| ==> StatementSupported(c.caseBody[k], params, helperReady)
  }

  predicate FunctionSupported(f: FunctionDefinition, params: seq<Variable>, helperReady: bool) {
    forall k :: 0 <= k < |f.body| ==> StatementSupported(f.body[k], params, helperReady)
  }

  /** `writeProgramElement` skips empty declarations and globals that are
      `in`, uniform or builtin; only the remaining ones are printed. */
  predicate PrintsDeclarations(decls: seq<VarDeclaration>) {
    |decls| > 0 &&
    var v := decls[0].variable;
    !v.modifiers.isIn && !v.modifiers.isUniform && v.layout.builtin == NoBuiltin
  }

  predicate ElementSupported(p: ProgramElement, params: seq<Variable>, helperReady: bool) {
    match p
    case SectionElement(_) => true
    case VarElement(ds) =>
      PrintsDeclarations(ds) ==>
        forall k :: 0 <= k < |ds| ==> InitializerSupported(ds[k], params, helperReady)
    case FunctionElement(f) => FunctionSupported(f, params, helperReady)
  }

  predicate ProgramSupported(program: seq<ProgramElement>, params: seq<Variable>, helperReady: bool) {
    forall k :: 0 <= k < |program| ==> ElementSupported(program[k], params, helperReady)
  }

  class CPPCodeGenerator {
    /** The processor's name, and its C++ class name "Gr" + name. */
    const name: string
    const fullName: string
    const program: seq<ProgramElement>
    /** The processor's parameters (`in` variables that are not builtins), in
        declaration order, and its sections. */
    const parameters: seq<Variable>
    const sections: seq<Section>
    /** `HCodeGenerator::FieldName` and `HCodeGenerator::FieldType`. */
    const fieldName: string -> string
    const fieldType: SLType -> string
    /** `Expression::description`: an expression's SkSL text. */
    const describe: Expr -> string
    /** The file header (`kFragmentProcessorHeader` with the full name filled in). */
    const fileHeader: string

    /** The output stream. */
    var out: string
    /** Arguments for the conversions in the shader text, in order. */
    var formatArgs: seq<string>
    /** The coordinate sets whose set-up statement has been appended to the
        code emitted before the shader text, in order; that code is
        `CoordSetupLine` of each, concatenated. */
    var extraEmitCode: seq<int>
    /** Coordinate sets whose set-up statement is in `extraEmitCode`. */
    var writtenCoords: set<int>
    /** The temporaries whose declaration has been appended to the prologue of
        the current `main`, in order; the prologue is `TempDeclaration` of
        each, concatenated. */
    var functionHeader: seq<nat>
    /** Temporaries synthesized so far. */
    var varCount: nat
    /** Whether the processor has a colour-space transform helper. */
    var needColorSpaceHelper: bool
    /** Errors reported to the error sink, in order. */
    var errors: seq<Diagnostic>

    /** `functionHeader` declares the temporaries after this one. */
    ghost var headerMark: nat

    /** Each cached coordinate set has exactly one set-up statement; the
        prologue declares every temporary synthesized since the current
        `main` began, in order. */
    ghost predicate Valid()
      reads this`extraEmitCode, this`writtenCoords, this`functionHeader, this`headerMark, this`varCount
    {
      && NoDuplicates(extraEmitCode)
      && (forall i :: i in writtenCoords <==> i in extraEmitCode)
      && headerMark + |functionHeader| == varCount
      && (forall k :: 0 <= k < |functionHeader| ==> functionHeader[k] == headerMark + k + 1)
    }

    constructor (name: string, program: seq<ProgramElement>, parameters: seq<Variable>,
                 sections: seq<Section>, reported: seq<Diagnostic>,
                 fieldName: string -> string, fieldType: SLType -> string,
                 describe: Expr -> string, fileHeader: string)
      ensures Valid()
      ensures this.name == name && fullName == "Gr" + name
      ensures this.program == program && this.parameters == parameters && this.sections == sections
      ensures this.fieldName == fieldName && this.fieldType == fieldType
      ensures this.describe == describe && this.fileHeader == fileHeader
      ensures out == "" && formatArgs == [] && extraEmitCode == [] && writtenCoords == {}
      ensures functionHeader == [] && varCount == 0 && !needColorSpaceHelper && errors == reported
    {
      this.name := name;
      fullName := "Gr" + name;
      this.program := program;
      this.parameters := parameters;
      this.sections := sections;
      this.fieldName := fieldName;
      this.fieldType := fieldType;
      this.describe := describe;
      this.fileHeader := fileHeader;
      out := "";
      formatArgs := [];
      extraEmitCode := [];
      writtenCoords := {};
      functionHeader := [];
      varCount := 0;
      needColorSpaceHelper := false;
      errors := reported;
      headerMark := 0;
    }

    /** The output grew by `em.text`, the arguments by `em.args`, the errors
        by `em.reported`, with every conversion accounted for; temporaries
        are only ever added. */
    twostate predicate Emits(em: Emission)
      reads this
    {
      && out == old(out) + em.text
      && formatArgs == old(formatArgs) + em.args
      && errors == old(errors) + em.reported
      && em.Balanced()
      && old(varCount) <= varCount
    }

    /** Writes text that holds no conversion. */
    method WritePlain(s: string) returns (ghost em: Emission)
      requires Plain(s)
      modifies this`out
      ensures Emits(em) && em == Emission(s, [], [])
    {
      out := out + s;
      em := Emission(s, [], []);
      PlainBalanced(s);
    }

    /** Writes `%s` and pushes the argument that fills it. */
    method WriteConversion(arg: string) returns (ghost em: Emission)
      modifies this`out, this`formatArgs
      ensures Emits(em) && em == Emission("%s", [arg], [])
    {
      out := out + "%s";
      formatArgs := formatArgs + [arg];
      em := Emission("%s", [arg], []);
      ConversionBalanced(arg);
    }

    /** `writeRuntimeValue`: a value known only at run time becomes
        conversions in the text and the C++ expressions that fill them. */
    method WriteRuntimeValue(t: SLType, code: string) returns (ghost em: Emission)
      requires RuntimeSupported(t)
      modifies this`out, this`formatArgs
      ensures Emits(em)
      ensures em == Emission(RuntimeValueText(t), RuntimeValueArgs(t, code), [])
    {
      var text := RuntimeValueText(t);
      out := out + text;
      formatArgs := formatArgs + RuntimeValueArgs(t, code);
      em := Emission(text, RuntimeValueArgs(t, code), []);
      RuntimeValueBalanced(t, code);
    }

    /** `getSamplerHandle`: the sampler slot of parameter `v`, found by
        counting the sampler parameters before it. */
    method GetSamplerHandle(v: Variable) returns (handle: string)
      requires v in parameters
      ensures handle == SamplerHandle(SamplerSlot(parameters, v))
    {
      var samplerCount := 0;
      var i := 0;
      while i < |parameters|
        invariant 0 <= i <= |parameters|
        invariant forall k :: 0 <= k < i ==> parameters[k] != v
        invariant samplerCount == SamplerCount(parameters[..i])
      {
        if parameters[i] == v {
          SlotIsCountBefore(parameters, v, i);
          return SamplerHandle(samplerCount);
        }
        if IsSamplerParameter(parameters[i]) {
          samplerCount := samplerCount + 1;
        }
        SamplerCountSnoc(parameters, i);
        i := i + 1;
      }
      assert false;
    }

    /** `writeIntLiteral`: the value cast to a 32-bit integer, in decimal. */
    method WriteIntLiteral(e: Expr) returns (ghost em: Emission)
      requires e.IntLiteral?
      modifies this`out
      ensures Emits(em) && em == Emission(IntToString(Int32(e.value as int)), [], [])
    {
      em := WritePlain(IntToString(Int32(e.value as int)));
    }

    /** The format argument that reads uniform `v`: its handle, the transform
        helper's uniform for the colour-space transform, and the default
        value when a `when` guard leaves the handle invalid. */
    function UniformReferenceArg(v: Variable): (r: string)
      requires v.layout.when != "" || v.varType == ColorSpaceXform ==> HasDefaultValue(v.varType)
      // a guarded uniform tests its handle before reading it
      ensures v.layout.when != "" ==> fieldName(v.name) + HandleValid <= r
      // an unguarded transform tests the helper before reading its uniform
      ensures v.layout.when == "" && v.varType == ColorSpaceXform ==> HelperValid + XformUniform <= r
      // any other uniform is read straight through its handle
      ensures v.layout.when == "" && v.varType != ColorSpaceXform ==> r == UniformCStr + fieldName(v.name) + VarClose
      // when a tested handle is invalid, the read falls back to the type's default
      ensures v.layout.when != "" || v.varType == ColorSpaceXform ==>
        var d := DefaultFallback(v.varType); |d| <= |r| && r[|r| - |d|..] == d
    {
      var handle :=
        if v.varType == ColorSpaceXform
        then HelperValid + XformUniform + DefaultFallback(v.varType)
        else UniformCStr + fieldName(v.name) + VarClose;
      if v.layout.when != ""
      then fieldName(v.name) + HandleValid + handle + DefaultFallback(v.varType)
      else handle
    }

    /** A `when` guard wraps the unguarded read of the same uniform in a test
        of its handle, falling back to the type's default. */
    lemma GuardedReferenceWraps(v: Variable)
      requires v.layout.when != "" && HasDefaultValue(v.varType)
      ensures
        var unguarded := v.(layout := v.layout.(when := ""));
        UniformReferenceArg(v) ==
          fieldName(v.name) + HandleValid + UniformReferenceArg(unguarded) + DefaultFallback(v.varType)
    {
    }

    /** `writeVariableReference`. */
    method WriteVariableReference(e: Expr) returns (ghost em: Emission)
      requires e.VariableReference?
      requires ReferenceSupported(e.variable, parameters, needColorSpaceHelper)
      modifies this`out, this`formatArgs
      ensures Emits(em)
      // the input and output colours come from the processor's arguments
      ensures e.variable.layout.builtin == InColorBuiltin ==> em == Emission("%s", [InputColorArg], [])
      ensures e.variable.layout.builtin == OutColorBuiltin ==> em == Emission("%s", [OutputColorArg], [])
      ensures e.variable.layout.builtin !in {InColorBuiltin, OutColorBuiltin} ==>
        var v := e.variable;
        // a sampler is named by its slot among the parameters
        && (v.varType.TypeKind() == SamplerKind ==>
              em == Emission("%s", [SamplerVariableArg(SamplerHandle(SamplerSlot(parameters, v)))], []))
        // a uniform is read through its handle
        && (v.varType.TypeKind() != SamplerKind && v.modifiers.isUniform ==>
              em == Emission("%s", [UniformReferenceArg(v)], []))
        // a parameter is the processor's current value of that field
        && (v.varType.TypeKind() != SamplerKind && !v.modifiers.isUniform && IsParameter(v) ==>
              em == Emission(RuntimeValueText(v.varType),
                             RuntimeValueArgs(v.varType, "_outer." + v.name + "()"), []))
        // anything else is printed by name
        && (v.varType.TypeKind() != SamplerKind && !v.modifiers.isUniform && !IsParameter(v) ==>
              em == Emission(v.name, [], []))
    {
      var v := e.variable;
      if v.layout.builtin == InColorBuiltin {
        em := WriteConversion(InputColorArg);
      } else if v.layout.builtin == OutColorBuiltin {
        em := WriteConversion(OutputColorArg);
      } else if v.varType.TypeKind() == SamplerKind {
        var handle := GetSamplerHandle(v);
        em := WriteConversion(SamplerVariableArg(handle));
      } else if v.modifiers.isUniform {
        em := WriteConversion(UniformReferenceArg(v));
      } else if IsParameter(v) {
        em := WriteRuntimeValue(v.varType, "_outer." + v.name + "()");
      } else {
        em := WritePlain(v.name);
      }
    }

    /** `writeSetting`: an `sk_Args.` setting is the processor's value of that
        field; any other setting is printed by name. */
    method WriteSetting(e: Expr) returns (ghost em: Emission)
      requires e.Setting? && (ArgsPrefix <= e.settingName ==> RuntimeSupported(e.settingType))
      modifies this`out, this`formatArgs
      ensures Emits(em)
      ensures ArgsPrefix <= e.settingName ==>
        em == Emission(RuntimeValueText(e.settingType),
                       RuntimeValueArgs(e.settingType, fieldName(e.settingName[|ArgsPrefix|..])), [])
      ensures !(ArgsPrefix <= e.settingName) ==> em == Emission(e.settingName, [], [])
    {
      if ArgsPrefix <= e.settingName {
        em := WriteRuntimeValue(e.settingType, fieldName(e.settingName[|ArgsPrefix|..]));
      } else {
        em := WritePlain(e.settingName);
      }
    }

    /** `writeExpression` of the GLSL printer: dispatch on the expression's
        kind to the (possibly overridden) writer. */
    method WriteExpression(e: Expr, parent: nat) returns (ghost em: Emission)
      requires Valid() && ExprSupported(e, parameters, needColorSpaceHelper)
      modifies this`out, this`formatArgs, this`errors, this`extraEmitCode, this`writtenCoords
      modifies this`functionHeader, this`varCount
      ensures Valid() && Emits(em)
      decreases e, 3
    {
      match e
      case IntLiteral(_, _) => em := WriteIntLiteral(e);
      case VariableReference(_, _) => em := WriteVariableReference(e);
      case IndexExpression(_, _, _) => em := WriteIndexExpression(e);
      case BinaryExpression(_, _, _, _) =>
        ghost var l, r;
        em, l, r := WriteBinaryExpression(e, parent);
      case FunctionCall(_, _, _) =>
        ghost var inner;
        em, inner := WriteFunctionCall(e);
      case Setting(_, _, _) => em := WriteSetting(e);
    }

    /** Writes `open left op right close`, the operands at `precedence`:
        the GLSL printer's form, which the `%` override repeats with `%%`. */
    method WriteBinaryParts(e: Expr, precedence: nat, open: string, opText: string, close: string)
      returns (ghost em: Emission, ghost l: Emission, ghost tail: Emission, ghost r: Emission)
      requires Plain(open) && Plain(close) && Emission(opText, [], []).Balanced()
      requires e.BinaryExpression? && Valid()
      requires ExprSupported(e.left, parameters, needColorSpaceHelper)
      requires ExprSupported(e.right, parameters, needColorSpaceHelper)
      modifies this`out, this`formatArgs, this`errors, this`extraEmitCode, this`writtenCoords
      modifies this`functionHeader, this`varCount
      ensures Valid() && Emits(em)
      ensures em == Emission(open, [], []).Then(l).Then(tail)
      ensures tail == Emission(opText, [], []).Then(r).Then(Emission(close, [], []))
      decreases e, 1
    {
      var lead := WritePlain(open);
      var out1, args1, errors1 := out, formatArgs, errors;
      l := WriteExpression(e.left, precedence);
      EmitsThen(old(out), out1, out, old(formatArgs), args1, formatArgs, old(errors), errors1, errors, lead, l);
      var out2, args2, errors2 := out, formatArgs, errors;
      tail, r := WriteBinaryTail(e.right, precedence, opText, close);
      EmitsThen(old(out), out2, out, old(formatArgs), args2, formatArgs, old(errors), errors2, errors, lead.Then(l), tail);
      em := lead.Then(l).Then(tail);
    }

    /** The second half of a binary expression: `op right close`. */
    method WriteBinaryTail(right: Expr, precedence: nat, opText: string, close: string)
      returns (ghost em: Emission, ghost r: Emission)
      requires Plain(close) && Emission(opText, [], []).Balanced()
      requires Valid() && ExprSupported(right, parameters, needColorSpaceHelper)
      modifies this`out, this`formatArgs, this`errors, this`extraEmitCode, this`writtenCoords
      modifies this`functionHeader, this`varCount
      ensures Valid() && Emits(em)
      ensures em == Emission(opText, [], []).Then(r).Then(Emission(close, [], []))
      decreases right, 4
    {
      out := out + opText;
      r := WriteExpression(right, precedence);
      out := out + close;
      BalancedThen(Emission(opText, [], []), r);
      ThenPlain(Emission(opText, [], []).Then(r), close);
      em := Emission(opText, [], []).Then(r).Then(Emission(close, [], []));
    }

    /** `writeBinaryExpression`: `%` is written as `%%`, since the text is a
        format string; every other operator is left to the GLSL printer.  The
        operator text here escapes `%=` as well (`OperatorFormatText`, where
        the code writes `SourceOperatorText`).  The operands are parenthesized
        when the context binds at least as tightly as the operator. */
    method WriteBinaryExpression(e: Expr, parent: nat)
      returns (ghost em: Emission, ghost l: Emission, ghost r: Emission)
      requires e.BinaryExpression? && Valid() && ExprSupported(e, parameters, needColorSpaceHelper)
      modifies this`out, this`formatArgs, this`errors, this`extraEmitCode, this`writtenCoords
      modifies this`functionHeader, this`varCount
      ensures Valid() && Emits(em)
      ensures
        var paren := BinaryPrecedence(e.op) >= parent;
        var opText := OperatorFormatText(e.op);
        em == Emission(if paren then "(" else "", [], [])
                .Then(l).Then(Emission(opText, [], [])).Then(r)
                .Then(Emission(if paren then ")" else "", [], []))
      decreases e, 2
    {
      var precedence := BinaryPrecedence(e.op);
      var open := if precedence >= parent then "(" else "";
      var close := if precedence >= parent then ")" else "";
      var opText := OperatorFormatText(e.op);
      ghost var tail;
      em, l, tail, r := WriteBinaryParts(e, precedence, open, opText, close);
      ThenAssociative(Emission(open, [], []).Then(l), Emission(opText, [], []).Then(r), Emission(close, [], []));
      ThenAssociative(Emission(open, [], []).Then(l), Emission(opText, [], []), r);
    }

    /** The GLSL printer's index expression: `base[index]`. */
    method InheritedWriteIndexExpression(e: Expr) returns (ghost em: Emission)
      requires e.IndexExpression? && Valid()
      requires ExprSupported(e.base, parameters, needColorSpaceHelper)
      requires ExprSupported(e.index, parameters, needColorSpaceHelper)
      modifies this`out, this`formatArgs, this`errors, this`extraEmitCode, this`writtenCoords
      modifies this`functionHeader, this`varCount
      ensures Valid() && Emits(em)
      decreases e, 1
    {
      var b := WriteExpression(e.base, PostfixPrecedence);
      out := out + "[";
      var i := WriteExpression(e.index, TopLevelPrecedence);
      out := out + "]";
      ThenPlain(b, "[");
      BalancedThen(b.Then(Emission("[", [], [])), i);
      ThenPlain(b.Then(Emission("[", [], [])).Then(i), "]");
      em := b.Then(Emission("[", [], [])).Then(i).Then(Emission("]", [], []));
    }

    /** An integer index into the transformed coordinates: one `%s` naming
        the set's cache variable, and the set-up statement on first use. */
    method WriteCoordsReference(index: int) returns (ghost em: Emission)
      requires Valid()
      modifies this`out, this`formatArgs, this`extraEmitCode, this`writtenCoords
      ensures Valid() && Emits(em)
      ensures em == Emission("%s", [CoordName(index) + ".c_str()"], [])
      ensures writtenCoords == old(writtenCoords) + {index}
      ensures extraEmitCode == old(extraEmitCode) + (if index in old(writtenCoords) then [] else [index])
    {
      em := WriteConversion(CoordName(index) + ".c_str()");
      if index !in writtenCoords {
        extraEmitCode := extraEmitCode + [index];
        writtenCoords := writtenCoords + {index};
      }
    }

    /** `writeIndexExpression`: an index into the transformed coordinates or
        the texture samplers must be an integer literal and becomes one `%s`;
        the first use of a coordinate set also appends its set-up statement.
        Any other index expression is left to the GLSL printer. */
    method WriteIndexExpression(e: Expr) returns (ghost em: Emission)
      requires e.IndexExpression? && Valid() && ExprSupported(e, parameters, needColorSpaceHelper)
      modifies this`out, this`formatArgs, this`errors, this`extraEmitCode, this`writtenCoords
      modifies this`functionHeader, this`varCount
      ensures Valid() && Emits(em)
      // a coordinate set is named by its cache variable, set up on first use only
      ensures BuiltinOf(e.base) == TransformedCoords2DBuiltin && e.index.IntLiteral? ==>
        var i := e.index.value as int;
        && em == Emission("%s", [CoordName(i) + ".c_str()"], [])
        && writtenCoords == old(writtenCoords) + {i}
        && extraEmitCode == old(extraEmitCode) + (if i in old(writtenCoords) then [] else [i])
      // a sampler is named by its slot
      ensures BuiltinOf(e.base) == TextureSamplersBuiltin && e.index.IntLiteral? ==>
        && em == Emission("%s", [SamplerIndexArg("args.fTexSamplers[" + IntToString(e.index.value as int) + "]")], [])
        && writtenCoords == old(writtenCoords) && extraEmitCode == old(extraEmitCode)
      // a computed index is an error; the `%s` is written all the same
      ensures BuiltinOf(e.base) == TransformedCoords2DBuiltin && !e.index.IntLiteral? ==>
        && em == Emission("%s", [], [Diagnostic(e.index.pos, CoordsIndexMessage)])
        && writtenCoords == old(writtenCoords) && extraEmitCode == old(extraEmitCode)
      ensures BuiltinOf(e.base) == TextureSamplersBuiltin && !e.index.IntLiteral? ==>
        && em == Emission("%s", [], [Diagnostic(e.index.pos, SamplersIndexMessage)])
        && writtenCoords == old(writtenCoords) && extraEmitCode == old(extraEmitCode)
      decreases e, 2
    {
      var builtin := BuiltinOf(e.base);
      if builtin == TransformedCoords2DBuiltin || builtin == TextureSamplersBuiltin {
        if !e.index.IntLiteral? {
          var message := if builtin == TransformedCoords2DBuiltin then CoordsIndexMessage else SamplersIndexMessage;
          out := out + "%s";
          errors := errors + [Diagnostic(e.index.pos, message)];
          em := Emission("%s", [], [Diagnostic(e.index.pos, message)]);
          Conversion('s');
        } else if builtin == TransformedCoords2DBuiltin {
          em := WriteCoordsReference(e.index.value as int);
        } else {
          em := WriteConversion(SamplerIndexArg("args.fTexSamplers[" + IntToString(e.index.value as int) + "]"));
        }
      } else {
        em := InheritedWriteIndexExpression(e);
      }
    }

    /** The GLSL printer's call: `name(arg, ...)`. */
    method InheritedWriteFunctionCall(e: Expr) returns (ghost em: Emission)
      requires e.FunctionCall? && Valid()
      requires forall k :: 0 <= k < |e.arguments| ==> ExprSupported(e.arguments[k], parameters, needColorSpaceHelper)
      modifies this`out, this`formatArgs, this`errors, this`extraEmitCode, this`writtenCoords
      modifies this`functionHeader, this`varCount
      ensures Valid() && Emits(em)
      decreases e, 1
    {
      PlainConcat(e.callee.fnName, "(");
      out := out + e.callee.fnName + "(";
      em := Emission(e.callee.fnName + "(", [], []);
      PlainBalanced(em.text);
      var k := 0;
      while k < |e.arguments|
        invariant 0 <= k <= |e.arguments|
        invariant Valid() && Emits(em)
      {
        if k > 0 {
          var comma := WritePlain(", ");
          EmitsThen(old(out), old(out) + em.text, out, old(formatArgs), old(formatArgs) + em.args, formatArgs,
                    old(errors), old(errors) + em.reported, errors, em, comma);
          em := em.Then(comma);
        }
        assert e.arguments[k] in e.arguments;
        var out1, args1, errors1 := out, formatArgs, errors;
        var arg := WriteExpression(e.arguments[k], TopLevelPrecedence);
        EmitsThen(old(out), out1, out, old(formatArgs), args1, formatArgs, old(errors), errors1, errors, em, arg);
        em := em.Then(arg);
        k := k + 1;
      }
      var close := WritePlain(")");
      EmitsThen(old(out), old(out) + em.text, out, old(formatArgs), old(formatArgs) + em.args, formatArgs,
                old(errors), old(errors) + em.reported, errors, em, close);
      em := em.Then(close);
    }

    /** `COLORSPACE(color, xform)`: declares a fresh temporary in the
        function's prologue, saves the colour into it and applies the gamut
        transform when the helper holds one; the call itself is printed only
        through the two format arguments around the colour. */
    method WriteColorSpaceCall(e: Expr) returns (ghost em: Emission, ghost color: Emission)
      requires IsBuiltinCall(e, "COLORSPACE") && Valid() && ExprSupported(e, parameters, needColorSpaceHelper)
      modifies this`out, this`formatArgs, this`errors, this`extraEmitCode, this`writtenCoords
      modifies this`functionHeader, this`varCount
      ensures Valid() && Emits(em)
      ensures
        var tmp := TempVarName(old(varCount) + 1);
        && |old(functionHeader)| < |functionHeader|
        && functionHeader[|old(functionHeader)|] == old(varCount) + 1
        && em == Emission("%s", [ColorSpaceOpenArg(tmp)], []).Then(color)
                   .Then(Emission("%s", [ColorSpaceCloseArg(tmp)], []))
      decreases e, 1
    {
      var tmp := DeclareTemporary();
      assert e.arguments[0] in e.arguments;
      em, color := WriteColorSpaceConversion(e.arguments[0], tmp);
    }

    /** A fresh temporary, `half4 _tmpVarN;` added to the prologue of the
        current `main`. */
    method DeclareTemporary() returns (tmp: string)
      requires Valid()
      modifies this`functionHeader, this`varCount
      ensures Valid()
      ensures varCount == old(varCount) + 1 && tmp == TempVarName(varCount)
      ensures functionHeader == old(functionHeader) + [varCount]
    {
      varCount := varCount + 1;
      tmp := TempVarName(varCount);
      functionHeader := functionHeader + [varCount];
    }

    /** The colour argument of `COLORSPACE` between the conversion that saves
        it into temporary `tmp` and the one that finishes the transform. */
    method WriteColorSpaceConversion(color: Expr, tmp: string) returns (ghost em: Emission, ghost inner: Emission)
      requires Valid() && ExprSupported(color, parameters, needColorSpaceHelper)
      modifies this`out, this`formatArgs, this`errors, this`extraEmitCode, this`writtenCoords
      modifies this`functionHeader, this`varCount
      ensures Valid() && Emits(em)
      ensures em == Emission("%s", [ColorSpaceOpenArg(tmp)], []).Then(inner)
                   .Then(Emission("%s", [ColorSpaceCloseArg(tmp)], []))
      decreases color, 4
    {
      var open := Emission("%s", [ColorSpaceOpenArg(tmp)], []);
      var close := Emission("%s", [ColorSpaceCloseArg(tmp)], []);
      out := out + "%s";
      formatArgs := formatArgs + [ColorSpaceOpenArg(tmp)];
      inner := WriteExpression(color, TopLevelPrecedence);
      out := out + "%s";
      formatArgs := formatArgs + [ColorSpaceCloseArg(tmp)];
      ConversionBalanced(ColorSpaceOpenArg(tmp));
      ConversionBalanced(ColorSpaceCloseArg(tmp));
      BalancedThen(open, inner);
      BalancedThen(open.Then(inner), close);
      em := open.Then(inner).Then(close);
    }

    /** `writeFunctionCall`: `COLORSPACE` as above; any other call is left to
        the GLSL printer, and a builtin `texture` call gets the sampler's
        swizzle appended as one more `%s`. */
    method WriteFunctionCall(e: Expr) returns (ghost em: Emission, ghost inner: Emission)
      requires e.FunctionCall? && Valid() && ExprSupported(e, parameters, needColorSpaceHelper)
      modifies this`out, this`formatArgs, this`errors, this`extraEmitCode, this`writtenCoords
      modifies this`functionHeader, this`varCount
      ensures Valid() && Emits(em)
      ensures IsBuiltinCall(e, "COLORSPACE") ==>
        var tmp := TempVarName(old(varCount) + 1);
        && |old(functionHeader)| < |functionHeader|
        && functionHeader[|old(functionHeader)|] == old(varCount) + 1
        && em == Emission("%s", [ColorSpaceOpenArg(tmp)], []).Then(inner)
                   .Then(Emission("%s", [ColorSpaceCloseArg(tmp)], []))
      ensures IsBuiltinCall(e, "texture") ==>
        em == inner.Then(Emission(".%s", [SamplerSwizzleArg(SamplerHandle(SamplerSlot(parameters, e.arguments[0].variable)))], []))
      decreases e, 2
    {
      if IsBuiltinCall(e, "COLORSPACE") {
        em, inner := WriteColorSpaceCall(e);
        return;
      }
      em := InheritedWriteFunctionCall(e);
      inner := em;
      if IsBuiltinCall(e, "texture") {
        out := out + ".%s";
        var sampler := GetSamplerHandle(e.arguments[0].variable);
        formatArgs := formatArgs + [SamplerSwizzleArg(sampler)];
        var swizzle := Emission(".%s", [SamplerSwizzleArg(sampler)], []);
        Conversion('s');
        ClosedConcat(".", "%s");
        BalancedThen(inner, swizzle);
        em := inner.Then(swizzle);
      }
    }

    /** Writes `open e close`, with `e` at `precedence`. */
    method WriteBetween(open: string, e: Expr, precedence: nat, close: string)
      returns (ghost em: Emission, ghost inner: Emission)
      requires Plain(open) && Plain(close)
      requires Valid() && ExprSupported(e, parameters, needColorSpaceHelper)
      modifies this`out, this`formatArgs, this`errors, this`extraEmitCode, this`writtenCoords
      modifies this`functionHeader, this`varCount
      ensures Valid() && Emits(em)
      ensures em == Emission(open, [], []).Then(inner).Then(Emission(close, [], []))
      decreases e, 4
    {
      out := out + open;
      inner := WriteExpression(e, precedence);
      out := out + close;
      PlainBalanced(open);
      BalancedThen(Emission(open, [], []), inner);
      ThenPlain(Emission(open, [], []).Then(inner), close);
      em := Emission(open, [], []).Then(inner).Then(Emission(close, [], []));
    }

    /** `writeStatement` of the GLSL printer: dispatch on the statement's
        kind to the (possibly overridden) writer. */
    method WriteStatement(s: Statement) returns (ghost em: Emission)
      requires Valid() && StatementSupported(s, parameters, needColorSpaceHelper)
      modifies this`out, this`formatArgs, this`errors, this`extraEmitCode, this`writtenCoords
      modifies this`functionHeader, this`varCount
      ensures Valid() && Emits(em)
      decreases s, 3
    {
      match s
      case ExpressionStatement(e) =>
        PlainBalanced("");
        ghost var inner;
        em, inner := WriteBetween("", e, TopLevelPrecedence, ";");
      case IfStatement(_, _, _, _) =>
        ghost var inner;
        em, inner := WriteIfStatement(s);
      case SwitchStatement(_, _, _) =>
        ghost var inner;
        em, inner := WriteSwitchStatement(s);
      case Block(_) => em := InheritedWriteBlock(s);
      case ReturnStatement(_) => em := InheritedWriteReturnStatement(s);
      case VarDeclarationsStatement(_) => em := InheritedWriteVarDeclarations(s);
    }

    /** `writeIfStatement`: a static `if` is marked with `@`, which the
        processor's host resolves when it builds the shader. */
    method WriteIfStatement(s: Statement) returns (ghost em: Emission, ghost inner: Emission)
      requires s.IfStatement? && Valid() && StatementSupported(s, parameters, needColorSpaceHelper)
      modifies this`out, this`formatArgs, this`errors, this`extraEmitCode, this`writtenCoords
      modifies this`functionHeader, this`varCount
      ensures Valid() && Emits(em)
      ensures em == Emission(if s.ifStatic then "@" else "", [], []).Then(inner)
      ensures "if (" <= inner.text
      ensures (|em.text| > 0 && em.text[0] == '@') <==> s.ifStatic
      decreases s, 2
    {
      if s.ifStatic {
        out := out + "@";
      }
      inner := InheritedWriteIfStatement(s);
      PlainBalanced(if s.ifStatic then "@" else "");
      BalancedThen(Emission(if s.ifStatic then "@" else "", [], []), inner);
      em := Emission(if s.ifStatic then "@" else "", [], []).Then(inner);
      assert inner.text[0] == 'i';
    }

    /** The GLSL printer's `if (test) ifTrue else ifFalse`. */
    method InheritedWriteIfStatement(s: Statement) returns (ghost em: Emission)
      requires s.IfStatement? && Valid() && StatementSupported(s, parameters, needColorSpaceHelper)
      modifies this`out, this`formatArgs, this`errors, this`extraEmitCode, this`writtenCoords
      modifies this`functionHeader, this`varCount
      ensures Valid() && Emits(em)
      ensures "if (" <= em.text
      decreases s, 1
    {
      ghost var test;
      em, test := WriteBetween("if (", s.test, TopLevelPrecedence, ") ");
      var out1, args1, errors1 := out, formatArgs, errors;
      var ifTrue := WriteStatement(s.ifTrue);
      EmitsThen(old(out), out1, out, old(formatArgs), args1, formatArgs, old(errors), errors1, errors, em, ifTrue);
      em := em.Then(ifTrue);
      if s.ifFalse.Some? {
        var out2, args2, errors2 := out, formatArgs, errors;
        var ifFalse := WriteElse(s.ifFalse.value);
        EmitsThen(old(out), out2, out, old(formatArgs), args2, formatArgs, old(errors), errors2, errors, em, ifFalse);
        em := em.Then(ifFalse);
      }
    }

    /** ` else ifFalse`. */
    method WriteElse(s: Statement) returns (ghost em: Emission)
      requires Valid() && StatementSupported(s, parameters, needColorSpaceHelper)
      modifies this`out, this`formatArgs, this`errors, this`extraEmitCode, this`writtenCoords
      modifies this`functionHeader, this`varCount
      ensures Valid() && Emits(em)
      decreases s, 4
    {
      out := out + " else ";
      var inner := WriteStatement(s);
      ThenPlain(Nothing, " else ");
      BalancedThen(Emission(" else ", [], []), inner);
      em := Emission(" else ", [], []).Then(inner);
    }

    /** `writeSwitchStatement`: a static `switch` is marked with `@`. */
    method WriteSwitchStatement(s: Statement) returns (ghost em: Emission, ghost inner: Emission)
      requires s.SwitchStatement? && Valid() && StatementSupported(s, parameters, needColorSpaceHelper)
      modifies this`out, this`formatArgs, this`errors, this`extraEmitCode, this`writtenCoords
      modifies this`functionHeader, this`varCount
      ensures Valid() && Emits(em)
      ensures em == Emission(if s.switchStatic then "@" else "", [], []).Then(inner)
      ensures "switch (" <= inner.text
      ensures (|em.text| > 0 && em.text[0] == '@') <==> s.switchStatic
      decreases s, 2
    {
      if s.switchStatic {
        out := out + "@";
      }
      inner := InheritedWriteSwitchStatement(s);
      PlainBalanced(if s.switchStatic then "@" else "");
      BalancedThen(Emission(if s.switchStatic then "@" else "", [], []), inner);
      em := Emission(if s.switchStatic then "@" else "", [], []).Then(inner);
      assert inner.text[0] == 's';
    }

    /** The GLSL printer's `switch (value) { cases }`. */
    method InheritedWriteSwitchStatement(s: Statement) returns (ghost em: Emission)
      requires s.SwitchStatement? && Valid() && StatementSupported(s, parameters, needColorSpaceHelper)
      modifies this`out, this`formatArgs, this`errors, this`extraEmitCode, this`writtenCoords
      modifies this`functionHeader, this`varCount
      ensures Valid() && Emits(em)
      ensures "switch (" <= em.text
      decreases s, 1
    {
      PlainConcat(") {", LineEnding);
      ghost var value;
      em, value := WriteBetween("switch (", s.switchValue, TopLevelPrecedence, ") {" + LineEnding);
      var k := 0;
      while k < |s.cases|
        invariant 0 <= k <= |s.cases|
        invariant Valid() && Emits(em) && "switch (" <= em.text
      {
        assert s.cases[k] in s.cases;
        var out1, args1, errors1 := out, formatArgs, errors;
        var c := WriteSwitchCase(s.cases[k]);
        EmitsThen(old(out), out1, out, old(formatArgs), args1, formatArgs, old(errors), errors1, errors, em, c);
        em := em.Then(c);
        k := k + 1;
      }
      var out2, args2, errors2 := out, formatArgs, errors;
      var close := WritePlain("}");
      EmitsThen(old(out), out2, out, old(formatArgs), args2, formatArgs, old(errors), errors2, errors, em, close);
      em := em.Then(close);
    }

    /** One `case label:` (or `default:`) and its statements, one per line. */
    method WriteSwitchCase(c: SwitchCase) returns (ghost em: Emission)
      requires Valid() && CaseSupported(c, parameters, needColorSpaceHelper)
      modifies this`out, this`formatArgs, this`errors, this`extraEmitCode, this`writtenCoords
      modifies this`functionHeader, this`varCount
      ensures Valid() && Emits(em)
      decreases c, 2
    {
      PlainConcat(":", LineEnding);
      if c.caseLabel.Some? {
        ghost var caseValue;
        em, caseValue := WriteBetween("case ", c.caseLabel.value, TopLevelPrecedence, ":" + LineEnding);
      } else {
        PlainConcat("default:", LineEnding);
        out := out + "default:" + LineEnding;
        PlainBalanced("default:" + LineEnding);
        em := Emission("default:" + LineEnding, [], []);
      }
      var out1, args1, errors1 := out, formatArgs, errors;
      var body := WriteCaseBody(c);
      EmitsThen(old(out), out1, out, old(formatArgs), args1, formatArgs, old(errors), errors1, errors, em, body);
      em := em.Then(body);
    }

    /** The statements of a case, one per line. */
    method WriteCaseBody(c: SwitchCase) returns (ghost em: Emission)
      requires Valid() && CaseSupported(c, parameters, needColorSpaceHelper)
      modifies this`out, this`formatArgs, this`errors, this`extraEmitCode, this`writtenCoords
      modifies this`functionHeader, this`varCount
      ensures Valid() && Emits(em)
      decreases c, 1
    {
      em := Nothing;
      PlainBalanced("");
      var k := 0;
      while k < |c.caseBody|
        invariant 0 <= k <= |c.caseBody|
        invariant Valid() && Emits(em)
      {
        assert c.caseBody[k] in c.caseBody;
        var out1, args1, errors1 := out, formatArgs, errors;
        var line := WriteStatement(c.caseBody[k]);
        EmitsThen(old(out), out1, out, old(formatArgs), args1, formatArgs, old(errors), errors1, errors, em, line);
        var out2, args2, errors2 := out, formatArgs, errors;
        var ending := WritePlain(LineEnding);
        EmitsThen(old(out), out2, out, old(formatArgs), args2, formatArgs, old(errors), errors2, errors, em.Then(line), ending);
        em := em.Then(line).Then(ending);
        k := k + 1;
      }
    }

    /** The GLSL printer's block: `{`, the statements one per line, `}`. */
    method InheritedWriteBlock(s: Statement) returns (ghost em: Emission)
      requires s.Block? && Valid() && StatementSupported(s, parameters, needColorSpaceHelper)
      modifies this`out, this`formatArgs, this`errors, this`extraEmitCode, this`writtenCoords
      modifies this`functionHeader, this`varCount
      ensures Valid() && Emits(em)
      decreases s, 2
    {
      PlainConcat("{", LineEnding);
      out := out + "{" + LineEnding;
      PlainBalanced("{" + LineEnding);
      em := Emission("{" + LineEnding, [], []);
      var k := 0;
      while k < |s.statements|
        invariant 0 <= k <= |s.statements|
        invariant Valid() && Emits(em)
      {
        assert s.statements[k] in s.statements;
        var out1, args1, errors1 := out, formatArgs, errors;
        var line := WriteStatement(s.statements[k]);
        EmitsThen(old(out), out1, out, old(formatArgs), args1, formatArgs, old(errors), errors1, errors, em, line);
        var out2, args2, errors2 := out, formatArgs, errors;
        var ending := WritePlain(LineEnding);
        EmitsThen(old(out), out2, out, old(formatArgs), args2, formatArgs, old(errors), errors2, errors, em.Then(line), ending);
        em := em.Then(line).Then(ending);
        k := k + 1;
      }
      var out3, args3, errors3 := out, formatArgs, errors;
      var close := WritePlain("}");
      EmitsThen(old(out), out3, out, old(formatArgs), args3, formatArgs, old(errors), errors3, errors, em, close);
      em := em.Then(close);
    }

    /** The GLSL printer's `return value;`. */
    method InheritedWriteReturnStatement(s: Statement) returns (ghost em: Emission)
      requires s.ReturnStatement? && Valid() && StatementSupported(s, parameters, needColorSpaceHelper)
      modifies this`out, this`formatArgs, this`errors, this`extraEmitCode, this`writtenCoords
      modifies this`functionHeader, this`varCount
      ensures Valid() && Emits(em)
      decreases s, 2
    {
      if s.returned.Some? {
        ghost var value;
        em, value := WriteBetween("return ", s.returned.value, TopLevelPrecedence, ";");
      } else {
        out := out + "return;";
        PlainBalanced("return;");
        em := Emission("return;", [], []);
      }
    }

    /** The GLSL printer's local declarations: `type a = init, b;`. */
    method InheritedWriteVarDeclarations(s: Statement) returns (ghost em: Emission)
      requires s.VarDeclarationsStatement? && Valid() && StatementSupported(s, parameters, needColorSpaceHelper)
      modifies this`out, this`formatArgs, this`errors, this`extraEmitCode, this`writtenCoords
      modifies this`functionHeader, this`varCount
      ensures Valid() && Emits(em)
      decreases s, 2
    {
      em := Nothing;
      PlainBalanced("");
      var k := 0;
      while k < |s.locals|
        invariant 0 <= k <= |s.locals|
        invariant Valid() && Emits(em)
      {
        var d := s.locals[k];
        var lead := if k == 0 then d.variable.varType.Name() + " " else ", ";
        PlainConcat(d.variable.varType.Name(), " ");
        assert d in s.locals;
        var out1, args1, errors1 := out, formatArgs, errors;
        var declarator := WriteDeclarator(lead, d);
        EmitsThen(old(out), out1, out, old(formatArgs), args1, formatArgs, old(errors), errors1, errors, em, declarator);
        em := em.Then(declarator);
        k := k + 1;
      }
      var out2, args2, errors2 := out, formatArgs, errors;
      var semicolon := WritePlain(";");
      EmitsThen(old(out), out2, out, old(formatArgs), args2, formatArgs, old(errors), errors2, errors, em, semicolon);
      em := em.Then(semicolon);
    }

    /** One declarator, `lead name` followed by ` = initializer` when there is one. */
    method WriteDeclarator(lead: string, d: VarDeclaration) returns (ghost em: Emission)
      requires Plain(lead) && Valid() && InitializerSupported(d, parameters, needColorSpaceHelper)
      modifies this`out, this`formatArgs, this`errors, this`extraEmitCode, this`writtenCoords
      modifies this`functionHeader, this`varCount
      ensures Valid() && Emits(em)
      decreases d, 2
    {
      PlainConcat(lead, d.variable.name);
      PlainConcat(lead + d.variable.name, " = ");
      var head := lead + d.variable.name + (if d.value.Some? then " = " else "");
      out := out + head;
      PlainBalanced(head);
      em := Emission(head, [], []);
      if d.value.Some? {
        ghost var value;
        value := WriteVarInitializer(d.variable, d.value.value);
        BalancedThen(em, value);
        em := em.Then(value);
      }
    }

    /** `writeVarInitializer`: a private global's initial value is computed
        in C++ and passed as a run-time value; any other initializer is
        printed as an expression. */
    method WriteVarInitializer(v: Variable, value: Expr) returns (ghost em: Emission)
      requires Valid()
      requires IsPrivate(v) ==> RuntimeSupported(v.varType)
      requires !IsPrivate(v) ==> ExprSupported(value, parameters, needColorSpaceHelper)
      modifies this`out, this`formatArgs, this`errors, this`extraEmitCode, this`writtenCoords
      modifies this`functionHeader, this`varCount
      ensures Valid() && Emits(em)
      ensures IsPrivate(v) ==>
        em == Emission(RuntimeValueText(v.varType), RuntimeValueArgs(v.varType, v.name), [])
      decreases value, 4
    {
      if IsPrivate(v) {
        em := WriteRuntimeValue(v.varType, v.name);
      } else {
        em := WriteExpression(value, TopLevelPrecedence);
      }
    }

    /** The statements of a function body, one per line. */
    method WriteFunctionBody(f: FunctionDefinition) returns (ghost em: Emission, ghost lines: seq<Emission>)
      requires Valid() && FunctionSupported(f, parameters, needColorSpaceHelper)
      modifies this`out, this`formatArgs, this`errors, this`extraEmitCode, this`writtenCoords
      modifies this`functionHeader, this`varCount
      ensures Valid() && Emits(em)
      // one balanced emission per statement, each followed by the line ending
      ensures |lines| == |f.body| && em == EndLines(lines)
      ensures forall k :: 0 <= k < |lines| ==> lines[k].Balanced()
    {
      em := Nothing;
      lines := [];
      PlainBalanced("");
      var k := 0;
      while k < |f.body|
        invariant 0 <= k <= |f.body|
        invariant Valid() && Emits(em)
        invariant |lines| == k && em == EndLines(lines)
        invariant forall j :: 0 <= j < |lines| ==> lines[j].Balanced()
      {
        var out1, args1, errors1 := out, formatArgs, errors;
        var line := WriteStatement(f.body[k]);
        EmitsThen(old(out), out1, out, old(formatArgs), args1, formatArgs, old(errors), errors1, errors, em, line);
        var out2, args2, errors2 := out, formatArgs, errors;
        var ending := WritePlain(LineEnding);
        EmitsThen(old(out), out2, out, old(formatArgs), args2, formatArgs, old(errors), errors2, errors, em.Then(line), ending);
        assert (lines + [line])[..k] == lines;
        em := em.Then(line).Then(ending);
        lines := lines + [line];
        k := k + 1;
      }
    }

    /** `writeFunction`: the body of `main` is printed into a buffer of its
        own, with an empty prologue; the prologue, which now declares every
        temporary the body synthesized, is written first and the buffered
        body after it.  Any other function is left to the GLSL printer. */
    method WriteFunction(f: FunctionDefinition) returns (ghost em: Emission, ghost body: Emission)
      requires Valid() && FunctionSupported(f, parameters, needColorSpaceHelper)
      modifies this`out, this`formatArgs, this`errors, this`extraEmitCode, this`writtenCoords
      modifies this`functionHeader, this`varCount, this`headerMark
      ensures Valid() && Emits(em)
      ensures f.declaration.fnName == "main" ==>
        // the prologue declares exactly the temporaries the body synthesized, in order
        && |functionHeader| == varCount - old(varCount)
        && (forall k :: 0 <= k < |functionHeader| ==> functionHeader[k] == old(varCount) + k + 1)
        // and is written before the body
        && em == Emission(FunctionHeaderText(functionHeader), [], []).Then(body)
      ensures f.declaration.fnName != "main" ==> headerMark == old(headerMark)
    {
      if f.declaration.fnName == "main" {
        functionHeader := [];
        headerMark := varCount;
        var saved := out;
        out := "";
        ghost var lines;
        body, lines := WriteFunctionBody(f);
        var header := FunctionHeaderText(functionHeader);
        out := saved + header + out;
        PlainBalanced(header);
        BalancedThen(Emission(header, [], []), body);
        AppendAssoc(saved, header, body.text);
        em := Emission(header, [], []).Then(body);
      } else {
        em := InheritedWriteFunction(f);
        body := em;
      }
    }

    /** The GLSL printer's function: signature, `{`, the statements one per
        line, `}`. */
    method InheritedWriteFunction(f: FunctionDefinition) returns (ghost em: Emission)
      requires Valid() && FunctionSupported(f, parameters, needColorSpaceHelper)
      modifies this`out, this`formatArgs, this`errors, this`extraEmitCode, this`writtenCoords
      modifies this`functionHeader, this`varCount
      ensures Valid() && Emits(em)
      ensures Signature(f) <= em.text
    {
      var open := Signature(f) + "{" + LineEnding;
      PlainConcat(Signature(f), "{");
      PlainConcat(Signature(f) + "{", LineEnding);
      out := out + open;
      ghost var lines;
      ghost var body;
      body, lines := WriteFunctionBody(f);
      PlainConcat("}", LineEnding);
      out := out + "}" + LineEnding;
      PlainBalanced(open);
      BalancedThen(Emission(open, [], []), body);
      ThenPlain(Emission(open, [], []).Then(body), "}" + LineEnding);
      em := Emission(open, [], []).Then(body).Then(Emission("}" + LineEnding, [], []));
    }

    /** `writeProgramElement`: sections are not printed, nor are empty
        declarations or globals that are `in`, uniform or builtin; every
        other element is left to the GLSL printer. */
    method WriteProgramElement(p: ProgramElement) returns (ghost em: Emission)
      requires Valid() && ElementSupported(p, parameters, needColorSpaceHelper)
      modifies this`out, this`formatArgs, this`errors, this`extraEmitCode, this`writtenCoords
      modifies this`functionHeader, this`varCount, this`headerMark
      ensures Valid() && Emits(em)
      ensures p.SectionElement? ==> em == Nothing && unchanged(this)
      ensures p.VarElement? && !PrintsDeclarations(p.decls) ==> em == Nothing && unchanged(this)
      ensures p.VarElement? && PrintsDeclarations(p.decls) ==> headerMark == old(headerMark)
    {
      PlainBalanced("");
      em := Nothing;
      match p
      case SectionElement(_) =>
      case VarElement(ds) =>
        if PrintsDeclarations(ds) {
          em := InheritedWriteGlobalDeclarations(ds);
        }
      case FunctionElement(f) =>
        ghost var body;
        em, body := WriteFunction(f);
    }

    /** The GLSL printer's global declarations: the declarations, then a line end. */
    method InheritedWriteGlobalDeclarations(ds: seq<VarDeclaration>) returns (ghost em: Emission)
      requires Valid()
      requires forall k :: 0 <= k < |ds| ==> InitializerSupported(ds[k], parameters, needColorSpaceHelper)
      modifies this`out, this`formatArgs, this`errors, this`extraEmitCode, this`writtenCoords
      modifies this`functionHeader, this`varCount
      ensures Valid() && Emits(em)
    {
      var decls := InheritedWriteVarDeclarations(VarDeclarationsStatement(ds));
      out := out + LineEnding;
      ThenPlain(decls, LineEnding);
      em := decls.Then(Emission(LineEnding, [], []));
    }

    /** The GLSL printer's `generateCode`: every program element in order. */
    method InheritedGenerateCode() returns (result: bool, ghost em: Emission)
      requires Valid() && ProgramSupported(program, parameters, needColorSpaceHelper)
      modifies this`out, this`formatArgs, this`errors, this`extraEmitCode, this`writtenCoords
      modifies this`functionHeader, this`varCount, this`headerMark
      ensures Valid() && Emits(em)
      ensures result
    {
      em := Nothing;
      PlainBalanced("");
      var i := 0;
      while i < |program|
        invariant 0 <= i <= |program|
        invariant Valid() && Emits(em)
      {
        var element := WriteProgramElement(program[i]);
        BalancedThen(em, element);
        em := em.Then(element);
        i := i + 1;
      }
      result := true;
    }
  
    /*
     * The C++ text around the shader: the members and methods of the
     * generated GLSL class and of the processor.
     */

    /** Writes `line(x)` for every `x` of `xs`, in order: the shape of the
        generator's loops over parameters, sections and arguments. */
    method WriteAll<T>(xs: seq<T>, line: T -> string)
      modifies this`out
      ensures out == old(out) + Flatten(xs, line)
    {
      var i := 0;
      while i < |xs|
        invariant 0 <= i <= |xs|
        invariant out == old(out) + Flatten(xs[..i], line)
      {
        out := out + line(xs[i]);
        FlattenSnoc(xs, i, line);
        i := i + 1;
      }
      assert xs[..i] == xs;
    }

    /** `writeSection`: writes the text of the first section with that name
        and tells whether there was one. */
    method WriteSection(sectionName: string) returns (found: bool)
      modifies this`out
      ensures found == GetSection(sections, sectionName).Some?
      ensures out == old(out) + SectionText(sections, sectionName)
    {
      var s := GetSection(sections, sectionName);
      found := s.Some?;
      if found {
        out := out + s.value.text;
      }
    }

    /** `addUniform`: registers `v` with the uniform handler, under its `when`
        guard, when it needs a uniform handle. */
    method AddUniform(v: Variable)
      requires NeedsUniformVar(v) ==> HasUniformType(v.varType)
      modifies this`out
      ensures out == old(out) + UniformRegistration(fieldName, v)
    {
      if !NeedsUniformVar(v) {
        return;
      }
      var precision := PrecisionToken(v.modifiers);
      var typeToken := UniformTypeToken(v.varType);
      assert precision == PrecisionToken(v.modifiers);
      assert typeToken == UniformTypeToken(v.varType);
      var line := Indent + fieldName(v.name) + AddUniformCall + typeToken + ", " + precision + ", \"" + v.name + "\");\n";
      assert line == RegistrationLine(fieldName, v);
      if |v.layout.when| > 0 {
        var open := "        if (" + v.layout.when + ") {\n    ";
        out := out + open;
        out := out + line;
        out := out + "        }\n";
        AppendAssoc(old(out), open, line);
        AppendAssoc(old(out), open + line, "        }\n");
      } else {
        out := out + line;
      }
    }

    /** Writes `line(d)` for every global declaration `d` of the program, in
        order: the loop of `writePrivateVars` and `writePrivateVarValues`. */
    method WriteGlobalLines(line: VarDeclaration -> string)
      modifies this`out
      ensures out == old(out) + Flatten(GlobalDeclarations(program), line)
    {
      var i := 0;
      while i < |program|
        invariant 0 <= i <= |program|
        invariant out == old(out) + Flatten(GlobalDeclarations(program[..i]), line)
      {
        ghost var done := GlobalDeclarations(program[..i]);
        var decls := if program[i].VarElement? then program[i].decls else [];
        var mid := out;
        var j := 0;
        while j < |decls|
          invariant 0 <= j <= |decls|
          invariant out == mid + Flatten(decls[..j], line)
        {
          out := out + line(decls[j]);
          FlattenSnoc(decls, j, line);
          AppendAssoc(mid, Flatten(decls[..j], line), line(decls[j]));
          j := j + 1;
        }
        assert decls[..j] == decls;
        GlobalDeclarationsSnoc(program, i);
        FlattenAppend(done, decls, line);
        AppendAssoc(old(out), Flatten(done, line), Flatten(decls, line));
        i := i + 1;
      }
      assert program[..i] == program;
    }

    /** `writePrivateVars`: a member for every private global. */
    method WritePrivateVars()
      modifies this`out
      ensures out == old(out) + Flatten(GlobalDeclarations(program), PrivateVarLines(fieldType))
    {
      WriteGlobalLines(PrivateVarLines(fieldType));
    }

    /** `writePrivateVarValues`: an assignment for every private global with
        an initial value. */
    method WritePrivateVarValues()
      modifies this`out
      ensures out == old(out) + Flatten(GlobalDeclarations(program), PrivateValueLines(describe))
    {
      WriteGlobalLines(PrivateValueLines(describe));
    }

    /** The uniform loop of `writeEmitCode`: registers every uniform; the
        first colour-space transform turns the helper on, every later one is
        reported, and each sets the helper up. */
    method WriteUniformSetup(uniforms: seq<Variable>)
      requires RegistrableUniforms(uniforms)
      modifies this`out, this`errors, this`needColorSpaceHelper
      ensures out == old(out) + UniformSetupText(fieldName, uniforms)
      ensures errors == old(errors) + XformErrors(uniforms, old(needColorSpaceHelper))
      ensures needColorSpaceHelper == (old(needColorSpaceHelper) || AnyXform(uniforms))
    {
      var i := 0;
      while i < |uniforms|
        invariant 0 <= i <= |uniforms|
        invariant out == old(out) + UniformSetupText(fieldName, uniforms[..i])
        invariant errors == old(errors) + XformErrors(uniforms[..i], old(needColorSpaceHelper))
        invariant needColorSpaceHelper == (old(needColorSpaceHelper) || AnyXform(uniforms[..i]))
      {
        var mid, errorsMid, helperMid := out, errors, needColorSpaceHelper;
        SetUpUniform(uniforms[i]);
        UniformSetupStep(fieldName, uniforms, i, old(out), mid, out);
        XformStep(uniforms, i, old(needColorSpaceHelper), helperMid, old(errors), errorsMid, errors);
        i := i + 1;
      }
      assert uniforms[..i] == uniforms;
    }

    /** One round of the uniform loop: registers `u`; a colour-space
        transform turns the helper on, is reported if the helper was on
        already, and sets the helper up. */
    method SetUpUniform(u: Variable)
      requires NeedsUniformVar(u) ==> HasUniformType(u.varType)
      modifies this`out, this`errors, this`needColorSpaceHelper
      ensures out == old(out) + UniformSetupPiece(fieldName, u)
      ensures errors == old(errors)
        + (if u.varType == ColorSpaceXform && old(needColorSpaceHelper) then [Diagnostic(u.pos, SingleXformMessage)] else [])
      ensures needColorSpaceHelper == (old(needColorSpaceHelper) || u.varType == ColorSpaceXform)
    {
      AddUniform(u);
      if u.varType == ColorSpaceXform {
        if needColorSpaceHelper {
          errors := errors + [Diagnostic(u.pos, SingleXformMessage)];
        }
        needColorSpaceHelper := true;
        out := out + HelperSetupLine(u);
        AppendAssoc(old(out), UniformRegistration(fieldName, u), HelperSetupLine(u));
      }
    }

    /** The end of `writeEmitCode`: the coordinate set-up code and the
        `codeAppendf` call with the shader text and every format argument. */
    method WriteCodeAppend(main: string)
      modifies this`out
      ensures out == old(out) + CodeAppendText(ExtraEmitCodeText(extraEmitCode), main, formatArgs)
    {
      var head := ExtraEmitCodeText(extraEmitCode) + CodeAppendOpen + main + "\"";
      out := out + head;
      WriteAll(formatArgs, ArgumentText);
      out := out + CodeAppendClose;
      AppendAssoc(old(out), head, Flatten(formatArgs, ArgumentText));
      AppendAssoc(old(out), head + Flatten(formatArgs, ArgumentText), CodeAppendClose);
    }

    /** The start of `writeEmitCode`: the opening of `emitCode`, the
        private values, the uniform registrations and the `emitCode` section. */
    method WriteEmitCodeHead(uniforms: seq<Variable>)
      requires RegistrableUniforms(uniforms)
      modifies this`out, this`errors, this`needColorSpaceHelper
      ensures errors == old(errors) + XformErrors(uniforms, old(needColorSpaceHelper))
      ensures needColorSpaceHelper == (old(needColorSpaceHelper) || AnyXform(uniforms))
      ensures out == old(out) + EmitCodeHeadText(fullName, fieldName, describe, GlobalDeclarations(program), sections, uniforms)
    {
      var open := EmitCodeOpen(fullName);
      out := out + open;
      var mid := out;
      WritePrivateVarValues();
      var mid2 := out;
      WriteUniformSetup(uniforms);
      var mid3 := out;
      var found := WriteSection(EmitCodeSection);
      AppendChain(old(out), open, Flatten(GlobalDeclarations(program), PrivateValueLines(describe)),
                  UniformSetupText(fieldName, uniforms), SectionText(sections, EmitCodeSection), mid, mid2, mid3, out);
    }

    /** The end of `writeEmitCode`: prints the program into a buffer of
        its own, then writes the call that appends that shader text. */
    method WriteShaderCall() returns (result: bool, ghost shader: Emission)
      requires Valid() && ProgramSupported(program, parameters, needColorSpaceHelper)
      modifies this`out, this`formatArgs, this`errors, this`extraEmitCode, this`writtenCoords
      modifies this`functionHeader, this`varCount, this`headerMark
      ensures Valid() && result
      ensures shader.Balanced() && formatArgs == old(formatArgs) + shader.args
      ensures errors == old(errors) + shader.reported
      ensures out == old(out) + CodeAppendText(ExtraEmitCodeText(extraEmitCode), shader.text, formatArgs)
    {
      var main;
      result, main, shader := PrintShader();
      WriteCodeAppend(main);
    }

    /** Prints the program into a buffer of its own: `main` is the shader
        text, and the output is left as it was. */
    method PrintShader() returns (result: bool, main: string, ghost shader: Emission)
      requires Valid() && ProgramSupported(program, parameters, needColorSpaceHelper)
      modifies this`out, this`formatArgs, this`errors, this`extraEmitCode, this`writtenCoords
      modifies this`functionHeader, this`varCount, this`headerMark
      ensures Valid() && result && out == old(out) && main == shader.text
      ensures shader.Balanced() && formatArgs == old(formatArgs) + shader.args
      ensures errors == old(errors) + shader.reported
    {
      var saved := out;
      out := "";
      result, shader := InheritedGenerateCode();
      main := out;
      out := saved;
    }

    /** `writeEmitCode`: the head of `emitCode`, then the call that appends
        the shader text. */
    method WriteEmitCode(uniforms: seq<Variable>) returns (result: bool, ghost shader: Emission)
      requires Valid() && RegistrableUniforms(uniforms)
      requires ProgramSupported(program, parameters, needColorSpaceHelper || AnyXform(uniforms))
      modifies this`out, this`formatArgs, this`errors, this`extraEmitCode, this`writtenCoords
      modifies this`functionHeader, this`varCount, this`headerMark, this`needColorSpaceHelper
      ensures Valid() && result
      // the shader text accounts for every argument pushed while printing it
      ensures shader.Balanced() && formatArgs == old(formatArgs) + shader.args
      ensures errors == old(errors) + XformErrors(uniforms, old(needColorSpaceHelper)) + shader.reported
      ensures needColorSpaceHelper == (old(needColorSpaceHelper) || AnyXform(uniforms))
      ensures out == old(out) + EmitCodeText(fullName, fieldName, describe, GlobalDeclarations(program), sections,
                                             uniforms, ExtraEmitCodeText(extraEmitCode), shader.text, formatArgs)
    {
      hide EmitCodeHeadText, CodeAppendText;
      WriteEmitCodeHead(uniforms);
      result, shader := WriteShaderCall();
      AppendAssoc(old(out), EmitCodeHeadText(fullName, fieldName, describe, GlobalDeclarations(program), sections, uniforms),
                  CodeAppendText(ExtraEmitCodeText(extraEmitCode), shader.text, formatArgs));
    }

    /** The uploads of `writeSetData` for the `in` uniforms; tells whether the
        processor cast was written. */
    method WriteUniformData(pdman: string, uniforms: seq<Variable>) returns (wroteProcessor: bool)
      requires forall k :: 0 <= k < |uniforms| && uniforms[k].modifiers.isIn && uniforms[k].varType == ColorSpaceXform
                 ==> needColorSpaceHelper
      modifies this`out
      ensures wroteProcessor == HasInUniform(uniforms)
      ensures out == old(out) + (if wroteProcessor then OuterCast(fullName) + BlockOpen + InUniformData(Uploads(fieldName, pdman), uniforms) else "")
    {
      ghost var head, upload := OuterCast(fullName) + BlockOpen, Uploads(fieldName, pdman);
      wroteProcessor := false;
      var i := 0;
      while i < |uniforms|
        invariant 0 <= i <= |uniforms|
        invariant wroteProcessor == HasInUniform(uniforms[..i])
        invariant out == old(out) + UniformDataText(head, upload, uniforms[..i])
      {
        var mid := out;
        wroteProcessor := WriteUniformDatum(pdman, uniforms[i], wroteProcessor);
        UniformDataStep(head, upload, uniforms, i, old(out), mid, out);
        i := i + 1;
      }
      assert uniforms[..i] == uniforms;
      UniformDataTextShape(head, upload, uniforms);
    }

    /** One round of the upload loop: for an `in` uniform, the cast and the
        opening of the block when it is the first one, then its upload. */
    method WriteUniformDatum(pdman: string, u: Variable, wrote: bool) returns (wroteAfter: bool)
      requires u.modifiers.isIn && u.varType == ColorSpaceXform ==> needColorSpaceHelper
      modifies this`out
      ensures wroteAfter == (wrote || u.modifiers.isIn)
      ensures out == old(out) + UniformDataPiece(OuterCast(fullName) + BlockOpen, Uploads(fieldName, pdman), u, !wrote)
    {
      wroteAfter := wrote;
      if !u.modifiers.isIn {
        return;
      }
      var head := "";
      if !wrote {
        head := OuterCast(fullName) + BlockOpen;
        wroteAfter := true;
      }
      out := out + head;
      WriteUniformUpload(pdman, u);
      AppendAssoc(old(out), head, UniformDataLines(fieldName, pdman, u));
    }

    /** The upload of one `in` uniform's value, by its type. */
    method WriteUniformUpload(pdman: string, u: Variable)
      requires u.varType == ColorSpaceXform ==> needColorSpaceHelper
      modifies this`out
      ensures out == old(out) + UniformDataLines(fieldName, pdman, u)
    {
      var n := u.name;
      if u.varType == Float4 || u.varType == Half4 {
        out := out + (RectOpen + n + ValueOuter + n + CallClose
          + Indent + pdman + Set4fv + fieldName(n) + RectArgs + n + ValueClose);
      } else if u.varType == Float4x4 || u.varType == Half4x4 {
        out := out + (MatrixOpen + n + MatrixArray + n + AsColMajor + n + ValueClose
          + Indent + pdman + SetMatrix + fieldName(n) + VarComma + n + ValueClose);
      } else if u.varType == ColorSpaceXform {
        assert needColorSpaceHelper;
        out := out + (HelperSetData + pdman + OuterArg + n + GetAndClose + BlockClose);
      } else {
        out := out + (Indent + pdman + Set1f + fieldName(n) + VarOuter + n + CallCallClose);
      }
    }

    /** The locals `writeSetData` gives the globals in its `setData` section;
        `wroteProcessor` tells whether the processor cast is written already. */
    method WriteSetDataLocals(wroteProcessor: bool)
      modifies this`out
      ensures out == old(out) + SetDataGlobalsText(OuterCast(fullName), SetDataLocals(fieldName), IsReadParameter,
                                                   GlobalDeclarations(program), wroteProcessor)
    {
      ghost var cast, local := OuterCast(fullName), SetDataLocals(fieldName);
      var wrote := wroteProcessor;
      var i := 0;
      while i < |program|
        invariant 0 <= i <= |program|
        invariant wrote == (wroteProcessor || HasRead(IsReadParameter, GlobalDeclarations(program[..i])))
        invariant out == old(out) + SetDataGlobalsText(cast, local, IsReadParameter, GlobalDeclarations(program[..i]), wroteProcessor)
      {
        var mid := out;
        wrote := WriteElementLocals(ElementDeclarations(program[i]), wrote);
        ElementLocalsStep(cast, local, IsReadParameter, program, i, wroteProcessor, old(out), mid, out);
        i := i + 1;
      }
      assert program[..i] == program;
    }

    /** The inner locals loop, over the declarations of one element. */
    method WriteElementLocals(decls: seq<VarDeclaration>, wrote: bool) returns (wroteAfter: bool)
      modifies this`out
      ensures wroteAfter == (wrote || HasRead(IsReadParameter, decls))
      ensures out == old(out) + SetDataGlobalsText(OuterCast(fullName), SetDataLocals(fieldName), IsReadParameter, decls, wrote)
    {
      wroteAfter := wrote;
      var j := 0;
      while j < |decls|
        invariant 0 <= j <= |decls|
        invariant wroteAfter == (wrote || HasRead(IsReadParameter, decls[..j]))
        invariant out == old(out) + SetDataGlobalsText(OuterCast(fullName), SetDataLocals(fieldName), IsReadParameter, decls[..j], wrote)
      {
        var mid := out;
        wroteAfter := WriteSetDataLocal(decls[j], wroteAfter);
        SetDataGlobalStep(OuterCast(fullName), SetDataLocals(fieldName), IsReadParameter, decls, j, wrote, old(out), mid, out);
        j := j + 1;
      }
      assert decls[..j] == decls;
    }

    /** One round of the locals loop: the handle of a uniform, or the value
        of a parameter, preceded by the cast when it is not written yet. */
    method WriteSetDataLocal(d: VarDeclaration, wrote: bool) returns (wroteAfter: bool)
      modifies this`out
      ensures wroteAfter == (wrote || IsReadParameter(d.variable))
      ensures out == old(out) + SetDataGlobalPiece(OuterCast(fullName), SetDataLocals(fieldName), IsReadParameter, d, wrote)
    {
      var n := d.variable.name;
      wroteAfter := wrote;
      if NeedsUniformVar(d.variable) {
        out := out + (HandleLocal + n + AssignSpace + fieldName(n) + HandleLocalClose + n + StatementEnd);
      } else if IsParameter(d.variable) {
        var head := "";
        if !wrote {
          head := OuterCast(fullName);
          wroteAfter := true;
        }
        var local := AutoLocal + n + AssignOuter + n + CallClose + VoidLocal + n + StatementEnd;
        out := out + head;
        out := out + local;
        AppendAssoc(old(out), head, local);
      }
    }

    /** `writeSetData`: `onSetData`, which uploads the `in` uniforms and, with
        a `setData` section, gives the globals locals and adds its text. */
    method WriteSetData(uniforms: seq<Variable>)
      requires forall k :: 0 <= k < |uniforms| && uniforms[k].modifiers.isIn && uniforms[k].varType == ColorSpaceXform
                 ==> needColorSpaceHelper
      modifies this`out
      ensures out == old(out) + SetDataText(fullName, fieldName, sections, GlobalDeclarations(program), uniforms)
    {
      var section := GetSection(sections, SetDataSection);
      var pdman := if section.Some? then section.value.argument else "pdman";
      assert pdman == DataManager(sections);
      var open := SetDataOpen(pdman);
      out := out + open;
      var mid := out;
      var wroteProcessor := WriteSetDataUniforms(pdman, uniforms);
      var mid2 := out;
      WriteSetDataGlobals(wroteProcessor);
      var mid3 := out;
      out := out + SetDataClose;
      AppendChain(old(out), open, SetDataUniformsText(fullName, fieldName, pdman, uniforms),
                  SetDataSectionPart(fullName, fieldName, sections, GlobalDeclarations(program), wroteProcessor),
                  SetDataClose, mid, mid2, mid3, out);
    }

    /** The uniform part of `onSetData`: the uploads, closing the block the
        first `in` uniform opened; tells whether the cast was written. */
    method WriteSetDataUniforms(pdman: string, uniforms: seq<Variable>) returns (wroteProcessor: bool)
      requires forall k :: 0 <= k < |uniforms| && uniforms[k].modifiers.isIn && uniforms[k].varType == ColorSpaceXform
                 ==> needColorSpaceHelper
      modifies this`out
      ensures wroteProcessor == HasInUniform(uniforms)
      ensures out == old(out) + SetDataUniformsText(fullName, fieldName, pdman, uniforms)
    {
      wroteProcessor := WriteUniformData(pdman, uniforms);
      if wroteProcessor {
        out := out + BlockClose;
        AppendAssoc(old(out), OuterCast(fullName) + BlockOpen + InUniformData(Uploads(fieldName, pdman), uniforms), BlockClose);
      }
    }

    /** The part of `onSetData` a `setData` section adds: the locals of the
        globals, then the section's text. */
    method WriteSetDataGlobals(wroteProcessor: bool)
      modifies this`out
      ensures out == old(out) + SetDataSectionPart(fullName, fieldName, sections, GlobalDeclarations(program), wroteProcessor)
    {
      if GetSection(sections, SetDataSection).Some? {
        WriteSetDataLocals(wroteProcessor);
        var found := WriteSection(SetDataSection);
        AppendAssoc(old(out), SetDataGlobalsText(OuterCast(fullName), SetDataLocals(fieldName), IsReadParameter,
                                                 GlobalDeclarations(program), wroteProcessor),
                    SectionText(sections, SetDataSection));
      }
    }

    /** The key-builder lines and errors of one parameter in `writeGetKey`. */
    method WriteParameterKey(p: Variable)
      requires HasKeyHandling(p)
      modifies this`out, this`errors
      ensures out == old(out) + Join(KeyLines(fieldName, p))
      ensures errors == old(errors) + KeyErrors(p)
    {
      if p.varType == ColorSpaceXform {
        WriteKeyWord(XformKeyOpen + fieldName(p.name) + XformKeyClose, out, []);
        return;
      }
      ghost var keyOnUniform := if p.layout.key != NoKey && p.modifiers.isUniform
                                then [Diagnostic(p.pos, KeyOnUniformMessage)] else [];
      ghost var identityOnOther := if p.layout.key == IdentityKey && p.varType.TypeKind() != Matrix
                                   then [Diagnostic(p.pos, IdentityKeyMessage)] else [];
      if p.layout.key != NoKey && p.modifiers.isUniform {
        errors := errors + [Diagnostic(p.pos, KeyOnUniformMessage)];
      }
      WriteKeyByMode(p);
      AppendAssoc(old(errors), keyOnUniform, identityOnOther);
    }

    /** The key-mode switch of `writeGetKey` for a parameter other than the
        colour-space transform. */
    method WriteKeyByMode(p: Variable)
      requires HasKeyHandling(p) && p.varType != ColorSpaceXform
      modifies this`out, this`errors
      ensures out == old(out) + Join(KeyLines(fieldName, p))
      ensures errors == old(errors) + (if p.layout.key == IdentityKey && p.varType.TypeKind() != Matrix
                                       then [Diagnostic(p.pos, IdentityKeyMessage)] else [])
    {
      var f := fieldName(p.name);
      match p.layout.key
      case KeyKey =>
        WriteRawKey(p);
      case IdentityKey =>
        if p.varType.TypeKind() != Matrix {
          errors := errors + [Diagnostic(p.pos, IdentityKeyMessage)];
        }
        WriteKeyWord(f + ".isIdentity() ? 1 : 0", out, []);
      case NoKey =>
    }

    /** A raw key: one word per component of a point or a rectangle, the
        value itself otherwise. */
    method WriteRawKey(p: Variable)
      requires HasKeyHandling(p) && p.varType != ColorSpaceXform && p.layout.key == KeyKey
      modifies this`out
      ensures out == old(out) + Join(KeyLines(fieldName, p))
    {
      var f := fieldName(p.name);
      if p.varType == Float2 {
        WriteKeyWord(f + ".fX", out, []);
        WriteKeyWord(f + ".fY", old(out), [Add32(f + ".fX")]);
      } else if p.varType == Float4 {
        WriteKeyWord(f + ".x()", out, []);
        WriteKeyWord(f + ".y()", old(out), [Add32(f + ".x()")]);
        WriteKeyWord(f + ".width()", old(out), [Add32(f + ".x()"), Add32(f + ".y()")]);
        WriteKeyWord(f + ".height()", old(out), [Add32(f + ".x()"), Add32(f + ".y()"), Add32(f + ".width()")]);
        assert [Add32(f + ".x()"), Add32(f + ".y()"), Add32(f + ".width()")] + [Add32(f + ".height()")]
            == KeyLines(fieldName, p);
      } else {
        WriteKeyWord(f, out, []);
      }
    }

    /** Writes one key word after the lines `written` already written after
        `base`. */
    method WriteKeyWord(value: string, ghost base: string, ghost written: seq<string>)
      requires out == base + Join(written)
      modifies this`out
      ensures out == base + Join(written + [Add32(value)])
    {
      out := out + Add32(value);
      JoinSnoc(written, Add32(value));
      AppendAssoc(base, Join(written), Add32(value));
    }

    /** `writeGetKey`: `onGetGLSLProcessorKey`, with the key lines of every
        parameter in order. */
    method WriteGetKey()
      requires KeysHandled(parameters)
      modifies this`out, this`errors
      ensures out == old(out) + GetKeyText(fullName, fieldName, parameters)
      ensures errors == old(errors) + Flatten(parameters, KeyErrors)
    {
      out := out + GetKeyOpen(fullName);
      var base := out;
      var i := 0;
      while i < |parameters|
        invariant 0 <= i <= |parameters|
        invariant out == base + Join(AllKeyLines(fieldName, parameters[..i]))
        invariant errors == old(errors) + Flatten(parameters[..i], KeyErrors)
      {
        var mid, errorsMid := out, errors;
        WriteParameterKey(parameters[i]);
        GetKeyStep(fieldName, parameters, i, base, mid, out, old(errors), errorsMid, errors);
        i := i + 1;
      }
      assert parameters[..i] == parameters;
      out := out + FunctionClose;
      AppendAssoc(old(out), GetKeyOpen(fullName), Join(AllKeyLines(fieldName, parameters)));
    }

    /** `writeClone`: the `clone` section, or else the generated copy
        constructor and `clone`; custom fields without a custom clone are an
        error. */
    method WriteClone()
      modifies this`out, this`errors
      ensures out == old(out) + CloneText(fullName, fieldName, parameters, sections)
      ensures errors == old(errors) + CloneErrors(sections)
    {
      var found := WriteSection(CloneSection);
      if !found {
        CheckCustomFields();
        WriteGeneratedClone();
      }
    }

    /** A generated copy cannot copy fields the author declared. */
    method CheckCustomFields()
      modifies this`errors
      ensures errors == old(errors)
        + (if GetSection(sections, FieldsSection).Some? then [Diagnostic(0, CustomCloneMessage)] else [])
    {
      if GetSection(sections, FieldsSection).Some? {
        errors := errors + [Diagnostic(0, CustomCloneMessage)];
      }
    }

    /** The generated copy constructor and `clone`. */
    method WriteGeneratedClone()
      modifies this`out
      ensures out == old(out) + GeneratedClone(fullName, fieldName, parameters, GetSections(sections, CoordTransformSection))
    {
      var transforms := GetSections(sections, CoordTransformSection);
      WriteCopyInitializers(transforms);
      var mid := out;
      WriteCopyBody(transforms);
      AppendAssoc(old(out), CopyInitializers(fullName, fieldName, parameters, transforms),
                  CopyBody(fullName, fieldName, parameters, transforms));
    }

    /** The head of the generated copy constructor. */
    method WriteCopyInitializers(transforms: seq<Section>)
      modifies this`out
      ensures out == old(out) + CopyInitializers(fullName, fieldName, parameters, transforms)
    {
      var signature := CopySignature(fullName);
      out := out + signature;
      var mid := out;
      WriteAll(parameters, FieldCopy(fieldName));
      var mid2 := out;
      WriteAll(transforms, TransformCopy(fieldName));
      var mid3 := out;
      out := out + BodyOpen;
      AppendChain(old(out), signature, Flatten(parameters, FieldCopy(fieldName)),
                  Flatten(transforms, TransformCopy(fieldName)), BodyOpen, mid, mid2, mid3, out);
    }

    /** The body of the generated copy constructor, then `clone`. */
    method WriteCopyBody(transforms: seq<Section>)
      modifies this`out
      ensures out == old(out) + CopyBody(fullName, fieldName, parameters, transforms)
    {
      WriteAll(parameters, SamplerRegistration(fieldName));
      var mid := out;
      WriteAll(transforms, TransformRegistration(fieldName));
      var mid2 := out;
      out := out + FunctionClose;
      var mid3 := out;
      out := out + CloneFunction(fullName);
      AppendChain(old(out), Flatten(parameters, SamplerRegistration(fieldName)),
                  Flatten(transforms, TransformRegistration(fieldName)), FunctionClose, CloneFunction(fullName),
                  mid, mid2, mid3, out);
    }

    /** `writeTest`: with a `test` section, the test factory around its text. */
    method WriteTest()
      modifies this`out
      ensures out == old(out) + TestText(fullName, sections)
    {
      var test := GetSection(sections, TestCodeSection);
      if test.Some? {
        var open := TestOpen(fullName, test.value.argument);
        out := out + open;
        var found := WriteSection(TestCodeSection);
        out := out + TestClose;
        AppendAssoc(old(out), open, test.value.text);
        AppendAssoc(old(out), open + test.value.text, TestClose);
      }
    }

    /** The uniforms of the program: every global declared `uniform` that is
        not a sampler, in declaration order. */
    method CollectUniforms() returns (uniforms: seq<Variable>)
      ensures uniforms == CollectedUniforms(program)
    {
      uniforms := [];
      var i := 0;
      while i < |program|
        invariant 0 <= i <= |program|
        invariant uniforms == Flatten(GlobalDeclarations(program[..i]), CollectedUniform)
      {
        ghost var done := GlobalDeclarations(program[..i]);
        var decls := if program[i].VarElement? then program[i].decls else [];
        ghost var before := uniforms;
        var j := 0;
        while j < |decls|
          invariant 0 <= j <= |decls|
          invariant uniforms == before + Flatten(decls[..j], CollectedUniform)
        {
          var v := decls[j].variable;
          if v.modifiers.isUniform && v.varType.TypeKind() != SamplerKind {
            uniforms := uniforms + [v];
          }
          FlattenSnoc(decls, j, CollectedUniform);
          AppendAssoc(before, Flatten(decls[..j], CollectedUniform), CollectedUniform(decls[j]));
          j := j + 1;
        }
        assert decls[..j] == decls;
        GlobalDeclarationsSnoc(program, i);
        FlattenAppend(done, decls, CollectedUniform);
        i := i + 1;
      }
      assert program[..i] == program;
    }

    /** The start of the file, up to the GLSL class's constructor. */
    method WritePrologue()
      modifies this`out
      ensures out == old(out) + PrologueText(name, fullName, fileHeader, sections)
    {
      var head := PrologueHead(fullName, fileHeader);
      out := out + head;
      var found := WriteSection(CppSection);
      var tail := PrologueTail(name);
      out := out + tail;
      AppendAssoc(old(out), head, SectionText(sections, CppSection));
      AppendAssoc(old(out), head + SectionText(sections, CppSection), tail);
    }

    /** "private:", `onSetData` and the members of the private globals. */
    method WriteClassMembers(uniforms: seq<Variable>)
      requires forall k :: 0 <= k < |uniforms| && uniforms[k].modifiers.isIn && uniforms[k].varType == ColorSpaceXform
                 ==> needColorSpaceHelper
      modifies this`out
      ensures out == old(out) + ClassMembersText(fullName, fieldName, fieldType, sections, GlobalDeclarations(program), uniforms)
    {
      out := out + PrivateLabel;
      WriteSetData(uniforms);
      WritePrivateVars();
      AppendAssoc(old(out), PrivateLabel, SetDataText(fullName, fieldName, sections, GlobalDeclarations(program), uniforms));
      AppendAssoc(old(out), PrivateLabel + SetDataText(fullName, fieldName, sections, GlobalDeclarations(program), uniforms),
                  Flatten(GlobalDeclarations(program), PrivateVarLines(fieldType)));
    }

    /** The uniform handles, then the colour-space helper if it is needed. */
    method WriteHandles(uniforms: seq<Variable>)
      modifies this`out
      ensures out == old(out) + HandlesText(fieldName, uniforms, parameters, needColorSpaceHelper)
    {
      WriteAll(uniforms, UniformHandleMembers(fieldName));
      WriteAll(parameters, ParameterHandleMembers(fieldName));
      var helper := if needColorSpaceHelper then HelperMember else "";
      out := out + helper;
      AppendAssoc(old(out), Flatten(uniforms, UniformHandleMembers(fieldName)), Flatten(parameters, ParameterHandleMembers(fieldName)));
      AppendAssoc(old(out), Flatten(uniforms, UniformHandleMembers(fieldName)) + Flatten(parameters, ParameterHandleMembers(fieldName)), helper);
    }

    /** The GLSL class after `emitCode`, and the processor's factory for it;
        every `in` colour-space transform has the helper. */
    method WriteClassTail(uniforms: seq<Variable>)
      requires AnyXform(uniforms) ==> needColorSpaceHelper
      modifies this`out
      ensures out == old(out) + ClassTailText(name, fullName, fieldName, fieldType, sections, GlobalDeclarations(program),
                                              uniforms, parameters, needColorSpaceHelper)
    {
      forall k | 0 <= k < |uniforms| && uniforms[k].varType == ColorSpaceXform
        ensures needColorSpaceHelper
      {
        AnyXformAt(uniforms, k);
      }
      WriteClassMembers(uniforms);
      ghost var members := ClassMembersText(fullName, fieldName, fieldType, sections, GlobalDeclarations(program), uniforms);
      WriteHandles(uniforms);
      ghost var handles := HandlesText(fieldName, uniforms, parameters, needColorSpaceHelper);
      var instance := CreateInstanceText(name, fullName);
      out := out + instance;
      AppendAssoc(old(out), members, handles);
      AppendAssoc(old(out), members + handles, instance);
    }

    /** `onIsEqual`, comparing every parameter field. */
    method WriteIsEqual()
      modifies this`out
      ensures out == old(out) + IsEqualText(fullName, fieldName, parameters)
    {
      var open := IsEqualOpen(fullName);
      out := out + open;
      WriteAll(parameters, FieldComparison(fieldName));
      out := out + ReturnTrue;
      AppendAssoc(old(out), open, Flatten(parameters, FieldComparison(fieldName)));
      AppendAssoc(old(out), open + Flatten(parameters, FieldComparison(fieldName)), ReturnTrue);
    }

    /** The test factory, the `cppEnd` section and the end of the guard. */
    method WriteFileEnd()
      modifies this`out
      ensures out == old(out) + FileEndText(fullName, sections)
    {
      WriteTest();
      var found := WriteSection(CppEndSection);
      out := out + EndifLine;
      AppendAssoc(old(out), TestText(fullName, sections), SectionText(sections, CppEndSection));
      AppendAssoc(old(out), TestText(fullName, sections) + SectionText(sections, CppEndSection), EndifLine);
    }

    /** The processor's key, comparison and copy, then the end of the file. */
    method WriteProcessorMembers()
      requires KeysHandled(parameters)
      modifies this`out, this`errors
      ensures out == old(out) + ProcessorText(fullName, fieldName, parameters, sections)
      ensures errors == old(errors) + Flatten(parameters, KeyErrors) + CloneErrors(sections)
    {
      WriteGetKey();
      var mid := out;
      WriteIsEqual();
      var mid2 := out;
      WriteClone();
      var mid3 := out;
      WriteFileEnd();
      AppendChain(old(out), GetKeyText(fullName, fieldName, parameters), IsEqualText(fullName, fieldName, parameters),
                  CloneText(fullName, fieldName, parameters, sections), FileEndText(fullName, sections),
                  mid, mid2, mid3, out);
    }

    /** The GLSL class: the prologue, `emitCode` and the rest of the class. */
    method WriteGLSLClass(uniforms: seq<Variable>) returns (result: bool, ghost shader: Emission)
      requires Valid() && RegistrableUniforms(uniforms)
      requires ProgramSupported(program, parameters, needColorSpaceHelper || AnyXform(uniforms))
      modifies this`out, this`formatArgs, this`errors, this`extraEmitCode, this`writtenCoords
      modifies this`functionHeader, this`varCount, this`headerMark, this`needColorSpaceHelper
      ensures Valid() && result
      ensures shader.Balanced() && formatArgs == old(formatArgs) + shader.args
      ensures errors == old(errors) + XformErrors(uniforms, old(needColorSpaceHelper)) + shader.reported
      ensures needColorSpaceHelper == (old(needColorSpaceHelper) || AnyXform(uniforms))
      ensures out == old(out) + GLSLClassText(name, fullName, fileHeader, fieldName, fieldType, describe, sections,
                                              GlobalDeclarations(program), uniforms, parameters, needColorSpaceHelper,
                                              ExtraEmitCodeText(extraEmitCode), shader.text, formatArgs)
    {
      // the parts are put together without looking inside them
      hide PrologueText, EmitCodeText, ClassTailText;
      WritePrologue();
      result, shader := WriteEmitCode(uniforms);
      WriteClassTail(uniforms);
      ghost var prologue := PrologueText(name, fullName, fileHeader, sections);
      ghost var emitCode := EmitCodeText(fullName, fieldName, describe, GlobalDeclarations(program), sections,
                                         uniforms, ExtraEmitCodeText(extraEmitCode), shader.text, formatArgs);
      ghost var tail := ClassTailText(name, fullName, fieldName, fieldType, sections, GlobalDeclarations(program),
                                      uniforms, parameters, needColorSpaceHelper);
      AppendAssoc(old(out), prologue, emitCode);
      AppendAssoc(old(out), prologue + emitCode, tail);
    }

    /** `generateCode`: the whole `.cpp` file of the processor.  Generation
        goes on past reported errors, and succeeds exactly when no error was
        reported at all, before or during it. */
    method GenerateCode() returns (ok: bool, ghost shader: Emission)
      requires Valid() && RegistrableUniforms(CollectedUniforms(program)) && KeysHandled(parameters)
      requires ProgramSupported(program, parameters, needColorSpaceHelper || AnyXform(CollectedUniforms(program)))
      modifies this`out, this`formatArgs, this`errors, this`extraEmitCode, this`writtenCoords
      modifies this`functionHeader, this`varCount, this`headerMark, this`needColorSpaceHelper
      ensures Valid()
      ensures ok <==> errors == []
      // the shader text accounts for every argument pushed while printing it
      ensures shader.Balanced() && formatArgs == old(formatArgs) + shader.args
      ensures needColorSpaceHelper == (old(needColorSpaceHelper) || AnyXform(CollectedUniforms(program)))
      ensures errors == old(errors) + XformErrors(CollectedUniforms(program), old(needColorSpaceHelper))
                        + shader.reported + Flatten(parameters, KeyErrors) + CloneErrors(sections)
      ensures out == old(out)
        + GLSLClassText(name, fullName, fileHeader, fieldName, fieldType, describe, sections, GlobalDeclarations(program),
                        CollectedUniforms(program), parameters, needColorSpaceHelper,
                        ExtraEmitCodeText(extraEmitCode), shader.text, formatArgs)
        + ProcessorText(fullName, fieldName, parameters, sections)
      // a fresh session that succeeds has one argument per conversion of its shader
      ensures ok && old(formatArgs) == [] ==> Closed(shader.text) && Placeholders(shader.text) == |formatArgs|
    {
      // the parts are put together without looking inside them
      hide *;
      var uniforms := CollectUniforms();
      var result;
      result, shader := WriteGLSLClass(uniforms);
      WriteProcessorMembers();
      ok := result && |errors| == 0;
      if ok && old(formatArgs) == [] {
        var before := old(errors) + XformErrors(uniforms, old(needColorSpaceHelper));
        var after := Flatten(parameters, KeyErrors) + CloneErrors(sections);
        AppendAssoc(before + shader.reported, Flatten(parameters, KeyErrors), CloneErrors(sections));
        CleanShaderComplete(shader, formatArgs, before, after, errors);
      }
    }
  }
}
