/**
 * The part of a type-checked SkSL program that the C++ code generator reads:
 * types, variables with their modifiers and layout, expressions, statements,
 * program elements and the author-supplied sections.
 */
module Ast {
  import opened Format

  /** Names written into shader text: SkSL identifiers and type names never
      contain a percent sign. */
  type Identifier = s: string | Plain(s) witness ""

  datatype Kind = Scalar | Vector | Matrix | SamplerKind | OtherKind

  /** The types the generator tells apart, compared as the compiler's context
      singletons are; `Other` stands for every remaining type. */
  datatype SLType =
    | Float | Half | Int | Bool
    | Float2 | Half2 | Float4 | Half4
    | Float4x4 | Half4x4
    | ColorSpaceXform
    | Sampler
    | Other(otherName: Identifier, otherKind: Kind, otherIsFloat: bool)
  {
    function Name(): Identifier {
      match this
      case Float => "float"
      case Half => "half"
      case Int => "int"
      case Bool => "bool"
      case Float2 => "float2"
      case Half2 => "half2"
      case Float4 => "float4"
      case Half4 => "half4"
      case Float4x4 => "float4x4"
      case Half4x4 => "half4x4"
      case ColorSpaceXform => "colorSpaceXform"
      case Sampler => "sampler2D"
      case Other(n, _, _) => n
    }

    /** The type's name is `colorSpaceXform`: the context's transform type,
        or another type declared under that name. */
    predicate NamedColorSpaceXform() {
      ColorSpaceXform? || (Other? && otherName == "colorSpaceXform")
    }

    /** colorSpaceXform is declared in the context as a 4x4 float matrix. */
    function TypeKind(): Kind {
      match this
      case Float | Half | Int | Bool => Scalar
      case Float2 | Half2 | Float4 | Half4 => Vector
      case Float4x4 | Half4x4 | ColorSpaceXform => Matrix
      case Sampler => SamplerKind
      case Other(_, k, _) => k
    }

    /** `Type::isFloat()`: a floating-point scalar. */
    predicate IsFloat() {
      Float? || Half? || (Other? && otherKind == Scalar && otherIsFloat)
    }
  }

  /** Comparing a type's name with `colorSpaceXform` is testing for the
      transform type or a type of that name; it differs from comparing the
      type itself only on another type declared under that name. */
  lemma NamedColorSpaceXformIsName(t: SLType)
    ensures t.Name() == "colorSpaceXform" <==> t.NamedColorSpaceXform()
    ensures t.NamedColorSpaceXform() != (t == ColorSpaceXform) <==>
      t.Other? && t.otherName == "colorSpaceXform"
  {
  }

  /** Layout builtin identifiers of the fragment-processor builtins. */
  const NoBuiltin: int := -1
  const InColorBuiltin: int := 10002
  const OutColorBuiltin: int := 10003
  const TransformedCoords2DBuiltin: int := 10004
  const TextureSamplersBuiltin: int := 10005

  datatype KeyMode = NoKey | KeyKey | IdentityKey

  datatype Modifiers = Modifiers(isUniform: bool, isIn: bool, highp: bool, mediump: bool, lowp: bool)

  /** `when` is the C++ condition text guarding a uniform (empty: none). */
  datatype Layout = Layout(builtin: int, key: KeyMode, when: string)

  datatype Storage = GlobalStorage | LocalStorage | ParameterStorage

  /** A declared variable.  Declarations have distinct names, so value
      equality identifies a declaration. */
  datatype Variable = Variable(
    pos: int,
    name: Identifier,
    varType: SLType,
    modifiers: Modifiers,
    layout: Layout,
    storage: Storage)

  /** `SectionAndParameterHelper::IsParameter`: an `in` variable that is not a builtin. */
  predicate IsParameter(v: Variable) {
    v.modifiers.isIn && v.layout.builtin == NoBuiltin
  }

  datatype Operator =
    | Plus | Minus | Star | Slash | Percent
    | Lt | Gt | EqEq | Neq
    | LogicalAnd | LogicalOr
    | Assign | PlusAssign | MinusAssign | StarAssign | SlashAssign | PercentAssign
  {
    /** Operator spelling; `%` and `%=` are the ones holding a percent sign. */
    function Text(): (r: string)
      ensures this !in {Percent, PercentAssign} ==> Plain(r)
      ensures this in {Percent, PercentAssign} ==> |r| > 0 && r[0] == '%'
    {
      match this
      case Plus => "+"
      case Minus => "-"
      case Star => "*"
      case Slash => "/"
      case Percent => "%"
      case Lt => "<"
      case Gt => ">"
      case EqEq => "=="
      case Neq => "!="
      case LogicalAnd => "&&"
      case LogicalOr => "||"
      case Assign => "="
      case PlusAssign => "+="
      case MinusAssign => "-="
      case StarAssign => "*="
      case SlashAssign => "/="
      case PercentAssign => "%="
    }
  }

  datatype FunctionDeclaration = FunctionDeclaration(fnName: Identifier, builtin: bool)

  /** Every expression records its source offset `pos`, used in diagnostics. */
  datatype Expr =
    | IntLiteral(pos: int, value: int64)
    | VariableReference(pos: int, variable: Variable)
    | IndexExpression(pos: int, base: Expr, index: Expr)
    | BinaryExpression(pos: int, left: Expr, op: Operator, right: Expr)
    | FunctionCall(pos: int, callee: FunctionDeclaration, arguments: seq<Expr>)
    | Setting(pos: int, settingName: Identifier, settingType: SLType)

  /** Builtin identifier of a variable reference; -1 for any other expression. */
  function BuiltinOf(e: Expr): int {
    if e.VariableReference? then e.variable.layout.builtin else NoBuiltin
  }

  predicate IsBuiltinCall(e: Expr, name: string) {
    e.FunctionCall? && e.callee.builtin && e.callee.fnName == name
  }

  datatype VarDeclaration = VarDeclaration(variable: Variable, value: Option<Expr>)

  datatype Option<T> = None | Some(value: T)

  datatype Statement =
    | ExpressionStatement(expr: Expr)
    | IfStatement(ifStatic: bool, test: Expr, ifTrue: Statement, ifFalse: Option<Statement>)
    | SwitchStatement(switchStatic: bool, switchValue: Expr, cases: seq<SwitchCase>)
    | Block(statements: seq<Statement>)
    | ReturnStatement(returned: Option<Expr>)
    | VarDeclarationsStatement(locals: seq<VarDeclaration>)

  /** A `case` label (`None` for `default`) and its statements. */
  datatype SwitchCase = SwitchCase(caseLabel: Option<Expr>, caseBody: seq<Statement>)

  datatype FunctionDefinition = FunctionDefinition(
    declaration: FunctionDeclaration,
    returnType: SLType,
    parameters: seq<Variable>,
    body: seq<Statement>)

  datatype ProgramElement =
    | VarElement(decls: seq<VarDeclaration>)
    | FunctionElement(definition: FunctionDefinition)
    | SectionElement(sectionName: string)

  /** An author-supplied raw-text block: `@name(argument) { text }`. */
  datatype Section = Section(name: string, argument: string, text: string)

  /** An error reported to the error sink: source offset and message. */
  datatype Diagnostic = Diagnostic(offset: int, message: string)

  /** All global variable declarations of a program, in order: each comes
      from a declaration element, and none of those is missed. */
  function GlobalDeclarations(program: seq<ProgramElement>): (ds: seq<VarDeclaration>)
    ensures forall d :: d in ds ==> exists p :: p in program && p.VarElement? && d in p.decls
    ensures forall p, d :: p in program && p.VarElement? && d in p.decls ==> d in ds
  {
    if program == [] then []
    else (if program[0].VarElement? then program[0].decls else []) + GlobalDeclarations(program[1..])
  }

  /** The declarations of one program element. */
  function ElementDeclarations(p: ProgramElement): seq<VarDeclaration> {
    if p.VarElement? then p.decls else []
  }

  /** Adding an element to a program adds that element's declarations. */
  lemma {:induction false} GlobalDeclarationsSnoc(program: seq<ProgramElement>, i: nat)
    requires i < |program|
    ensures GlobalDeclarations(program[..i + 1])
         == GlobalDeclarations(program[..i]) + (if program[i].VarElement? then program[i].decls else [])
    decreases i
  {
    var p := program[..i + 1];
    if i == 0 {
      assert p[1..] == [];
    } else {
      assert p[1..] == program[1..][..i];
      assert program[..i][1..] == program[1..][..i - 1];
      GlobalDeclarationsSnoc(program[1..], i - 1);
    }
  }

  /** `SectionAndParameterHelper::getSection`: the first section with that name. */
  function GetSection(sections: seq<Section>, name: string): Option<Section> {
    if sections == [] then None
    else if sections[0].name == name then Some(sections[0])
    else GetSection(sections[1..], name)
  }

  /** The lookup finds a section exactly when one has that name, and what it
      finds is one. */
  lemma {:induction false} GetSectionFinds(sections: seq<Section>, name: string)
    ensures GetSection(sections, name).Some? <==> exists s :: s in sections && s.name == name
    ensures GetSection(sections, name).Some? ==>
      GetSection(sections, name).value in sections && GetSection(sections, name).value.name == name
    decreases |sections|
  {
    if sections != [] && sections[0].name != name {
      GetSectionFinds(sections[1..], name);
      if exists s :: s in sections && s.name == name {
        var s :| s in sections && s.name == name;
        assert s in sections[1..];
      }
    }
  }

  /** `SectionAndParameterHelper::getSections`: every section with that name, in order. */
  function GetSections(sections: seq<Section>, name: string): seq<Section> {
    if sections == [] then []
    else (if sections[0].name == name then [sections[0]] else []) + GetSections(sections[1..], name)
  }

  /** All sections collected have the name, none with it is missed, and
      there are no more than sections. */
  lemma {:induction false} GetSectionsMembers(sections: seq<Section>, name: string)
    ensures forall s :: s in GetSections(sections, name) <==> s in sections && s.name == name
    ensures |GetSections(sections, name)| <= |sections|
    decreases |sections|
  {
    if sections != [] {
      GetSectionsMembers(sections[1..], name);
      assert sections == [sections[0]] + sections[1..];
    }
  }

  const CppSection := "cpp"
  const CppEndSection := "cppEnd"
  const EmitCodeSection := "emitCode"
  const SetDataSection := "setData"
  const CloneSection := "clone"
  const FieldsSection := "fields"
  const TestCodeSection := "test"
  const CoordTransformSection := "coordTransform"
}
