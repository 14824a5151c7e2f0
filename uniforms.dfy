/**
 * Uniform and parameter bookkeeping: which declarations get a uniform handle,
 * the registration statement `addUniform` writes for one, the default value a
 * guarded uniform falls back to, and the key-builder lines of a parameter.
 * `fieldName` is `HCodeGenerator::FieldName`, supplied by the caller.
 */
module Uniforms {
  import opened Format
  import opened Ast

  /** `needs_uniform_var`: a uniform that is not the colour-space transform,
      which has its own helper object instead of a plain uniform handle. */
  predicate NeedsUniformVar(v: Variable)
    ensures NeedsUniformVar(v) ==> v.modifiers.isUniform && v.varType != ColorSpaceXform
    ensures v.modifiers.isUniform && !v.varType.Other? && v.varType != ColorSpaceXform ==> NeedsUniformVar(v)
  {
    v.modifiers.isUniform && !v.varType.NamedColorSpaceXform()
  }

  /** `is_private`: a global that is neither uniform, nor `in`, nor a builtin;
      its value is computed in C++ and passed to the shader at run time. */
  predicate IsPrivate(v: Variable)
    ensures IsPrivate(v) ==> !NeedsUniformVar(v) && !IsParameter(v) && v.storage == GlobalStorage
  {
    !v.modifiers.isUniform && !v.modifiers.isIn && v.storage == GlobalStorage && v.layout.builtin == NoBuiltin
  }

  /** The types `default_value` has a case for (any other one aborts). */
  predicate HasDefaultValue(t: SLType) {
    t.NamedColorSpaceXform() || t.TypeKind() in {Scalar, Vector, Matrix}
  }

  /** `default_value`: the value a guarded uniform reads as when its guard is
      off — zero for scalars and vectors, the identity for matrices. */
  function DefaultValue(t: SLType): string
    requires HasDefaultValue(t)
  {
    if t.NamedColorSpaceXform() then "float4x4(1.0)"
    else match t.TypeKind()
      case Scalar => "0"
      case Vector => t.Name() + "(0)"
      case Matrix => t.Name() + "(1)"
  }

  /** The precision token of a uniform: the first of highp, mediump, lowp that
      is set, else the default precision. */
  function PrecisionToken(m: Modifiers): (r: string)
    ensures r in {"kHigh_GrSLPrecision", "kMedium_GrSLPrecision", "kLow_GrSLPrecision", "kDefault_GrSLPrecision"}
    ensures r == "kHigh_GrSLPrecision" <==> m.highp
    ensures r == "kLow_GrSLPrecision" <==> m.lowp && !m.highp && !m.mediump
    ensures r == "kDefault_GrSLPrecision" <==> !m.highp && !m.mediump && !m.lowp
  {
    if m.highp then "kHigh_GrSLPrecision"
    else if m.mediump then "kMedium_GrSLPrecision"
    else if m.lowp then "kLow_GrSLPrecision"
    else "kDefault_GrSLPrecision"
  }

  /** Every type `addUniform` can register has a default value: zero for
      scalars and vectors, the identity for matrices, and for the colour-space
      transform the identity of the float4x4 it is uploaded as. */
  lemma RegistrableDefaults(t: SLType)
    requires HasUniformType(t)
    ensures HasDefaultValue(t)
    ensures t == Float || t == Half ==> DefaultValue(t) == "0"
    ensures t == Float2 || t == Half2 || t == Float4 || t == Half4 ==> DefaultValue(t) == t.Name() + "(0)"
    ensures t == Float4x4 || t == Half4x4 ==> DefaultValue(t) == t.Name() + "(1)"
    ensures t == ColorSpaceXform ==> DefaultValue(t) == Float4x4.Name() + "(1.0)"
  {
  }

  /** The closed set of types `addUniform` can register (any other one aborts). */
  predicate HasUniformType(t: SLType) {
    match t
    case Float | Half | Float2 | Half2 | Float4 | Half4 | Float4x4 | ColorSpaceXform | Half4x4 => true
    case _ => false
  }

  /** The GPU type token of a uniform. */
  function UniformTypeToken(t: SLType): (r: string)
    requires HasUniformType(t)
    ensures Plain(r)
    ensures r == "kFloat4x4_GrSLType" <==> t == Float4x4 || t == ColorSpaceXform
  {
    match t
    case Float => "kFloat_GrSLType"
    case Half => "kHalf_GrSLType"
    case Float2 => "kFloat2_GrSLType"
    case Half2 => "kHalf2_GrSLType"
    case Float4 => "kFloat4_GrSLType"
    case Half4 => "kHalf4_GrSLType"
    case Float4x4 => "kFloat4x4_GrSLType"
    case ColorSpaceXform => "kFloat4x4_GrSLType"
    case Half4x4 => "kHalf4x4_GrSLType"
  }

  /** Two uniform types share a token exactly when they are equal, or are
      float4x4 and colorSpaceXform, which both upload a 4x4 float matrix. */
  lemma UniformTypeTokenShared(a: SLType, b: SLType)
    requires HasUniformType(a) && HasUniformType(b)
    ensures UniformTypeToken(a) == UniformTypeToken(b)
        <==> a == b || {a, b} == {Float4x4, ColorSpaceXform}
  {
  }

  /** The one `addUniform` statement for `v`. */
  function RegistrationLine(fieldName: string -> string, v: Variable): string
    requires HasUniformType(v.varType)
  {
    Indent + fieldName(v.name) + AddUniformCall + UniformTypeToken(v.varType) + ", "
      + PrecisionToken(v.modifiers) + ", \"" + v.name + "\");\n"
  }

  const Indent := "        "
  const AddUniformCall := "Var = args.fUniformHandler->addUniform(kFragment_GrShaderFlag, "

  /** What `addUniform` writes: nothing unless `v` needs a uniform handle;
      otherwise its registration statement, wrapped in `if (when) { ... }`
      when `v` carries a `when` condition. */
  function UniformRegistration(fieldName: string -> string, v: Variable): (r: string)
    requires NeedsUniformVar(v) ==> HasUniformType(v.varType)
    ensures r == "" <==> !NeedsUniformVar(v)
    ensures NeedsUniformVar(v) && v.layout.when == "" ==> r == RegistrationLine(fieldName, v)
    ensures NeedsUniformVar(v) && v.layout.when != "" ==>
      r == WhenOpen + v.layout.when + WhenBody + RegistrationLine(fieldName, v) + WhenClose
  {
    if !NeedsUniformVar(v) then ""
    else
      var open := if |v.layout.when| > 0 then WhenOpen + v.layout.when + WhenBody else "";
      var close := if |v.layout.when| > 0 then WhenClose else "";
      open + RegistrationLine(fieldName, v) + close
  }

  const WhenOpen := "        if ("
  const WhenBody := ") {\n    "
  const WhenClose := "        }\n"

  /** One key-builder statement. */
  function Add32(value: string): string {
    Add32Open + value + Add32Close
  }

  const Add32Open := "    b->add32("
  const Add32Close := ");\n"

  /** The types `writeGetKey` can handle for `p` (raw key on float4x4 aborts). */
  predicate HasKeyHandling(p: Variable) {
    !(p.varType != ColorSpaceXform && p.layout.key == KeyKey && p.varType == Float4x4)
  }

  /** The key-builder lines `writeGetKey` writes for one parameter. */
  function KeyLines(fieldName: string -> string, p: Variable): seq<string>
    requires HasKeyHandling(p)
  {
    var f := fieldName(p.name);
    if p.varType == ColorSpaceXform then [Add32(XformKeyOpen + f + XformKeyClose)]
    else match p.layout.key
      case KeyKey =>
        if p.varType == Float2 then [Add32(f + ".fX"), Add32(f + ".fY")]
        else if p.varType == Float4 then
          [Add32(f + ".x()"), Add32(f + ".y()"), Add32(f + ".width()"), Add32(f + ".height()")]
        else [Add32(f)]
      case IdentityKey => [Add32(f + ".isIdentity() ? 1 : 0")]
      case NoKey => []
  }

  const XformKeyOpen := "GrColorSpaceXform::XformKey("
  const XformKeyClose := ".get())"

  /** Number of key words a parameter contributes, from its type and key mode alone. */
  function KeyWords(p: Variable): nat {
    if p.varType == ColorSpaceXform then 1
    else match p.layout.key
      case NoKey => 0
      case IdentityKey => 1
      case KeyKey => if p.varType == Float2 then 2 else if p.varType == Float4 then 4 else 1
  }

  /** One line per key word. */
  lemma KeyLinesCount(fieldName: string -> string, p: Variable)
    requires HasKeyHandling(p)
    ensures |KeyLines(fieldName, p)| == KeyWords(p)
  {
  }

  const KeyOnUniformMessage := "layout(key) may not be specified on uniforms"
  const IdentityKeyMessage := "layout(key=identity) requires matrix type"

  /** The errors `writeGetKey` reports for one parameter, in order: a key mode
      on a uniform, then an identity key on a non-matrix type.  The colour-space
      transform is never checked. */
  function KeyErrors(p: Variable): (r: seq<Diagnostic>)
    ensures |r| <= 2
    ensures forall d :: d in r ==> d.offset == p.pos
    ensures r == [] <==>
      p.varType == ColorSpaceXform ||
      ((p.layout.key == NoKey || !p.modifiers.isUniform) &&
       (p.layout.key != IdentityKey || p.varType.TypeKind() == Matrix))
  {
    if p.varType == ColorSpaceXform then []
    else
      (if p.layout.key != NoKey && p.modifiers.isUniform then [Diagnostic(p.pos, KeyOnUniformMessage)] else [])
      + (if p.layout.key == IdentityKey && p.varType.TypeKind() != Matrix
         then [Diagnostic(p.pos, IdentityKeyMessage)] else [])
  }
}
