/**
 * The C++ text written around the shader: the uniforms collected from the
 * program, their registration in `emitCode`, the members of the generated
 * GLSL class and its `onSetData`, and the processor's key builder,
 * comparison, copy constructor, `clone` and test factory.  Each is a function
 * of the program's declarations, parameters and sections; `fieldName`,
 * `fieldType` and `describe` are supplied by the caller.
 */
module Boilerplate {
  import opened Format
  import opened Ast
  import opened Uniforms

  /** `writeSection`: the text of the first section with that name, if any. */
  function SectionText(sections: seq<Section>, name: string): string {
    match GetSection(sections, name)
    case Some(s) => s.text
    case None => ""
  }

  // ---------------------------------------------------------------------
  // Uniforms collected by `generateCode`

  /** A global that `generateCode` collects as a uniform: uniform, not a sampler. */
  predicate IsCollectedUniform(v: Variable) {
    v.modifiers.isUniform && v.varType.TypeKind() != SamplerKind
  }

  function CollectedUniform(d: VarDeclaration): seq<Variable> {
    if IsCollectedUniform(d.variable) then [d.variable] else []
  }

  /** The uniforms of a program, in declaration order. */
  function CollectedUniforms(program: seq<ProgramElement>): seq<Variable> {
    Flatten(GlobalDeclarations(program), CollectedUniform)
  }

  /** The collected variables are exactly the declared uniforms that are not samplers. */
  lemma {:induction false} CollectedUniformsMembers(ds: seq<VarDeclaration>)
    ensures forall v :: v in Flatten(ds, CollectedUniform) <==>
      IsCollectedUniform(v) && exists d :: d in ds && d.variable == v
    decreases |ds|
  {
    if ds != [] {
      CollectedUniformsMembers(ds[1..]);
      assert forall d :: d in ds <==> d == ds[0] || d in ds[1..];
    }
  }

  /** Every declared non-sampler uniform of the program is collected, and
      nothing else is. */
  lemma CollectedUniformsOfProgram(program: seq<ProgramElement>, v: Variable)
    ensures v in CollectedUniforms(program) <==>
      IsCollectedUniform(v) && exists p, d :: p in program && p.VarElement? && d in p.decls && d.variable == v
  {
    var ds := GlobalDeclarations(program);
    CollectedUniformsMembers(ds);
    if IsCollectedUniform(v) && exists p, d :: p in program && p.VarElement? && d in p.decls && d.variable == v {
      var p, d :| p in program && p.VarElement? && d in p.decls && d.variable == v;
      assert d in ds;
    }
  }

  // ---------------------------------------------------------------------
  // Private globals

  /** The member `writePrivateVars` declares for a private global. */
  function PrivateVarLine(fieldType: SLType -> string, d: VarDeclaration): string {
    if IsPrivate(d.variable) then fieldType(d.variable.varType) + " " + d.variable.name + ";\n" else ""
  }

  function PrivateVarLines(fieldType: SLType -> string): VarDeclaration -> string {
    (d: VarDeclaration) => PrivateVarLine(fieldType, d)
  }

  /** The assignment `writePrivateVarValues` writes for a private global
      with an initial value: the value's SkSL description. */
  function PrivateValueLine(describe: Expr -> string, d: VarDeclaration): string {
    if IsPrivate(d.variable) && d.value.Some?
    then d.variable.name + " = " + describe(d.value.value) + ";\n"
    else ""
  }

  function PrivateValueLines(describe: Expr -> string): VarDeclaration -> string {
    (d: VarDeclaration) => PrivateValueLine(describe, d)
  }

  /** A member is declared for a global exactly when it is private. */
  lemma PrivateVarsDeclared(fieldType: SLType -> string, ds: seq<VarDeclaration>)
    ensures Flatten(ds, PrivateVarLines(fieldType)) == []
        <==> forall k :: 0 <= k < |ds| ==> !IsPrivate(ds[k].variable)
  {
    FlattenEmpty(ds, PrivateVarLines(fieldType));
  }

  /** An assignment is written exactly when some private global has a value. */
  lemma PrivateValuesAssigned(describe: Expr -> string, ds: seq<VarDeclaration>)
    ensures Flatten(ds, PrivateValueLines(describe)) == []
        <==> forall k :: 0 <= k < |ds| ==> !(IsPrivate(ds[k].variable) && ds[k].value.Some?)
  {
    FlattenEmpty(ds, PrivateValueLines(describe));
  }

  // ---------------------------------------------------------------------
  // `emitCode`

  /** The opening of `emitCode`: the fragment builder and the processor cast. */
  function EmitCodeOpen(fullName: string): string {
    EmitCodeSignature + ConstIndent + fullName + EmitCodeCast + fullName + CastClose + VoidOuter
  }

  const EmitCodeSignature := "    void emitCode(EmitArgs& args) override {\n        GrGLSLFPFragmentBuilder* fragBuilder = args.fFragBuilder;\n"
  const ConstIndent := "        const "
  const EmitCodeCast := "& _outer = args.fFp.cast<"
  const CastClose := ">();\n"
  const VoidOuter := "        (void) _outer;\n"

  /** Every uniform that gets a handle has a type `addUniform` can register. */
  predicate RegistrableUniforms(us: seq<Variable>) {
    forall k :: 0 <= k < |us| ==> (NeedsUniformVar(us[k]) ==> HasUniformType(us[k].varType))
  }

  /** The colour-space helper's set-up for transform uniform `u`. */
  function HelperSetupLine(u: Variable): string {
    HelperSetupOpen + u.name + GetAndClose
  }

  const HelperSetupOpen := "        fColorSpaceHelper.emitCode(args.fUniformHandler, _outer."
  const GetAndClose := "().get());\n"

  /** What the uniform loop of `writeEmitCode` writes for `us`: each
      uniform's registration, followed for a colour-space transform by the
      helper's set-up. */
  function UniformSetupText(fieldName: string -> string, us: seq<Variable>): string
    requires RegistrableUniforms(us)
    decreases |us|
  {
    if us == [] then ""
    else UniformSetupText(fieldName, us[..|us| - 1]) + UniformSetupPiece(fieldName, us[|us| - 1])
  }

  /** What the uniform loop writes for one uniform `u`. */
  function UniformSetupPiece(fieldName: string -> string, u: Variable): string
    requires NeedsUniformVar(u) ==> HasUniformType(u.varType)
  {
    UniformRegistration(fieldName, u) + (if u.varType == ColorSpaceXform then HelperSetupLine(u) else "")
  }

  /** One round of the uniform loop extends its text by one piece. */
  lemma UniformSetupStep(fieldName: string -> string, us: seq<Variable>, i: nat, base: string, mid: string, after: string)
    requires i < |us| && RegistrableUniforms(us)
    requires mid == base + UniformSetupText(fieldName, us[..i])
    requires after == mid + UniformSetupPiece(fieldName, us[i])
    ensures after == base + UniformSetupText(fieldName, us[..i + 1])
  {
    assert us[..i + 1][..i] == us[..i];
    AppendAssoc(base, UniformSetupText(fieldName, us[..i]), UniformSetupPiece(fieldName, us[i]));
  }

  /** Some uniform among `us` is a colour-space transform. */
  predicate AnyXform(us: seq<Variable>)
    decreases |us|
  {
    us != [] && (AnyXform(us[..|us| - 1]) || us[|us| - 1].varType == ColorSpaceXform)
  }

  /** Number of colour-space transforms among `us`. */
  function XformCount(us: seq<Variable>): nat
    decreases |us|
  {
    if us == [] then 0
    else XformCount(us[..|us| - 1]) + (if us[|us| - 1].varType == ColorSpaceXform then 1 else 0)
  }

  /** There is a transform exactly when one is counted. */
  lemma {:induction false} AnyXformCounted(us: seq<Variable>)
    ensures AnyXform(us) <==> XformCount(us) > 0
    decreases |us|
  {
    if us != [] {
      AnyXformCounted(us[..|us| - 1]);
    }
  }

  /** A transform at index `k` is found. */
  lemma {:induction false} AnyXformAt(us: seq<Variable>, k: nat)
    requires k < |us| && us[k].varType == ColorSpaceXform
    ensures AnyXform(us)
    decreases |us|
  {
    if k < |us| - 1 {
      assert us[..|us| - 1][k] == us[k];
      AnyXformAt(us[..|us| - 1], k);
    }
  }

  const SingleXformMessage := "only a single ColorSpaceXform is supported"

  /** The errors the uniform loop reports: one at every colour-space
      transform met while the helper is already in use (`helperBefore`: it
      was before the loop). */
  function XformErrors(us: seq<Variable>, helperBefore: bool): seq<Diagnostic>
    decreases |us|
  {
    if us == [] then []
    else
      var init, u := us[..|us| - 1], us[|us| - 1];
      XformErrors(init, helperBefore)
        + (if u.varType == ColorSpaceXform && (helperBefore || AnyXform(init))
           then [Diagnostic(u.pos, SingleXformMessage)] else [])
  }

  /** One round of the uniform loop: the transform at `i` is reported when
      the helper is already on, and turns it on. */
  lemma XformStep(us: seq<Variable>, i: nat, helperBefore: bool, helperMid: bool,
                  errorsBase: seq<Diagnostic>, errorsMid: seq<Diagnostic>, errorsAfter: seq<Diagnostic>)
    requires i < |us|
    requires helperMid == (helperBefore || AnyXform(us[..i]))
    requires errorsMid == errorsBase + XformErrors(us[..i], helperBefore)
    requires errorsAfter == errorsMid + (if us[i].varType == ColorSpaceXform && helperMid
                                         then [Diagnostic(us[i].pos, SingleXformMessage)] else [])
    ensures errorsAfter == errorsBase + XformErrors(us[..i + 1], helperBefore)
    ensures (helperMid || us[i].varType == ColorSpaceXform) == (helperBefore || AnyXform(us[..i + 1]))
  {
    assert us[..i + 1][..i] == us[..i];
    AppendAssoc(errorsBase, XformErrors(us[..i], helperBefore),
                if us[i].varType == ColorSpaceXform && helperMid then [Diagnostic(us[i].pos, SingleXformMessage)] else []);
  }

  /** Every transform but the first is reported (every one, if the helper
      was already in use), each with the same message. */
  lemma {:induction false} XformErrorsCount(us: seq<Variable>, helperBefore: bool)
    ensures |XformErrors(us, helperBefore)|
         == if helperBefore then XformCount(us) else if XformCount(us) == 0 then 0 else XformCount(us) - 1
    ensures forall d :: d in XformErrors(us, helperBefore) ==> d.message == SingleXformMessage
    decreases |us|
  {
    if us != [] {
      XformErrorsCount(us[..|us| - 1], helperBefore);
      AnyXformCounted(us[..|us| - 1]);
    }
  }

  /** The uniform loop reports nothing exactly when at most one transform is
      met, and none if the helper was already in use. */
  lemma SingleXformAccepted(us: seq<Variable>, helperBefore: bool)
    ensures XformErrors(us, helperBefore) == [] <==> XformCount(us) <= (if helperBefore then 0 else 1)
  {
    XformErrorsCount(us, helperBefore);
  }

  /** One `, arg` per format argument, in order. */
  function ArgumentText(arg: string): string {
    ", " + arg
  }

  /** The end of `emitCode`: the coordinate set-up code, then the call that
      appends the shader text `main` with its arguments. */
  function CodeAppendText(extra: string, main: string, args: seq<string>): string {
    extra + CodeAppendOpen + main + "\"" + Flatten(args, ArgumentText) + CodeAppendClose
  }

  const CodeAppendOpen := "        fragBuilder->codeAppendf(\""
  const CodeAppendClose := ");\n    }\n"

  // ---------------------------------------------------------------------
  // `onSetData`

  /** The name of the program-data manager: the `setData` section's argument, else `pdman`. */
  function DataManager(sections: seq<Section>): string {
    match GetSection(sections, SetDataSection)
    case Some(s) => s.argument
    case None => "pdman"
  }

  function SetDataOpen(pdman: string): string {
    SetDataSignature + pdman + SetDataParameters
  }

  const SetDataSignature := "    void onSetData(const GrGLSLProgramDataManager& "
  const SetDataParameters := ", const GrFragmentProcessor& _proc) override {\n"

  /** The cast that gives `onSetData` the processor's values. */
  function OuterCast(fullName: string): string {
    ConstIndent + fullName + ProcCast + fullName + CastClose
  }

  const ProcCast := "& _outer = _proc.cast<"

  /** The upload of an `in` uniform's value: a rectangle as four floats, a
      matrix column-major, the transform through its helper, any other value
      as one float. */
  function UniformDataLines(fieldName: string -> string, pdman: string, u: Variable): string {
    var n := u.name;
    if u.varType == Float4 || u.varType == Half4 then
      RectOpen + n + ValueOuter + n + CallClose
      + Indent + pdman + Set4fv + fieldName(n) + RectArgs + n + ValueClose
    else if u.varType == Float4x4 || u.varType == Half4x4 then
      MatrixOpen + n + MatrixArray + n + AsColMajor + n + ValueClose
      + Indent + pdman + SetMatrix + fieldName(n) + VarComma + n + ValueClose
    else if u.varType == ColorSpaceXform then
      HelperSetData + pdman + OuterArg + n + GetAndClose + BlockClose
    else
      Indent + pdman + Set1f + fieldName(n) + VarOuter + n + CallCallClose
  }

  const RectOpen := "        const SkRect "
  const ValueOuter := "Value = _outer."
  const CallClose := "();\n"
  const Set4fv := ".set4fv("
  const RectArgs := "Var, 1, (float*) &"
  const ValueClose := "Value);\n"
  const MatrixOpen := "        float "
  const MatrixArray := "Value[16];\n        _outer."
  const AsColMajor := "().asColMajorf("
  const SetMatrix := ".setMatrix4f("
  const VarComma := "Var, "
  const HelperSetData := "        if (fColorSpaceHelper.isValid()) {\n            fColorSpaceHelper.setData("
  const OuterArg := ", _outer."
  const BlockOpen := "        {\n"
  const BlockClose := "        }\n"
  const Set1f := ".set1f("
  const VarOuter := "Var, _outer."
  const CallCallClose := "());\n"

  /** Some uniform among `us` is `in`. */
  predicate HasInUniform(us: seq<Variable>)
    decreases |us|
  {
    us != [] && (HasInUniform(us[..|us| - 1]) || us[|us| - 1].modifiers.isIn)
  }

  /** An `in` uniform at index `k` is found. */
  lemma {:induction false} HasInUniformAt(us: seq<Variable>, k: nat)
    requires k < |us| && us[k].modifiers.isIn
    ensures HasInUniform(us)
    decreases |us|
  {
    if k < |us| - 1 {
      assert us[..|us| - 1][k] == us[k];
      HasInUniformAt(us[..|us| - 1], k);
    }
  }

  /** The upload lines of each uniform, for the data manager `pdman`. */
  function Uploads(fieldName: string -> string, pdman: string): Variable -> string {
    (u: Variable) => UniformDataLines(fieldName, pdman, u)
  }

  /** The uploads (`upload` of each) of the `in` uniforms among `us`, in order. */
  function InUniformData(upload: Variable -> string, us: seq<Variable>): string
    decreases |us|
  {
    if us == [] then ""
    else
      var u := us[|us| - 1];
      InUniformData(upload, us[..|us| - 1]) + (if u.modifiers.isIn then upload(u) else "")
  }

  /** Without `in` uniforms there is nothing to upload. */
  lemma {:induction false} NoInUniformNoData(upload: Variable -> string, us: seq<Variable>)
    requires !HasInUniform(us)
    ensures InUniformData(upload, us) == ""
    decreases |us|
  {
    if us != [] {
      NoInUniformNoData(upload, us[..|us| - 1]);
    }
  }

  /** What the upload loop writes for one uniform: for an `in` uniform, its
      upload, preceded by `head` (the cast and the opening of a block) when
      it is the first (`first`); nothing for any other one. */
  function UniformDataPiece(head: string, upload: Variable -> string, u: Variable, first: bool): string {
    if u.modifiers.isIn then (if first then head else "") + upload(u) else ""
  }

  /** What the upload loop writes for `us`, uniform by uniform. */
  function UniformDataText(head: string, upload: Variable -> string, us: seq<Variable>): string
    decreases |us|
  {
    if us == [] then ""
    else
      var init := us[..|us| - 1];
      UniformDataText(head, upload, init) + UniformDataPiece(head, upload, us[|us| - 1], !HasInUniform(init))
  }

  /** The upload loop writes `head` once, before the uploads of all `in`
      uniforms, and nothing without them. */
  lemma {:induction false} UniformDataTextShape(head: string, upload: Variable -> string, us: seq<Variable>)
    ensures UniformDataText(head, upload, us) == if HasInUniform(us) then head + InUniformData(upload, us) else ""
    decreases |us|
  {
    if us != [] {
      var init, u := us[..|us| - 1], us[|us| - 1];
      var tail := if u.modifiers.isIn then upload(u) else "";
      assert InUniformData(upload, us) == InUniformData(upload, init) + tail;
      assert UniformDataText(head, upload, us)
          == UniformDataText(head, upload, init) + UniformDataPiece(head, upload, u, !HasInUniform(init));
      UniformDataTextShape(head, upload, init);
      if !HasInUniform(init) {
        NoInUniformNoData(upload, init);
      }
      ShapeStep(head, InUniformData(upload, init), tail, UniformDataText(head, upload, init),
                HasInUniform(init), u.modifiers.isIn);
    }
  }

  /** The text algebra of one step of `UniformDataTextShape`. */
  lemma ShapeStep(head: string, dataInit: string, tail: string, textInit: string, hasInit: bool, isIn: bool)
    requires textInit == (if hasInit then head + dataInit else "")
    requires !hasInit ==> dataInit == ""
    requires !isIn ==> tail == ""
    ensures textInit + (if isIn then (if !hasInit then head else "") + tail else "")
         == if hasInit || isIn then head + (dataInit + tail) else ""
  {
    if hasInit {
      AppendAssoc(head, dataInit, tail);
    }
  }

  /** One round of the upload loop extends its text by one piece. */
  lemma UniformDataStep(head: string, upload: Variable -> string, us: seq<Variable>, i: nat,
                        base: string, mid: string, after: string)
    requires i < |us|
    requires mid == base + UniformDataText(head, upload, us[..i])
    requires after == mid + UniformDataPiece(head, upload, us[i], !HasInUniform(us[..i]))
    ensures after == base + UniformDataText(head, upload, us[..i + 1])
    ensures HasInUniform(us[..i + 1]) == (HasInUniform(us[..i]) || us[i].modifiers.isIn)
  {
    assert us[..i + 1][..i] == us[..i];
    AppendAssoc(base, UniformDataText(head, upload, us[..i]),
                UniformDataPiece(head, upload, us[i], !HasInUniform(us[..i])));
  }

  /** The uniform part of `onSetData`: when some uniform is `in`, the cast,
      then a block with the upload of each such uniform; otherwise nothing. */
  function SetDataUniformsText(fullName: string, fieldName: string -> string, pdman: string, us: seq<Variable>): string {
    if HasInUniform(us)
    then OuterCast(fullName) + BlockOpen + InUniformData(Uploads(fieldName, pdman), us) + BlockClose
    else ""
  }

  /** A parameter that `onSetData` reads from the processor (one that needs
      no uniform handle). */
  predicate IsReadParameter(v: Variable) {
    !NeedsUniformVar(v) && IsParameter(v)
  }

  /** Some declaration in `ds` is of a variable that `isRead` holds for. */
  predicate HasRead(isRead: Variable -> bool, ds: seq<VarDeclaration>)
    decreases |ds|
  {
    ds != [] && (HasRead(isRead, ds[..|ds| - 1]) || isRead(ds[|ds| - 1].variable))
  }

  /** A read declaration at index `k` is found. */
  lemma {:induction false} HasReadAt(isRead: Variable -> bool, ds: seq<VarDeclaration>, k: nat)
    requires k < |ds| && isRead(ds[k].variable)
    ensures HasRead(isRead, ds)
    decreases |ds|
  {
    if k < |ds| - 1 {
      assert ds[..|ds| - 1][k] == ds[k];
      HasReadAt(isRead, ds[..|ds| - 1], k);
    }
  }

  /** `HasRead` of a concatenation. */
  lemma {:induction false} HasReadAppend(isRead: Variable -> bool, a: seq<VarDeclaration>, b: seq<VarDeclaration>)
    ensures HasRead(isRead, a + b) == (HasRead(isRead, a) || HasRead(isRead, b))
    decreases |b|
  {
    if b == [] {
      assert a + b == a;
    } else {
      assert (a + b)[..|a + b| - 1] == a + b[..|b| - 1];
      HasReadAppend(isRead, a, b[..|b| - 1]);
    }
  }

  /** The local `onSetData` gives a global in its `setData` section: the
      uniform handle, or the processor's value of a parameter. */
  function SetDataLocal(fieldName: string -> string, d: VarDeclaration): string {
    var n := d.variable.name;
    if NeedsUniformVar(d.variable) then
      HandleLocal + n + AssignSpace + fieldName(n) + HandleLocalClose + n + StatementEnd
    else if IsParameter(d.variable) then
      AutoLocal + n + AssignOuter + n + CallClose + VoidLocal + n + StatementEnd
    else ""
  }

  const HandleLocal := "        UniformHandle& "
  const AssignSpace := " = "
  const HandleLocalClose := "Var;\n        (void) "
  const StatementEnd := ";\n"
  const AutoLocal := "        auto "
  const AssignOuter := " = _outer."
  const VoidLocal := "        (void) "

  function SetDataLocals(fieldName: string -> string): VarDeclaration -> string {
    (d: VarDeclaration) => SetDataLocal(fieldName, d)
  }

  /** What the locals loop writes for one declaration `d`: the cast first
      when `d` is the first parameter read and the cast is not written yet
      (`wrote`), then the local. */
  function SetDataGlobalPiece(cast: string, local: VarDeclaration -> string, isRead: Variable -> bool,
                              d: VarDeclaration, wrote: bool): string {
    (if isRead(d.variable) && !wrote then cast else "") + local(d)
  }

  /** The locals for `ds`, as `writeSetData` writes them (`local` of each):
      the processor cast `cast` goes before the first parameter read
      (`isRead`), unless it was written already (`wrote`). */
  function SetDataGlobalsText(cast: string, local: VarDeclaration -> string, isRead: Variable -> bool,
                              ds: seq<VarDeclaration>, wrote: bool): string
    decreases |ds|
  {
    if ds == [] then ""
    else
      var init := ds[..|ds| - 1];
      SetDataGlobalsText(cast, local, isRead, init, wrote)
        + SetDataGlobalPiece(cast, local, isRead, ds[|ds| - 1], wrote || HasRead(isRead, init))
  }

  /** The locals of a concatenation: those of the second part see the cast
      written when the first part reads a parameter. */
  lemma {:induction false} SetDataGlobalsAppend(cast: string, local: VarDeclaration -> string, isRead: Variable -> bool,
                                                a: seq<VarDeclaration>, b: seq<VarDeclaration>, wrote: bool)
    ensures SetDataGlobalsText(cast, local, isRead, a + b, wrote)
         == SetDataGlobalsText(cast, local, isRead, a, wrote)
          + SetDataGlobalsText(cast, local, isRead, b, wrote || HasRead(isRead, a))
    decreases |b|
  {
    if b == [] {
      assert a + b == a;
    } else {
      var binit := b[..|b| - 1];
      assert (a + b)[..|a + b| - 1] == a + binit;
      SetDataGlobalsAppend(cast, local, isRead, a, binit, wrote);
      HasReadAppend(isRead, a, binit);
      AppendAssoc(SetDataGlobalsText(cast, local, isRead, a, wrote),
                  SetDataGlobalsText(cast, local, isRead, binit, wrote || HasRead(isRead, a)),
                  SetDataGlobalPiece(cast, local, isRead, b[|b| - 1], wrote || HasRead(isRead, a + binit)));
    }
  }

  /** One round of the locals loop extends its text by one piece. */
  lemma SetDataGlobalStep(cast: string, local: VarDeclaration -> string, isRead: Variable -> bool,
                          ds: seq<VarDeclaration>, j: nat, wrote: bool, base: string, mid: string, after: string)
    requires j < |ds|
    requires mid == base + SetDataGlobalsText(cast, local, isRead, ds[..j], wrote)
    requires after == mid + SetDataGlobalPiece(cast, local, isRead, ds[j], wrote || HasRead(isRead, ds[..j]))
    ensures after == base + SetDataGlobalsText(cast, local, isRead, ds[..j + 1], wrote)
    ensures HasRead(isRead, ds[..j + 1]) == (HasRead(isRead, ds[..j]) || isRead(ds[j].variable))
  {
    assert ds[..j + 1][..j] == ds[..j];
    AppendAssoc(base, SetDataGlobalsText(cast, local, isRead, ds[..j], wrote),
                SetDataGlobalPiece(cast, local, isRead, ds[j], wrote || HasRead(isRead, ds[..j])));
  }

  /** One round of the outer locals loop: the locals of program element
      `i` follow those of the elements before it. */
  lemma ElementLocalsStep(cast: string, local: VarDeclaration -> string, isRead: Variable -> bool,
                          program: seq<ProgramElement>, i: nat, wrote: bool, base: string, mid: string, after: string)
    requires i < |program|
    requires mid == base + SetDataGlobalsText(cast, local, isRead, GlobalDeclarations(program[..i]), wrote)
    requires after == mid + SetDataGlobalsText(cast, local, isRead, ElementDeclarations(program[i]),
                                               wrote || HasRead(isRead, GlobalDeclarations(program[..i])))
    ensures after == base + SetDataGlobalsText(cast, local, isRead, GlobalDeclarations(program[..i + 1]), wrote)
    ensures HasRead(isRead, GlobalDeclarations(program[..i + 1]))
         == (HasRead(isRead, GlobalDeclarations(program[..i])) || HasRead(isRead, ElementDeclarations(program[i])))
  {
    var done, decls := GlobalDeclarations(program[..i]), ElementDeclarations(program[i]);
    GlobalDeclarationsSnoc(program, i);
    SetDataGlobalsAppend(cast, local, isRead, done, decls, wrote);
    HasReadAppend(isRead, done, decls);
    AppendAssoc(base, SetDataGlobalsText(cast, local, isRead, done, wrote),
                SetDataGlobalsText(cast, local, isRead, decls, wrote || HasRead(isRead, done)));
  }

  /** Once the cast is written, or when no parameter is read, the locals are
      written with no cast among them. */
  lemma {:induction false} SetDataNoSecondCast(cast: string, local: VarDeclaration -> string, isRead: Variable -> bool, ds: seq<VarDeclaration>, wrote: bool)
    requires wrote || !HasRead(isRead, ds)
    ensures SetDataGlobalsText(cast, local, isRead, ds, wrote) == Flatten(ds, local)
    decreases |ds|
  {
    if ds != [] {
      var init, d := ds[..|ds| - 1], ds[|ds| - 1];
      SetDataNoSecondCast(cast, local, isRead, init, wrote);
      assert ds == init + [d];
      FlattenAppend(init, [d], local);
      assert [d][1..] == [];
    }
  }

  /** Otherwise the cast is written exactly once, just before the locals of
      the first parameter read. */
  lemma {:induction false} SetDataCastBeforeFirstParameter(cast: string, local: VarDeclaration -> string,
                                                          isRead: Variable -> bool, ds: seq<VarDeclaration>, k: nat)
    requires k < |ds| && isRead(ds[k].variable) && !HasRead(isRead, ds[..k])
    ensures SetDataGlobalsText(cast, local, isRead, ds, false) == Flatten(ds[..k], local) + cast + Flatten(ds[k..], local)
    decreases |ds|
  {
    var init, d := ds[..|ds| - 1], ds[|ds| - 1];
    assert Flatten([d], local) == local(d) by { assert [d][1..] == []; }
    if k == |ds| - 1 {
      assert ds[..k] == init && ds[k..] == [d];
      SetDataNoSecondCast(cast, local, isRead, init, false);
      assert SetDataGlobalsText(cast, local, isRead, ds, false) == Flatten(init, local) + cast + local(d);
    } else {
      assert init[..k + 1][..k] == ds[..k];
      HasReadAt(isRead, init, k);
      assert SetDataGlobalsText(cast, local, isRead, ds, false) == SetDataGlobalsText(cast, local, isRead, init, false) + local(d);
      assert init[..k] == ds[..k] && ds[k..] == init[k..] + [d];
      SetDataCastBeforeFirstParameter(cast, local, isRead, init, k);
      FlattenAppend(init[k..], [d], local);
    }
  }

  /** `onSetData`: the uploads of the `in` uniforms and, with a `setData`
      section, the locals of the globals and the section's text. */
  function SetDataText(fullName: string, fieldName: string -> string, sections: seq<Section>,
                       globals: seq<VarDeclaration>, us: seq<Variable>): string
  {
    var pdman := DataManager(sections);
    SetDataOpen(pdman) + SetDataUniformsText(fullName, fieldName, pdman, us)
      + SetDataSectionPart(fullName, fieldName, sections, globals, HasInUniform(us))
      + SetDataClose
  }

  /** What a `setData` section adds to `onSetData`: the locals of the
      globals, then the section's text; `wrote` tells whether the uploads
      wrote the cast. */
  function SetDataSectionPart(fullName: string, fieldName: string -> string, sections: seq<Section>,
                              globals: seq<VarDeclaration>, wrote: bool): string
  {
    if GetSection(sections, SetDataSection).Some?
    then SetDataGlobalsText(OuterCast(fullName), SetDataLocals(fieldName), IsReadParameter, globals, wrote)
         + SectionText(sections, SetDataSection)
    else ""
  }

  const SetDataClose := "    }\n"

  // ---------------------------------------------------------------------
  // Members of the GLSL class

  /** The start of the generated file, up to the GLSL class's constructor:
      the header, the `cpp` section and the includes. */
  function PrologueText(name: string, fullName: string, header: string, sections: seq<Section>): string {
    PrologueHead(fullName, header) + SectionText(sections, CppSection) + PrologueTail(name)
  }

  /** The header, the processor's own include and the `SK_SUPPORT_GPU` guard. */
  function PrologueHead(fullName: string, header: string): string {
    header + IncludeOwn + fullName + IncludeOwnClose
  }

  /** The includes, then the GLSL class up to its constructor. */
  function PrologueTail(name: string): string {
    PrologueIncludes + GLSLClassOpen + name + GLSLClassBase + GLSLConstructorOpen + name + GLSLConstructorClose
  }

  const IncludeOwn := "#include \""
  const IncludeOwnClose := ".h\"\n#if SK_SUPPORT_GPU\n"
  const PrologueIncludes :=
    "#include \"glsl/GrGLSLColorSpaceXformHelper.h\"\n#include \"glsl/GrGLSLFragmentProcessor.h\"\n"
    + "#include \"glsl/GrGLSLFragmentShaderBuilder.h\"\n#include \"glsl/GrGLSLProgramBuilder.h\"\n"
    + "#include \"SkSLCPP.h\"\n#include \"SkSLUtil.h\"\n"
  const GLSLClassOpen := "class GrGLSL"
  const GLSLClassBase := " : public GrGLSLFragmentProcessor {\npublic:\n"
  const GLSLConstructorOpen := "    GrGLSL"
  const GLSLConstructorClose := "() {}\n"

  /** `emitCode` up to the shader text: its opening, the private values,
      the uniform registrations and the `emitCode` section. */
  function EmitCodeHeadText(fullName: string, fieldName: string -> string, describe: Expr -> string,
                            globals: seq<VarDeclaration>, sections: seq<Section>, us: seq<Variable>): string
    requires RegistrableUniforms(us)
  {
    EmitCodeOpen(fullName) + Flatten(globals, PrivateValueLines(describe))
    + UniformSetupText(fieldName, us) + SectionText(sections, EmitCodeSection)
  }

  /** `writeEmitCode`: the head, then the call appending the shader text
      `main` after the coordinate set-up code `extra`, with `args`. */
  function EmitCodeText(fullName: string, fieldName: string -> string, describe: Expr -> string,
                        globals: seq<VarDeclaration>, sections: seq<Section>, us: seq<Variable>,
                        extra: string, main: string, args: seq<string>): string
    requires RegistrableUniforms(us)
  {
    EmitCodeHeadText(fullName, fieldName, describe, globals, sections, us) + CodeAppendText(extra, main, args)
  }

  const PrivateLabel := "private:\n"

  /** After `emitCode`: `onSetData` and a member for every private global. */
  function ClassMembersText(fullName: string, fieldName: string -> string, fieldType: SLType -> string,
                            sections: seq<Section>, globals: seq<VarDeclaration>, us: seq<Variable>): string
  {
    PrivateLabel + SetDataText(fullName, fieldName, sections, globals, us) + Flatten(globals, PrivateVarLines(fieldType))
  }

  function HandleMember(fieldName: string -> string, v: Variable): string {
    HandleMemberOpen + fieldName(v.name) + HandleMemberClose
  }

  const HandleMemberOpen := "    UniformHandle "
  const HandleMemberClose := "Var;\n"

  /** A handle member for a collected uniform that needs one and is not `in`. */
  function UniformHandleMembers(fieldName: string -> string): Variable -> string {
    (u: Variable) => if NeedsUniformVar(u) && !u.modifiers.isIn then HandleMember(fieldName, u) else ""
  }

  /** A handle member for a parameter that needs one. */
  function ParameterHandleMembers(fieldName: string -> string): Variable -> string {
    (p: Variable) => if NeedsUniformVar(p) then HandleMember(fieldName, p) else ""
  }

  const HelperMember := "    GrGLSLColorSpaceXformHelper fColorSpaceHelper;\n"

  /** The uniform handles of the uniforms and of the parameters, then the
      colour-space helper when the processor needs one. */
  function HandlesText(fieldName: string -> string, us: seq<Variable>, ps: seq<Variable>, helper: bool): string {
    Flatten(us, UniformHandleMembers(fieldName)) + Flatten(ps, ParameterHandleMembers(fieldName))
    + (if helper then HelperMember else "")
  }

  /** The end of the GLSL class and the processor's factory for it. */
  function CreateInstanceText(name: string, fullName: string): string {
    ClassClose + InstanceOpen + fullName + InstanceSignature + name + InstanceClose
  }

  const ClassClose := "};\n"
  const InstanceOpen := "GrGLSLFragmentProcessor* "
  const InstanceSignature := "::onCreateGLSLInstance() const {\n    return new GrGLSL"
  const InstanceClose := "();\n}\n"

  /** The GLSL class after `emitCode`, and its factory. */
  function ClassTailText(name: string, fullName: string, fieldName: string -> string, fieldType: SLType -> string,
                        sections: seq<Section>, globals: seq<VarDeclaration>, us: seq<Variable>,
                        ps: seq<Variable>, helper: bool): string
  {
    ClassMembersText(fullName, fieldName, fieldType, sections, globals, us)
    + HandlesText(fieldName, us, ps, helper) + CreateInstanceText(name, fullName)
  }

  // ---------------------------------------------------------------------
  // The processor's key, comparison, copy and test factory

  function GetKeyOpen(fullName: string): string {
    "void " + fullName + GetKeySignature
  }

  /** `onGetGLSLProcessorKey`, with the key lines of every parameter in order. */
  function GetKeyText(fullName: string, fieldName: string -> string, ps: seq<Variable>): string
    requires KeysHandled(ps)
  {
    GetKeyOpen(fullName) + Join(AllKeyLines(fieldName, ps)) + FunctionClose
  }

  const GetKeySignature := "::onGetGLSLProcessorKey(const GrShaderCaps& caps, GrProcessorKeyBuilder* b) const {\n"
  const FunctionClose := "}\n"

  predicate KeysHandled(ps: seq<Variable>) {
    forall k :: 0 <= k < |ps| ==> HasKeyHandling(ps[k])
  }

  /** The key-builder lines of all parameters, in order. */
  function AllKeyLines(fieldName: string -> string, ps: seq<Variable>): seq<string>
    requires KeysHandled(ps)
    decreases |ps|
  {
    if ps == [] then [] else AllKeyLines(fieldName, ps[..|ps| - 1]) + KeyLines(fieldName, ps[|ps| - 1])
  }

  /** One round of the key loop: the lines and errors of parameter `i`
      follow those of the parameters before it. */
  lemma GetKeyStep(fieldName: string -> string, ps: seq<Variable>, i: nat, base: string, mid: string, after: string,
                   errorsBase: seq<Diagnostic>, errorsMid: seq<Diagnostic>, errorsAfter: seq<Diagnostic>)
    requires i < |ps| && KeysHandled(ps)
    requires mid == base + Join(AllKeyLines(fieldName, ps[..i]))
    requires after == mid + Join(KeyLines(fieldName, ps[i]))
    requires errorsMid == errorsBase + Flatten(ps[..i], KeyErrors)
    requires errorsAfter == errorsMid + KeyErrors(ps[i])
    ensures after == base + Join(AllKeyLines(fieldName, ps[..i + 1]))
    ensures errorsAfter == errorsBase + Flatten(ps[..i + 1], KeyErrors)
  {
    var before := AllKeyLines(fieldName, ps[..i]);
    assert ps[..i + 1][..i] == ps[..i];
    assert AllKeyLines(fieldName, ps[..i + 1]) == before + KeyLines(fieldName, ps[i]);
    JoinAppend(before, KeyLines(fieldName, ps[i]));
    AppendAssoc(base, Join(before), Join(KeyLines(fieldName, ps[i])));
    FlattenSnoc(ps, i, KeyErrors);
    AppendAssoc(errorsBase, Flatten(ps[..i], KeyErrors), KeyErrors(ps[i]));
  }

  /** Total key words of the parameters. */
  function AllKeyWords(ps: seq<Variable>): nat
    decreases |ps|
  {
    if ps == [] then 0 else AllKeyWords(ps[..|ps| - 1]) + KeyWords(ps[|ps| - 1])
  }

  /** The key has one line per key word of every parameter. */
  lemma {:induction false} AllKeyLinesCount(fieldName: string -> string, ps: seq<Variable>)
    requires KeysHandled(ps)
    ensures |AllKeyLines(fieldName, ps)| == AllKeyWords(ps)
    decreases |ps|
  {
    if ps != [] {
      AllKeyLinesCount(fieldName, ps[..|ps| - 1]);
      KeyLinesCount(fieldName, ps[|ps| - 1]);
    }
  }

  /** The key builder reports nothing exactly when no parameter has a key
      mode it rejects. */
  lemma KeyErrorsNone(ps: seq<Variable>)
    ensures Flatten(ps, KeyErrors) == []
        <==> forall k :: 0 <= k < |ps| ==>
               ps[k].varType == ColorSpaceXform ||
               ((ps[k].layout.key == NoKey || !ps[k].modifiers.isUniform) &&
                (ps[k].layout.key != IdentityKey || ps[k].varType.TypeKind() == Matrix))
  {
    FlattenEmpty(ps, KeyErrors);
  }

  function FieldComparison(fieldName: string -> string): Variable -> string {
    (p: Variable) => "    if (" + fieldName(p.name) + " != that." + fieldName(p.name) + ") return false;\n"
  }

  /** `onIsEqual`: two processors are equal when all their parameter fields are. */
  function IsEqualText(fullName: string, fieldName: string -> string, ps: seq<Variable>): string {
    IsEqualOpen(fullName) + Flatten(ps, FieldComparison(fieldName)) + ReturnTrue
  }

  function IsEqualOpen(fullName: string): string {
    "bool " + fullName + IsEqualSignature + ConstIndentShort + fullName + ThatCast + fullName + ThatClose
  }

  const IsEqualSignature := "::onIsEqual(const GrFragmentProcessor& other) const {\n"
  const ConstIndentShort := "    const "
  const ThatCast := "& that = other.cast<"
  const ThatClose := ">();\n    (void) that;\n"
  const ReturnTrue := "    return true;\n}\n"

  const CustomCloneMessage := "fragment processors with custom @fields must also have a custom@clone"

  function FieldCopy(fieldName: string -> string): Variable -> string {
    (p: Variable) => "\n, " + fieldName(p.name) + "(src." + fieldName(p.name) + ")"
  }

  function TransformCopy(fieldName: string -> string): Section -> string {
    (s: Section) => "\n, " + fieldName(s.argument) + "CoordTransform(src." + fieldName(s.argument) + "CoordTransform)"
  }

  function SamplerRegistration(fieldName: string -> string): Variable -> string {
    (p: Variable) => if p.varType.TypeKind() == SamplerKind
         then "    this->addTextureSampler(&" + fieldName(p.name) + ");\n" else ""
  }

  function TransformRegistration(fieldName: string -> string): Section -> string {
    (s: Section) => "    this->addCoordTransform(&" + fieldName(s.argument) + "CoordTransform);\n"
  }

  /** The generated copy constructor's head: every parameter field and
      coordinate transform copied from `src`. */
  function CopyInitializers(fullName: string, fieldName: string -> string, ps: seq<Variable>, transforms: seq<Section>): string {
    CopySignature(fullName)
    + Flatten(ps, FieldCopy(fieldName))
    + Flatten(transforms, TransformCopy(fieldName))
    + BodyOpen
  }

  function CopySignature(fullName: string): string {
    fullName + "::" + fullName + CopyParameter + fullName + CopyInherited + fullName + CopyFlags
  }

  const CopyParameter := "(const "
  const CopyInherited := "& src)\n: INHERITED(k"
  const CopyFlags := "_ClassID, src.optimizationFlags())"
  const BodyOpen := " {\n"

  /** Its body, which registers every sampler and coordinate transform, and `clone`. */
  function CopyBody(fullName: string, fieldName: string -> string, ps: seq<Variable>, transforms: seq<Section>): string {
    Flatten(ps, SamplerRegistration(fieldName))
    + Flatten(transforms, TransformRegistration(fieldName))
    + FunctionClose
    + CloneFunction(fullName)
  }

  /** `clone`, which copies the processor with the copy constructor. */
  function CloneFunction(fullName: string): string {
    CloneSignature + fullName + CloneReturn + fullName + CloneReturnClose + FunctionClose
  }

  const CloneSignature := "std::unique_ptr<GrFragmentProcessor> "
  const CloneReturn := "::clone() const {\n    return std::unique_ptr<GrFragmentProcessor>(new "
  const CloneReturnClose := "(*this));\n"

  /** `writeClone`: the author's `clone` section, or the generated copy
      constructor and `clone`. */
  function CloneText(fullName: string, fieldName: string -> string, ps: seq<Variable>, sections: seq<Section>): string {
    if GetSection(sections, CloneSection).Some? then SectionText(sections, CloneSection)
    else GeneratedClone(fullName, fieldName, ps, GetSections(sections, CoordTransformSection))
  }

  /** What `writeClone` reports: custom fields need a custom `clone`. */
  function CloneErrors(sections: seq<Section>): seq<Diagnostic> {
    if GetSection(sections, CloneSection).None? && GetSection(sections, FieldsSection).Some?
    then [Diagnostic(0, CustomCloneMessage)] else []
  }

  /** The generated copy constructor, with the coordinate transforms
      `transforms`, and `clone`. */
  function GeneratedClone(fullName: string, fieldName: string -> string, ps: seq<Variable>, transforms: seq<Section>): string {
    CopyInitializers(fullName, fieldName, ps, transforms) + CopyBody(fullName, fieldName, ps, transforms)
  }

  function TestOpen(fullName: string, argument: string): string {
    "GR_DEFINE_FRAGMENT_PROCESSOR_TEST(" + fullName + ");\n"
    + "#if GR_TEST_UTILS\n"
    + "std::unique_ptr<GrFragmentProcessor> " + fullName + "::TestCreate(GrProcessorTestData* " + argument + ") {\n"
  }

  const TestClose := "}\n#endif\n"

  /** `writeTest`: with a `test` section, the test factory around its text. */
  function TestText(fullName: string, sections: seq<Section>): string {
    match GetSection(sections, TestCodeSection)
    case None => ""
    case Some(s) => TestOpen(fullName, s.argument) + s.text + TestClose
  }


  const EndifLine := "#endif\n"

  /** The end of the file: the test factory, the `cppEnd` section and the
      end of the `SK_SUPPORT_GPU` guard. */
  function FileEndText(fullName: string, sections: seq<Section>): string {
    TestText(fullName, sections) + SectionText(sections, CppEndSection) + EndifLine
  }

  /** The file up to the end of the GLSL class and its factory: the
      prologue, `emitCode` with the shader text `main`, and the rest of the
      class. */
  function GLSLClassText(name: string, fullName: string, header: string, fieldName: string -> string,
                         fieldType: SLType -> string, describe: Expr -> string, sections: seq<Section>,
                         globals: seq<VarDeclaration>, us: seq<Variable>, ps: seq<Variable>, helper: bool,
                         extra: string, main: string, args: seq<string>): string
    requires RegistrableUniforms(us)
  {
    PrologueText(name, fullName, header, sections)
    + EmitCodeText(fullName, fieldName, describe, globals, sections, us, extra, main, args)
    + ClassTailText(name, fullName, fieldName, fieldType, sections, globals, us, ps, helper)
  }

  /** The processor's members after the GLSL class: key, comparison, copy,
      then the end of the file. */
  function ProcessorText(fullName: string, fieldName: string -> string, ps: seq<Variable>, sections: seq<Section>): string
    requires KeysHandled(ps)
  {
    GetKeyText(fullName, fieldName, ps) + IsEqualText(fullName, fieldName, ps)
    + CloneText(fullName, fieldName, ps, sections) + FileEndText(fullName, sections)
  }
}
