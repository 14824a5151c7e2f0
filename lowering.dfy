/**
 * What the printer writes for a value known only when the shader is built:
 * the placeholder text it puts into the format string and the C++ argument
 * expressions that fill it; the names of cached transformed coordinates; the
 * slot of a texture sampler; the names of synthesized temporaries.
 */
module Lowering {
  import opened Format
  import opened Ast

  /** The types `writeRuntimeValue` has a case for (any other one aborts). */
  predicate RuntimeSupported(t: SLType) {
    t.IsFloat() || t == Int || t == Bool || t == Float2 || t == Half2
  }

  /** The format text `writeRuntimeValue` writes for a value of type `t`: one
      bare conversion for a scalar, a constructor of the type for a 2-vector. */
  function RuntimeValueText(t: SLType): (r: string)
    requires RuntimeSupported(t)
    ensures t != Float2 && t != Half2 ==> |r| == 2 && r[0] == '%'
    ensures t == Float2 || t == Half2 ==> t.Name() <= r
  {
    if t.IsFloat() then "%f"
    else if t == Int then "%d"
    else if t == Bool then "%s"
    else t.Name() + "(%f, %f)"
  }

  /** The arguments `writeRuntimeValue` pushes for the C++ expression `code`:
      the value itself, a choice between the literals true and false for a
      bool, and the two components, x first, of a 2-vector; every argument
      starts from `code`. */
  function RuntimeValueArgs(t: SLType, code: string): (r: seq<string>)
    requires RuntimeSupported(t)
    ensures |r| == if t == Float2 || t == Half2 then 2 else 1
    ensures t != Bool ==> forall k :: 0 <= k < |r| ==> code <= r[k]
    ensures t == Bool ==> "(" + code <= r[0]
  {
    if t.IsFloat() || t == Int then [code]
    else if t == Bool then ["(" + code + " ? \"true\" : \"false\")"]
    else [code + ".fX", code + ".fY"]
  }

  /** A lowered value holds exactly as many conversions as it has arguments:
      one for a scalar, two for a 2-vector. */
  lemma RuntimeValueBalanced(t: SLType, code: string)
    requires RuntimeSupported(t)
    ensures Closed(RuntimeValueText(t))
    ensures Placeholders(RuntimeValueText(t)) == |RuntimeValueArgs(t, code)|
    ensures |RuntimeValueArgs(t, code)| == if t == Float2 || t == Half2 then 2 else 1
  {
    if t == Float2 || t == Half2 {
      Conversion('f');
      PlainHasNoPlaceholders("(");
      PlainHasNoPlaceholders(", ");
      PlainHasNoPlaceholders(")");
      ClosedConcat("%f", ")");
      ClosedConcat(", ", "%f)");
      ClosedConcat("%f", ", %f)");
      ClosedConcat("(", "%f, %f)");
      assert "(%f, %f)" == "(" + ("%f" + (", " + ("%f" + ")")));
      PlainHasNoPlaceholders(t.Name());
      ClosedConcat(t.Name(), "(%f, %f)");
    } else {
      Conversion(RuntimeValueText(t)[1]);
    }
  }

  /** Name of the C++ local caching transformed coordinate set `index`. */
  function CoordName(index: int): string {
    "sk_TransformedCoords2D_" + IntToString(index)
  }

  /** Each coordinate set has its own cache variable. */
  lemma CoordNameInjective(i: int, j: int)
    requires CoordName(i) == CoordName(j)
    ensures i == j
  {
    var prefix := "sk_TransformedCoords2D_";
    assert CoordName(i)[|prefix|..] == IntToString(i);
    assert CoordName(j)[|prefix|..] == IntToString(j);
    IntToStringInjective(i, j);
  }

  /** The statement that materializes coordinate set `index` once, before the
      shader text is appended. */
  function CoordSetupLine(index: int): string {
    "        SkString " + CoordName(index) + " = fragBuilder->ensureCoords2D(args.fTransformedCoords["
      + IntToString(index) + "]);\n"
  }

  /** The code `fExtraEmitCodeCode` holds once the set-up statements of the
      coordinate sets in `order` have been appended to it, in that order. */
  function ExtraEmitCodeText(order: seq<int>): string {
    if order == [] then "" else CoordSetupLine(order[0]) + ExtraEmitCodeText(order[1..])
  }

  /** No index occurs twice. */
  ghost predicate NoDuplicates(order: seq<int>) {
    forall j, k :: 0 <= j < k < |order| ==> order[j] != order[k]
  }

  /** Indices without repetition: as many setup statements as distinct indices. */
  lemma {:induction false} DistinctIndicesCount(order: seq<int>)
    requires NoDuplicates(order)
    ensures |set i | i in order| == |order|
    decreases |order|
  {
    if order != [] {
      var rest := order[1..];
      assert NoDuplicates(rest) by {
        forall j, k | 0 <= j < k < |rest| ensures rest[j] != rest[k] {
          assert rest[j] == order[j + 1] && rest[k] == order[k + 1];
        }
      }
      DistinctIndicesCount(rest);
      assert order[0] !in rest by {
        forall k | 0 <= k < |rest| ensures rest[k] != order[0] {
          assert rest[k] == order[k + 1];
        }
      }
      assert (set i | i in order) == (set i | i in rest) + {order[0]} by {
        assert order == [order[0]] + rest;
      }
    }
  }

  /** The C++ expression naming texture sampler number `slot`. */
  function SamplerHandle(slot: nat): string {
    "args.fTexSamplers[" + NatToString(slot) + "]"
  }

  function IsSamplerParameter(p: Variable): bool {
    p.varType.TypeKind() == SamplerKind
  }

  /** Number of sampler-typed variables in `params`. */
  function SamplerCount(params: seq<Variable>): nat {
    if params == [] then 0
    else (if IsSamplerParameter(params[0]) then 1 else 0) + SamplerCount(params[1..])
  }

  lemma SamplerCountSnoc(params: seq<Variable>, i: nat)
    requires i < |params|
    ensures SamplerCount(params[..i + 1])
         == SamplerCount(params[..i]) + (if IsSamplerParameter(params[i]) then 1 else 0)
  {
    var f := (p: Variable) => if IsSamplerParameter(p) then [p] else [];
    CountIsFlatten(params[..i + 1], f);
    CountIsFlatten(params[..i], f);
    FlattenSnoc(params, i, f);
  }

  lemma {:induction false} CountIsFlatten(params: seq<Variable>, f: Variable -> seq<Variable>)
    requires forall p :: f(p) == if IsSamplerParameter(p) then [p] else []
    ensures SamplerCount(params) == |Flatten(params, f)|
    decreases |params|
  {
    if params != [] {
      CountIsFlatten(params[1..], f);
    }
  }

  /** The slot of parameter `v`: the number of sampler parameters before its
      first occurrence in `params`. */
  function SamplerSlot(params: seq<Variable>, v: Variable): (slot: nat)
    requires v in params
    ensures slot <= SamplerCount(params)
    ensures IsSamplerParameter(v) ==> slot < SamplerCount(params)
  {
    if params[0] == v then 0
    else (if IsSamplerParameter(params[0]) then 1 else 0) + SamplerSlot(params[1..], v)
  }

  /** The slot is what a left-to-right scan has counted when it meets `v`. */
  lemma {:induction false} SlotIsCountBefore(params: seq<Variable>, v: Variable, i: nat)
    requires i < |params| && params[i] == v
    requires forall k :: 0 <= k < i ==> params[k] != v
    ensures SamplerSlot(params, v) == SamplerCount(params[..i])
    decreases i
  {
    if i > 0 {
      assert params[..i][1..] == params[1..][..i - 1];
      SlotIsCountBefore(params[1..], v, i - 1);
    }
  }

  /** Distinct sampler parameters get distinct slots. */
  lemma {:induction false} SamplerSlotsDistinct(params: seq<Variable>, a: Variable, b: Variable)
    requires a in params && b in params && a != b
    requires IsSamplerParameter(a) && IsSamplerParameter(b)
    ensures SamplerSlot(params, a) != SamplerSlot(params, b)
    decreases |params|
  {
    if params[0] != a && params[0] != b {
      SamplerSlotsDistinct(params[1..], a, b);
    }
  }

  /** Name of the `n`-th synthesized temporary. */
  function TempVarName(n: nat): (r: Identifier)
  {
    var r := "_tmpVar" + NatToString(n);
    PlainConcat("_tmpVar", NatToString(n));
    r
  }

  /** Distinct counter values name distinct temporaries. */
  lemma TempVarNamesDistinct(m: nat, n: nat)
    requires m != n
    ensures TempVarName(m) != TempVarName(n)
  {
    if TempVarName(m) == TempVarName(n) {
      assert TempVarName(m)[7..] == NatToString(m);
      assert TempVarName(n)[7..] == NatToString(n);
      NatToStringInjective(m, n);
    }
  }

  /** The declaration of temporary number `n` in a function's prologue. */
  function TempDeclaration(n: nat): (r: string)
    ensures Plain(r)
  {
    PlainConcat("half4 ", TempVarName(n));
    PlainConcat("half4 " + TempVarName(n), ";");
    "half4 " + TempVarName(n) + ";"
  }

  /** The text `fFunctionHeader` holds once the declarations of temporaries
      `temps` have been appended to it, in that order. */
  function FunctionHeaderText(temps: seq<nat>): (r: string)
    ensures Plain(r)
  {
    if temps == [] then ""
    else
      PlainConcat(TempDeclaration(temps[0]), FunctionHeaderText(temps[1..]));
      TempDeclaration(temps[0]) + FunctionHeaderText(temps[1..])
  }
}
