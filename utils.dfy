/**
 * Helpers of the ludi macros (ludi-macros/src/utils.rs): the controller's name, which
 * attributes belong to ludi, and the output type of an async method or of a method returning
 * `impl Future<Output = T>`.
 */
module MacroUtils {
  import opened Wrappers
  import opened Syn

  /** `ctrl_ident`: the actor's name followed by "Ctrl". */
  function CtrlIdent(actor: string): (r: string)
    ensures |r| == |actor| + 4 && r[..|actor|] == actor && r[|actor|..] == "Ctrl"
  {
    actor + "Ctrl"
  }

  /** Distinct actors get distinct controller names. */
  lemma CtrlIdentInjective(a: string, b: string)
    requires CtrlIdent(a) == CtrlIdent(b)
    ensures a == b
  {
    assert a == CtrlIdent(a)[..|a|];
    assert |a| == |b|;
  }

  /** `is_ludi_attr`: the attribute's path is the single identifier `msg` or `ctrl`. */
  predicate IsLudiAttr(attr: Attribute)
  {
    var ident := GetIdent(attr.meta.path);
    ident.Some? && (ident.value == "msg" || ident.value == "ctrl")
  }

  /** Exactly the attributes spelled `msg` or `ctrl`, in any form, are ludi's own. */
  lemma LudiAttrIff(attr: Attribute)
    ensures IsLudiAttr(attr) <==> IsIdent(attr.meta.path, "msg") || IsIdent(attr.meta.path, "ctrl")
  {
  }

  /** Whether `arg` is the associated type binding `Output = T`. */
  predicate IsOutputBinding(arg: GenericArgument)
  {
    arg.AssocType? && arg.ident == "Output"
  }

  /** The type bound to `Output` by the first such binding among `args` (`find_map`). */
  function FirstOutput(args: seq<GenericArgument>): (r: Option<Type>)
    ensures r.None? <==> forall i :: 0 <= i < |args| ==> !IsOutputBinding(args[i])
    ensures r.Some? ==> exists i :: 0 <= i < |args| && IsOutputBinding(args[i]) && args[i].ty == r.value
                                   && forall j :: 0 <= j < i ==> !IsOutputBinding(args[j])
    decreases |args|
  {
    if args == [] then None
    else if IsOutputBinding(args[0]) then Some(args[0].ty)
    else
      var r := FirstOutput(args[1..]);
      assert r.Some? ==> exists i :: 1 <= i < |args| && IsOutputBinding(args[i]) && args[i].ty == r.value
                                     && forall j :: 0 <= j < i ==> !IsOutputBinding(args[j]) by {
        if r.Some? {
          var k :| 0 <= k < |args[1..]| && IsOutputBinding(args[1..][k]) && args[1..][k].ty == r.value
                   && forall j :: 0 <= j < k ==> !IsOutputBinding(args[1..][j]);
          assert forall j :: 1 <= j < k + 1 ==> args[j] == args[1..][j - 1];
        }
      }
      r
  }

  /**
   * `extract_fut_output`: the `Output` of a trait bound whose last segment is `Future` with
   * angle-bracketed arguments; nothing for any other bound.
   */
  function FutOutput(bound: Path): (r: Option<Type>)
    ensures r.Some? ==> |bound.segments| > 0 && bound.segments[|bound.segments| - 1].ident == "Future"
    ensures r.Some? ==> bound.segments[|bound.segments| - 1].arguments.AngleBracketed?
    ensures |bound.segments| > 0 && bound.segments[|bound.segments| - 1].ident == "Future"
            && bound.segments[|bound.segments| - 1].arguments.AngleBracketed? ==>
              r == FirstOutput(bound.segments[|bound.segments| - 1].arguments.args)
  {
    if |bound.segments| == 0 then None
    else
      var last := bound.segments[|bound.segments| - 1];
      if last.ident != "Future" then None
      else if !last.arguments.AngleBracketed? then None
      else FirstOutput(last.arguments.args)
  }

  /** The first trait bound among `bounds` that names a future's output, and that output. */
  function FirstFutureOutput(bounds: seq<TypeParamBound>): (r: Option<Type>)
    ensures r.Some? ==> bounds != []
    decreases |bounds|
  {
    if bounds == [] then None
    else if bounds[0].TraitBound? && FutOutput(bounds[0].path).Some? then FutOutput(bounds[0].path)
    else FirstFutureOutput(bounds[1..])
  }

  /** `find_map` over the bounds: nothing iff no trait bound names a future output, else the output of such a bound. */
  lemma {:induction false} FirstFutureOutputSpec(bounds: seq<TypeParamBound>)
    ensures var r := FirstFutureOutput(bounds);
            (r.None? <==> forall i :: 0 <= i < |bounds| ==> !bounds[i].TraitBound? || FutOutput(bounds[i].path).None?)
            && (r.Some? ==> exists i :: 0 <= i < |bounds| && bounds[i].TraitBound? && FutOutput(bounds[i].path) == r)
    decreases |bounds|
  {
    if bounds != [] && !(bounds[0].TraitBound? && FutOutput(bounds[0].path).Some?) {
      var tail := bounds[1..];
      FirstFutureOutputSpec(tail);
      assert forall i :: 1 <= i < |bounds| ==> bounds[i] == tail[i - 1];
      var r := FirstFutureOutput(bounds);
      if r.Some? {
        var k :| 0 <= k < |tail| && tail[k].TraitBound? && FutOutput(tail[k].path) == r;
        assert bounds[k + 1] == tail[k];
      }
    }
  }

  /**
   * `extract_output`: an async method's declared output, `()` when it declares none; a plain
   * method's output only when it returns `impl` bounds one of which is a `Future` with an
   * `Output`; otherwise nothing.
   */
  function ExtractOutput(sig: Signature): (r: Option<Type>)
    ensures sig.asyncness && sig.output.DefaultReturn? ==> r == Some(Unit)
    ensures sig.asyncness && sig.output.ExplicitReturn? ==> r == Some(sig.output.ty)
    ensures !sig.asyncness && !(sig.output.ExplicitReturn? && sig.output.ty.ImplTrait?) ==> r.None?
    ensures !sig.asyncness && sig.output.ExplicitReturn? && sig.output.ty.ImplTrait? ==>
              r == FirstFutureOutput(sig.output.ty.bounds)
  {
    if sig.asyncness then
      Some(if sig.output.DefaultReturn? then Unit else sig.output.ty)
    else if sig.output.DefaultReturn? then None
    else match sig.output.ty
      case ImplTrait(bounds) => FirstFutureOutput(bounds)
      case PathType(_) => None
      case _ => None
  }

  /** `Future<Output = t>` under any module prefix, as a trait bound. */
  function FutureBound(prefix: seq<PathSegment>, t: Type): Path
  {
    Path(false, prefix + [PathSegment("Future", AngleBracketed([AssocType("Output", t)]))])
  }

  /** A plain method returning `impl Send + Future<Output = t>` (any bounds before it without a future output) has output `t`. */
  lemma ImplFutureOutput(sig: Signature, before: seq<TypeParamBound>, prefix: seq<PathSegment>, t: Type, after: seq<TypeParamBound>)
    requires !sig.asyncness
    requires sig.output == ExplicitReturn(ImplTrait(before + [TraitBound(FutureBound(prefix, t))] + after))
    requires forall i :: 0 <= i < |before| ==> !before[i].TraitBound? || FutOutput(before[i].path).None?
    ensures ExtractOutput(sig) == Some(t)
    decreases |before|
  {
    var bounds := before + [TraitBound(FutureBound(prefix, t))] + after;
    var fut := FutureBound(prefix, t);
    assert FirstOutput([AssocType("Output", t)]) == Some(t);
    assert FutOutput(fut) == Some(t);
    FirstFutureOutputSkips(before, [TraitBound(fut)] + after);
    assert bounds == before + ([TraitBound(fut)] + after);
  }

  /** Bounds without a future output are skipped. */
  lemma {:induction false} FirstFutureOutputSkips(before: seq<TypeParamBound>, rest: seq<TypeParamBound>)
    requires forall i :: 0 <= i < |before| ==> !before[i].TraitBound? || FutOutput(before[i].path).None?
    ensures FirstFutureOutput(before + rest) == FirstFutureOutput(rest)
    decreases |before|
  {
    if before != [] {
      var all := before + rest;
      assert all[0] == before[0];
      assert !before[0].TraitBound? || FutOutput(before[0].path).None?;
      assert all[1..] == before[1..] + rest;
      assert FirstFutureOutput(all) == FirstFutureOutput(all[1..]);
      var tail := before[1..];
      assert forall i :: 0 <= i < |tail| ==> tail[i] == before[i + 1];
      FirstFutureOutputSkips(tail, rest);
    } else {
      assert before + rest == rest;
    }
  }
}
