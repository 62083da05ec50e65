/**
 * The `Wrap` derive (ludi-macros/src/wrap.rs): its validation of a wrapper enum, and the
 * meaning of the code it generates for a valid one — the `…Return` enum with the same tags,
 * injection through `From`, projection through `unwrap_return` and composed dispatch.
 */
module WrapDerive {
  import opened Wrappers
  import opened Syn
  import opened MessageErrors

  /** One newtype variant: `Ident(Ty)`. */
  datatype Variant = Variant(ident: string, ty: Type)

  /** The derive input: the enum's name, visibility, generics and variants. */
  datatype WrapInput = WrapInput(ident: string, vis: Visibility, generics: seq<GenericParam>, variants: seq<Variant>)

  datatype WrapError =
    | LifetimeGenerics        // "wrapper can not be generic over lifetimes"
    | ConstGenerics           // "wrapper can not be generic over const parameters"
    | DuplicateVariantTypes   // "wrapper can not have duplicate variant types"
    | GenericVariant(ty: Type) // "wrapper can not have generic variants"

  /** The set of payload types (the `HashSet` the derive builds). */
  function VariantTypes(vs: seq<Variant>): (r: set<Type>)
    ensures |r| <= |vs|
    ensures forall i :: 0 <= i < |vs| ==> vs[i].ty in r
  {
    if vs == [] then {} else {vs[0].ty} + VariantTypes(vs[1..])
  }

  lemma {:induction false} VariantTypesMembers(vs: seq<Variant>, t: Type)
    ensures t in VariantTypes(vs) <==> exists i :: 0 <= i < |vs| && vs[i].ty == t
  {
    if vs != [] {
      VariantTypesMembers(vs[1..], t);
      if t in VariantTypes(vs[1..]) {
        var k :| 0 <= k < |vs[1..]| && vs[1..][k].ty == t;
        assert vs[k + 1].ty == t;
      }
      if exists i :: 0 <= i < |vs| && vs[i].ty == t {
        var i :| 0 <= i < |vs| && vs[i].ty == t;
        if i > 0 {
          assert vs[1..][i - 1].ty == t;
        }
      }
    }
  }

  predicate DistinctTypes(vs: seq<Variant>)
  {
    forall i, j :: 0 <= i < j < |vs| ==> vs[i].ty != vs[j].ty
  }

  lemma DistinctCons(vs: seq<Variant>)
    requires vs != []
    ensures DistinctTypes(vs) <==> vs[0].ty !in VariantTypes(vs[1..]) && DistinctTypes(vs[1..])
  {
    var rest := vs[1..];
    VariantTypesMembers(rest, vs[0].ty);
    if DistinctTypes(vs) {
      forall i, j | 0 <= i < j < |rest| ensures rest[i].ty != rest[j].ty {
        assert rest[i] == vs[i + 1] && rest[j] == vs[j + 1];
      }
    }
    if vs[0].ty !in VariantTypes(rest) && DistinctTypes(rest) {
      forall i, j | 0 <= i < j < |vs| ensures vs[i].ty != vs[j].ty {
        assert vs[j] == rest[j - 1];
        if i > 0 {
          assert vs[i] == rest[i - 1];
        }
      }
    }
  }

  /** The derive's length comparison detects exactly the repeated payload types. */
  lemma {:induction false} DistinctIffSameCount(vs: seq<Variant>)
    ensures |VariantTypes(vs)| == |vs| <==> DistinctTypes(vs)
  {
    if vs != [] {
      var rest := vs[1..];
      DistinctIffSameCount(rest);
      DistinctCons(vs);
      if vs[0].ty in VariantTypes(rest) {
        assert VariantTypes(vs) == VariantTypes(rest);
      } else {
        assert |VariantTypes(vs)| == 1 + |VariantTypes(rest)|;
      }
    }
  }

  /** A payload type that is a one-segment path naming one of the wrapper's type parameters. */
  predicate IsBareParam(t: Type, params: set<string>)
  {
    t.PathType? && |t.path.segments| == 1 && t.path.segments[0].ident in params
  }

  /** Whether the derive reports `e` for `w`. */
  predicate IsViolation(w: WrapInput, e: WrapError)
  {
    match e
    case LifetimeGenerics => LifetimeCount(w.generics) > 0
    case ConstGenerics => ConstCount(w.generics) > 0
    case DuplicateVariantTypes => |VariantTypes(w.variants)| != |w.variants|
    case GenericVariant(t) => t in VariantTypes(w.variants) && IsBareParam(t, TypeParams(w.generics))
  }

  /** The rules stated directly: no lifetime or const generics, distinct payloads, no bare parameter payload. */
  predicate ValidWrap(w: WrapInput)
  {
    && (forall i :: 0 <= i < |w.generics| ==> !w.generics[i].LifetimeParam? && !w.generics[i].ConstParam?)
    && DistinctTypes(w.variants)
    && (forall i :: 0 <= i < |w.variants| ==> !IsBareParam(w.variants[i].ty, TypeParams(w.generics)))
  }

  lemma NoViolationIffValid(w: WrapInput)
    ensures (forall e :: !IsViolation(w, e)) <==> ValidWrap(w)
  {
    DistinctIffSameCount(w.variants);
    assert !IsViolation(w, LifetimeGenerics) && !IsViolation(w, ConstGenerics) ==>
      forall i :: 0 <= i < |w.generics| ==> !w.generics[i].LifetimeParam? && !w.generics[i].ConstParam?;
    if forall e :: !IsViolation(w, e) {
      assert !IsViolation(w, DuplicateVariantTypes);
      forall i | 0 <= i < |w.variants| ensures !IsBareParam(w.variants[i].ty, TypeParams(w.generics)) {
        VariantTypesMembers(w.variants, w.variants[i].ty);
        assert !IsViolation(w, GenericVariant(w.variants[i].ty));
      }
    }
    if ValidWrap(w) {
      assert LifetimeCount(w.generics) == 0 && ConstCount(w.generics) == 0;
      assert |VariantTypes(w.variants)| == |w.variants|;
      forall e ensures !IsViolation(w, e) {
        if e.GenericVariant? {
          VariantTypesMembers(w.variants, e.ty);
          if e.ty in VariantTypes(w.variants) {
            var i :| 0 <= i < |w.variants| && w.variants[i].ty == e.ty;
            assert !IsBareParam(w.variants[i].ty, TypeParams(w.generics));
          }
        }
      }
    }
  }

  /** The payload types, collected in a loop. */
  method CollectTypes(vs: seq<Variant>) returns (tys: set<Type>)
    ensures tys == VariantTypes(vs)
  {
    tys := {};
    var i := 0;
    while i < |vs|
      invariant 0 <= i <= |vs|
      invariant tys == VariantTypes(vs[..i])
    {
      assert VariantTypes(vs[..i + 1]) == VariantTypes(vs[..i]) + {vs[i].ty} by {
        VariantTypesSnoc(vs[..i], vs[i]);
        assert vs[..i + 1] == vs[..i] + [vs[i]];
      }
      tys := tys + {vs[i].ty};
      i := i + 1;
    }
    assert vs[..i] == vs;
  }

  lemma {:induction false} VariantTypesSnoc(vs: seq<Variant>, v: Variant)
    ensures VariantTypes(vs + [v]) == VariantTypes(vs) + {v.ty}
  {
    if vs != [] {
      assert (vs + [v])[1..] == vs[1..] + [v];
      VariantTypesSnoc(vs[1..], v);
    } else {
      assert (vs + [v])[1..] == [];
    }
  }

  /** One `GenericVariant` error per distinct payload type that is a bare type parameter, in any order. */
  method GenericVariantErrors(tys: set<Type>, params: set<string>) returns (errs: seq<WrapError>)
    ensures forall e :: e in errs <==> e.GenericVariant? && e.ty in tys && IsBareParam(e.ty, params)
    ensures forall i, j :: 0 <= i < j < |errs| ==> errs[i] != errs[j]
  {
    errs := [];
    var rest := tys;
    while rest != {}
      invariant rest <= tys
      invariant forall e :: e in errs <==> e.GenericVariant? && e.ty in tys - rest && IsBareParam(e.ty, params)
      invariant forall i, j :: 0 <= i < j < |errs| ==> errs[i] != errs[j]
      decreases |rest|
    {
      var t :| t in rest;
      if IsBareParam(t, params) {
        errs := errs + [GenericVariant(t)];
      }
      rest := rest - {t};
    }
  }

  lemma ConcatDistinct(a: seq<WrapError>, b: seq<WrapError>)
    requires forall i, j :: 0 <= i < j < |a| ==> a[i] != a[j]
    requires forall i, j :: 0 <= i < j < |b| ==> b[i] != b[j]
    requires forall e :: e in a ==> e !in b
    ensures forall i, j :: 0 <= i < j < |a + b| ==> (a + b)[i] != (a + b)[j]
  {
    forall i, j | 0 <= i < j < |a + b| ensures (a + b)[i] != (a + b)[j] {
      if i < |a| && j >= |a| {
        assert (a + b)[i] in a && (a + b)[j] == b[j - |a|];
      }
    }
  }

  /** The violations other than generic variants, in the order the derive reports them. */
  function FixedErrors(lifetimes: bool, consts: bool, duplicates: bool): (r: seq<WrapError>)
    ensures forall e :: e in r <==>
      (e == LifetimeGenerics && lifetimes) || (e == ConstGenerics && consts) || (e == DuplicateVariantTypes && duplicates)
  {
    (if lifetimes then [LifetimeGenerics] else [])
    + (if consts then [ConstGenerics] else [])
    + (if duplicates then [DuplicateVariantTypes] else [])
  }

  lemma FixedErrorsDistinct(lifetimes: bool, consts: bool, duplicates: bool)
    ensures var r := FixedErrors(lifetimes, consts, duplicates);
      forall i, j :: 0 <= i < j < |r| ==> r[i] != r[j]
  {
  }

  /** The fixed errors followed by the generic-variant errors are exactly the violations, each once. */
  lemma ErrorsAreViolations(w: WrapInput, tys: set<Type>, generic: seq<WrapError>)
    requires tys == VariantTypes(w.variants)
    requires forall e :: e in generic <==> e.GenericVariant? && e.ty in tys && IsBareParam(e.ty, TypeParams(w.generics))
    requires forall i, j :: 0 <= i < j < |generic| ==> generic[i] != generic[j]
    ensures var errs := FixedErrors(LifetimeCount(w.generics) > 0, ConstCount(w.generics) > 0, |tys| != |w.variants|) + generic;
      && (forall e :: e in errs <==> IsViolation(w, e))
      && (forall i, j :: 0 <= i < j < |errs| ==> errs[i] != errs[j])
  {
    var fixed := FixedErrors(LifetimeCount(w.generics) > 0, ConstCount(w.generics) > 0, |tys| != |w.variants|);
    FixedErrorsDistinct(LifetimeCount(w.generics) > 0, ConstCount(w.generics) > 0, |tys| != |w.variants|);
    ConcatDistinct(fixed, generic);
  }

  /**
   * `Wrap::validate`: accumulate every violation, each once; succeed with the input iff there
   * is none, that is (by `NoViolationIffValid`) iff the input obeys the rules.
   */
  method Validate(w: WrapInput) returns (r: Result<WrapInput, seq<WrapError>>)
    ensures r.Ok? <==> forall e :: !IsViolation(w, e)
    ensures r.Ok? ==> r.value == w
    ensures r.Err? ==> forall e :: e in r.error <==> IsViolation(w, e)
    ensures r.Err? ==> forall i, j :: 0 <= i < j < |r.error| ==> r.error[i] != r.error[j]
  {
    var tys := CollectTypes(w.variants);
    var errs := FixedErrors(LifetimeCount(w.generics) > 0, ConstCount(w.generics) > 0, |tys| != |w.variants|);
    var generic := GenericVariantErrors(tys, TypeParams(w.generics));
    ErrorsAreViolations(w, tys, generic);
    errs := errs + generic;
    if errs == [] {
      r := Ok(w);
    } else {
      assert IsViolation(w, errs[0]);
      r := Err(errs);
    }
  }

  // ---- semantics of the generated code for a valid wrapper ----

  /** A value of the wrapper enum or of its `…Return` enum: a variant tag and its payload. */
  datatype Tagged<V> = Tagged(tag: string, value: V)

  /** Variant identifiers of a Rust enum are distinct. */
  predicate DistinctTags(w: WrapInput)
  {
    forall i, j :: 0 <= i < j < |w.variants| ==> w.variants[i].ident != w.variants[j].ident
  }

  /** The name of the generated return enum. */
  function ReturnIdent(w: WrapInput): (s: string)
    ensures s == w.ident + "Return"
    ensures |s| == |w.ident| + 6 && s[..|w.ident|] == w.ident
  {
    w.ident + "Return"
  }

  /** The generated return enum: one variant per message variant, same tag, the payload's return type. */
  function ReturnVariants(vs: seq<Variant>, returnOf: Type -> Type): (rs: seq<Variant>)
    ensures |rs| == |vs|
    ensures forall i :: 0 <= i < |vs| ==> rs[i] == Variant(vs[i].ident, returnOf(vs[i].ty))
  {
    if vs == [] then [] else [Variant(vs[0].ident, returnOf(vs[0].ty))] + ReturnVariants(vs[1..], returnOf)
  }

  /** The variant whose payload has type `ty` (the one `From<ty>` and `Wrap<ty>` are generated for). */
  function VariantFor(vs: seq<Variant>, ty: Type): (r: Option<nat>)
    ensures r.Some? <==> ty in VariantTypes(vs)
    ensures r.Some? ==> r.value < |vs| && vs[r.value].ty == ty
    ensures r.Some? ==> forall j :: 0 <= j < r.value ==> vs[j].ty != ty
  {
    if vs == [] then None
    else if vs[0].ty == ty then Some(0)
    else match VariantFor(vs[1..], ty)
      case None => None
      case Some(k) => Some(k + 1)
  }

  /** With distinct payload types, the variant for a payload type is the one declaring it. */
  lemma VariantForUnique(w: WrapInput, i: nat)
    requires DistinctTypes(w.variants) && i < |w.variants|
    ensures VariantFor(w.variants, w.variants[i].ty) == Some(i)
  {
  }

  /** `From<ty>`: inject a payload into its variant. */
  function From<V>(w: WrapInput, ty: Type, v: V): (m: Tagged<V>)
    requires ty in VariantTypes(w.variants)
    ensures exists i :: 0 <= i < |w.variants| && w.variants[i] == Variant(m.tag, ty)
    ensures m.value == v
  {
    Tagged(w.variants[VariantFor(w.variants, ty).value].ident, v)
  }

  /** `Wrap<ty>::unwrap_return`: the payload when the tag is `ty`'s variant, else `Wrapper`. */
  function UnwrapReturn<V>(w: WrapInput, ty: Type, ret: Tagged<V>): (r: Result<V, MessageError>)
    requires ty in VariantTypes(w.variants)
    ensures r.Ok? <==> ret.tag == From(w, ty, ret.value).tag
    ensures r.Ok? ==> r.value == ret.value
    ensures r.Err? ==> r.error == Wrapper
  {
    if ret.tag == w.variants[VariantFor(w.variants, ty).value].ident then Ok(ret.value) else Err(Wrapper)
  }

  /**
   * The generated `Dispatch`: dispatch the payload of whichever variant the message is, and
   * hand the payload's reply to the outer callback re-wrapped in the same tag.
   */
  function Dispatch<V, W>(msg: Tagged<V>, inner: (string, V) -> W): (ret: Tagged<W>)
    ensures ret.tag == msg.tag
  {
    Tagged(msg.tag, inner(msg.tag, msg.value))
  }

  /** Round trip: inject, dispatch, project — the payload handler's reply comes back as `Ok`. */
  lemma InjectDispatchUnwrap<V, W>(w: WrapInput, i: nat, v: V, inner: (string, V) -> W)
    requires DistinctTypes(w.variants) && i < |w.variants|
    ensures From(w, w.variants[i].ty, v).tag == w.variants[i].ident
    ensures UnwrapReturn(w, w.variants[i].ty, Dispatch(From(w, w.variants[i].ty, v), inner))
            == Ok(inner(w.variants[i].ident, v))
  {
    VariantForUnique(w, i);
  }

  /** A reply tagged with another variant is a `Wrapper` error. */
  lemma MismatchedTagIsWrapperError<V>(w: WrapInput, i: nat, j: nat, x: V)
    requires DistinctTypes(w.variants) && DistinctTags(w)
    requires i < |w.variants| && j < |w.variants| && i != j
    ensures UnwrapReturn(w, w.variants[i].ty, Tagged(w.variants[j].ident, x)) == Err(Wrapper)
  {
    VariantForUnique(w, i);
  }
}
