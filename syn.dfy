/**
 * The small part of the Rust syntax tree that the ludi macros inspect (the `syn` crate's
 * types, reduced to the fields the macros read).  Identifiers are strings.
 */
module Syn {
  import opened Wrappers

  datatype Path = Path(leadingColon: bool, segments: seq<PathSegment>)
  datatype PathSegment = PathSegment(ident: string, arguments: PathArguments)
  datatype PathArguments =
    | NoArguments
    | AngleBracketed(args: seq<GenericArgument>)
    | Parenthesized(inputs: seq<Type>, output: ReturnType)
  datatype GenericArgument =
    | TypeArg(ty: Type)
    | AssocType(ident: string, ty: Type)
    | LifetimeArg(name: string)
    | ConstArg(expr: string)
  datatype TypeParamBound = TraitBound(path: Path) | LifetimeBound(name: string)
  datatype Type =
    | PathType(path: Path)
    | Reference(elem: Type)
    | Slice(elem: Type)
    | TraitObject(bounds: seq<TypeParamBound>)
    | ImplTrait(bounds: seq<TypeParamBound>)
    | Tuple(elems: seq<Type>)
    | Array(elem: Type, len: string)
    | Ptr(elem: Type)
    | Paren(elem: Type)
    | Group(elem: Type)
    | BareFn(inputs: seq<Type>, output: ReturnType)
    | OtherType(text: string)  // `!`, `_`, a macro, or verbatim tokens

  /** The unit type `()`. */
  const Unit: Type := Tuple([])

  datatype GenericParam = LifetimeParam(name: string) | TypeParam(ident: string) | ConstParam(ident: string)
  datatype Visibility = Public | Restricted(path: Path) | Inherited
  datatype Pat = IdentPat(ident: string) | OtherPat
  datatype FnArg = Receiver(reference: bool, mutability: bool) | Typed(pat: Pat, ty: Type)
  datatype ReturnType = DefaultReturn | ExplicitReturn(ty: Type)
  datatype Signature = Signature(
    constness: bool, asyncness: bool, ident: string,
    generics: seq<GenericParam>, inputs: seq<FnArg>, output: ReturnType)

  /** An attribute's meta: a bare path, a list `path(...)`, or `path = value`. */
  datatype Meta = PathMeta(path: Path) | ListMeta(path: Path, tokens: string) | NameValueMeta(path: Path, value: string)
  datatype Attribute = Attribute(meta: Meta)

  /** A one-segment path with no leading `::` and no arguments. */
  function SimplePath(ident: string): (p: Path)
    ensures |p.segments| == 1 && p.segments[0].ident == ident
  {
    Path(false, [PathSegment(ident, NoArguments)])
  }

  /** `Path::get_ident`: the identifier of a path that is exactly one bare segment. */
  function GetIdent(p: Path): (r: Option<string>)
    ensures r.Some? <==> !p.leadingColon && |p.segments| == 1 && p.segments[0].arguments.NoArguments?
    ensures r.Some? ==> p == SimplePath(r.value)
  {
    if !p.leadingColon && |p.segments| == 1 && p.segments[0].arguments.NoArguments?
    then Some(p.segments[0].ident) else None
  }

  /** `Path::is_ident`. */
  predicate IsIdent(p: Path, ident: string)
  {
    GetIdent(p) == Some(ident)
  }

  function LifetimeCount(gs: seq<GenericParam>): (n: nat)
    ensures n == 0 <==> forall i :: 0 <= i < |gs| ==> !gs[i].LifetimeParam?
  {
    if gs == [] then 0 else (if gs[0].LifetimeParam? then 1 else 0) + LifetimeCount(gs[1..])
  }

  function ConstCount(gs: seq<GenericParam>): (n: nat)
    ensures n == 0 <==> forall i :: 0 <= i < |gs| ==> !gs[i].ConstParam?
  {
    if gs == [] then 0 else (if gs[0].ConstParam? then 1 else 0) + ConstCount(gs[1..])
  }

  /** `declared_type_params`: the identifiers of the type parameters. */
  function TypeParams(gs: seq<GenericParam>): (r: set<string>)
    ensures forall x :: x in r <==> exists i :: 0 <= i < |gs| && gs[i] == TypeParam(x)
  {
    if gs == [] then {}
    else (if gs[0].TypeParam? then {gs[0].ident} else {}) + TypeParams(gs[1..])
  }

  /**
   * The part of darling's `uses_type_params` that walks paths, references, slices, tuples,
   * arrays, pointers, groups and bare fns: a path names a type parameter through its first
   * segment when it has no leading `::`; every type nested in a type, a path argument, a
   * function's inputs and output, or a trait bound is searched recursively.
   */
  function UsesTypeParams(t: Type, declared: set<string>): (r: set<string>)
    ensures r <= declared
  {
    match t
    case PathType(p) => UsesInPath(p, declared)
    case Reference(e) => UsesTypeParams(e, declared)
    case Slice(e) => UsesTypeParams(e, declared)
    case TraitObject(bs) => UsesInBounds(bs, declared)
    case ImplTrait(bs) => UsesInBounds(bs, declared)
    case Tuple(es) => UsesInTypes(es, declared)
    case Array(e, _) => UsesTypeParams(e, declared)
    case Ptr(e) => UsesTypeParams(e, declared)
    case Paren(e) => UsesTypeParams(e, declared)
    case Group(e) => UsesTypeParams(e, declared)
    case BareFn(ins, out) => UsesInTypes(ins, declared) + UsesInReturn(out, declared)
    case OtherType(_) => {}
  }

  function UsesInReturn(out: ReturnType, declared: set<string>): (r: set<string>)
    ensures r <= declared
  {
    match out
    case DefaultReturn => {}
    case ExplicitReturn(t) => UsesTypeParams(t, declared)
  }

  function UsesInPath(p: Path, declared: set<string>): (r: set<string>)
    ensures r <= declared
  {
    (if !p.leadingColon && |p.segments| > 0 && p.segments[0].ident in declared
     then {p.segments[0].ident} else {})
    + UsesInSegments(p.segments, declared)
  }

  function UsesInSegments(ss: seq<PathSegment>, declared: set<string>): (r: set<string>)
    ensures r <= declared
  {
    if ss == [] then {} else UsesInArguments(ss[0].arguments, declared) + UsesInSegments(ss[1..], declared)
  }

  function UsesInArguments(a: PathArguments, declared: set<string>): (r: set<string>)
    ensures r <= declared
  {
    match a
    case NoArguments => {}
    case AngleBracketed(args) => UsesInGenericArgs(args, declared)
    case Parenthesized(inputs, out) => UsesInTypes(inputs, declared) + UsesInReturn(out, declared)
  }

  function UsesInGenericArgs(args: seq<GenericArgument>, declared: set<string>): (r: set<string>)
    ensures r <= declared
  {
    if args == [] then {} else UsesInGenericArg(args[0], declared) + UsesInGenericArgs(args[1..], declared)
  }

  function UsesInGenericArg(a: GenericArgument, declared: set<string>): (r: set<string>)
    ensures r <= declared
  {
    match a
    case TypeArg(t) => UsesTypeParams(t, declared)
    case AssocType(_, t) => UsesTypeParams(t, declared)
    case LifetimeArg(_) => {}
    case ConstArg(_) => {}
  }

  function UsesInBounds(bs: seq<TypeParamBound>, declared: set<string>): (r: set<string>)
    ensures r <= declared
  {
    if bs == [] then {} else UsesInBound(bs[0], declared) + UsesInBounds(bs[1..], declared)
  }

  function UsesInBound(b: TypeParamBound, declared: set<string>): (r: set<string>)
    ensures r <= declared
  {
    match b
    case TraitBound(p) => UsesInPath(p, declared)
    case LifetimeBound(_) => {}
  }

  function UsesInTypes(ts: seq<Type>, declared: set<string>): (r: set<string>)
    ensures r <= declared
  {
    if ts == [] then {} else UsesTypeParams(ts[0], declared) + UsesInTypes(ts[1..], declared)
  }

  /** A bare type parameter names itself. */
  lemma BareParamUsesItself(x: string, declared: set<string>)
    requires x in declared
    ensures UsesTypeParams(PathType(SimplePath(x)), declared) == {x}
  {
    var segs := SimplePath(x).segments;
    assert segs[1..] == [];
    assert UsesInSegments(segs, declared) == {};
  }
  /** A parameter inside an array type is used, as darling finds it through the element type. */
  lemma ArrayOfParamUsesIt(x: string, len: string, declared: set<string>)
    requires x in declared
    ensures UsesTypeParams(Array(PathType(SimplePath(x)), len), declared) == {x}
  {
    BareParamUsesItself(x, declared);
  }

}
