/**
 * One method of an `#[implement]` impl block or an `#[interface]` trait
 * (ludi-macros/src/items/method.rs): the message struct it is named after, its arguments and
 * return type, the parent's type parameters it uses, the options in force for it, and which
 * of the message, handler and controller expansions it produces.
 *
 * Diagnostics that the macros emit and carry on after are collected in a list; their order
 * is not modelled.  `to_upper_camel_case` is the parameter `upperCamel`, and darling's
 * `from_meta` the parameters `msgMeta` and `ctrlMeta`.
 */
module Methods {
  import opened Wrappers
  import opened Syn
  import opened Options
  import opened MacroUtils

  /** Errors the macros report without stopping. */
  datatype Diagnostic =
    | TypeParamsInMethod
    | ConstMethod
    | UnnamedArgument
    | UnsizedArgument(ty: Type)
    | NotAsync
    | UnsizedReturn(ty: Type)
    | ReturnParamNotInArgs
    | SameNameAsParent
    | InvalidAttribute(ident: string)
    | ConstItem
    | AssocTypeItem
    | NotAMethod
    | LifetimeGenericTrait

  /** The errors about an impl block's or trait's own items and generics, as opposed to a method's. */
  predicate IsItemDiagnostic(e: Diagnostic)
  {
    e.ConstItem? || e.AssocTypeItem? || e.NotAMethod? || e.LifetimeGenericTrait?
  }

  /** Types that are not `Sized + Send + 'static` by their form alone. */
  predicate IsUnsized(t: Type)
  {
    t.Reference? || t.Slice? || t.TraitObject?
  }

  /** `check_signature`: methods may declare no generic parameters and may not be `const`. */
  function CheckSignature(sig: Signature): (errs: seq<Diagnostic>)
    ensures TypeParamsInMethod in errs <==> |sig.generics| > 0
    ensures ConstMethod in errs <==> sig.constness
    ensures forall e :: e in errs ==> e == TypeParamsInMethod || e == ConstMethod
  {
    (if |sig.generics| > 0 then [TypeParamsInMethod] else []) + (if sig.constness then [ConstMethod] else [])
  }

  /** One input of the signature: a named argument, possibly with an error, or nothing. */
  function ArgOf(input: FnArg): (r: (Option<(string, Type)>, Option<Diagnostic>))
    ensures r.0.Some? <==> input.Typed? && input.pat.IdentPat?
    ensures r.0.Some? ==> input == Typed(IdentPat(r.0.value.0), r.0.value.1)
    ensures r.1 == Some(UnnamedArgument) <==> input.Typed? && input.pat.OtherPat?
    ensures r.1.Some? && r.1.value.UnsizedArgument? <==> r.0.Some? && IsUnsized(r.0.value.1)
    ensures r.1.Some? && r.1.value.UnsizedArgument? ==> r.1.value.ty == r.0.value.1
    ensures input.Receiver? ==> r == (None, None)
  {
    match input
    case Receiver(_, _) => (None, None)
    case Typed(OtherPat, _) => (None, Some(UnnamedArgument))
    case Typed(IdentPat(x), t) => (Some((x, t)), if IsUnsized(t) then Some(UnsizedArgument(t)) else None)
  }

  /** The named arguments and argument errors of a list of inputs, in order. */
  function ArgsOf(inputs: seq<FnArg>): (r: (seq<(string, Type)>, seq<Diagnostic>))
    ensures |r.0| <= |inputs|
    ensures forall x, t :: (x, t) in r.0 <==> Typed(IdentPat(x), t) in inputs
    ensures forall i :: 0 <= i < |inputs| && ArgOf(inputs[i]).1.Some? ==> ArgOf(inputs[i]).1.value in r.1
    ensures forall e :: e in r.1 ==> e == UnnamedArgument || (e.UnsizedArgument? && IsUnsized(e.ty))
    decreases |inputs|
  {
    if inputs == [] then ([], [])
    else
      var (arg, err) := ArgOf(inputs[0]);
      var (args, errs) := ArgsOf(inputs[1..]);
      assert forall a :: a in inputs <==> a == inputs[0] || a in inputs[1..];
      assert forall i :: 1 <= i < |inputs| ==> inputs[i] == inputs[1..][i - 1];
      ((if arg.Some? then [arg.value] else []) + args, (if err.Some? then [err.value] else []) + errs)
  }

  /**
   * `extract_args`: the named arguments (receivers dropped), the return type (`()` with an
   * error when the method is neither async nor returns a future) and the errors.
   */
  function ExtractArgs(sig: Signature): (r: (seq<(string, Type)>, Type, seq<Diagnostic>))
    ensures r.0 == ArgsOf(sig.inputs).0
    ensures ExtractOutput(sig).Some? ==> r.1 == ExtractOutput(sig).value && NotAsync !in r.2
    ensures ExtractOutput(sig).None? ==> r.1 == Unit && NotAsync in r.2
    ensures UnsizedReturn(r.1) in r.2 <==> IsUnsized(r.1)
    ensures forall e :: e in ArgsOf(sig.inputs).1 ==> e in r.2
    ensures forall e :: e in r.2 ==> e == UnnamedArgument || e.UnsizedArgument? || e == NotAsync || e.UnsizedReturn?
  {
    var (args, errs) := ArgsOf(sig.inputs);
    var out := ExtractOutput(sig);
    var ret := if out.Some? then out.value else Unit;
    (args, ret, errs + (if out.None? then [NotAsync] else []) + (if IsUnsized(ret) then [UnsizedReturn(ret)] else []))
  }

  /** The argument types, in order. */
  function ArgTypes(args: seq<(string, Type)>): (r: seq<Type>)
    ensures |r| == |args| && forall i :: 0 <= i < |args| ==> r[i] == args[i].1
  {
    seq(|args|, i requires 0 <= i < |args| => args[i].1)
  }

  /** The union of the parent's type parameters used by each of `tys`. */
  lemma {:induction false} UsesInTypesIff(tys: seq<Type>, declared: set<string>, x: string)
    ensures x in UsesInTypes(tys, declared) <==> exists i :: 0 <= i < |tys| && x in UsesTypeParams(tys[i], declared)
    decreases |tys|
  {
    if tys != [] {
      UsesInTypesIff(tys[1..], declared, x);
      if x in UsesInTypes(tys[1..], declared) {
        var i :| 0 <= i < |tys[1..]| && x in UsesTypeParams(tys[1..][i], declared);
        assert tys[i + 1] == tys[1..][i];
      }
      if exists i :: 0 <= i < |tys| && x in UsesTypeParams(tys[i], declared) {
        var i :| 0 <= i < |tys| && x in UsesTypeParams(tys[i], declared);
        if i > 0 {
          assert tys[1..][i - 1] == tys[i];
        }
      }
    }
  }

  /**
   * `extract_type_params`: the parent's type parameters the argument types use, and whether the
   * return type uses one that no argument does (an error).
   */
  function ExtractTypeParams(declared: set<string>, argTys: seq<Type>, ret: Type): (r: (set<string>, bool))
    ensures r.0 <= declared
    ensures r.0 == UsesInTypes(argTys, declared)
    ensures r.1 <==> !(UsesTypeParams(ret, declared) <= r.0)
  {
    var argParams := UsesInTypes(argTys, declared);
    var retParams := UsesTypeParams(ret, declared);
    (argParams, |retParams| > 0 && !(retParams <= argParams))
  }

  /** `fn m(&mut self, xs: [T; 4]) -> T`: the array argument uses `T`, so returning `T` is no error. */
  lemma ArrayArgumentCoversReturn(x: string, len: string, declared: set<string>)
    requires x in declared
    ensures ExtractTypeParams(declared, [Array(PathType(SimplePath(x)), len)], PathType(SimplePath(x))) == ({x}, false)
  {
    var args := [Array(PathType(SimplePath(x)), len)];
    ArrayOfParamUsesIt(x, len, declared);
    BareParamUsesItself(x, declared);
    assert args[1..] == [];
    assert UsesInTypes(args, declared) == {x};
  }

  /** Whether `pat` occurs in `s` at position `i`. */
  predicate OccursAt(s: string, pat: string, i: int)
  {
    0 <= i && i + |pat| <= |s| && s[i..i + |pat|] == pat
  }

  /** Rust's `str::replace`: every non-overlapping occurrence of `from`, leftmost first, replaced by `to`. */
  function Replace(s: string, from: string, to: string): (r: string)
    requires |from| > 0
    ensures |s| < |from| ==> r == s
    decreases |s|
  {
    if |s| < |from| then s
    else if s[..|from|] == from then to + Replace(s[|from|..], from, to)
    else [s[0]] + Replace(s[1..], from, to)
  }

  /** A string without an occurrence of `from` is left as it is. */
  lemma {:induction false} ReplaceAbsent(s: string, from: string, to: string)
    requires |from| > 0
    requires forall i :: !OccursAt(s, from, i)
    ensures Replace(s, from, to) == s
    decreases |s|
  {
    if |s| >= |from| {
      assert !OccursAt(s, from, 0);
      forall i
        ensures !OccursAt(s[1..], from, i)
      {
        if OccursAt(s[1..], from, i) {
          assert s[1..][i..i + |from|] == s[i + 1..i + 1 + |from|];
          assert OccursAt(s, from, i + 1);
        }
      }
      ReplaceAbsent(s[1..], from, to);
    }
  }

  /**
   * The leftmost occurrence of `from` is replaced by `to`: the text before it is kept and the
   * rest of the string is replaced in turn.
   */
  lemma {:induction false} ReplaceFirstOccurrence(p: string, q: string, from: string, to: string)
    requires |from| > 0
    requires forall i :: 0 <= i < |p| ==> !OccursAt(p + from + q, from, i)
    ensures Replace(p + from + q, from, to) == p + to + Replace(q, from, to)
    decreases |p|
  {
    var s := p + from + q;
    if p == [] {
      assert s == from + q;
      assert s[..|from|] == from && s[|from|..] == q;
    } else {
      assert !OccursAt(s, from, 0);
      assert s[..|from|] != from;
      assert s[0] == p[0];
      assert s[1..] == p[1..] + from + q;
      forall i | 0 <= i < |p[1..]|
        ensures !OccursAt(p[1..] + from + q, from, i)
      {
        if OccursAt(p[1..] + from + q, from, i) {
          assert (p[1..] + from + q)[i..i + |from|] == s[i + 1..i + 1 + |from|];
          assert OccursAt(s, from, i + 1);
        }
      }
      ReplaceFirstOccurrence(p[1..], q, from, to);
      assert [p[0]] + (p[1..] + to + Replace(q, from, to)) == p + to + Replace(q, from, to);
    }
  }

  /** The message struct's name: the `name` template filled in, or `{parent}Msg{Method}`. */
  function StructIdent(parent: string, methodName: string, name: Option<string>, upperCamel: string -> string): (r: string)
    ensures name.None? ==> r == parent + "Msg" + upperCamel(methodName)
    ensures name.Some? ==> r == Replace(Replace(name.value, "{item}", parent), "{name}", upperCamel(methodName))
  {
    if name.Some? then Replace(Replace(name.value, "{item}", parent), "{name}", upperCamel(methodName))
    else parent + "Msg" + upperCamel(methodName)
  }

  /** The default struct name can never equal the parent's name. */
  lemma DefaultNameDiffersFromParent(parent: string, methodName: string, upperCamel: string -> string)
    ensures StructIdent(parent, methodName, None, upperCamel) != parent
  {
    assert |StructIdent(parent, methodName, None, upperCamel)| >= |parent| + 3;
  }

  /** The template "{item}" names the struct after its parent, which is an error. */
  lemma ItemTemplateClashes(parent: string, methodName: string, upperCamel: string -> string)
    requires forall i :: !OccursAt(parent, "{name}", i)
    ensures StructIdent(parent, methodName, Some("{item}"), upperCamel) == parent
  {
    var item := "{item}";
    assert item[..|item|] == item && item[|item|..] == [];
    assert Replace(item, item, parent) == parent + Replace([], item, parent);
    assert Replace(item, item, parent) == parent;
    ReplaceAbsent(parent, "{name}", upperCamel(methodName));
  }

  /** A template with one `{name}` and no `{item}` gets the UpperCamel method name in its place. */
  lemma NameTemplateFilled(parent: string, methodName: string, pre: string, post: string, upperCamel: string -> string)
    requires forall i :: !OccursAt(pre + "{name}" + post, "{item}", i)
    requires forall i :: 0 <= i < |pre| ==> !OccursAt(pre + "{name}" + post, "{name}", i)
    requires forall i :: !OccursAt(post, "{name}", i)
    ensures StructIdent(parent, methodName, Some(pre + "{name}" + post), upperCamel) == pre + upperCamel(methodName) + post
  {
    ReplaceAbsent(pre + "{name}" + post, "{item}", parent);
    ReplaceFirstOccurrence(pre, post, "{name}", upperCamel(methodName));
    ReplaceAbsent(post, "{name}", upperCamel(methodName));
  }

  /** A template with one `{item}` and no `{name}` gets the parent's name in its place. */
  lemma ItemTemplateFilled(parent: string, methodName: string, pre: string, post: string, upperCamel: string -> string)
    requires forall i :: 0 <= i < |pre| ==> !OccursAt(pre + "{item}" + post, "{item}", i)
    requires forall i :: !OccursAt(post, "{item}", i)
    requires forall i :: !OccursAt(pre + parent + post, "{name}", i)
    ensures StructIdent(parent, methodName, Some(pre + "{item}" + post), upperCamel) == pre + parent + post
  {
    ReplaceFirstOccurrence(pre, post, "{item}", parent);
    ReplaceAbsent(post, "{item}", parent);
    ReplaceAbsent(pre + parent + post, "{name}", upperCamel(methodName));
  }

  /** A name without either placeholder is used exactly as written. */
  lemma PlainNameIsVerbatim(parent: string, methodName: string, name: string, upperCamel: string -> string)
    requires forall i :: !OccursAt(name, "{item}", i)
    requires forall i :: !OccursAt(name, "{name}", i)
    ensures StructIdent(parent, methodName, Some(name), upperCamel) == name
  {
    ReplaceAbsent(name, "{item}", parent);
    ReplaceAbsent(name, "{name}", upperCamel(methodName));
  }

  /** `struct_path`: `path::Name` with a path option, the bare name otherwise. */
  function StructPath(path: Option<Path>, ident: string): (r: Path)
    ensures |r.segments| > 0 && r.segments[|r.segments| - 1] == PathSegment(ident, NoArguments)
    ensures path.Some? ==> r.leadingColon == path.value.leadingColon && r.segments[..|r.segments| - 1] == path.value.segments
    ensures path.None? ==> r == SimplePath(ident)
  {
    if path.Some? then Path(path.value.leadingColon, path.value.segments + [PathSegment(ident, NoArguments)])
    else SimplePath(ident)
  }

  /** The `doc` attributes, in order: they are forwarded to the controller. */
  function DocAttrs(attrs: seq<Attribute>): (r: seq<Attribute>)
    ensures |r| <= |attrs|
    ensures forall a :: a in r <==> a in attrs && Matches(a, "doc")
    decreases |attrs|
  {
    if attrs == [] then []
    else (if Matches(attrs[0], "doc") then [attrs[0]] else []) + DocAttrs(attrs[1..])
  }

  /** The attributes other than `doc` and ludi's own, in order: they are forwarded to the handler. */
  function ForwardedAttrs(attrs: seq<Attribute>): (r: seq<Attribute>)
    ensures |r| <= |attrs|
    ensures forall a :: a in r <==> a in attrs && !Matches(a, "doc") && !IsLudiAttr(a)
    decreases |attrs|
  {
    if attrs == [] then []
    else (if !Matches(attrs[0], "doc") && !IsLudiAttr(attrs[0]) then [attrs[0]] else []) + ForwardedAttrs(attrs[1..])
  }

  /** The attributes other than ludi's own, in order (`retain(!is_ludi_attr)`). */
  function NonLudiAttrs(attrs: seq<Attribute>): (r: seq<Attribute>)
    ensures |r| <= |attrs|
    ensures forall a :: a in r <==> a in attrs && !IsLudiAttr(a)
    decreases |attrs|
  {
    if attrs == [] then []
    else (if !IsLudiAttr(attrs[0]) then [attrs[0]] else []) + NonLudiAttrs(attrs[1..])
  }

  datatype Method = Method(
    attrs: seq<Attribute>,
    docAttrs: seq<Attribute>,
    msgOptions: Option<MsgOptions>,
    ctrlOptions: Option<CtrlOptions>,
    vis: Visibility,
    sig: Signature,
    body: Option<string>,
    args: seq<(string, Type)>,
    returnTy: Type,
    typeParams: set<string>,
    structIdent: string,
    structPath: Path)

  function MsgMerge(): (MsgOptions, MsgOptions) -> MsgOptions
  {
    (a: MsgOptions, b: MsgOptions) => a.Merge(b)
  }

  function CtrlMerge(): (CtrlOptions, CtrlOptions) -> CtrlOptions
  {
    (a: CtrlOptions, b: CtrlOptions) => a.Merge(b)
  }

  /** The `msg` options a list of attributes spells out. */
  function OwnMsgOptions(attrs: seq<Attribute>, msgMeta: Meta -> Option<MsgOptions>): Option<MsgOptions>
  {
    FromAttributes(attrs, "msg", MsgOptions.Default, MsgMerge(), msgMeta)
  }

  /** The `ctrl` options a list of attributes spells out. */
  function OwnCtrlOptions(attrs: seq<Attribute>, ctrlMeta: Meta -> Option<CtrlOptions>): Option<CtrlOptions>
  {
    FromAttributes(attrs, "ctrl", CtrlOptions.Default, CtrlMerge(), ctrlMeta)
  }

  /** The error reported for an attribute that fails to parse, if one does. */
  function AttrDiagnostics<T>(attrs: seq<Attribute>, ident: string, dflt: T, merge: (T, T) -> T, fromMeta: Meta -> Option<T>)
    : (r: seq<Diagnostic>)
    ensures r != [] <==> ScanAttributes(attrs, ident, dflt, merge, fromMeta).Invalid?
    ensures forall e :: e in r ==> e == InvalidAttribute(ident)
  {
    if ScanAttributes(attrs, ident, dflt, merge, fromMeta).Invalid? then [InvalidAttribute(ident)] else []
  }

  /** The options in force for a method: its own `msg` options merged over the inherited ones. */
  function MethodMsgOptions(inherited: Option<MsgOptions>, attrs: seq<Attribute>, msgMeta: Meta -> Option<MsgOptions>)
    : Option<MsgOptions>
  {
    Combine(inherited, OwnMsgOptions(attrs, msgMeta), MsgMerge())
  }

  /** The template a method's struct name comes from, if any. */
  function NameOption(o: Option<MsgOptions>): Option<string>
  {
    if o.Some? then o.value.name else None
  }

  /**
   * `Method::new`: the method with its options (its own merged over the inherited ones), its
   * arguments, return type and type parameters, its struct name and path, and its attributes
   * split into forwarded and doc attributes.
   */
  function NewMethod(parent: string, parentTypeParams: set<string>, inheritedMsg: Option<MsgOptions>,
                     inheritedCtrl: Option<CtrlOptions>, attrs: seq<Attribute>, vis: Visibility,
                     sig: Signature, body: Option<string>, msgMeta: Meta -> Option<MsgOptions>,
                     ctrlMeta: Meta -> Option<CtrlOptions>, upperCamel: string -> string)
    : (m: Method)
    ensures m.msgOptions == MethodMsgOptions(inheritedMsg, attrs, msgMeta)
    ensures m.ctrlOptions == Combine(inheritedCtrl, OwnCtrlOptions(attrs, ctrlMeta), CtrlMerge())
    ensures m.sig == sig && m.vis == vis && m.body == body
    ensures m.args == ArgsOf(sig.inputs).0 && m.returnTy == ExtractArgs(sig).1
    ensures m.typeParams <= parentTypeParams
    ensures m.typeParams == UsesInTypes(ArgTypes(m.args), parentTypeParams)
    ensures m.structIdent == StructIdent(parent, sig.ident, NameOption(m.msgOptions), upperCamel)
    ensures m.structPath == StructPath(if m.msgOptions.Some? then m.msgOptions.value.path else None, m.structIdent)
    ensures m.attrs == ForwardedAttrs(attrs) && m.docAttrs == DocAttrs(attrs)
  {
    var (args, ret, _) := ExtractArgs(sig);
    var typeParams := ExtractTypeParams(parentTypeParams, ArgTypes(args), ret).0;
    var msg := MethodMsgOptions(inheritedMsg, attrs, msgMeta);
    var ctrl := Combine(inheritedCtrl, OwnCtrlOptions(attrs, ctrlMeta), CtrlMerge());
    var structIdent := StructIdent(parent, sig.ident, NameOption(msg), upperCamel);
    var structPath := StructPath(if msg.Some? then msg.value.path else None, structIdent);
    Method(ForwardedAttrs(attrs), DocAttrs(attrs), msg, ctrl, vis, sig, body, args, ret, typeParams, structIdent, structPath)
  }

  /** The errors reported before the options are read: the signature's, the arguments' and the type parameters'. */
  function SignatureDiagnostics(parentTypeParams: set<string>, sig: Signature): (errs: seq<Diagnostic>)
    ensures ReturnParamNotInArgs in errs <==>
              !(UsesTypeParams(ExtractArgs(sig).1, parentTypeParams) <= UsesInTypes(ArgTypes(ExtractArgs(sig).0), parentTypeParams))
    ensures forall e :: e in CheckSignature(sig) ==> e in errs
    ensures forall e :: e in ExtractArgs(sig).2 ==> e in errs
    ensures forall e :: e in errs ==> !e.InvalidAttribute? && e != SameNameAsParent
  {
    var extracted := ExtractArgs(sig);
    var paramErr := ExtractTypeParams(parentTypeParams, ArgTypes(extracted.0), extracted.1).1;
    var head := CheckSignature(sig) + extracted.2;
    assert ReturnParamNotInArgs !in head by {
      assert forall e :: e in head ==> e in CheckSignature(sig) || e in extracted.2;
    }
    assert paramErr <==>
             !(UsesTypeParams(extracted.1, parentTypeParams) <= UsesInTypes(ArgTypes(extracted.0), parentTypeParams));
    head + (if paramErr then [ReturnParamNotInArgs] else [])
  }

  lemma MethodLevelConcat(a: seq<Diagnostic>, b: seq<Diagnostic>, c: seq<Diagnostic>)
    requires forall e :: e in a ==> !IsItemDiagnostic(e)
    requires forall e :: e in b ==> !IsItemDiagnostic(e)
    requires forall e :: e in c ==> !IsItemDiagnostic(e)
    ensures forall e :: e in a + b + c ==> !IsItemDiagnostic(e)
  {
  }

  /** The signature's errors are all about the method, never about the enclosing item. */
  lemma SignatureDiagnosticsAreMethodLevel(parentTypeParams: set<string>, sig: Signature)
    ensures forall e :: e in SignatureDiagnostics(parentTypeParams, sig) ==> !IsItemDiagnostic(e)
  {
    var checked, argErrs := CheckSignature(sig), ExtractArgs(sig).2;
    var paramErr := ExtractTypeParams(parentTypeParams, ArgTypes(ExtractArgs(sig).0), ExtractArgs(sig).1).1;
    var tail := if paramErr then [ReturnParamNotInArgs] else [];
    assert forall e :: e in checked ==> !IsItemDiagnostic(e);
    assert forall e :: e in argErrs ==> !IsItemDiagnostic(e);
    assert SignatureDiagnostics(parentTypeParams, sig) == checked + argErrs + tail;
    MethodLevelConcat(checked, argErrs, tail);
  }

  /** The errors reported once the options are read: attributes that fail to parse, and a struct name equal to the parent's. */
  function NamingDiagnostics(parent: string, inheritedMsg: Option<MsgOptions>, attrs: seq<Attribute>, sig: Signature,
                             msgMeta: Meta -> Option<MsgOptions>, ctrlMeta: Meta -> Option<CtrlOptions>,
                             upperCamel: string -> string)
    : (errs: seq<Diagnostic>)
    ensures SameNameAsParent in errs <==>
              StructIdent(parent, sig.ident, NameOption(MethodMsgOptions(inheritedMsg, attrs, msgMeta)), upperCamel) == parent
    ensures InvalidAttribute("msg") in errs <==> ScanAttributes(attrs, "msg", MsgOptions.Default, MsgMerge(), msgMeta).Invalid?
    ensures InvalidAttribute("ctrl") in errs <==> ScanAttributes(attrs, "ctrl", CtrlOptions.Default, CtrlMerge(), ctrlMeta).Invalid?
    ensures ReturnParamNotInArgs !in errs
    ensures forall e :: e in errs ==> e.InvalidAttribute? || e == SameNameAsParent
  {
    var structIdent := StructIdent(parent, sig.ident, NameOption(MethodMsgOptions(inheritedMsg, attrs, msgMeta)), upperCamel);
    assert "msg" != "ctrl" by { assert "msg"[0] != "ctrl"[0]; }
    AttrDiagnostics(attrs, "msg", MsgOptions.Default, MsgMerge(), msgMeta)
    + AttrDiagnostics(attrs, "ctrl", CtrlOptions.Default, CtrlMerge(), ctrlMeta)
    + (if structIdent == parent then [SameNameAsParent] else [])
  }

  /** Every error `Method::new` reports, in the order it reports them. */
  function NewMethodDiagnostics(parent: string, parentTypeParams: set<string>, inheritedMsg: Option<MsgOptions>,
                                attrs: seq<Attribute>, sig: Signature, msgMeta: Meta -> Option<MsgOptions>,
                                ctrlMeta: Meta -> Option<CtrlOptions>, upperCamel: string -> string)
    : (errs: seq<Diagnostic>)
    ensures forall e :: e in errs <==>
              e in SignatureDiagnostics(parentTypeParams, sig)
              || e in NamingDiagnostics(parent, inheritedMsg, attrs, sig, msgMeta, ctrlMeta, upperCamel)
    ensures forall e :: e in errs ==> !IsItemDiagnostic(e)
  {
    SignatureDiagnosticsAreMethodLevel(parentTypeParams, sig);
    SignatureDiagnostics(parentTypeParams, sig) + NamingDiagnostics(parent, inheritedMsg, attrs, sig, msgMeta, ctrlMeta, upperCamel)
  }

  /** A method's own `msg` attributes decide its flags, whatever the inherited options said. */
  lemma OwnFlagsOverrideInherited(parent: string, parentTypeParams: set<string>, inheritedMsg: Option<MsgOptions>,
                                  inheritedCtrl: Option<CtrlOptions>, attrs: seq<Attribute>, vis: Visibility,
                                  sig: Signature, body: Option<string>, msgMeta: Meta -> Option<MsgOptions>,
                                  ctrlMeta: Meta -> Option<CtrlOptions>, upperCamel: string -> string)
    requires OwnMsgOptions(attrs, msgMeta).Some?
    ensures var m := NewMethod(parent, parentTypeParams, inheritedMsg, inheritedCtrl, attrs, vis, sig, body,
                               msgMeta, ctrlMeta, upperCamel);
            var own := OwnMsgOptions(attrs, msgMeta).value;
            m.msgOptions.Some? && m.msgOptions.value.skip == own.skip
            && m.msgOptions.value.skipHandler == own.skipHandler && m.msgOptions.value.foreign == own.foreign
  {
  }

  /** Without a name option, the struct of method `m` of parent `P` is `PMsgM`; it never clashes with the parent. */
  lemma DefaultStructName(parent: string, parentTypeParams: set<string>, inheritedMsg: Option<MsgOptions>,
                          inheritedCtrl: Option<CtrlOptions>, attrs: seq<Attribute>, vis: Visibility,
                          sig: Signature, body: Option<string>, msgMeta: Meta -> Option<MsgOptions>,
                          ctrlMeta: Meta -> Option<CtrlOptions>, upperCamel: string -> string)
    requires NameOption(MethodMsgOptions(inheritedMsg, attrs, msgMeta)).None?
    ensures NewMethod(parent, parentTypeParams, inheritedMsg, inheritedCtrl, attrs, vis, sig, body,
                      msgMeta, ctrlMeta, upperCamel).structIdent == parent + "Msg" + upperCamel(sig.ident)
    ensures SameNameAsParent !in NewMethodDiagnostics(parent, parentTypeParams, inheritedMsg, attrs, sig, msgMeta, ctrlMeta, upperCamel)
  {
    DefaultNameDiffersFromParent(parent, sig.ident, upperCamel);
  }

  /** `expand_message` produces the message struct unless a path or `skip` is set. */
  predicate GeneratesMessage(m: Method)
  {
    !(m.msgOptions.Some? && (m.msgOptions.value.path.Some? || m.msgOptions.value.skip))
  }

  /** What `expand_handler` does for a method. */
  datatype HandlerExpansion = NoHandler | HandlerImpl | MissingBody

  function ExpandHandler(m: Method): (r: HandlerExpansion)
    ensures r.NoHandler? <==> m.msgOptions.Some? && m.msgOptions.value.skipHandler
    ensures r.MissingBody? <==> !(m.msgOptions.Some? && m.msgOptions.value.skipHandler) && m.body.None?
  {
    if m.msgOptions.Some? && m.msgOptions.value.skipHandler then NoHandler
    else if m.body.None? then MissingBody
    else HandlerImpl
  }

  /**
   * The controller's receiver: outside a trait impl, a borrowed receiver (`&self` or
   * `&mut self`) becomes `&self`; every other input is kept.
   */
  function CtrlInputs(inputs: seq<FnArg>, isTrait: bool): (r: seq<FnArg>)
    ensures |r| == |inputs| && (|inputs| > 0 ==> r[1..] == inputs[1..])
    ensures |inputs| > 0 && inputs[0].Receiver? && inputs[0].reference && !isTrait ==> r[0] == Receiver(true, false)
    ensures !(|inputs| > 0 && inputs[0].Receiver? && inputs[0].reference && !isTrait) ==> r == inputs
  {
    if |inputs| > 0 && inputs[0].Receiver? && inputs[0].reference && !isTrait
    then [Receiver(true, false)] + inputs[1..]
    else inputs
  }

  /** The controller method `expand_ctrl` produces: its signature, attributes and error handling. */
  datatype CtrlMethod = CtrlMethod(
    docAttrs: seq<Attribute>, attrs: seq<NestedMeta>, vis: Visibility, sig: Signature,
    message: Path, fields: seq<string>, strategy: ErrorStrategy)

  function ExpandCtrl(m: Method, isTrait: bool): (r: Option<CtrlMethod>)
    ensures r.None? <==> m.ctrlOptions.None?
    ensures r.Some? ==> r.value.vis == m.vis && r.value.sig == m.sig.(inputs := CtrlInputs(m.sig.inputs, isTrait))
    ensures r.Some? ==> r.value.strategy == m.ctrlOptions.value.ErrorStrategy()
    ensures r.Some? ==> r.value.message == m.structPath && |r.value.fields| == |m.args|
    ensures r.Some? ==> forall i :: 0 <= i < |m.args| ==> r.value.fields[i] == m.args[i].0
    ensures r.Some? ==> r.value.attrs == AttrList(m.ctrlOptions.value.attrs) && r.value.docAttrs == m.docAttrs
  {
    if m.ctrlOptions.None? then None
    else
      Some(CtrlMethod(m.docAttrs, AttrList(m.ctrlOptions.value.attrs), m.vis,
                      m.sig.(inputs := CtrlInputs(m.sig.inputs, isTrait)), m.structPath,
                      seq(|m.args|, i requires 0 <= i < |m.args| => m.args[i].0),
                      StrategyFor(m.ctrlOptions)))
  }
}
