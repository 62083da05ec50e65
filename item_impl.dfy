/**
 * `#[implement]` on an impl block (ludi-macros/src/items/item_impl.rs): the options in force,
 * the actor and the trait being implemented, the methods, and which of the messages, wrap
 * enum, handlers and controller are expanded.  An `abort!` or a failed `expect` ends the
 * expansion with a `Failure`.
 */
module ItemImpls {
  import opened Wrappers
  import opened Syn
  import opened Options
  import opened MacroUtils
  import opened Methods
  import opened Items

  /** The parts of `syn::ItemImpl` the macro reads. */
  datatype ImplSyntax = ImplSyntax(
    attrs: seq<Attribute>, generics: seq<GenericParam>, traitPath: Option<Path>, selfTy: Type, items: seq<AssocItem>)

  datatype ImplTrait = ImplTrait(traitIdent: string, traitPath: Path)

  datatype ItemImpl = ItemImpl(
    attrs: seq<Attribute>,
    msgOptions: Option<MsgOptions>,
    ctrlOptions: Option<CtrlOptions>,
    implTrait: Option<ImplTrait>,
    generics: seq<GenericParam>,
    actorIdent: string,
    actorPath: Path,
    actorGenericArgs: Option<seq<GenericArgument>>,
    methods: seq<Method>)

  /** An expansion that stops: `abort!` or a panic. */
  datatype Failure = Aborted(reason: string) | Panicked(reason: string)

  /** The last segment of a non-empty path. */
  function LastSegment(p: Path): PathSegment
    requires |p.segments| > 0
  {
    p.segments[|p.segments| - 1]
  }

  /** The trait being implemented, named by the last segment of its path. */
  function ImplTraitOf(traitPath: Option<Path>): (r: Result<Option<ImplTrait>, Failure>)
    ensures r.Err? <==> traitPath.Some? && |traitPath.value.segments| == 0
    ensures r.Ok? ==> (r.value.None? <==> traitPath.None?)
    ensures r.Ok? && r.value.Some? ==> r.value.value == ImplTrait.ImplTrait(LastSegment(traitPath.value).ident, traitPath.value)
  {
    if traitPath.None? then Ok(None)
    else if |traitPath.value.segments| == 0 then Err(Panicked("trait path is non-empty"))
    else Ok(Some(ImplTrait.ImplTrait(LastSegment(traitPath.value).ident, traitPath.value)))
  }

  /** The name messages are derived from: the trait's for a trait impl, the actor's otherwise. */
  function ParentIdent(implTrait: Option<ImplTrait>, actorIdent: string): (r: string)
    ensures implTrait.Some? ==> r == implTrait.value.traitIdent
    ensures implTrait.None? ==> r == actorIdent
  {
    if implTrait.Some? then implTrait.value.traitIdent else actorIdent
  }

  /** `Method::new` applied to every method item, in order. */
  function NewMethods(fns: seq<AssocItem>, parent: string, typeParams: set<string>, msg: Option<MsgOptions>,
                      ctrl: Option<CtrlOptions>, msgMeta: Meta -> Option<MsgOptions>,
                      ctrlMeta: Meta -> Option<CtrlOptions>, upperCamel: string -> string): (ms: seq<Method>)
    requires forall i :: 0 <= i < |fns| ==> fns[i].FnItem?
    ensures |ms| == |fns|
    ensures forall i :: 0 <= i < |fns| ==>
              ms[i] == NewMethod(parent, typeParams, msg, ctrl, fns[i].attrs, fns[i].vis, fns[i].sig, Some(fns[i].body),
                                 msgMeta, ctrlMeta, upperCamel)
  {
    seq(|fns|, i requires 0 <= i < |fns| =>
      NewMethod(parent, typeParams, msg, ctrl, fns[i].attrs, fns[i].vis, fns[i].sig, Some(fns[i].body), msgMeta, ctrlMeta, upperCamel))
  }

  /**
   * `from_item_impl`: the impl's own `msg`/`ctrl` attributes merged over the macro's arguments,
   * ludi's attributes stripped, the actor named by the last segment of the self type, which must
   * be a path whose arguments are not parenthesized, and one method per method item.
   */
  function FromItemImpl(item: ImplSyntax, msgArgs: Option<MsgOptions>, ctrlArgs: Option<CtrlOptions>,
                        msgMeta: Meta -> Option<MsgOptions>, ctrlMeta: Meta -> Option<CtrlOptions>,
                        upperCamel: string -> string): (r: Result<ItemImpl, Failure>)
    ensures !item.selfTy.PathType? ==> r == Err(Aborted("expected path to actor type"))
    ensures (item.selfTy.PathType? && |item.selfTy.path.segments| > 0
             && LastSegment(item.selfTy.path).arguments.Parenthesized?) ==> r == Err(Aborted("unexpected parenthesis arguments"))
    ensures r.Ok? <==> item.selfTy.PathType? && |item.selfTy.path.segments| > 0
                       && !LastSegment(item.selfTy.path).arguments.Parenthesized? && ImplTraitOf(item.traitPath).Ok?
    ensures r.Ok? ==> r.value.msgOptions == Combine(msgArgs, OwnMsgOptions(item.attrs, msgMeta), MsgMerge())
    ensures r.Ok? ==> r.value.ctrlOptions == Combine(ctrlArgs, OwnCtrlOptions(item.attrs, ctrlMeta), CtrlMerge())
    ensures r.Ok? ==> r.value.attrs == NonLudiAttrs(item.attrs)
    ensures r.Ok? ==> r.value.actorPath == item.selfTy.path && r.value.actorIdent == LastSegment(item.selfTy.path).ident
    ensures r.Ok? ==> r.value.implTrait == ImplTraitOf(item.traitPath).value
    ensures r.Ok? ==> (r.value.actorGenericArgs.None? <==> LastSegment(item.selfTy.path).arguments.NoArguments?)
    ensures r.Ok? && r.value.actorGenericArgs.Some? ==> r.value.actorGenericArgs.value == LastSegment(item.selfTy.path).arguments.args
    ensures r.Ok? ==>
              r.value.methods ==
                NewMethods(SplitItems(item.items).0, ParentIdent(r.value.implTrait, r.value.actorIdent), TypeParams(item.generics),
                           r.value.msgOptions, r.value.ctrlOptions, msgMeta, ctrlMeta, upperCamel)
  {
    var msg := Combine(msgArgs, OwnMsgOptions(item.attrs, msgMeta), MsgMerge());
    var ctrl := Combine(ctrlArgs, OwnCtrlOptions(item.attrs, ctrlMeta), CtrlMerge());
    if !item.selfTy.PathType? then Err(Aborted("expected path to actor type"))
    else if |item.selfTy.path.segments| == 0 then Err(Panicked("actor path is non-empty"))
    else
      var segment := LastSegment(item.selfTy.path);
      if segment.arguments.Parenthesized? then Err(Aborted("unexpected parenthesis arguments"))
      else
        var args := if segment.arguments.AngleBracketed? then Some(segment.arguments.args) else None;
        var implTrait := ImplTraitOf(item.traitPath);
        if implTrait.Err? then Err(implTrait.error)
        else
          var parent := ParentIdent(implTrait.value, segment.ident);
          var methods := NewMethods(SplitItems(item.items).0, parent, TypeParams(item.generics), msg, ctrl,
                                    msgMeta, ctrlMeta, upperCamel);
          Ok(ItemImpl(NonLudiAttrs(item.attrs), msg, ctrl, implTrait.value, item.generics, segment.ident,
                      item.selfTy.path, args, methods))
  }

  /** The errors reported while reading an impl block that is not aborted. */
  function ImplDiagnostics(item: ImplSyntax, it: ItemImpl, msgMeta: Meta -> Option<MsgOptions>,
                           ctrlMeta: Meta -> Option<CtrlOptions>, upperCamel: string -> string): (errs: seq<Diagnostic>)
    ensures forall e :: e in SplitItems(item.items).1 ==> e in errs
    ensures ScanAttributes(item.attrs, "msg", MsgOptions.Default, MsgMerge(), msgMeta).Invalid? ==> InvalidAttribute("msg") in errs
    ensures ScanAttributes(item.attrs, "ctrl", CtrlOptions.Default, CtrlMerge(), ctrlMeta).Invalid? ==> InvalidAttribute("ctrl") in errs
    // every method's own errors are reported, under the impl's options and parent name
    ensures var fns := SplitItems(item.items).0;
            forall i, e :: 0 <= i < |fns| && e in MethodDiagnosticsOf(fns[i], it, item.generics, msgMeta, ctrlMeta, upperCamel) ==> e in errs
    // and nothing else is
    ensures var fns := SplitItems(item.items).0;
            forall e :: e in errs ==>
              (e == InvalidAttribute("msg") && ScanAttributes(item.attrs, "msg", MsgOptions.Default, MsgMerge(), msgMeta).Invalid?)
              || (e == InvalidAttribute("ctrl") && ScanAttributes(item.attrs, "ctrl", CtrlOptions.Default, CtrlMerge(), ctrlMeta).Invalid?)
              || e in SplitItems(item.items).1
              || exists i :: 0 <= i < |fns| && e in MethodDiagnosticsOf(fns[i], it, item.generics, msgMeta, ctrlMeta, upperCamel)
  {
    var fns := SplitItems(item.items).0;
    AttrDiagnostics(item.attrs, "msg", MsgOptions.Default, MsgMerge(), msgMeta)
    + AttrDiagnostics(item.attrs, "ctrl", CtrlOptions.Default, CtrlMerge(), ctrlMeta)
    + SplitItems(item.items).1
    + MethodsDiagnostics(fns, ParentIdent(it.implTrait, it.actorIdent), TypeParams(item.generics), it.msgOptions,
                         msgMeta, ctrlMeta, upperCamel)
  }

  /** The errors `Method::new` reports for one method item of an impl block. */
  function MethodDiagnosticsOf(f: AssocItem, it: ItemImpl, generics: seq<GenericParam>, msgMeta: Meta -> Option<MsgOptions>,
                               ctrlMeta: Meta -> Option<CtrlOptions>, upperCamel: string -> string): seq<Diagnostic>
    requires f.FnItem?
  {
    NewMethodDiagnostics(ParentIdent(it.implTrait, it.actorIdent), TypeParams(generics), it.msgOptions, f.attrs, f.sig,
                         msgMeta, ctrlMeta, upperCamel)
  }

  /** In a trait impl without a name option, every message struct is named `{Trait}Msg{Method}`. */
  lemma TraitImplNamesAfterTrait(item: ImplSyntax, msgArgs: Option<MsgOptions>, ctrlArgs: Option<CtrlOptions>,
                                 msgMeta: Meta -> Option<MsgOptions>, ctrlMeta: Meta -> Option<CtrlOptions>,
                                 upperCamel: string -> string, i: nat)
    requires FromItemImpl(item, msgArgs, ctrlArgs, msgMeta, ctrlMeta, upperCamel).Ok?
    requires item.traitPath.Some?
    requires var it := FromItemImpl(item, msgArgs, ctrlArgs, msgMeta, ctrlMeta, upperCamel).value;
             i < |it.methods| && NameOption(it.methods[i].msgOptions).None?
    ensures var it := FromItemImpl(item, msgArgs, ctrlArgs, msgMeta, ctrlMeta, upperCamel).value;
            it.methods[i].structIdent == LastSegment(item.traitPath.value).ident + "Msg" + upperCamel(it.methods[i].sig.ident)
  {
  }

  /** Every method of an impl block has a body, so expanding its handler never panics. */
  lemma ImplHandlersHaveBodies(item: ImplSyntax, msgArgs: Option<MsgOptions>, ctrlArgs: Option<CtrlOptions>,
                               msgMeta: Meta -> Option<MsgOptions>, ctrlMeta: Meta -> Option<CtrlOptions>,
                               upperCamel: string -> string)
    requires FromItemImpl(item, msgArgs, ctrlArgs, msgMeta, ctrlMeta, upperCamel).Ok?
    ensures var it := FromItemImpl(item, msgArgs, ctrlArgs, msgMeta, ctrlMeta, upperCamel).value;
            forall i :: 0 <= i < |it.methods| ==> !ExpandHandler(it.methods[i]).MissingBody?
  {
  }

  /** The wrap enum's name: the explicit one, else `{Actor}{Trait}Msg` for a trait impl, else `{Actor}Msg`. */
  function ImplWrapName(explicit: Option<string>, actorIdent: string, implTrait: Option<ImplTrait>): (r: string)
    ensures explicit.Some? ==> r == explicit.value
    ensures explicit.None? && implTrait.Some? ==> r == actorIdent + implTrait.value.traitIdent + "Msg"
    ensures explicit.None? && implTrait.None? ==> r == actorIdent + "Msg"
  {
    if explicit.Some? then explicit.value
    else if implTrait.Some? then actorIdent + implTrait.value.traitIdent + "Msg"
    else actorIdent + "Msg"
  }

  /** `expand_wrap`: a public enum with one variant per method, generic over every type parameter they use. */
  method ExpandWrap(it: ItemImpl) returns (r: Option<WrapEnum>)
    ensures r.None? <==> WrapOptionsOf(it.msgOptions).None?
    ensures r.Some? ==> var w := WrapOptionsOf(it.msgOptions).value;
              r.value == WrapEnum(ImplWrapName(w.name, it.actorIdent, it.implTrait), AttrList(w.attrs), Public,
                                  ParamsOf(it.methods), VariantsOf(it.methods))
  {
    var w := WrapOptionsOf(it.msgOptions);
    if w.None? {
      return None;
    }
    var params, variants := CollectVariants(it.methods);
    r := Some(WrapEnum(ImplWrapName(w.value.name, it.actorIdent, it.implTrait), AttrList(w.value.attrs), Public,
                       params, variants));
  }

  /** The generic argument `A` the controller is instantiated with. */
  const ActorArg: GenericArgument := TypeArg(PathType(SimplePath("A")))

  /**
   * The controller's path: the impl's `ctrl` path option, else `{Actor}Ctrl`, with the actor's
   * generic arguments followed by `A` on its last segment.  A path option with no segments makes
   * the `unwrap` panic, shown as nothing.
   */
  function CtrlPath(ctrl: Option<CtrlOptions>, actorIdent: string, actorArgs: Option<seq<GenericArgument>>): (r: Option<Path>)
    ensures var base := if ctrl.Some? && ctrl.value.path.Some? then ctrl.value.path.value else SimplePath(CtrlIdent(actorIdent));
            (r.None? <==> |base.segments| == 0)
            && (r.Some? ==>
                  |r.value.segments| == |base.segments| && r.value.leadingColon == base.leadingColon
                  && r.value.segments[..|base.segments| - 1] == base.segments[..|base.segments| - 1]
                  && LastSegment(r.value).ident == LastSegment(base).ident
                  && LastSegment(r.value).arguments ==
                       AngleBracketed((if actorArgs.Some? then actorArgs.value else []) + [ActorArg]))
  {
    var base := if ctrl.Some? && ctrl.value.path.Some? then ctrl.value.path.value else SimplePath(CtrlIdent(actorIdent));
    if |base.segments| == 0 then None
    else
      var n := |base.segments|;
      var args := (if actorArgs.Some? then actorArgs.value else []) + [ActorArg];
      var segs := base.segments[..n - 1] + [PathSegment(base.segments[n - 1].ident, AngleBracketed(args))];
      assert segs[..n - 1] == base.segments[..n - 1];
      Some(Path(base.leadingColon, segs))
  }

  /** What `expand_ctrl` emits: nothing, one impl of the trait, or one inherent impl block per method. */
  datatype CtrlExpansion =
    | NoCtrl
    | TraitCtrl(traitPath: Path, path: Path, methods: seq<Option<CtrlMethod>>)
    | InherentCtrl(path: Path, blocks: seq<Option<CtrlMethod>>)

  /** `expand_ctrl`. */
  function ExpandController(it: ItemImpl): (r: Result<CtrlExpansion, Failure>)
    ensures (r == Ok(NoCtrl)) <==> forall i :: 0 <= i < |it.methods| ==> it.methods[i].ctrlOptions.None?
    ensures r.Err? <==> (exists i :: 0 <= i < |it.methods| && it.methods[i].ctrlOptions.Some?)
                        && CtrlPath(it.ctrlOptions, it.actorIdent, it.actorGenericArgs).None?
    ensures r.Ok? && r.value.TraitCtrl? ==>
              it.implTrait.Some? && r.value.traitPath == it.implTrait.value.traitPath
              && Some(r.value.path) == CtrlPath(it.ctrlOptions, it.actorIdent, it.actorGenericArgs)
              && |r.value.methods| == |it.methods|
              && forall i :: 0 <= i < |it.methods| ==> r.value.methods[i] == Methods.ExpandCtrl(it.methods[i], true)
    ensures r.Ok? && r.value.InherentCtrl? ==>
              it.implTrait.None? && Some(r.value.path) == CtrlPath(it.ctrlOptions, it.actorIdent, it.actorGenericArgs)
              && |r.value.blocks| == |it.methods|
              && forall i :: 0 <= i < |it.methods| ==> r.value.blocks[i] == Methods.ExpandCtrl(it.methods[i], false)
  {
    if forall i :: 0 <= i < |it.methods| ==> it.methods[i].ctrlOptions.None? then Ok(NoCtrl)
    else
      var path := CtrlPath(it.ctrlOptions, it.actorIdent, it.actorGenericArgs);
      if path.None? then Err(Panicked("called `Option::unwrap()` on a `None` value"))
      else if it.implTrait.Some? then
        Ok(TraitCtrl(it.implTrait.value.traitPath, path.value,
                     seq(|it.methods|, i requires 0 <= i < |it.methods| => Methods.ExpandCtrl(it.methods[i], true))))
      else
        Ok(InherentCtrl(path.value,
                        seq(|it.methods|, i requires 0 <= i < |it.methods| => Methods.ExpandCtrl(it.methods[i], false))))
  }

  /** `expand`: messages and wrap only for inherent impls or with `foreign`; handlers and controller always. */
  function ExpandParts(it: ItemImpl): (r: seq<Part>)
    ensures (Messages in r) <==> it.implTrait.None? || (it.msgOptions.Some? && it.msgOptions.value.foreign)
    ensures (Wrap in r) <==> (Messages in r)
    ensures |r| >= 2 && r[|r| - 2..] == [Handlers, Controller]
    ensures Messages in r ==> r[0] == Messages && r[1] == Wrap
  {
    if it.implTrait.None? || (it.msgOptions.Some? && it.msgOptions.value.foreign)
    then [Messages, Wrap, Handlers, Controller]
    else [Handlers, Controller]
  }
}
