/**
 * `#[interface]` on a trait (ludi-macros/src/items/item_trait.rs): the trait's methods become
 * messages named after the trait, optionally gathered in a wrap enum.  Trait methods carry no
 * body and inherit no controller options.
 */
module ItemTraits {
  import opened Wrappers
  import opened Syn
  import opened Options
  import opened Methods
  import opened Items

  /** The parts of `syn::ItemTrait` the macro reads. */
  datatype TraitSyntax = TraitSyntax(ident: string, vis: Visibility, generics: seq<GenericParam>, items: seq<AssocItem>)

  datatype ItemTrait = ItemTrait(msgOptions: Option<MsgOptions>, ident: string, vis: Visibility, methods: seq<Method>)

  /**
   * `from_item_trait`: every method item becomes a method named after the trait, with the trait's
   * visibility, the macro's `msg` options, no inherited controller options and no body.
   */
  function FromItemTrait(item: TraitSyntax, msg: Option<MsgOptions>, msgMeta: Meta -> Option<MsgOptions>,
                         ctrlMeta: Meta -> Option<CtrlOptions>, upperCamel: string -> string): (r: ItemTrait)
    ensures r.msgOptions == msg && r.ident == item.ident && r.vis == item.vis
    ensures |r.methods| == |SplitItems(item.items).0|
    ensures forall i :: 0 <= i < |r.methods| ==>
              var f := SplitItems(item.items).0[i];
              r.methods[i] == NewMethod(item.ident, TypeParams(item.generics), msg, None, f.attrs, item.vis, f.sig, None,
                                        msgMeta, ctrlMeta, upperCamel)
  {
    var fns := SplitItems(item.items).0;
    var methods := seq(|fns|, i requires 0 <= i < |fns| =>
      NewMethod(item.ident, TypeParams(item.generics), msg, None, fns[i].attrs, item.vis, fns[i].sig, None,
                msgMeta, ctrlMeta, upperCamel));
    ItemTrait(msg, item.ident, item.vis, methods)
  }

  /**
   * The errors reported while reading a trait: lifetime parameters, items that are not methods,
   * and what `Method::new` reports for each method under the trait's name, type parameters and
   * `msg` options.
   */
  function TraitDiagnostics(item: TraitSyntax, msg: Option<MsgOptions>, msgMeta: Meta -> Option<MsgOptions>,
                            ctrlMeta: Meta -> Option<CtrlOptions>, upperCamel: string -> string): (errs: seq<Diagnostic>)
    ensures LifetimeGenericTrait in errs <==> LifetimeCount(item.generics) > 0
    ensures forall e :: e in SplitItems(item.items).1 ==> e in errs
    // every method's own errors are reported
    ensures var fns := SplitItems(item.items).0;
            forall i, e :: 0 <= i < |fns| && e in TraitMethodDiagnostics(item, fns[i], msg, msgMeta, ctrlMeta, upperCamel) ==> e in errs
    // and nothing else is
    ensures var fns := SplitItems(item.items).0;
            forall e :: e in errs ==>
              (e == LifetimeGenericTrait && LifetimeCount(item.generics) > 0)
              || e in SplitItems(item.items).1
              || exists i :: 0 <= i < |fns| && e in TraitMethodDiagnostics(item, fns[i], msg, msgMeta, ctrlMeta, upperCamel)
  {
    (if LifetimeCount(item.generics) > 0 then [LifetimeGenericTrait] else []) + SplitItems(item.items).1
    + MethodsDiagnostics(SplitItems(item.items).0, item.ident, TypeParams(item.generics), msg, msgMeta, ctrlMeta, upperCamel)
  }

  /** The errors `Method::new` reports for one method item of a trait. */
  function TraitMethodDiagnostics(item: TraitSyntax, f: AssocItem, msg: Option<MsgOptions>, msgMeta: Meta -> Option<MsgOptions>,
                                  ctrlMeta: Meta -> Option<CtrlOptions>, upperCamel: string -> string): seq<Diagnostic>
    requires f.FnItem?
  {
    NewMethodDiagnostics(item.ident, TypeParams(item.generics), msg, f.attrs, f.sig, msgMeta, ctrlMeta, upperCamel)
  }

  /** A trait method has no body and takes controller options only from its own `ctrl` attributes. */
  lemma TraitMethodsHaveNoBody(item: TraitSyntax, msg: Option<MsgOptions>, msgMeta: Meta -> Option<MsgOptions>,
                               ctrlMeta: Meta -> Option<CtrlOptions>, upperCamel: string -> string, i: nat)
    requires i < |FromItemTrait(item, msg, msgMeta, ctrlMeta, upperCamel).methods|
    ensures var m := FromItemTrait(item, msg, msgMeta, ctrlMeta, upperCamel).methods[i];
            m.body.None? && m.ctrlOptions == OwnCtrlOptions(SplitItems(item.items).0[i].attrs, ctrlMeta)
            && ExpandHandler(m) != HandlerImpl
  {
  }

  /** Without a name option, a trait method's message struct is `{Trait}Msg{Method}`. */
  lemma TraitMessageNames(item: TraitSyntax, msg: Option<MsgOptions>, msgMeta: Meta -> Option<MsgOptions>,
                          ctrlMeta: Meta -> Option<CtrlOptions>, upperCamel: string -> string, i: nat)
    requires i < |FromItemTrait(item, msg, msgMeta, ctrlMeta, upperCamel).methods|
    requires NameOption(FromItemTrait(item, msg, msgMeta, ctrlMeta, upperCamel).methods[i].msgOptions).None?
    ensures var m := FromItemTrait(item, msg, msgMeta, ctrlMeta, upperCamel).methods[i];
            m.structIdent == item.ident + "Msg" + upperCamel(m.sig.ident)
  {
  }

  /** The wrap enum's name: the explicit one, else `{Trait}Msg`. */
  function TraitWrapName(explicit: Option<string>, ident: string): (r: string)
    ensures explicit.Some? ==> r == explicit.value
    ensures explicit.None? ==> r == ident + "Msg"
  {
    if explicit.Some? then explicit.value else ident + "Msg"
  }

  /** The wrap enum of a trait: the trait's visibility and one variant per method. */
  function TraitWrap(it: ItemTrait): (r: Option<WrapEnum>)
    ensures r.None? <==> WrapOptionsOf(it.msgOptions).None?
    ensures r.Some? ==> r.value.name == TraitWrapName(WrapOptionsOf(it.msgOptions).value.name, it.ident)
    ensures r.Some? ==> r.value.vis == it.vis && r.value.attrs == AttrList(WrapOptionsOf(it.msgOptions).value.attrs)
    ensures r.Some? ==> r.value.variants == VariantsOf(it.methods) && r.value.params == ParamsOf(it.methods)
  {
    var w := WrapOptionsOf(it.msgOptions);
    if w.None? then None
    else Some(WrapEnum(TraitWrapName(w.value.name, it.ident), AttrList(w.value.attrs), it.vis, ParamsOf(it.methods), VariantsOf(it.methods)))
  }

  /** `expand_wrap`, with its loop over the methods. */
  method ExpandWrap(it: ItemTrait) returns (r: Option<WrapEnum>)
    ensures r == TraitWrap(it)
  {
    var w := WrapOptionsOf(it.msgOptions);
    if w.None? {
      return None;
    }
    var params, variants := CollectVariants(it.methods);
    r := Some(WrapEnum(TraitWrapName(w.value.name, it.ident), AttrList(w.value.attrs), it.vis, params, variants));
  }

  /** `expand`: the message structs, then the wrap enum; never handlers or a controller. */
  method Expand(it: ItemTrait) returns (out: seq<Emitted>)
    ensures out == MessageStructs(it.methods) + (if TraitWrap(it).Some? then [WrapItem(TraitWrap(it).value)] else [])
    ensures forall i :: 0 <= i < |out| - 1 ==> out[i].MessageStruct?
  {
    out := MessageStructs(it.methods);
    var w := ExpandWrap(it);
    if w.Some? {
      out := out + [WrapItem(w.value)];
    }
  }
}
