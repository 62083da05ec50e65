/**
 * What `#[implement]` impl blocks and `#[interface]` traits share
 * (ludi-macros/src/items/item_impl.rs and item_trait.rs): picking the methods out of the
 * items, and the variants and type parameters of the wrap enum built from those methods.
 */
module Items {
  import opened Wrappers
  import opened Syn
  import opened Options
  import opened Methods

  /**
   * An item of an impl block or trait: a method, with the text of its block, or something else.
   * An impl method always has a block; a trait method's default block, which `#[interface]`
   * never reads, is the empty text when it has none.
   */
  datatype AssocItem =
    | FnItem(attrs: seq<Attribute>, vis: Visibility, sig: Signature, body: string)
    | ConstDecl
    | TypeDecl
    | OtherDecl

  /** The error an item that is not a method is reported with. */
  function ItemDiagnostic(item: AssocItem): (r: Option<Diagnostic>)
    ensures r.None? <==> item.FnItem?
  {
    match item
    case FnItem(_, _, _, _) => None
    case ConstDecl => Some(ConstItem)
    case TypeDecl => Some(AssocTypeItem)
    case OtherDecl => Some(NotAMethod)
  }

  /** The `filter_map` over the items: the methods in order, and one error for every other item. */
  function SplitItems(items: seq<AssocItem>): (r: (seq<AssocItem>, seq<Diagnostic>))
    ensures |r.0| + |r.1| == |items|
    ensures forall i :: 0 <= i < |r.0| ==> r.0[i].FnItem?
    ensures forall f :: f in r.0 <==> f in items && f.FnItem?
    ensures forall i :: 0 <= i < |items| && !items[i].FnItem? ==> ItemDiagnostic(items[i]).value in r.1
    ensures forall e :: e in r.1 ==> e == ConstItem || e == AssocTypeItem || e == NotAMethod
    decreases |items|
  {
    if items == [] then ([], [])
    else
      var (fns, errs) := SplitItems(items[1..]);
      assert forall f :: f in items <==> f == items[0] || f in items[1..];
      assert forall i :: 1 <= i < |items| ==> items[i] == items[1..][i - 1];
      if items[0].FnItem? then ([items[0]] + fns, errs) else (fns, [ItemDiagnostic(items[0]).value] + errs)
  }

  /** The errors `Method::new` reports for each method item, in order, in an impl block or a trait. */
  function MethodsDiagnostics(fns: seq<AssocItem>, parent: string, typeParams: set<string>, msg: Option<MsgOptions>,
                              msgMeta: Meta -> Option<MsgOptions>, ctrlMeta: Meta -> Option<CtrlOptions>,
                              upperCamel: string -> string): (errs: seq<Diagnostic>)
    requires forall i :: 0 <= i < |fns| ==> fns[i].FnItem?
    ensures forall i, e ::
              (0 <= i < |fns| && e in NewMethodDiagnostics(parent, typeParams, msg, fns[i].attrs, fns[i].sig,
                                                           msgMeta, ctrlMeta, upperCamel)) ==> e in errs
    ensures forall e :: e in errs ==>
              exists i :: 0 <= i < |fns| && e in NewMethodDiagnostics(parent, typeParams, msg, fns[i].attrs, fns[i].sig,
                                                                      msgMeta, ctrlMeta, upperCamel)
    ensures forall e :: e in errs ==> !IsItemDiagnostic(e)
    decreases |fns|
  {
    if fns == [] then []
    else
      var rest := MethodsDiagnostics(fns[1..], parent, typeParams, msg, msgMeta, ctrlMeta, upperCamel);
      assert forall i :: 1 <= i < |fns| ==> fns[i] == fns[1..][i - 1];
      NewMethodDiagnostics(parent, typeParams, msg, fns[0].attrs, fns[0].sig, msgMeta, ctrlMeta, upperCamel) + rest
  }

  /** A variant of the wrap enum: tagged by the message struct, which it carries with its type parameters. */
  datatype WrapVariant = WrapVariant(tag: string, params: set<string>)

  /** The enum `expand_wrap` emits, deriving `Wrap`. */
  datatype WrapEnum = WrapEnum(name: string, attrs: seq<NestedMeta>, vis: Visibility, params: set<string>,
                               variants: seq<WrapVariant>)

  /** One variant per method, in order. */
  function VariantsOf(ms: seq<Method>): (r: seq<WrapVariant>)
    ensures |r| == |ms|
    ensures forall i :: 0 <= i < |ms| ==> r[i].tag == ms[i].structIdent && r[i].params == ms[i].typeParams
  {
    seq(|ms|, i requires 0 <= i < |ms| => WrapVariant(ms[i].structIdent, ms[i].typeParams))
  }

  /** The union of the methods' type parameters, accumulated in method order. */
  function ParamsOf(ms: seq<Method>): (r: set<string>)
    decreases |ms|
  {
    if ms == [] then {} else ParamsOf(ms[..|ms| - 1]) + ms[|ms| - 1].typeParams
  }

  /** The wrap enum is generic over exactly the type parameters some method uses. */
  lemma {:induction false} ParamsOfIff(ms: seq<Method>, x: string)
    ensures x in ParamsOf(ms) <==> exists i :: 0 <= i < |ms| && x in ms[i].typeParams
    decreases |ms|
  {
    if ms != [] {
      var init := ms[..|ms| - 1];
      ParamsOfIff(init, x);
      if x in ParamsOf(init) {
        var i :| 0 <= i < |init| && x in init[i].typeParams;
        assert ms[i] == init[i];
      }
      if exists i :: 0 <= i < |ms| && x in ms[i].typeParams {
        var i :| 0 <= i < |ms| && x in ms[i].typeParams;
        if i < |init| {
          assert init[i] == ms[i];
        }
      }
    }
  }

  /** The loop of `expand_wrap`: for each method, extend the type parameters and push its variant. */
  method CollectVariants(ms: seq<Method>) returns (params: set<string>, variants: seq<WrapVariant>)
    ensures params == ParamsOf(ms) && variants == VariantsOf(ms)
  {
    params, variants := {}, [];
    for i := 0 to |ms|
      invariant params == ParamsOf(ms[..i])
      invariant variants == VariantsOf(ms[..i])
    {
      assert ms[..i + 1][..i] == ms[..i];
      params := params + ms[i].typeParams;
      variants := variants + [WrapVariant(ms[i].structIdent, ms[i].typeParams)];
    }
    assert ms[..|ms|] == ms;
  }

  /** The wrap options in force for an item: present only when it has `msg` options with a `wrap`. */
  function WrapOptionsOf(msg: Option<MsgOptions>): (r: Option<WrapOptions>)
    ensures r.None? <==> msg.None? || msg.value.wrap.None?
    ensures r.Some? ==> r == msg.value.WrapInForce()
  {
    if msg.None? then None else msg.value.WrapInForce()
  }

  /** Which parts an item expansion emits, in order. */
  datatype Part = Messages | Wrap | Handlers | Controller

  /** An item an expansion emits: a message struct (with its `Message` and `Dispatch` impls) or the wrap enum. */
  datatype Emitted = MessageStruct(name: string) | WrapItem(wrap: WrapEnum)

  /** `expand_messages`: a message struct for every method whose message is not skipped, in method order. */
  function MessageStructs(ms: seq<Method>): (r: seq<Emitted>)
    ensures |r| <= |ms|
    ensures forall i :: 0 <= i < |r| ==> r[i].MessageStruct?
    ensures forall i :: 0 <= i < |ms| && GeneratesMessage(ms[i]) ==> MessageStruct(ms[i].structIdent) in r
    decreases |ms|
  {
    if ms == [] then []
    else
      var rest := MessageStructs(ms[1..]);
      assert forall i :: 1 <= i < |ms| ==> ms[i] == ms[1..][i - 1];
      (if GeneratesMessage(ms[0]) then [MessageStruct(ms[0].structIdent)] else []) + rest
  }

  /** Every emitted struct belongs to a method whose message is not skipped. */
  lemma {:induction false} MessageStructsSound(ms: seq<Method>, k: nat)
    requires k < |MessageStructs(ms)|
    ensures exists i :: 0 <= i < |ms| && GeneratesMessage(ms[i]) && MessageStructs(ms)[k] == MessageStruct(ms[i].structIdent)
    decreases |ms|
  {
    var head := if GeneratesMessage(ms[0]) then [MessageStruct(ms[0].structIdent)] else [];
    if k >= |head| {
      MessageStructsSound(ms[1..], k - |head|);
      var i :| 0 <= i < |ms[1..]| && GeneratesMessage(ms[1..][i]) && MessageStructs(ms[1..])[k - |head|] == MessageStruct(ms[1..][i].structIdent);
      assert ms[i + 1] == ms[1..][i];
    }
  }
}
