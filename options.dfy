/**
 * The option sets the ludi attribute macros read (ludi-macros/src/options.rs): how repeated
 * `msg`/`ctrl` attributes and inherited options are merged, and which error strategy a
 * controller method uses.  darling's parser `from_meta` is a parameter: it either yields the
 * options one attribute spells out, or fails.
 */
module Options {
  import opened Wrappers
  import opened Syn

  /** darling's `Override`: a bare word asks for the default, `key = value` is explicit. */
  datatype Override<T> = Inherit | Explicit(value: T)

  /** A nested meta item passed through to generated code unchanged, kept as its token text. */
  type NestedMeta = string

  /** The attribute list an optional list stands for (`unwrap_or_default`). */
  function AttrList(a: Option<seq<NestedMeta>>): seq<NestedMeta>
  {
    if a.Some? then a.value else []
  }

  /** Merging two optional attribute lists: absent only when both are, and otherwise the concatenation. */
  function MergeAttrs(a: Option<seq<NestedMeta>>, b: Option<seq<NestedMeta>>): (r: Option<seq<NestedMeta>>)
    ensures r.None? <==> a.None? && b.None?
    ensures AttrList(r) == AttrList(a) + AttrList(b)
  {
    if a.Some? then (if b.Some? then Some(a.value + b.value) else a) else b
  }

  /** A later value replaces an earlier one only when it is present. */
  function Later<T>(a: Option<T>, b: Option<T>): (r: Option<T>)
    ensures b.Some? ==> r == b
    ensures b.None? ==> r == a
  {
    if b.Some? then b else a
  }

  datatype WrapOptions = WrapOptions(attrs: Option<seq<NestedMeta>>, name: Option<string>)
  {
    static const Default := WrapOptions(None, None)

    /** `WrapOptions::merge`: attribute lists concatenate and a later name wins. */
    function Merge(other: WrapOptions): (r: WrapOptions)
      ensures r.attrs.None? <==> attrs.None? && other.attrs.None?
      ensures AttrList(r.attrs) == AttrList(attrs) + AttrList(other.attrs)
      ensures r.name == (if other.name.Some? then other.name else name)
    {
      WrapOptions(MergeAttrs(attrs, other.attrs), Later(name, other.name))
    }
  }

  /** The wrap part of `MsgOptions::merge`: two explicit wraps merge, an explicit wrap otherwise stays, anything else is replaced. */
  function MergeWrap(a: Option<Override<WrapOptions>>, b: Option<Override<WrapOptions>>): Option<Override<WrapOptions>>
  {
    if a.Some? && a.value.Explicit? then
      (if b.Some? && b.value.Explicit? then Some(Explicit(a.value.value.Merge(b.value.value))) else a)
    else b
  }

  datatype MsgOptions = MsgOptions(
    attrs: Option<seq<NestedMeta>>,
    vis: Option<Visibility>,
    name: Option<string>,
    path: Option<Path>,
    wrap: Option<Override<WrapOptions>>,
    skip: bool,
    skipHandler: bool,
    foreign: bool)
  {
    static const Default := MsgOptions(None, None, None, None, None, false, false, false)

    predicate ExplicitWrap()
    {
      wrap.Some? && wrap.value.Explicit?
    }

    /**
     * `MsgOptions::merge`: attribute lists concatenate; visibility, name and path are replaced by
     * present later values; an explicit wrap absorbs a later explicit wrap and keeps itself
     * otherwise, while any other wrap is replaced by the later one even when that is absent;
     * the three flags are always the later ones.
     */
    function Merge(other: MsgOptions): (r: MsgOptions)
      ensures r.attrs.None? <==> attrs.None? && other.attrs.None?
      ensures AttrList(r.attrs) == AttrList(attrs) + AttrList(other.attrs)
      ensures other.vis.Some? ==> r.vis == other.vis
      ensures other.vis.None? ==> r.vis == vis
      ensures other.name.Some? ==> r.name == other.name
      ensures other.name.None? ==> r.name == name
      ensures other.path.Some? ==> r.path == other.path
      ensures other.path.None? ==> r.path == path
      ensures ExplicitWrap() && other.ExplicitWrap() ==>
                r.wrap == Some(Explicit(wrap.value.value.Merge(other.wrap.value.value)))
      ensures ExplicitWrap() && !other.ExplicitWrap() ==> r.wrap == wrap
      ensures !ExplicitWrap() ==> r.wrap == other.wrap
      ensures r.skip == other.skip && r.skipHandler == other.skipHandler && r.foreign == other.foreign
    {
      MsgOptions(MergeAttrs(attrs, other.attrs), Later(vis, other.vis), Later(name, other.name),
                 Later(path, other.path), MergeWrap(wrap, other.wrap), other.skip, other.skipHandler, other.foreign)
    }

    /** The wrap options in force: none without a wrap option, the defaults for a bare `wrap`. */
    function WrapInForce(): (r: Option<WrapOptions>)
      ensures r.None? <==> wrap.None?
      ensures wrap == Some(Inherit) ==> r == Some(WrapOptions.Default)
      ensures ExplicitWrap() ==> r == Some(wrap.value.value)
    {
      match wrap
      case None => None
      case Some(Inherit) => Some(WrapOptions.Default)
      case Some(Explicit(w)) => Some(w)
    }
  }

  datatype CtrlOptions = CtrlOptions(
    attrs: Option<seq<NestedMeta>>,
    name: Option<string>,
    path: Option<Path>,
    err: Option<Override<string>>)
  {
    static const Default := CtrlOptions(None, None, None, None)

    /** `CtrlOptions::merge`: attribute lists concatenate; name, path and err are replaced by present later values. */
    function Merge(other: CtrlOptions): (r: CtrlOptions)
      ensures r.attrs.None? <==> attrs.None? && other.attrs.None?
      ensures AttrList(r.attrs) == AttrList(attrs) + AttrList(other.attrs)
      ensures other.name.Some? ==> r.name == other.name
      ensures other.name.None? ==> r.name == name
      ensures other.path.Some? ==> r.path == other.path
      ensures other.path.None? ==> r.path == path
      ensures other.err.Some? ==> r.err == other.err
      ensures other.err.None? ==> r.err == err
    {
      CtrlOptions(MergeAttrs(attrs, other.attrs), Later(name, other.name), Later(path, other.path), Later(err, other.err))
    }

    /** `CtrlOptions::error_strategy`. */
    function ErrorStrategy(): (r: ErrorStrategy)
      ensures r.Panic? <==> err.None?
      ensures r.Try? <==> err == Some(Inherit)
      ensures r.Map? <==> err.Some? && err.value.Explicit?
      ensures r.Map? ==> r.expr == err.value.value
    {
      match err
      case None => Panic
      case Some(Inherit) => Try
      case Some(Explicit(e)) => Map(e)
    }
  }

  /** How a controller method handles a failed send; an expression is kept as its token text. */
  datatype ErrorStrategy = Panic | Try | Map(expr: string)

  /** `ErrorStrategy::default`, used when there are no controller options at all. */
  function StrategyFor(ctrl: Option<CtrlOptions>): (r: ErrorStrategy)
    ensures ctrl.None? ==> r.Panic?
    ensures ctrl.Some? ==> r == ctrl.value.ErrorStrategy()
  {
    if ctrl.Some? then ctrl.value.ErrorStrategy() else Panic
  }

  /**
   * Options inherited from an enclosing item combined with an item's own: the own options are
   * merged on top when both exist, and whichever exists is used alone otherwise.
   */
  function Combine<T>(inherited: Option<T>, own: Option<T>, merge: (T, T) -> T): (r: Option<T>)
    ensures r.None? <==> inherited.None? && own.None?
    ensures own.None? ==> r == inherited
    ensures inherited.None? ==> r == own
    ensures inherited.Some? && own.Some? ==> r == Some(merge(inherited.value, own.value))
  {
    if own.None? then inherited
    else if inherited.None? then own
    else Some(merge(inherited.value, own.value))
  }

  lemma MergeAttrsAssociative(a: Option<seq<NestedMeta>>, b: Option<seq<NestedMeta>>, c: Option<seq<NestedMeta>>)
    ensures MergeAttrs(MergeAttrs(a, b), c) == MergeAttrs(a, MergeAttrs(b, c))
  {
    if a.Some? && b.Some? && c.Some? {
      assert a.value + b.value + c.value == a.value + (b.value + c.value);
    }
  }

  lemma MergeWrapAssociative(a: Option<Override<WrapOptions>>, b: Option<Override<WrapOptions>>, c: Option<Override<WrapOptions>>)
    ensures MergeWrap(MergeWrap(a, b), c) == MergeWrap(a, MergeWrap(b, c))
  {
    if a.Some? && a.value.Explicit? && b.Some? && b.value.Explicit? && c.Some? && c.value.Explicit? {
      var wa, wb, wc := a.value.value, b.value.value, c.value.value;
      MergeAttrsAssociative(wa.attrs, wb.attrs, wc.attrs);
    }
  }

  /** Merging `msg` options is associative, so options may be folded in attribute order from any grouping. */
  lemma MsgMergeAssociative(a: MsgOptions, b: MsgOptions, c: MsgOptions)
    ensures a.Merge(b).Merge(c) == a.Merge(b.Merge(c))
  {
    MergeAttrsAssociative(a.attrs, b.attrs, c.attrs);
    MergeWrapAssociative(a.wrap, b.wrap, c.wrap);
  }

  /** Merging into the default options yields the later options unchanged. */
  lemma MsgDefaultIsNeutralOnTheLeft(o: MsgOptions)
    ensures MsgOptions.Default.Merge(o) == o
  {
  }

  /**
   * Merging an attribute that sets nothing still clears the flags and any non-explicit wrap:
   * the flags are copied, not or-ed.
   */
  lemma MsgMergeOfNothingClearsFlags(o: MsgOptions)
    ensures var r := o.Merge(MsgOptions.Default);
            !r.skip && !r.skipHandler && !r.foreign && (r.wrap.Some? <==> o.ExplicitWrap())
            && r.attrs == o.attrs && r.vis == o.vis && r.name == o.name && r.path == o.path
  {
  }

  /** The later present `err` decides the merged controller's error strategy. */
  lemma CtrlMergeStrategy(a: CtrlOptions, b: CtrlOptions)
    ensures b.err.Some? ==> a.Merge(b).ErrorStrategy() == b.ErrorStrategy()
    ensures b.err.None? ==> a.Merge(b).ErrorStrategy() == a.ErrorStrategy()
  {
  }

  /** Options scanned from a prefix of the attributes: whether a matching one was seen, and their merge; or a parse failure. */
  datatype Scan<T> = Scanning(any: bool, options: T) | Invalid

  /** Whether an attribute's path is exactly the identifier `ident`. */
  predicate Matches(a: Attribute, ident: string)
  {
    IsIdent(a.meta.path, ident)
  }

  /**
   * The scan `maybe_from_attributes` performs over `attrs`, last attribute last: non-matching
   * attributes are skipped, a bare word keeps the options so far, any other form is parsed and
   * merged, and a parse failure ends the scan.
   */
  function ScanAttributes<T>(attrs: seq<Attribute>, ident: string, dflt: T, merge: (T, T) -> T,
                             fromMeta: Meta -> Option<T>): (r: Scan<T>)
    ensures attrs == [] ==> r == Scanning(false, dflt)
    decreases |attrs|
  {
    if attrs == [] then Scanning(false, dflt)
    else
      var prefix := ScanAttributes(attrs[..|attrs| - 1], ident, dflt, merge, fromMeta);
      var a := attrs[|attrs| - 1];
      if prefix.Invalid? || !Matches(a, ident) then prefix
      else if a.meta.PathMeta? then Scanning(true, prefix.options)
      else if fromMeta(a.meta).None? then Invalid
      else Scanning(true, merge(prefix.options, fromMeta(a.meta).value))
  }

  /** `maybe_from_attributes`: the options when some attribute matched and every one parsed. */
  function FromAttributes<T>(attrs: seq<Attribute>, ident: string, dflt: T, merge: (T, T) -> T,
                             fromMeta: Meta -> Option<T>): (r: Option<T>)
    ensures r.Some? ==> ScanAttributes(attrs, ident, dflt, merge, fromMeta) == Scanning(true, r.value)
  {
    var s := ScanAttributes(attrs, ident, dflt, merge, fromMeta);
    if s.Scanning? && s.any then Some(s.options) else None
  }

  predicate Mentions(attrs: seq<Attribute>, ident: string)
  {
    exists i :: 0 <= i < |attrs| && Matches(attrs[i], ident)
  }

  /** Every matching attribute that is not a bare word parses. */
  predicate AllParse<T>(attrs: seq<Attribute>, ident: string, fromMeta: Meta -> Option<T>)
  {
    forall i :: 0 <= i < |attrs| && Matches(attrs[i], ident) && !attrs[i].meta.PathMeta? ==> fromMeta(attrs[i].meta).Some?
  }

  /** The scan fails exactly when some matching attribute does not parse, and otherwise records whether one matched. */
  lemma {:induction false} ScanOutcome<T>(attrs: seq<Attribute>, ident: string, dflt: T, merge: (T, T) -> T,
                                          fromMeta: Meta -> Option<T>)
    ensures var s := ScanAttributes(attrs, ident, dflt, merge, fromMeta);
            (s.Invalid? <==> !AllParse(attrs, ident, fromMeta)) && (s.Scanning? ==> (s.any <==> Mentions(attrs, ident)))
    decreases |attrs|
  {
    if attrs != [] {
      var init := attrs[..|attrs| - 1];
      var a := attrs[|attrs| - 1];
      ScanOutcome(init, ident, dflt, merge, fromMeta);
      assert forall i :: 0 <= i < |init| ==> init[i] == attrs[i];
      if !AllParse(init, ident, fromMeta) {
        var i :| 0 <= i < |init| && Matches(init[i], ident) && !init[i].meta.PathMeta? && fromMeta(init[i].meta).None?;
        assert attrs[i] == init[i];
      }
      if Mentions(init, ident) {
        var i :| 0 <= i < |init| && Matches(init[i], ident);
        assert attrs[i] == init[i];
      }
      if Matches(a, ident) {
        assert Matches(attrs[|attrs| - 1], ident);
      }
    }
  }

  /** `maybe_from_attributes` yields options iff some attribute matches and every matching one parses. */
  lemma FromAttributesSomeIff<T>(attrs: seq<Attribute>, ident: string, dflt: T, merge: (T, T) -> T,
                                 fromMeta: Meta -> Option<T>)
    ensures FromAttributes(attrs, ident, dflt, merge, fromMeta).Some? <==>
              Mentions(attrs, ident) && AllParse(attrs, ident, fromMeta)
  {
    ScanOutcome(attrs, ident, dflt, merge, fromMeta);
  }

  /** The attributes whose path is `ident`, in order. */
  function Matching(attrs: seq<Attribute>, ident: string): (r: seq<Attribute>)
    ensures |r| <= |attrs|
    decreases |attrs|
  {
    if attrs == [] then []
    else
      var init := Matching(attrs[..|attrs| - 1], ident);
      if Matches(attrs[|attrs| - 1], ident) then init + [attrs[|attrs| - 1]] else init
  }

  /** Attributes with other paths play no part in the scan. */
  lemma {:induction false} ScanIgnoresOthers<T>(attrs: seq<Attribute>, ident: string, dflt: T, merge: (T, T) -> T,
                                                fromMeta: Meta -> Option<T>)
    ensures ScanAttributes(attrs, ident, dflt, merge, fromMeta) ==
              ScanAttributes(Matching(attrs, ident), ident, dflt, merge, fromMeta)
    decreases |attrs|
  {
    if attrs != [] {
      var init := attrs[..|attrs| - 1];
      var a := attrs[|attrs| - 1];
      ScanIgnoresOthers(init, ident, dflt, merge, fromMeta);
      if Matches(a, ident) {
        var m := Matching(init, ident) + [a];
        assert m[..|m| - 1] == Matching(init, ident);
      }
    }
  }

  /** Once a matching attribute fails to parse, no later attribute revives the scan. */
  lemma {:induction false} InvalidIsFinal<T>(attrs: seq<Attribute>, k: nat, ident: string, dflt: T, merge: (T, T) -> T,
                                             fromMeta: Meta -> Option<T>)
    requires k <= |attrs|
    requires ScanAttributes(attrs[..k], ident, dflt, merge, fromMeta).Invalid?
    ensures ScanAttributes(attrs, ident, dflt, merge, fromMeta).Invalid?
    decreases |attrs| - k
  {
    if k < |attrs| {
      assert attrs[..k + 1][..k] == attrs[..k];
      InvalidIsFinal(attrs, k + 1, ident, dflt, merge, fromMeta);
    } else {
      assert attrs[..k] == attrs;
    }
  }

  /** The loop of `maybe_from_attributes`, returning as soon as an attribute fails to parse. */
  method MaybeFromAttributes<T>(attrs: seq<Attribute>, ident: string, dflt: T, merge: (T, T) -> T,
                                fromMeta: Meta -> Option<T>) returns (r: Option<T>)
    ensures r == FromAttributes(attrs, ident, dflt, merge, fromMeta)
  {
    var any := false;
    var options := dflt;
    for i := 0 to |attrs|
      invariant ScanAttributes(attrs[..i], ident, dflt, merge, fromMeta) == Scanning(any, options)
    {
      assert attrs[..i + 1][..i] == attrs[..i];
      var a := attrs[i];
      if Matches(a, ident) {
        any := true;
        if !a.meta.PathMeta? {
          var parsed := fromMeta(a.meta);
          if parsed.None? {
            InvalidIsFinal(attrs, i + 1, ident, dflt, merge, fromMeta);
            return None;
          }
          options := merge(options, parsed.value);
        }
      }
    }
    assert attrs[..|attrs|] == attrs;
    r := if any then Some(options) else None;
  }

  /** `MsgOptions::maybe_from_attributes`: the `msg` attributes merged in order. */
  method MsgFromAttributes(attrs: seq<Attribute>, fromMeta: Meta -> Option<MsgOptions>) returns (r: Option<MsgOptions>)
    ensures r == FromAttributes(attrs, "msg", MsgOptions.Default, (a: MsgOptions, b: MsgOptions) => a.Merge(b), fromMeta)
  {
    r := MaybeFromAttributes(attrs, "msg", MsgOptions.Default, (a: MsgOptions, b: MsgOptions) => a.Merge(b), fromMeta);
  }

  /** `CtrlOptions::maybe_from_attributes`: the `ctrl` attributes merged in order. */
  method CtrlFromAttributes(attrs: seq<Attribute>, fromMeta: Meta -> Option<CtrlOptions>) returns (r: Option<CtrlOptions>)
    ensures r == FromAttributes(attrs, "ctrl", CtrlOptions.Default, (a: CtrlOptions, b: CtrlOptions) => a.Merge(b), fromMeta)
  {
    r := MaybeFromAttributes(attrs, "ctrl", CtrlOptions.Default, (a: CtrlOptions, b: CtrlOptions) => a.Merge(b), fromMeta);
  }

  /**
   * Three `msg` attributes naming "Foo", then "Bar", then setting a restricted visibility merge to
   * the name "Bar", that visibility, and no attribute list.
   */
  lemma LaterMsgNameWins(m1: Meta, m2: Meta, m3: Meta, crate: Path, fromMeta: Meta -> Option<MsgOptions>)
    requires m1.ListMeta? && m2.ListMeta? && m3.ListMeta?
    requires IsIdent(m1.path, "msg") && IsIdent(m2.path, "msg") && IsIdent(m3.path, "msg")
    requires fromMeta(m1) == Some(MsgOptions.Default.(name := Some("Foo")))
    requires fromMeta(m2) == Some(MsgOptions.Default.(name := Some("Bar")))
    requires fromMeta(m3) == Some(MsgOptions.Default.(vis := Some(Restricted(crate))))
    ensures var r := FromAttributes([Attribute(m1), Attribute(m2), Attribute(m3)], "msg", MsgOptions.Default,
                                    (a: MsgOptions, b: MsgOptions) => a.Merge(b), fromMeta);
            r.Some? && r.value.attrs.None? && r.value.name == Some("Bar") && r.value.vis == Some(Restricted(crate))
  {
    var attrs := [Attribute(m1), Attribute(m2), Attribute(m3)];
    var merge := (a: MsgOptions, b: MsgOptions) => a.Merge(b);
    var o1 := MsgOptions.Default.(name := Some("Foo"));
    var o2 := o1.Merge(MsgOptions.Default.(name := Some("Bar")));
    var o3 := o2.Merge(MsgOptions.Default.(vis := Some(Restricted(crate))));
    assert attrs[..1][..0] == [];
    assert ScanAttributes(attrs[..1], "msg", MsgOptions.Default, merge, fromMeta) == Scanning(true, MsgOptions.Default.Merge(fromMeta(m1).value));
    assert attrs[..2][..1] == attrs[..1];
    assert ScanAttributes(attrs[..2], "msg", MsgOptions.Default, merge, fromMeta) == Scanning(true, o2);
    assert attrs[..3] == attrs;
    assert ScanAttributes(attrs, "msg", MsgOptions.Default, merge, fromMeta) == Scanning(true, o3);
  }
}
