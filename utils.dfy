/** The in-place helpers of lib/utils.js: the variadic merge and sanitizeOAuthContent. */
module Utils {
  import opened Wrappers
  import opened Js
  import Util

  type Props = map<string, Value>

  // ---------------------------------------------------------------------------
  // merge(defaults, source1, ..., sourceN)

  /**
   * What a source contributes when the merge reaches it: its properties, or
   * nothing when it is null (nothing to enumerate) or the target itself (every
   * assignment writes back the value already there).
   */
  function View(target: JsObject, source: JsObject?): Option<Props>
    reads source
  {
    if source == null || source == target then None else Some(source.props)
  }

  function Views(target: JsObject, sources: seq<JsObject?>): (vs: seq<Option<Props>>)
    reads set o | o in sources && o != null
    ensures |vs| == |sources|
    ensures forall i :: 0 <= i < |sources| ==> vs[i] == View(target, sources[i])
  {
    if sources == [] then []
    else Views(target, sources[..|sources| - 1]) + [View(target, sources[|sources| - 1])]
  }

  function Step(acc: Props, v: Option<Props>): Props
  {
    if v.Some? then acc + v.value else acc
  }

  /** The target's properties after the sources `vs` have been merged into `acc`, left to right. */
  function MergeAll(acc: Props, vs: seq<Option<Props>>): Props
  {
    if vs == [] then acc else Step(MergeAll(acc, vs[..|vs| - 1]), vs[|vs| - 1])
  }

  /** Every key that some source contributes. */
  function SourceKeys(vs: seq<Option<Props>>): set<string>
  {
    if vs == [] then {}
    else SourceKeys(vs[..|vs| - 1]) + (if vs[|vs| - 1].Some? then vs[|vs| - 1].value.Keys else {})
  }

  /**
   * `merge(defaults, s1, ..., sn)`: the sources' properties are assigned onto
   * `defaults` in argument order, in place, and `defaults` itself is returned.
   * The inner loop over one source's keys is the two-argument merge of lib/util.js.
   */
  method Merge(defaults: JsObject, sources: seq<JsObject?>) returns (r: JsObject)
    modifies defaults
    ensures r == defaults
    ensures defaults.props == MergeAll(old(defaults.props), old(Views(defaults, sources)))
  {
    ghost var vs := Views(defaults, sources);
    ghost var d0 := defaults.props;
    for i := 0 to |sources|
      invariant defaults.props == MergeAll(d0, vs[..i])
      invariant forall j :: 0 <= j < |sources| && sources[j] != null && sources[j] != defaults ==>
        vs[j] == Some(sources[j].props)
    {
      ghost var acc := defaults.props;
      var _ := Util.Merge(defaults, sources[i]);
      assert vs[..i + 1][..i] == vs[..i];
      if sources[i] == defaults {
        assert acc + acc == acc;
      }
    }
    assert vs[..|sources|] == vs;
    r := defaults;
  }

  /** The key set after the merge is the union of the target's and every source's keys. */
  lemma {:induction false} MergeAllKeys(acc: Props, vs: seq<Option<Props>>)
    ensures MergeAll(acc, vs).Keys == acc.Keys + SourceKeys(vs)
  {
    if vs != [] {
      MergeAllKeys(acc, vs[..|vs| - 1]);
    }
  }

  /** A key that some source holds ends up with its value in the LAST source holding it. */
  lemma {:induction false} MergeAllLastWins(acc: Props, vs: seq<Option<Props>>, j: nat, k: string)
    requires j < |vs| && vs[j].Some? && k in vs[j].value
    requires forall i :: j < i < |vs| && vs[i].Some? ==> k !in vs[i].value
    ensures k in MergeAll(acc, vs) && MergeAll(acc, vs)[k] == vs[j].value[k]
  {
    if j < |vs| - 1 {
      MergeAllLastWins(acc, vs[..|vs| - 1], j, k);
    }
  }

  /** A key that no source holds keeps the target's original value (or stays absent). */
  lemma {:induction false} MergeAllKeepsOthers(acc: Props, vs: seq<Option<Props>>, k: string)
    requires forall i :: 0 <= i < |vs| && vs[i].Some? ==> k !in vs[i].value
    ensures k in MergeAll(acc, vs) <==> k in acc
    ensures k in acc ==> MergeAll(acc, vs)[k] == acc[k]
  {
    if vs != [] {
      MergeAllKeepsOthers(acc, vs[..|vs| - 1], k);
    }
  }

  /** With no sources, or only empty ones, null ones and the target itself, nothing changes. */
  lemma {:induction false} MergeAllNoop(acc: Props, vs: seq<Option<Props>>)
    requires forall i :: 0 <= i < |vs| ==> vs[i].None? || vs[i].value == map[]
    ensures MergeAll(acc, vs) == acc
  {
    if vs != [] {
      MergeAllNoop(acc, vs[..|vs| - 1]);
      assert acc + map[] == acc;
    }
  }

  // ---------------------------------------------------------------------------
  // sanitizeOAuthContent(content)

  function BoolText(b: bool): string
  {
    if b then "true" else "false"
  }

  /** A boolean property value becomes its string form; anything else is kept. */
  function SanitizeValue(v: Value): Value
  {
    if v.Bool? then Str(BoolText(v.b)) else v
  }

  function Sanitized(props: Props): Props
  {
    map k | k in props :: SanitizeValue(props[k])
  }

  /**
   * `sanitizeOAuthContent(content)`: when `content` is an object, each of its own
   * boolean-valued properties is rewritten in place to 'true' or 'false'; any other
   * value (falsy, a string, a number, a function) is left alone. The argument itself
   * is returned.
   */
  method SanitizeOAuthContent(content: Value) returns (r: Value)
    modifies Footprint(content)
    ensures r == content
    ensures content.Obj? ==> content.o.props == Sanitized(old(content.o.props))
  {
    if Truthy(content) && IsObject(content) {
      var o := content.o;
      ghost var p0 := o.props;
      var keys := o.props.Keys;
      while keys != {}
        invariant keys <= p0.Keys
        invariant o.props == map k | k in p0 :: if k in keys then p0[k] else SanitizeValue(p0[k])
        decreases keys
      {
        var e :| e in keys;
        if o.props[e].Bool? {
          o.props := o.props[e := Str(BoolText(o.props[e].b))];
        }
        keys := keys - {e};
      }
    }
    r := content;
  }

  /** Sanitizing keeps the key set, leaves no boolean behind and keeps every other value. */
  lemma SanitizedSpec(props: Props)
    ensures Sanitized(props).Keys == props.Keys
    ensures forall k :: k in props ==> !Sanitized(props)[k].Bool?
    ensures forall k :: k in props && props[k].Bool? ==> Sanitized(props)[k] == Str(BoolText(props[k].b))
    ensures forall k :: k in props && !props[k].Bool? ==> Sanitized(props)[k] == props[k]
  {
  }

  /** Sanitizing twice is sanitizing once. */
  lemma SanitizedIdempotent(props: Props)
    ensures Sanitized(Sanitized(props)) == Sanitized(props)
  {
  }
}
