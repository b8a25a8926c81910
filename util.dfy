/** The two-argument merge of lib/util.js. */
module Util {
  import opened Js

  /**
   * `merge(defaults, options)`: every own property of `options` is assigned onto
   * `defaults`, in place, and `defaults` itself is returned. A null or undefined
   * `options` enumerates nothing. When `options` is `defaults` itself every
   * assignment writes back the value already there.
   */
  method Merge(defaults: JsObject, options: JsObject?) returns (r: JsObject)
    modifies defaults
    ensures r == defaults
    ensures options == null ==> defaults.props == old(defaults.props)
    ensures options != null ==> defaults.props == old(defaults.props) + old(options.props)
    ensures options != null ==> defaults.props.Keys == old(defaults.props.Keys) + old(options.props.Keys)
    ensures options != null ==> forall k :: k in old(options.props) ==> defaults.props[k] == old(options.props[k])
    ensures forall k :: k in old(defaults.props) && (options == null || k !in old(options.props)) ==>
      defaults.props[k] == old(defaults.props[k])
  {
    if options != null {
      ghost var d0 := defaults.props;
      ghost var src := options.props;
      var keys := options.props.Keys;
      while keys != {}
        invariant keys <= src.Keys
        invariant options != defaults ==> options.props == src
        invariant defaults.props == d0 + map k | k in src.Keys - keys :: src[k]
        invariant options == defaults ==> defaults.props == src
        decreases keys
      {
        var k :| k in keys;
        defaults.props := defaults.props[k := options.props[k]];
        keys := keys - {k};
      }
      assert src.Keys - keys == src.Keys;
      assert (map k | k in src.Keys :: src[k]) == src;
    }
    r := defaults;
  }
}
