/**
 * The keyframe-step rule plugin (packages/jss/src/plugins/keyframeRule.ts): the rule
 * for one step (`from`, `50%`, …) inside a `@keyframes` container.
 */
module KeyframeRule {
  import opened Wrappers
  import opened StyleValues
  import opened JssTypes

  datatype KeyframeRule = KeyframeRule(key: string, style: Value, options: RuleOptions)

  /** `sheet ? sheet.options.link : false` */
  predicate LinkMode(rule: KeyframeRule) {
    rule.options.sheet.Some? && rule.options.sheet.value.link
  }

  /** `{...options, allowEmpty: true}`, where spreading `undefined` contributes nothing. */
  function ForceAllowEmpty(options: Option<ToCssOptions>): (r: ToCssOptions)
    ensures r.allowEmpty == Some(true)
    ensures options.Some? ==> r.indent == options.value.indent && r.children == options.value.children
    ensures options.None? ==> r.indent.None? && r.children.None?
  {
    match options
    case None => ToCssOptions(None, Some(true), None)
    case Some(o) => o.(allowEmpty := Some(true))
  }

  /**
   * `toString(options)`: the rule's own key, unscoped, is the selector; in link mode
   * empty rules are kept whatever the caller asked, otherwise the caller's options go
   * through untouched. The serializer itself is not part of this model: the result is
   * the request it receives.
   */
  function ToString(rule: KeyframeRule, options: Option<ToCssOptions>): (req: CssRequest)
    ensures req.selector == rule.key && req.style == rule.style
    ensures LinkMode(rule) ==> req.options.Some? && req.options.value.allowEmpty == Some(true)
    ensures LinkMode(rule) && options.Some? ==>
      req.options.value.indent == options.value.indent && req.options.value.children == options.value.children
    ensures !LinkMode(rule) ==> req.options == options
  {
    var opts := if LinkMode(rule) then Some(ForceAllowEmpty(options)) else options;
    CssRequest(rule.key, rule.style, opts)
  }

  /** `onCreateRule`: a keyframe rule exactly when the parent is a `keyframes` container. */
  function OnCreateRule(key: string, style: Value, options: RuleOptions): (r: Option<KeyframeRule>)
    ensures r.Some? <==> options.parent == Some(ContainerParent("keyframes"))
    ensures r.Some? ==> r.value == KeyframeRule(key, style, options)
  {
    if options.parent.Some? && options.parent.value.ContainerParent? && options.parent.value.ruleType == "keyframes" then
      Some(KeyframeRule(key, style, options))
    else
      None
  }

  /** In link mode the caller's `allowEmpty` has no effect on what is serialized. */
  lemma LinkModeIgnoresAllowEmpty(rule: KeyframeRule, a: ToCssOptions, b: ToCssOptions)
    requires LinkMode(rule)
    requires a.indent == b.indent && a.children == b.children
    ensures ToString(rule, Some(a)) == ToString(rule, Some(b))
  {
  }

  /** Feeding the serializer's options back in changes nothing: the forcing is idempotent. */
  lemma ToStringStable(rule: KeyframeRule, options: Option<ToCssOptions>)
    ensures ToString(rule, ToString(rule, options).options) == ToString(rule, options)
  {
  }

  /** A rule created under a `keyframes` container serializes under the key it was created with. */
  lemma CreatedRuleSerializesItsKey(key: string, style: Value, options: RuleOptions, css: Option<ToCssOptions>)
    requires options.parent == Some(ContainerParent("keyframes"))
    ensures OnCreateRule(key, style, options).Some?
    ensures ToString(OnCreateRule(key, style, options).value, css).selector == key
    ensures ToString(OnCreateRule(key, style, options).value, css).style == style
    ensures options.sheet.Some? && options.sheet.value.link ==>
      ToString(OnCreateRule(key, style, options).value, css).options.value.allowEmpty == Some(true)
  {
  }
}
