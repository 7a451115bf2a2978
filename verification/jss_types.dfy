/**
 * The option records that flow between `Jss`, rule factories and rules
 * (`RuleOptions`, `ToCssOptions`, `JssOptions`, `StyleSheetFactoryOptions` in
 * packages/jss/src/types/jss.ts), with the collaborators they point to reduced to
 * identities.
 */
module JssTypes {
  import opened Wrappers
  import opened StyleValues

  /** `CreateGenerateIdOptions`: the id-generator settings, such as `minify`. */
  type IdOptions = map<string, Primitive>

  /** A `createGenerateId` factory: the library default or one the caller supplied. */
  datatype CreateGenerateId = DefaultCreateGenerateId | CustomCreateGenerateId(ref: Ref)

  /**
   * A `generateId` function: either the result of calling a factory with id options, or a
   * generator the caller handed in directly. A built generator is the result of one
   * factory call, named by the instance that made the call (`owner`) and by how many
   * calls that instance had made before (`serial`). Results of different calls are
   * taken to be different functions; see README "## Left out".
   */
  datatype GenerateId =
    | Built(owner: Ref, serial: nat, factory: CreateGenerateId, options: IdOptions)
    | CustomGenerateId(ref: Ref)

  /** A renderer class: the DOM renderer or one the caller supplied. */
  datatype Renderer = DomRenderer | CustomRenderer(ref: Ref)

  /** Where style elements are inserted: a comment text or an element. */
  datatype InsertionPoint = InsertionComment(text: string) | InsertionElement(ref: Ref)

  /** The style sheet a rule belongs to, reduced to its identity and its `link` option. */
  datatype Sheet = Sheet(ref: Ref, link: bool)

  /** A rule's parent: a container rule of some `type`, or a style sheet. */
  datatype Parent = ContainerParent(ruleType: string) | SheetParent(sheet: Sheet)

  /**
   * `RuleOptions` (and the partial `RuleFactoryOptions` callers pass): `None` is an
   * absent, `undefined` or `null` property.
   */
  datatype RuleOptions = RuleOptions(
    selector: Option<string>,
    scoped: Option<bool>,
    sheet: Option<Sheet>,
    index: Option<int>,
    parent: Option<Parent>,
    classes: Option<map<string, string>>,
    keyframes: Option<map<string, string>>,
    jss: Option<Ref>,
    generateId: Option<GenerateId>,
    renderer: Field<Renderer>,
    name: Option<string>)

  /** `ToCssOptions`: `None` is an absent property. */
  datatype ToCssOptions = ToCssOptions(indent: Option<int>, allowEmpty: Option<bool>, children: Option<bool>)

  /** The call the serializer `toCss(selector, style, options)` receives. */
  datatype CssRequest = CssRequest(selector: string, style: Value, options: Option<ToCssOptions>)
}
