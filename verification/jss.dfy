/**
 * The `Jss` instance (packages/jss/src/Jss.ts) as an immutable record threaded through
 * its operations: the instance options, the current id generator and the plugin
 * registrations made so far.
 */
module Jss {
  import opened Wrappers
  import opened StyleValues
  import opened JssTypes

  /** A plugin; its hooks are never invoked by the operations modelled here. */
  datatype Plugin = Plugin(ref: Ref)

  datatype Queue = Internal | External

  /** One `plugins.use(plugin, {queue})` call on the instance's plugin registry. */
  datatype Registration = Registration(plugin: Plugin, queue: Queue)

  /** `JssOptions` as the caller passes them to the constructor or `setup`. */
  datatype JssOptions = JssOptions(
    createGenerateId: Field<CreateGenerateId>,
    id: Field<IdOptions>,
    plugins: Field<seq<Plugin>>,
    insertionPoint: Field<InsertionPoint>,
    renderer: Field<Renderer>)

  /** `InternalJssOptions`; `renderer` records `undefined` and `null` apart, as the caller set them. */
  datatype InternalOptions = InternalOptions(
    id: IdOptions,
    createGenerateId: CreateGenerateId,
    renderer: Field<Renderer>,
    insertionPoint: Option<InsertionPoint>,
    plugins: seq<Plugin>)

  /**
   * An instance: its identity, its options, its current id generator, how many
   * generators it has built so far, and its plugin registrations.
   */
  datatype Jss = Jss(handle: Ref, options: InternalOptions, generateId: GenerateId, generators: nat,
                     registrations: seq<Registration>)

  /** The current generator is one the instance built itself, and its serial has already been issued (is below the counter). */
  predicate OwnsGenerator(j: Jss) {
    j.generateId.Built? && j.generateId.owner == j.handle && j.generateId.serial < j.generators
  }

  /** The plugins of the logged `plugins.use` calls naming queue `q`, in call order. */
  function QueueOf(regs: seq<Registration>, q: Queue): seq<Plugin>
    decreases |regs|
  {
    if |regs| == 0 then []
    else if regs[|regs| - 1].queue == q then QueueOf(regs[..|regs| - 1], q) + [regs[|regs| - 1].plugin]
    else QueueOf(regs[..|regs| - 1], q)
  }

  lemma {:induction false} QueueOfAppend(a: seq<Registration>, b: seq<Registration>, q: Queue)
    ensures QueueOf(a + b, q) == QueueOf(a, q) + QueueOf(b, q)
    decreases |b|
  {
    if |b| == 0 {
      assert a + b == a;
    } else {
      assert (a + b)[..|a + b| - 1] == a + b[..|b| - 1];
      QueueOfAppend(a, b[..|b| - 1], q);
    }
  }

  /** The logged calls `plugins.use(p, {queue: q})` for the plugins `p` of `ps`, in order. */
  function AsRegistrations(ps: seq<Plugin>, q: Queue): (regs: seq<Registration>)
    ensures |regs| == |ps|
    decreases |ps|
  {
    if |ps| == 0 then [] else AsRegistrations(ps[..|ps| - 1], q) + [Registration(ps[|ps| - 1], q)]
  }

  lemma {:induction false} AsRegistrationsAt(ps: seq<Plugin>, q: Queue, i: nat)
    requires i < |ps|
    ensures AsRegistrations(ps, q)[i] == Registration(ps[i], q)
    decreases |ps|
  {
    if i < |ps| - 1 {
      AsRegistrationsAt(ps[..|ps| - 1], q, i);
    }
  }

  /** Registrations naming one queue add exactly their plugins to that queue's log, and nothing to the other's. */
  lemma {:induction false} QueueOfRegistrations(ps: seq<Plugin>, q: Queue, q': Queue)
    ensures QueueOf(AsRegistrations(ps, q), q') == if q == q' then ps else []
    decreases |ps|
  {
    if |ps| > 0 {
      var init := ps[..|ps| - 1];
      QueueOfRegistrations(init, q, q');
      var regs := AsRegistrations(ps, q);
      assert regs[..|regs| - 1] == AsRegistrations(init, q);
      assert init + [ps[|ps| - 1]] == ps;
    }
  }

  /** `plugins.use(p, {queue: q})` for each plugin of `ps`, in order. */
  function RegisterAll(j: Jss, ps: seq<Plugin>, q: Queue): (r: Jss)
    ensures r == j.(registrations := j.registrations + AsRegistrations(ps, q))
    decreases |ps|
  {
    if |ps| == 0 then j
    else
      var j' := RegisterAll(j, ps[..|ps| - 1], q);
      j'.(registrations := j'.registrations + [Registration(ps[|ps| - 1], q)])
  }

  /** `use(...plugins)`: one `plugins.use` call per argument, as an external registration, in argument order, duplicates included. */
  function Use(j: Jss, plugins: seq<Plugin>): (r: Jss)
    ensures QueueOf(r.registrations, External) == QueueOf(j.registrations, External) + plugins
    ensures QueueOf(r.registrations, Internal) == QueueOf(j.registrations, Internal)
    ensures r == j.(registrations := j.registrations + AsRegistrations(plugins, External))
  {
    var added := AsRegistrations(plugins, External);
    QueueOfAppend(j.registrations, added, Internal);
    QueueOfAppend(j.registrations, added, External);
    QueueOfRegistrations(plugins, External, Internal);
    QueueOfRegistrations(plugins, External, External);
    RegisterAll(j, plugins, External)
  }

  /** Whether `setup(options)` rebuilds the id generator: `options.createGenerateId || options.id`. */
  predicate RebuildsGenerateId(options: JssOptions) {
    options.createGenerateId.IsSet() || options.id.IsSet()
  }

  /** The options `setup` reads: the given ones, or `{}` for a call without argument. */
  function OrEmpty(options: Option<JssOptions>): JssOptions {
    if options.Some? then options.value else JssOptions(Missing, Missing, Missing, Missing, Missing)
  }

  /** The plugins `setup` passes to `use`: the given list when `options.plugins` is truthy, else none. */
  function PluginsOf(o: JssOptions): seq<Plugin> {
    if o.plugins.IsSet() then o.plugins.value else []
  }

  /**
   * `setup(options)`: merges the id options (the caller's keys win), rebuilds the id
   * generator (a new function) only when a factory or id options were given, replaces the insertion
   * point only with a non-null value, replaces the renderer whenever the key is present
   * (even with `null` or `undefined`), and registers the given plugins as external.
   * `None` is a call without argument.
   */
  function Setup(j: Jss, options: Option<JssOptions>): (r: Jss)
    ensures var o := OrEmpty(options);
      && r.handle == j.handle
      && r.options.plugins == j.options.plugins
      && r.options.createGenerateId == (if o.createGenerateId.IsSet() then o.createGenerateId.value else j.options.createGenerateId)
      && r.options.id.Keys == j.options.id.Keys + (if o.id.IsSet() then o.id.value.Keys else {})
      && (forall k :: k in r.options.id ==>
            r.options.id[k] == if o.id.IsSet() && k in o.id.value then o.id.value[k] else j.options.id[k])
      && (RebuildsGenerateId(o) ==>
            r.generateId == Built(j.handle, j.generators, r.options.createGenerateId, r.options.id)
            && r.generators == j.generators + 1)
      && (!RebuildsGenerateId(o) ==>
            r.generateId == j.generateId && r.generators == j.generators && r.options.id == j.options.id)
      && (OwnsGenerator(j) ==> OwnsGenerator(r) && (r.generateId != j.generateId <==> RebuildsGenerateId(o)))
      && r.options.insertionPoint == (if o.insertionPoint.IsSet() then Some(o.insertionPoint.value) else j.options.insertionPoint)
      && r.options.renderer == (if o.renderer.IsPresent() then o.renderer else j.options.renderer)
      && r.registrations == j.registrations + AsRegistrations(PluginsOf(o), External)
      && QueueOf(r.registrations, Internal) == QueueOf(j.registrations, Internal)
      && QueueOf(r.registrations, External) ==
           QueueOf(j.registrations, External) + PluginsOf(o)
  {
    var o := OrEmpty(options);
    var createGenerateId := if o.createGenerateId.IsSet() then o.createGenerateId.value else j.options.createGenerateId;
    var id := if o.id.IsSet() then j.options.id + o.id.value else j.options.id;
    var generateId := if RebuildsGenerateId(o) then Built(j.handle, j.generators, createGenerateId, id) else j.generateId;
    var generators := if RebuildsGenerateId(o) then j.generators + 1 else j.generators;
    var insertionPoint := if o.insertionPoint.IsSet() then Some(o.insertionPoint.value) else j.options.insertionPoint;
    var renderer := if o.renderer.IsPresent() then o.renderer else j.options.renderer;
    var j' := j.(options := j.options.(createGenerateId := createGenerateId, id := id,
                                       insertionPoint := insertionPoint, renderer := renderer),
                 generateId := generateId, generators := generators);
    if o.plugins.IsSet() then Use(j', o.plugins.value) else j'
  }

  /** The instance before its constructor body runs: the field initialisers. */
  function Initial(handle: Ref, inBrowser: bool): Jss {
    var id := map["minify" := Bool(false)];
    Jss(handle,
        InternalOptions(id, DefaultCreateGenerateId, if inBrowser then Given(DomRenderer) else Field.Null, None, []),
        Built(handle, 0, DefaultCreateGenerateId, id),
        1,
        [])
  }

  /**
   * `new Jss(options)`: starts from the field initialisers (id options `{minify: false}`,
   * the default factory and a generator built from it, the DOM renderer in a browser and
   * `null` elsewhere), logs one internal registration per built-in plugin, in array
   * order, then runs `setup(options)`.
   */
  function New(handle: Ref, internalPlugins: seq<Plugin>, inBrowser: bool, options: Option<JssOptions>): (r: Jss)
    ensures QueueOf(r.registrations, Internal) == internalPlugins
    ensures QueueOf(r.registrations, External) == PluginsOf(OrEmpty(options))
    ensures |r.registrations| >= |internalPlugins|
    ensures forall i :: 0 <= i < |internalPlugins| ==> r.registrations[i] == Registration(internalPlugins[i], Internal)
    ensures forall i :: |internalPlugins| <= i < |r.registrations| ==> r.registrations[i].queue == External
    ensures var o := OrEmpty(options);
      && r.handle == handle
      && r.options.createGenerateId == (if o.createGenerateId.IsSet() then o.createGenerateId.value else DefaultCreateGenerateId)
      && r.options.id == (if o.id.IsSet() then map["minify" := Bool(false)] + o.id.value else map["minify" := Bool(false)])
      && r.options.renderer ==
           (if o.renderer.IsPresent() then o.renderer else if inBrowser then Given(DomRenderer) else Field.Null)
      && r.options.insertionPoint == (if o.insertionPoint.IsSet() then Some(o.insertionPoint.value) else None)
      && r.options.plugins == []
    ensures OwnsGenerator(r) && r.generateId.factory == r.options.createGenerateId && r.generateId.options == r.options.id
  {
    var j := RegisterAll(Initial(handle, inBrowser), internalPlugins, Internal);
    var r := Setup(j, options);
    var extra := PluginsOf(OrEmpty(options));
    NewRegistrations(j, r, internalPlugins, extra);
    NewOptions(j, r, handle, inBrowser, options);
    QueueOfRegistrations(internalPlugins, Internal, Internal);
    QueueOfRegistrations(internalPlugins, Internal, External);
    assert [] + AsRegistrations(internalPlugins, Internal) == AsRegistrations(internalPlugins, Internal);
    r
  }

  /** `setup` applied to the field initialisers, whatever the registrations. */
  lemma NewOptions(j: Jss, r: Jss, handle: Ref, inBrowser: bool, options: Option<JssOptions>)
    requires j == Initial(handle, inBrowser).(registrations := j.registrations)
    requires r == Setup(j, options)
    ensures var o := OrEmpty(options);
      && r.handle == handle
      && r.options.createGenerateId == (if o.createGenerateId.IsSet() then o.createGenerateId.value else DefaultCreateGenerateId)
      && r.options.id == (if o.id.IsSet() then map["minify" := Bool(false)] + o.id.value else map["minify" := Bool(false)])
      && r.options.renderer ==
           (if o.renderer.IsPresent() then o.renderer else if inBrowser then Given(DomRenderer) else Field.Null)
      && r.options.insertionPoint == (if o.insertionPoint.IsSet() then Some(o.insertionPoint.value) else None)
      && r.options.plugins == []
    ensures OwnsGenerator(r) && r.generateId.factory == r.options.createGenerateId && r.generateId.options == r.options.id
  {
  }

  lemma NewRegistrations(j: Jss, r: Jss, internalPlugins: seq<Plugin>, extra: seq<Plugin>)
    requires j.registrations == [] + AsRegistrations(internalPlugins, Internal)
    requires r.registrations == j.registrations + AsRegistrations(extra, External)
    ensures |r.registrations| >= |internalPlugins|
    ensures forall i :: 0 <= i < |internalPlugins| ==> r.registrations[i] == Registration(internalPlugins[i], Internal)
    ensures forall i :: |internalPlugins| <= i < |r.registrations| ==> r.registrations[i].queue == External
  {
    assert [] + AsRegistrations(internalPlugins, Internal) == AsRegistrations(internalPlugins, Internal);
    forall i | 0 <= i < |r.registrations|
      ensures i < |internalPlugins| ==> r.registrations[i] == Registration(internalPlugins[i], Internal)
      ensures i >= |internalPlugins| ==> r.registrations[i].queue == External
    {
      if i < |internalPlugins| {
        AsRegistrationsAt(internalPlugins, Internal, i);
      } else {
        AsRegistrationsAt(extra, External, i - |internalPlugins|);
      }
    }
  }

  /** `StyleSheetFactoryOptions` as far as `createStyleSheet` reads or forwards them. */
  datatype SheetFactoryOptions = SheetFactoryOptions(
    media: Option<string>,
    meta: Option<string>,
    index: Option<int>,
    link: Option<bool>,
    generateId: Option<GenerateId>,
    classNamePrefix: Option<string>)

  /** The options `createStyleSheet` hands to the new `StyleSheet`. */
  datatype SheetOptions = SheetOptions(
    media: Option<string>,
    meta: Option<string>,
    link: Option<bool>,
    classNamePrefix: Option<string>,
    index: int,
    jss: Ref,
    generateId: GenerateId,
    insertionPoint: Option<InsertionPoint>,
    renderer: Field<Renderer>)

  /**
   * The index of a new sheet: the requested one when it is a number, otherwise `0`
   * while the registry's index is `0`, else one past the registry's index.
   */
  function SheetIndex(requested: Option<int>, registryIndex: int): (index: int)
    ensures requested.Some? ==> index == requested.value
    ensures requested.None? ==> index >= registryIndex
    ensures requested.None? && registryIndex != 0 ==> index == registryIndex + 1
    ensures requested.None? && registryIndex == 0 ==> index == 0
  {
    if requested.Some? then requested.value
    else if registryIndex == 0 then 0
    else registryIndex + 1
  }

  /** `createStyleSheet(styles, options)`, up to the construction of the sheet. */
  function CreateStyleSheetOptions(j: Jss, options: Option<SheetFactoryOptions>, registryIndex: int): (r: SheetOptions)
    ensures options.Some? && options.value.index.Some? ==> r.index == options.value.index.value
    ensures (options.None? || options.value.index.None?) ==> r.index == SheetIndex(None, registryIndex)
    ensures r.jss == j.handle
    ensures r.generateId == if options.Some? && options.value.generateId.Some? then options.value.generateId.value else j.generateId
    ensures r.insertionPoint == j.options.insertionPoint && r.renderer == j.options.renderer
    ensures options.Some? ==> r.link == options.value.link && r.media == options.value.media
    ensures options.Some? ==> r.meta == options.value.meta && r.classNamePrefix == options.value.classNamePrefix
    ensures options.None? ==> r.media.None? && r.meta.None? && r.link.None? && r.classNamePrefix.None?
  {
    var o := if options.Some? then options.value else SheetFactoryOptions(None, None, None, None, None, None);
    SheetOptions(o.media, o.meta, o.link, o.classNamePrefix,
                 SheetIndex(o.index, registryIndex),
                 j.handle,
                 if o.generateId.Some? then o.generateId.value else j.generateId,
                 j.options.insertionPoint,
                 j.options.renderer)
  }

  /**
   * The two shapes of a `createRule` call: `createRule(name, style?, options?)` with a
   * string or `undefined` name, and `createRule(style, options?)` whose first argument
   * is a value of type `object` (a plain object, an array, another object, `null`).
   * `None` is an argument left out; an explicit `undefined` style is `Some(Prim(Undefined))`.
   */
  datatype RuleCall =
    | ByName(name: Option<string>, style: Option<Value>, options: Option<RuleOptions>)
    | ByStyle(inlineStyle: Value, inlineOptions: Option<RuleOptions>)

  /** The arguments handed to the rule factory (`createRule` in utils). */
  datatype FactoryRequest = FactoryRequest(name: Option<string>, style: Value, options: RuleOptions)

  /** What a `createRule` call did: the factory request, its result, the rules given to `onProcessRule`. */
  datatype CreateRuleOutcome<R> = CreateRuleOutcome(request: FactoryRequest, rule: Option<R>, processed: seq<R>, next: Ref)

  const NoRuleOptions := RuleOptions(None, None, None, None, None, None, None, None, None, Missing, None)

  /** `{...options, name, jss: this, Renderer: this.options.Renderer}` followed by the three defaults. */
  function RuleOptionsFor(j: Jss, name: Option<string>, options: RuleOptions): (r: RuleOptions)
    ensures r.name == name && r.jss == Some(j.handle) && r.renderer == j.options.renderer
    ensures r.generateId == if options.generateId.Some? then options.generateId else Some(j.generateId)
    ensures r.classes == if options.classes.Some? then options.classes else Some(map[])
    ensures r.keyframes == if options.keyframes.Some? then options.keyframes else Some(map[])
    ensures r.(name := options.name, jss := options.jss, renderer := options.renderer,
               generateId := options.generateId, classes := options.classes, keyframes := options.keyframes) == options
  {
    var spread := options.(name := name, jss := Some(j.handle), renderer := j.options.renderer);
    var withId := if spread.generateId.None? then spread.(generateId := Some(j.generateId)) else spread;
    var withClasses := if withId.classes.None? then withId.(classes := Some(map[])) else withId;
    if withClasses.keyframes.None? then withClasses.(keyframes := Some(map[])) else withClasses
  }

  /** Whether a `style` argument takes the parameter's default: left out or `undefined`. */
  predicate TakesDefault(style: Option<Value>) {
    style.None? || style.value == Prim(Primitive.Undefined)
  }

  /**
   * `createRule(...)` (deprecated): an object first argument shifts the arguments; a
   * style left out or `undefined` defaults to a new empty plain object (allocated at
   * `next`); the rule comes from `factory`, and `onProcessRule` sees it exactly when it
   * is not `null`.
   */
  function CreateRule<R>(j: Jss, call: RuleCall, next: Ref, factory: FactoryRequest -> Option<R>): (out: CreateRuleOutcome<R>)
    requires call.ByStyle? ==> TypeOf(call.inlineStyle) == "object"
    ensures out.rule == factory(out.request)
    ensures out.processed == if out.rule.Some? then [out.rule.value] else []
    ensures next <= out.next
    ensures call.ByName? ==> out.request.name == call.name
    ensures call.ByStyle? ==> out.request.name.None? && out.request.style == call.inlineStyle
    ensures call.ByName? && !TakesDefault(call.style) ==> out.request.style == call.style.value && out.next == next
    ensures call.ByName? && TakesDefault(call.style) ==> out.request.style == Plain(next, []) && out.next == next + 1
    ensures out.request.options.name == out.request.name
    ensures out.request.options.jss == Some(j.handle)
    ensures out.request.options.renderer == j.options.renderer
    ensures out.request.options.generateId.Some? && out.request.options.classes.Some? && out.request.options.keyframes.Some?
    decreases call.ByStyle?
  {
    match call
    case ByStyle(style, options) =>
      CreateRule(j, ByName(None, Some(style), options), next, factory)
    case ByName(name, style, options) =>
      var s := if TakesDefault(style) then Plain(next, []) else style.value;
      var n := if TakesDefault(style) then next + 1 else next;
      var o := RuleOptionsFor(j, name, if options.Some? then options.value else NoRuleOptions);
      var request := FactoryRequest(name, s, o);
      var rule := factory(request);
      CreateRuleOutcome(request, rule, if rule.Some? then [rule.value] else [], n)
  }
}

module JssLemmas {
  import opened Wrappers
  import opened StyleValues
  import opened JssTypes
  import opened Jss

  /**
   * Calling `setup` a second time with the same options leaves every option as the first
   * call left them. When a factory or id options are given, it installs yet another newly
   * built generator; otherwise it keeps the generator. It calls `plugins.use` again for
   * every given plugin, so the log then holds each of them once more.
   */
  lemma SetupTwice(j: Jss, options: Option<JssOptions>)
    ensures var once := Setup(j, options);
      var twice := Setup(once, options);
      && twice.handle == once.handle && twice.options == once.options
      && (RebuildsGenerateId(OrEmpty(options)) ==>
            twice.generateId != once.generateId && twice.generateId.options == once.generateId.options
            && twice.generateId.factory == once.generateId.factory)
      && (!RebuildsGenerateId(OrEmpty(options)) ==> twice.generateId == once.generateId)
      && QueueOf(twice.registrations, External) == QueueOf(once.registrations, External) + PluginsOf(OrEmpty(options))
      && multiset(QueueOf(twice.registrations, External)) ==
           multiset(QueueOf(j.registrations, External))
             + multiset(PluginsOf(OrEmpty(options))) + multiset(PluginsOf(OrEmpty(options)))
  {
    var once := Setup(j, options);
    var twice := Setup(once, options);
    assert twice.options.id == once.options.id;
    assert twice.options == once.options;
  }

  /** Setup without options, or with an options object holding none of the keys, changes nothing. */
  lemma SetupWithoutOptions(j: Jss)
    ensures Setup(j, None) == j
    ensures Setup(j, Some(JssOptions(Missing, Missing, Missing, Missing, Missing))) == j
  {
    assert Setup(j, None).options == j.options;
  }

  /** An explicit `Renderer: null` replaces the renderer, while `insertionPoint: null` is ignored. */
  lemma SetupNullRendererButNotInsertionPoint(j: Jss)
    ensures Setup(j, Some(JssOptions(Missing, Missing, Missing, Field.Null, Field.Null))).options.renderer == Field.Null
    ensures Setup(j, Some(JssOptions(Missing, Missing, Missing, Field.Null, Field.Null))).options.insertionPoint == j.options.insertionPoint
    ensures Setup(j, Some(JssOptions(Missing, Missing, Missing, Field.Undefined, Field.Undefined))).options.renderer == Field.Undefined
  {
  }

  lemma {:induction false} AsRegistrationsAppend(a: seq<Plugin>, b: seq<Plugin>, q: Queue)
    ensures AsRegistrations(a + b, q) == AsRegistrations(a, q) + AsRegistrations(b, q)
  {
    var l := AsRegistrations(a + b, q);
    var r := AsRegistrations(a, q) + AsRegistrations(b, q);
    assert |l| == |r|;
    forall i | 0 <= i < |l| ensures l[i] == r[i] {
      AsRegistrationsAt(a + b, q, i);
      if i < |a| {
        AsRegistrationsAt(a, q, i);
        assert (a + b)[i] == a[i];
      } else {
        AsRegistrationsAt(b, q, i - |a|);
        assert (a + b)[i] == b[i - |a|];
      }
    }
  }

  /** Two `use` calls register the same as one call with both argument lists, in order. */
  lemma UseComposes(j: Jss, a: seq<Plugin>, b: seq<Plugin>)
    ensures Use(Use(j, a), b) == Use(j, a + b)
  {
    var ja := Use(j, a);
    assert ja.registrations == j.registrations + AsRegistrations(a, External);
    var both := Use(ja, b);
    assert both == ja.(registrations := ja.registrations + AsRegistrations(b, External));
    AsRegistrationsAppend(a, b, External);
    assert both.registrations == j.registrations + AsRegistrations(a + b, External);
  }

  /** Using the same plugin twice registers it twice. */
  lemma UseKeepsDuplicates(j: Jss, p: Plugin)
    ensures QueueOf(Use(j, [p, p]).registrations, External) == QueueOf(j.registrations, External) + [p, p]
    ensures multiset(QueueOf(Use(Use(j, [p]), [p]).registrations, External))[p] ==
      multiset(QueueOf(j.registrations, External))[p] + 2
  {
    UseComposes(j, [p], [p]);
  }

  /** `createRule(style, options)` with an object first is `createRule(undefined, style, options)`. */
  lemma CreateRuleShiftsArguments<R>(j: Jss, style: Value, options: Option<RuleOptions>, next: Ref,
                                     factory: FactoryRequest -> Option<R>)
    requires TypeOf(style) == "object"
    ensures CreateRule(j, ByStyle(style, options), next, factory) == CreateRule(j, ByName(None, Some(style), options), next, factory)
  {
  }

  /** An explicit `undefined` style takes the default exactly as a style left out does. */
  lemma CreateRuleUndefinedStyle<R>(j: Jss, name: Option<string>, options: Option<RuleOptions>, next: Ref,
                                    factory: FactoryRequest -> Option<R>)
    ensures CreateRule(j, ByName(name, Some(Prim(Primitive.Undefined)), options), next, factory)
         == CreateRule(j, ByName(name, None, options), next, factory)
    ensures CreateRule(j, ByName(name, None, options), next, factory).request.style == Plain(next, [])
  {
  }

  /**
   * The defaults of `createRule` never override what the caller supplied, while `name`,
   * `jss` and `Renderer` always come from the call and the instance.
   */
  lemma CreateRuleKeepsCallerOptions<R>(j: Jss, name: Option<string>, style: Option<Value>, options: RuleOptions,
                                        next: Ref, factory: FactoryRequest -> Option<R>)
    ensures var o := CreateRule(j, ByName(name, style, Some(options)), next, factory).request.options;
      && (options.generateId.Some? ==> o.generateId == options.generateId)
      && (options.classes.Some? ==> o.classes == options.classes)
      && (options.keyframes.Some? ==> o.keyframes == options.keyframes)
      && o.selector == options.selector && o.sheet == options.sheet && o.parent == options.parent
      && o.index == options.index && o.scoped == options.scoped
      && o.name == name && o.jss == Some(j.handle) && o.renderer == j.options.renderer
  {
  }
}
