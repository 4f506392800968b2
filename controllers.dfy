/** The handler registry: for each page slug, the controller whose named
    methods the section's events are routed to. Handlers are opaque; a
    controller is modelled by the names it binds to a callable. */
module Controllers {
  import opened JsValue

  type Controller = set<string>
  type Registry = map<string, Controller>

  /** `controllers` in lib/controllers/index.ts: the `login` page's controller
      binds `executeClick`. */
  const AppRegistry: Registry := map["login" := {"executeClick"}]

  /** The names a plain object literal such as `{}` inherits from Object.prototype. */
  const ObjectPrototypeMembers: set<string> := {
    "constructor", "hasOwnProperty", "isPrototypeOf", "propertyIsEnumerable",
    "toLocaleString", "toString", "valueOf", "__proto__",
    "__defineGetter__", "__defineSetter__", "__lookupGetter__", "__lookupSetter__"
  }

  /** The inherited members whose call with one payload object throws a
      TypeError: `__proto__` is not a function, and the two definers demand a
      function as their second argument. */
  const ThrowingMembers: set<string> := {"__proto__", "__defineGetter__", "__defineSetter__"}

  /** What a method lookup reaches. */
  datatype Target = Bound(name: string) | Inherited(name: string) | NoTarget

  /** `(controllers[slug] || {})[name]` as the code evaluates it: the lookup
      on a plain object also sees what the object inherits. */
  function TargetAsWritten(registry: Registry, slug: string, name: string): (t: Target)
    ensures t.Bound? <==> slug in registry && name in registry[slug]
    ensures t.Inherited? <==> !t.Bound? && name in ObjectPrototypeMembers
  {
    var controller := if slug in registry then registry[slug] else {};
    if name in controller then Bound(name)
    else if name in ObjectPrototypeMembers then Inherited(name)
    else NoTarget
  }

  /** As written, a page with no controller still reaches a callable for some
      method names: `__proto__` is reached and calling it throws. */
  lemma UnregisteredSlugReachesPrototype()
    ensures TargetAsWritten(AppRegistry, "home", "__proto__") == Inherited("__proto__")
    ensures "__proto__" in ThrowingMembers
    ensures TargetAsWritten(AppRegistry, "home", "toString") == Inherited("toString")
  {
  }

  /** The lookup the code evidently intends: only a method the page's
      controller itself binds is ever resolved. */
  function Resolve(registry: Registry, slug: string, name: string): (r: Option<string>)
    ensures r.Some? <==> slug in registry && name in registry[slug]
    ensures r.Some? ==> r.value == name
  {
    if slug in registry && name in registry[slug] then Some(name) else None
  }

  /** A page with no registered controller resolves nothing, whatever the name. */
  lemma UnregisteredSlugIsSilent(registry: Registry, slug: string, name: string)
    requires slug !in registry
    ensures Resolve(registry, slug, name) == None
  {
  }

  /** Away from the inherited names, the corrected lookup and the code agree. */
  lemma ResolveAgreesAsWritten(registry: Registry, slug: string, name: string)
    requires name !in ObjectPrototypeMembers
    ensures Resolve(registry, slug, name).Some? <==> TargetAsWritten(registry, slug, name).Bound?
    ensures !TargetAsWritten(registry, slug, name).Inherited?
  {
  }
}
