/**
  The JSON render interceptor of `ActionController::Serialization`.

  A `render json: resource` call first asks `BuildJsonSerializer` for a serializer:
  the controller's default serializer options are merged with the caller's, the
  serializer class is taken from an explicit `:serializer` option or else from the
  serializer registry, and, when one is found, `:scope` and (for array-like
  resources) `:resource_name` are added to the merged copy before the serializer is
  built. `RenderOptionJson` then hands the serializer, or the raw resource when
  there is none, to the base JSON renderer together with the caller's options.

  The registry, the controller instance's methods and its `controller_name`, and
  the resource's `to_ary` are parameters.
 */
module Serialization {
  import opened Wrappers
  import opened RubyHash

  /** A method or accessor name (a Ruby symbol or string). */
  type Name = string

  /** A Ruby value, as far as this module tells values apart; classes, users and other objects are `Obj` references. */
  datatype Value = Nil | Bool(b: bool) | Sym(name: Name) | Str(s: string) | Obj(id: nat)

  /** Ruby's truthiness: everything except `nil` and `false`. */
  predicate Truthy(v: Value) {
    v != Nil && v != Bool(false)
  }

  /** Render options: a Ruby hash, keyed by symbols in practice. */
  type Options = Hash<Value, Value>

  const SerializerKey: Value := Sym("serializer")
  const ScopeKey: Value := Sym("scope")
  const ResourceNameKey: Value := Sym("resource_name")

  /** The scope accessor every controller class starts with. */
  const DefaultScopeName: Name := "current_user"

  /** The object given to `render json:`; `arrayLike` says whether it responds to `to_ary`. */
  datatype Resource = Resource(obj: Value, arrayLike: bool)

  /**
    What a controller instance offers this module: the methods it responds to
    (private ones included), each with the value it returns when called without
    arguments, and its `controller_name`.
   */
  datatype Handler = Handler(accessors: map<Name, Value>, controllerName: string)

  /** `serializer.new(resource, options)`: a serializer instance, known by the arguments it was built from. */
  datatype Serializer = Serializer(cls: Value, resource: Resource, options: Options)

  /** What reaches the base JSON renderer: the value to encode and the options. */
  datatype Payload = Raw(resource: Resource) | Serialized(serializer: Serializer)
  datatype BaseRender = BaseRender(payload: Payload, options: Option<Options>)

  /** `default_serializer_options`: the options every render starts from; an override point, empty here. */
  function DefaultSerializerOptions(): Options {
    []
  }

  /**
    `default_serializer_options.merge(options || {})`: a nil option hash counts as
    empty, and the caller's keys win over the defaults.
   */
  function MergedOptions(options: Option<Options>): (r: Options)
    ensures ToMap(r) == ToMap(DefaultSerializerOptions()) + ToMap(options.GetOr([]))
  {
    MergeSemantics(DefaultSerializerOptions(), options.GetOr([]));
    Merge(DefaultSerializerOptions(), options.GetOr([]))
  }

  /** With no default options, the serializer starts from the caller's own hash: same entries, same order. */
  lemma MergedOptionsAreCallers(options: Option<Options>)
    ensures MergedOptions(options) == options.GetOr([])
  {
    MergeDisjoint(DefaultSerializerOptions(), options.GetOr([]));
  }

  /**
    `options.fetch(:serializer, registry(resource))`: an explicit `:serializer`
    entry is used whatever its value (nil and false included); otherwise the
    registry's answer.
   */
  function ChosenSerializer(registry: Resource -> Value, resource: Resource, merged: Options): (r: Value)
    ensures SerializerKey in ToMap(merged) ==> r == ToMap(merged)[SerializerKey]
    ensures SerializerKey !in ToMap(merged) ==> r == registry(resource)
  {
    Fetch(merged, SerializerKey, registry(resource))
  }

  /**
    The options a serializer is built with, given the merged options: `:scope` is
    added unless it is already a key (whatever its value), `:resource_name` is set
    to the controller name for array-like resources, every other entry is kept,
    existing keys keep their places and new keys are appended in that order.
   */
  predicate SerializerOptionsFor(merged: Options, scope: Value, controllerName: string, arrayLike: bool, o: Options) {
    var m, n := ToMap(merged), ToMap(o);
    && Keys(o) == Keys(merged)
                  + (if ScopeKey in m then [] else [ScopeKey])
                  + (if arrayLike && ResourceNameKey !in m then [ResourceNameKey] else [])
    && ScopeKey in n && n[ScopeKey] == (if ScopeKey in m then m[ScopeKey] else scope)
    && (arrayLike ==> ResourceNameKey in n && n[ResourceNameKey] == Str(controllerName))
    && (forall k :: k in m && k != ScopeKey && (k != ResourceNameKey || !arrayLike) ==> k in n && n[k] == m[k])
  }

  /**
    What `build_json_serializer` returns: a serializer exactly when the chosen
    class is truthy, built from the resource and the augmented copy of the merged
    options.
   */
  predicate BuildsSerializer(registry: Resource -> Value, resource: Resource, options: Option<Options>,
                             scope: Value, controllerName: string, r: Option<Serializer>)
  {
    var merged := MergedOptions(options);
    var chosen := ChosenSerializer(registry, resource, merged);
    && (r.Some? <==> Truthy(chosen))
    && (r.Some? ==> && r.value.cls == chosen
                    && r.value.resource == resource
                    && SerializerOptionsFor(merged, scope, controllerName, resource.arrayLike, r.value.options))
  }

  /** Adding `:scope` when it is missing and then `:resource_name` for array-like resources gives the serializer's options. */
  lemma ScopeThenResourceName(merged: Options, scoped: Options, o: Options, scope: Value, controllerName: string, arrayLike: bool)
    requires scoped == if ScopeKey in ToMap(merged) then merged else Store(merged, ScopeKey, scope)
    requires o == if arrayLike then Store(scoped, ResourceNameKey, Str(controllerName)) else scoped
    ensures SerializerOptionsFor(merged, scope, controllerName, arrayLike, o)
  {
    ScopeThenResourceNameKeys(merged, scoped, o, scope, controllerName, arrayLike);
  }

  /** The key order part of `ScopeThenResourceName`. */
  lemma ScopeThenResourceNameKeys(merged: Options, scoped: Options, o: Options, scope: Value, controllerName: string, arrayLike: bool)
    requires scoped == if ScopeKey in ToMap(merged) then merged else Store(merged, ScopeKey, scope)
    requires o == if arrayLike then Store(scoped, ResourceNameKey, Str(controllerName)) else scoped
    ensures Keys(o) == Keys(merged)
                       + (if ScopeKey in ToMap(merged) then [] else [ScopeKey])
                       + (if arrayLike && ResourceNameKey !in ToMap(merged) then [ResourceNameKey] else [])
  {
    var ks := Keys(merged);
    ToMapDomain(merged, ScopeKey);
    ToMapDomain(merged, ResourceNameKey);
    ToMapDomain(scoped, ResourceNameKey);
    var add1: seq<Value> := if ScopeKey in ToMap(merged) then [] else [ScopeKey];
    var add2: seq<Value> := if arrayLike && ResourceNameKey !in ToMap(merged) then [ResourceNameKey] else [];
    assert Keys(scoped) == ks + add1 by {
      if ScopeKey in ToMap(merged) {
        assert ks + add1 == ks;
      }
    }
    assert Keys(o) == Keys(scoped) + add2 by {
      if !arrayLike || ResourceNameKey in ToMap(merged) {
        assert Keys(scoped) + add2 == Keys(scoped);
      }
    }
  }

  /** An explicit `:serializer` option decides, whatever the registry answers; nil or false there means no serializer. */
  lemma ExplicitSerializerWins(registry: Resource -> Value, resource: Resource, options: Options)
    requires SerializerKey in ToMap(options)
    ensures ChosenSerializer(registry, resource, MergedOptions(Some(options))) == ToMap(options)[SerializerKey]
  {
  }

  /** An explicit nil or false `:serializer` switches serialization off, whatever the registry would find. */
  lemma ExplicitFalsySerializerSkips(registry: Resource -> Value, resource: Resource, options: Options,
                                     scope: Value, controllerName: string, r: Option<Serializer>)
    requires SerializerKey in ToMap(options) && !Truthy(ToMap(options)[SerializerKey])
    requires BuildsSerializer(registry, resource, Some(options), scope, controllerName, r)
    ensures r == None
  {
  }

  /** The serializer's options are determined by the merged options, the scope, the controller name and `to_ary`. */
  lemma SerializerOptionsUnique(merged: Options, scope: Value, controllerName: string, arrayLike: bool, o1: Options, o2: Options)
    requires SerializerOptionsFor(merged, scope, controllerName, arrayLike, o1)
    requires SerializerOptionsFor(merged, scope, controllerName, arrayLike, o2)
    ensures o1 == o2
  {
    forall k
      ensures k in ToMap(o1) <==> k in ToMap(o2)
      ensures k in ToMap(o1) ==> ToMap(o1)[k] == ToMap(o2)[k]
    {
      ToMapDomain(o1, k);
      ToMapDomain(o2, k);
      ToMapDomain(merged, k);
    }
    HashExtensionality(o1, o2);
  }

  /** `build_json_serializer` has exactly one possible outcome. */
  lemma BuildsSerializerUnique(registry: Resource -> Value, resource: Resource, options: Option<Options>,
                               scope: Value, controllerName: string, r1: Option<Serializer>, r2: Option<Serializer>)
    requires BuildsSerializer(registry, resource, options, scope, controllerName, r1)
    requires BuildsSerializer(registry, resource, options, scope, controllerName, r2)
    ensures r1 == r2
  {
    if r1.Some? {
      SerializerOptionsUnique(MergedOptions(options), scope, controllerName, resource.arrayLike,
                              r1.value.options, r2.value.options);
    }
  }

  /**
    A controller class. Its one field is the class attribute `_serialization_scope`:
    the name of the accessor whose result becomes the serializers' scope (`None`
    stands for nil or false). A controller instance is the `Handler` passed to each call.
   */
  class Controller {
    var scopeName: Option<Name>

    /** Including the module sets the attribute to `:current_user`. */
    constructor ()
      ensures scopeName == Some(DefaultScopeName)
    {
      scopeName := Some(DefaultScopeName);
    }

    /** A subclass starts with its parent's accessor name. */
    constructor Subclass(parent: Controller)
      ensures scopeName == parent.scopeName
    {
      scopeName := parent.scopeName;
    }

    /** The class-level `serialization_scope(name)`: replaces the accessor name, without validating it. */
    method SetSerializationScope(name: Option<Name>)
      modifies this
      ensures scopeName == name
    {
      scopeName := name;
    }

    /**
      The instance-level `serialization_scope`: the result of calling the configured
      accessor, or nil when no accessor is configured or the controller has no such method.
     */
    function SerializationScope(h: Handler): (r: Value)
      reads this
      ensures scopeName.Some? && scopeName.value in h.accessors ==> r == h.accessors[scopeName.value]
      ensures scopeName.None? || scopeName.value !in h.accessors ==> r == Nil
    {
      match scopeName
      case Some(name) => if name in h.accessors then h.accessors[name] else Nil
      case None => Nil
    }

    /** `build_json_serializer(resource, options)` */
    method BuildJsonSerializer(h: Handler, registry: Resource -> Value, resource: Resource, options: Option<Options>)
      returns (r: Option<Serializer>)
      ensures BuildsSerializer(registry, resource, options, SerializationScope(h), h.controllerName, r)
    {
      var opts := MergedOptions(options);
      ghost var merged := opts;
      var serializer := Fetch(opts, SerializerKey, registry(resource));
      if Truthy(serializer) {
        if !HasKey(opts, ScopeKey) {
          opts := Store(opts, ScopeKey, SerializationScope(h));
        }
        ghost var scoped := opts;
        if resource.arrayLike {
          opts := Store(opts, ResourceNameKey, Str(h.controllerName));
        }
        ScopeThenResourceName(merged, scoped, opts, SerializationScope(h), h.controllerName, resource.arrayLike);
        r := Some(Serializer(serializer, resource, opts));
      } else {
        r := None;
      }
    }

    /**
      `_render_option_json(resource, options)`: the base renderer receives the
      serializer when there is one and the raw resource otherwise, and in both
      cases the caller's options, not the augmented copy.
     */
    method RenderOptionJson(h: Handler, registry: Resource -> Value, resource: Resource, options: Option<Options>)
      returns (call: BaseRender)
      ensures call.options == options
      ensures call.payload.Raw? ==>
                && call.payload.resource == resource
                && BuildsSerializer(registry, resource, options, SerializationScope(h), h.controllerName, None)
      ensures call.payload.Serialized? ==>
                BuildsSerializer(registry, resource, options, SerializationScope(h), h.controllerName,
                                 Some(call.payload.serializer))
    {
      var serializer := BuildJsonSerializer(h, registry, resource, options);
      if serializer.Some? {
        call := BaseRender(Serialized(serializer.value), options);
      } else {
        call := BaseRender(Raw(resource), options);
      }
    }
  }
}
