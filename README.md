# ActionController serialization, modelled in Dafny

This project models the Rails controller integration of `active_model_serializers`:
the `ActionController::Serialization` concern, which makes `render json: resource`
go through a per-type serializer instead of plain `to_json`.

For each `render json:` call the concern does the following:

- It merges the controller's `default_serializer_options` (empty) with the caller's
  options. A nil option hash counts as empty, and the caller's keys win.
- It takes the serializer class from an explicit `:serializer` option, if that key
  is present, whatever its value. Otherwise it asks the serializer registry.
- When the chosen class is truthy, it adds `:scope` to the merged copy unless
  `:scope` is already a key. It sets `:resource_name` to `controller_name` for
  resources that respond to `to_ary`. Then it builds `serializer.new(resource, options)`.
- It hands the serializer, or the raw resource when there is none, to the base
  JSON renderer. In both cases the renderer gets the caller's original options.

The scope is the result of calling the accessor named by the class attribute
`_serialization_scope`. It defaults to `:current_user`, and
`serialization_scope :name` replaces it. When the attribute is nil or false, or
the controller has no such method, the scope is nil.

Files:

- `wrappers.dfy`: `Option`.
- `ruby_hash.dfy`: Ruby's insertion-ordered `Hash`. It is an association list with
  distinct keys (`Hash<K, V>`). `ToMap` is its abstract value and `Keys` its
  enumeration order. The operations the concern uses are `fetch`, `has_key?`,
  `[]=` (`Store`) and `merge`.
- `serialization.dfy`: the concern. `Controller` is a controller class. Its field
  `scopeName` is the class attribute `_serialization_scope`, with `None` standing
  for nil or false. A controller instance is the `Handler` value given to each call.

External collaborators are parameters:

- The serializer registry (`ActiveModel::Serializer.serializer_for`) is a function
  `registry: Resource -> Value`.
- `respond_to?(name, true)` and `send(name)` on the controller are the map
  `Handler.accessors`, from method name (private methods included) to the value
  the method returns.
- `controller_name` is `Handler.controllerName`.
- `to_ary` is `Resource.arrayLike`.
- `serializer.new` is recorded as the value `Serializer(cls, resource, options)`.
- The base renderer call is recorded as the value `BaseRender(payload, options)`.

Three points of the code are worth noting:

- The base renderer receives the caller's original options. `merge` builds a new
  hash, so the `:scope` and `:resource_name` insertions reach only the serializer
  (lib/action_controller/serialization.rb:94-98, 76).
- When no scope accessor is configured, `:scope` is still added to the
  serializer's options, with the value nil (line 97).
- For resources that are not array-like, `:resource_name` keeps whatever the
  caller supplied under that key (line 98).

## Model

| member | source | states |
|---|---|---|
| RubyHash.Lookup | lib/action_controller/serialization.rb:96-97 | scanning the entries finds a key exactly when it is in the hash's abstract value, and yields the value stored under it (the basis of `fetch` and `has_key?`) |
| RubyHash.Store | lib/action_controller/serialization.rb:97-98 | `options[k] = v` leaves a hash (keys stay distinct) whose value is the old one with `k` mapped to `v`; an existing key keeps its position, a new key is appended last |
| RubyHash.HasKey | lib/action_controller/serialization.rb:97 | `options.has_key?(k)` holds exactly when `k` is a key of the hash |
| RubyHash.Fetch | lib/action_controller/serialization.rb:96 | `options.fetch(k, default)` is the value stored under `k` when `k` is a key, and `default` otherwise |
| RubyHash.MergeSemantics | lib/action_controller/serialization.rb:94 | `a.merge(b)` (the function `Merge`) maps every key of `b` to `b`'s value and every other key of `a` to `a`'s value, with nothing else; `a`'s keys keep their positions at the front |
| RubyHash.MergeKeyOrder | lib/action_controller/serialization.rb:94 | after `a`'s keys, `a.merge(b)` enumerates the keys of `b` that `a` lacks, in `b`'s order |
| RubyHash.MergeDisjoint | lib/action_controller/serialization.rb:94 | merging hashes that share no key yields exactly the receiver's entries followed by the argument's, in order |
| Serialization.MergedOptions | lib/action_controller/serialization.rb:94 | the merged options are the defaults overridden by the caller's keys; a nil option hash counts as empty |
| Serialization.MergedOptionsAreCallers | lib/action_controller/serialization.rb:84-86 | because `default_serializer_options` (the function `DefaultSerializerOptions`) is empty, the merged options are exactly the caller's hash (same entries, same order), or empty for nil |
| Serialization.ChosenSerializer | lib/action_controller/serialization.rb:96 | a `:serializer` key in the merged options decides the class whatever its value; without that key the class is the registry's answer for the resource |
| Serialization.ExplicitSerializerWins | lib/action_controller/serialization.rb:96 | a `:serializer` supplied by the caller is the chosen class, whatever the registry returns |
| Serialization.ExplicitFalsySerializerSkips | lib/action_controller/serialization.rb:96 | an explicit nil or false `:serializer` yields no serializer, even when the registry has one |
| Serialization.ScopeThenResourceName | lib/action_controller/serialization.rb:97-98 | storing `:scope` only when it is not a key, then `:resource_name` only for array-like resources, gives options where an existing `:scope` (even nil) is untouched, a missing one holds the resolved scope, `:resource_name` holds the controller name exactly for array-like resources, every other entry is unchanged, and new keys are appended in that order |
| Serialization.SerializerOptionsUnique | lib/action_controller/serialization.rb:97-98 | the serializer's options are fully determined by the merged options, the scope, the controller name and `to_ary` |
| Serialization.BuildsSerializerUnique | lib/action_controller/serialization.rb:93-102 | `build_json_serializer`'s specification admits exactly one outcome for given inputs |
| Serialization.Controller.constructor | lib/action_controller/serialization.rb:59-62 | a controller class starts with the scope accessor `:current_user` |
| Serialization.Controller.Subclass | lib/action_controller/serialization.rb:60 | a subclass starts with its parent's scope accessor |
| Serialization.Controller.SetSerializationScope | lib/action_controller/serialization.rb:67-69 | the class-level setter replaces the accessor name with the given one, accepting any value, nil included |
| Serialization.Controller.SerializationScope | lib/action_controller/serialization.rb:88-91 | the scope is the configured accessor's result when the attribute is set and the controller responds to that name (private methods count); otherwise nil, with no error |
| Serialization.Controller.BuildJsonSerializer | lib/action_controller/serialization.rb:93-102 | returns a serializer exactly when the chosen class is truthy; the serializer is built from that class, the resource, and the merged options augmented with `:scope` and `:resource_name` as above |
| Serialization.Controller.RenderOptionJson | lib/action_controller/serialization.rb:72-80 | the base renderer always receives the caller's original options; it receives the raw resource exactly when no serializer is chosen, and otherwise the serializer `build_json_serializer` specifies |

## Left out

- The base renderer reached through `super`, and all JSON encoding. They belong to Rails' `ActionController::Renderers`, which is not part of this model. The model records what would be passed to it.
- The serializer registry and the serializer classes' own construction and field selection. They are library code outside this module, modelled as a parameter function and a record of the constructor's arguments.
- Ruby reflection (`respond_to?(name, true)`, `send`). It is modelled as a map from method name to the value the call returns. A scope accessor with side effects, or one that raises, is not modelled. A truthy attribute value that is not a method name (where `respond_to?` would raise) is not modelled: the attribute is `Option<Name>`.
- Overriding the instance-level `serialization_scope` or `default_serializer_options` in a controller subclass. The model uses the module's own definitions.
- The `class_attribute` inheritance machinery. A subclass copies its parent's accessor name when it is created (`Controller.Subclass`). A later change to the parent's attribute does not reach existing subclasses in the model, although it does in Rails for subclasses that never set their own.
- Serializer construction failing. `serializer.new` is assumed to succeed. So a truthy `:serializer` that is not a class (a string, `true`), or a constructor that raises, yields a serializer in the model, where Ruby raises at line 100.
- The eager evaluation of the registry lookup in the `fetch` default at line 96. The registry is a side-effect-free function, so this has no observable effect.
- Hash keys compare by value equality on the `Value` datatype. Ruby's `eql?`/`hash` protocol for arbitrary objects is not modelled.
