/** `Options<T>` (src/classes/Options.class.ts): a configuration computed once
    from an input object and a defaults object, by shallow merge. An object is
    a map from property name to value; `None` stands for a falsy input
    (`undefined`, `null`) or for undefined defaults. */
module Options {
  import opened JsValue

  /** The configuration `new Options(input, defaults).config` holds. A falsy
      input yields the defaults themselves; otherwise `{...defaults, ...input}`:
      every key of either object, the input's value winning on overlap.
      Spreading undefined defaults contributes no keys. */
  function Config<V>(input: Option<map<string, V>>, defaults: Option<map<string, V>>): (r: Option<map<string, V>>)
    ensures input.None? ==> r == defaults
    ensures input.Some? ==> r.Some?
    ensures input.Some? && defaults.Some? ==> r.value.Keys == defaults.value.Keys + input.value.Keys
    ensures input.Some? && defaults.None? ==> r.value == input.value
    ensures input.Some? ==> forall k :: k in input.value ==> r.value[k] == input.value[k]
    ensures input.Some? && defaults.Some? ==>
      forall k :: k in defaults.value && k !in input.value ==> r.value[k] == defaults.value[k]
    ensures input == Some(map[]) && defaults.Some? ==> r == defaults
  {
    if input.None? then defaults
    else
      var base := if defaults.Some? then defaults.value else map[];
      assert input.value == map[] ==> base + input.value == base;
      Some(base + input.value)
  }

  /** An Options instance: `config` is fixed by the constructor and the getter
      hands it back unchanged; there is no mutator. */
  datatype Options<V> = Options(config: Option<map<string, V>>)

  /** `new Options(input, defaults)`. */
  function NewOptions<V>(input: Option<map<string, V>>, defaults: Option<map<string, V>>): (o: Options<V>)
    ensures input.None? ==> o.config == defaults
    ensures input.Some? ==> o.config.Some? && input.value.Keys <= o.config.value.Keys
    ensures input.Some? ==> forall k :: k in input.value ==> o.config.value[k] == input.value[k]
    ensures input.Some? && defaults.Some? ==>
      o.config.value.Keys == defaults.value.Keys + input.value.Keys
      && forall k :: k in defaults.value && k !in input.value ==> o.config.value[k] == defaults.value[k]
    ensures input.Some? && defaults.None? ==> o.config == input
  {
    Options(Config(input, defaults))
  }
}
