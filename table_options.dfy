/** The configuration a `Table` is built with (`configObject` in
    src/types/global.d.ts and the defaults of the `Table` constructor in
    src/classes/Table.class.ts), merged by `Options`. */
module TableOptions {
  import opened JsValue
  import Options

  /** `timestampsObject`: the names of the three timestamp columns. */
  datatype StampNames = StampNames(createdAt: string, updatedAt: string, deletedAt: string)

  /** A value of the configuration object: a string, a flag, or, for
      `timestamps`, an object naming the timestamp columns. */
  datatype Setting = Text(text: string) | Flag(flag: bool) | Names(names: StampNames)

  /** The timestamp column names a table starts with. */
  const DefaultStampNames: StampNames := StampNames("created_at", "updated_at", "deleted_at")

  /** `Object.values` of a timestamps object, in declaration order. */
  function StampList(n: StampNames): (r: seq<string>)
    ensures |r| == 3 && r[0] == n.createdAt && r[1] == n.updatedAt && r[2] == n.deletedAt
  {
    [n.createdAt, n.updatedAt, n.deletedAt]
  }

  /** The defaults the constructor merges the options over. */
  const DefaultConfig: map<string, Setting> := map[
    "prefix" := Text(""),
    "pkName" := Text("id"),
    "pkType" := Text("serial"),
    "alter" := Flag(false),
    "paranoid" := Flag(false),
    "timestamps" := Flag(false),
    "logs" := Flag(false),
    "errLogs" := Flag(false)]

  /** The settings an options object gives have the declared types:
      strings for the names, flags for the switches, a flag or an object
      for `timestamps`. */
  predicate Typed(c: map<string, Setting>)
  {
    ("prefix" in c ==> c["prefix"].Text?)
    && ("pkName" in c ==> c["pkName"].Text?)
    && ("pkType" in c ==> c["pkType"].Text?)
    && ("alter" in c ==> c["alter"].Flag?)
    && ("paranoid" in c ==> c["paranoid"].Flag?)
    && ("timestamps" in c ==> !c["timestamps"].Text?)
    && ("logs" in c ==> c["logs"].Flag?)
    && ("errLogs" in c ==> c["errLogs"].Flag?)
  }

  /** Every setting the table reads is present. */
  predicate Complete(c: map<string, Setting>)
  {
    "prefix" in c && "pkName" in c && "pkType" in c && "alter" in c
    && "paranoid" in c && "timestamps" in c && "logs" in c && "errLogs" in c
  }

  /** `new Options(options, defaults).config` for the table: a falsy
      options argument yields the defaults; otherwise every given setting
      wins and the defaults fill the rest. The result is complete and typed
      whenever the given settings are. */
  function TableConfig(input: Option<map<string, Setting>>): (c: map<string, Setting>)
    requires input.Some? ==> Typed(input.value)
    ensures Typed(c) && Complete(c)
    ensures input.Some? ==> forall k :: k in input.value ==> k in c && c[k] == input.value[k]
    ensures forall k :: k in DefaultConfig && (input.None? || k !in input.value) ==> c[k] == DefaultConfig[k]
  {
    var merged := Options.Config(input, Some(DefaultConfig));
    assert merged.Some?;
    merged.value
  }

  /** The table's name prefix. */
  function Prefix(c: map<string, Setting>): string
    requires Typed(c) && Complete(c)
  {
    c["prefix"].text
  }

  /** The primary key's column name. */
  function PkName(c: map<string, Setting>): string
    requires Typed(c) && Complete(c)
  {
    c["pkName"].text
  }

  /** The primary key's SQL type. */
  function PkType(c: map<string, Setting>): string
    requires Typed(c) && Complete(c)
  {
    c["pkType"].text
  }

  /** Whether rows are deleted by marking them. */
  predicate Paranoid(c: map<string, Setting>)
    requires Typed(c) && Complete(c)
  {
    c["paranoid"].flag
  }

  /** `timestamps` is truthy: `true`, or an object. */
  predicate StampsOn(c: map<string, Setting>)
    requires Typed(c) && Complete(c)
  {
    match c["timestamps"]
    case Flag(b) => b
    case _ => true
  }

  /** `typeof timestamps === 'object'`: the configuration names the
      timestamp columns itself. */
  predicate StampsNamed(c: map<string, Setting>)
    requires Typed(c) && Complete(c)
  {
    c["timestamps"].Names?
  }

  /** Options left out, or given as an empty object, leave every default
      in place: no prefix, an `id serial` primary key, and no timestamps,
      paranoid deletion or logging. */
  lemma DefaultSettings(input: Option<map<string, Setting>>)
    requires input == None || input == Some(map[])
    ensures Prefix(TableConfig(input)) == "" && PkName(TableConfig(input)) == "id"
    ensures PkType(TableConfig(input)) == "serial"
    ensures !Paranoid(TableConfig(input)) && !StampsOn(TableConfig(input))
  {
  }
}
