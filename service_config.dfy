/** The shapes shared by both tool implementations: a service (provider) definition,
    the extractor strategies an `id` function can be, and the untyped JavaScript values
    a user configuration may hold, with the kind tests (`typeof`, `instanceof`,
    `Number.isFinite`) the validators apply to them. */
module ServiceConfig {
  import opened Js

  /** A regular expression, identified by its source text; matching it is left to a
      `Matcher` supplied by the caller. */
  datatype RegExp = RegExp(source: string)

  /** What `regex.exec(url)` returns: `null` (None) or the match array, whose element 0
      is the whole match and the rest the capture groups (undefined when they did not take part). */
  type Matcher = (RegExp, string) -> Option<seq<Option<string>>>

  /** The capture groups of a match array: `slice(1)`. */
  function Groups(matched: seq<Option<string>>): (r: seq<Option<string>>)
    ensures |r| == if |matched| > 0 then |matched| - 1 else 0
    ensures forall i :: 0 <= i < |r| ==> r[i] == matched[i + 1]
  {
    if |matched| == 0 then [] else matched[1..]
  }

  /** The identifier-extraction strategies: the youtube query remapping, or joining
      every capture group with a separator. */
  datatype Extractor = YouTubeParams | JoinGroups(separator: string)

  /** One property of a JavaScript object: not an own key at all, or an own key holding
      a value that may be `undefined`. `Object.assign` copies the latter, even when undefined. */
  datatype Prop<T> = Missing | Present(value: Option<T>) {
    /** Reading the property: a missing key reads as undefined. */
    function Get(): Option<T> {
      match this
      case Missing => None
      case Present(v) => v
    }
  }

  /** A service configuration object (`Service` in src/index.ts, `ServiceConfig` in
      src/serviceConfig.ts). `regex`, `embedUrl` and `html` are always set; the other
      three may be absent or undefined. */
  datatype Service = Service(
    regex: RegExp,
    embedUrl: string,
    html: string,
    height: Prop<int>,
    width: Prop<int>,
    id: Prop<Extractor>)

  /** `Object.assign({}, target, source)` on two service objects: every own key of the
      source overwrites the target's, undefined values included. */
  function Assign(target: Service, source: Service): (r: Service)
    ensures r.regex == source.regex && r.embedUrl == source.embedUrl && r.html == source.html
    ensures source.height.Present? ==> r.height == source.height
    ensures source.height.Missing? ==> r.height == target.height
    ensures source.width.Present? ==> r.width == source.width
    ensures source.width.Missing? ==> r.width == target.width
    ensures source.id.Present? ==> r.id == source.id
    ensures source.id.Missing? ==> r.id == target.id
  {
    Service(
      source.regex,
      source.embedUrl,
      source.html,
      if source.height.Present? then source.height else target.height,
      if source.width.Present? then source.width else target.width,
      if source.id.Present? then source.id else target.id)
  }

  /** A service object that has all six keys as own properties, as the objects rebuilt
      from user configuration do. */
  predicate HasAllKeys(s: Service) {
    s.height.Present? && s.width.Present? && s.id.Present?
  }

  /** An untyped JavaScript value found in a user's service configuration. Numbers are
      integral; NaN and the infinities are the non-finite ones. */
  datatype Value =
    | Undefined
    | Null
    | Boolean(b: bool)
    | Number(n: int)
    | NaN
    | Infinity
    | PrimitiveString(s: string)
    | StringObject(s: string)
    | RegExpObject(r: RegExp)
    | FunctionObject(f: Extractor)
    | PlainObject
  {
    /** JavaScript truthiness. Every object, `new String("")` included, is truthy. */
    predicate Truthy() {
      match this
      case Undefined => false
      case Null => false
      case Boolean(b) => b
      case Number(n) => n != 0
      case NaN => false
      case Infinity => true
      case PrimitiveString(s) => s != ""
      case _ => true
    }

    /** `typeof v === 'string'`. */
    predicate TypeofString() { PrimitiveString? }

    /** `v instanceof String`: true only of a String object, never of a string literal. */
    predicate InstanceOfString() { StringObject? }

    /** `v instanceof RegExp`. */
    predicate InstanceOfRegExp() { RegExpObject? }

    /** `v instanceof Function`. */
    predicate InstanceOfFunction() { FunctionObject? }

    /** `Number.isFinite(v)`: false for every non-number. */
    predicate IsFinite() { Number? }
  }

  /** The six properties a validator destructures from a configuration object. */
  datatype ServiceObject = ServiceObject(
    regex: Value,
    embedUrl: Value,
    html: Value,
    height: Value,
    width: Value,
    id: Value)

  /** The value under one key of the user's `services` configuration. `Other` stands for
      numbers, strings and functions (neither boolean nor `typeof 'object'`). */
  datatype ConfigValue =
    | Flag(enabled: bool)
    | Object(fields: ServiceObject)
    | NullEntry
    | UndefinedEntry
    | Other

  /** `const {regex, embedUrl, html, height, width, id} = v`: destructuring `null` or
      `undefined` throws (None); any other non-object yields six undefined properties. */
  function Destructure(v: ConfigValue): (r: Option<ServiceObject>)
    ensures r.None? <==> v.NullEntry? || v.UndefinedEntry?
    ensures v.Object? ==> r == Some(v.fields)
  {
    match v
    case Object(o) => Some(o)
    case NullEntry => None
    case UndefinedEntry => None
    case _ => Some(ServiceObject(Undefined, Undefined, Undefined, Undefined, Undefined, Undefined))
  }

  /** The `services` property of a tool configuration: absent (it defaults to `{}`),
      `null` (`Object.entries(null)` throws), or an object's own entries in order. A
      number or boolean has no own entries and is an empty `Given`; a string's entries are
      its characters under their indices, each an `Other` value. */
  datatype ServicesSetting = Unset | NullServices | Given(entries: seq<(string, ConfigValue)>)

  /** Distinct keys, as the keys of a JavaScript object are. */
  ghost predicate DistinctKeys<V>(entries: seq<(string, V)>) {
    forall i, j :: 0 <= i < j < |entries| ==> entries[i].0 != entries[j].0
  }

  /** The keys of an entry list, in order. */
  function KeysOf<V>(entries: seq<(string, V)>): (r: seq<string>)
    ensures |r| == |entries|
    ensures forall i :: 0 <= i < |entries| ==> r[i] == entries[i].0
  {
    if entries == [] then [] else KeysOf(entries[..|entries| - 1]) + [entries[|entries| - 1].0]
  }
}
