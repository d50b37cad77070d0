/** The earlier tool (src/index.js): its own `checkServiceConfig`, a `prepare` that
    filters the built-ins by a whitelist and a blacklist (user services are validated
    but the list holding them is thrown away), the static `pasteHandler`, and a `data`
    setter in which the value already held takes precedence. */
module LegacyEmbedTool {
  import opened Js
  import opened Text
  import opened ServiceConfig
  import opened Services
  import opened ServiceTable

  // ---------------------------------------------------------------------------
  // checkServiceConfig

  /** `Embed.checkServiceConfig` of src/index.js. It asks `embedUrl` and `html` to be
      `instanceof String`, which only String objects are, and an object is truthy even
      when empty. The chain of `&&` can yield a falsy non-boolean; its truthiness is
      what `filter` uses, and that is the result here. */
  function LegacyCheck(o: ServiceObject): (r: bool)
    ensures r <==>
      o.regex.RegExpObject? && o.embedUrl.StringObject? && o.html.StringObject? &&
      (o.id.Undefined? || o.id.FunctionObject?) &&
      (o.height.Undefined? || o.height.Number?) &&
      (o.width.Undefined? || o.width.Number?)
  {
    var valid := (o.regex.Truthy() && o.regex.InstanceOfRegExp())
      && (o.embedUrl.Truthy() && o.embedUrl.InstanceOfString())
      && (o.html.Truthy() && o.html.InstanceOfString());
    var valid := valid && (if !o.id.Undefined? then o.id.InstanceOfFunction() else true);
    var valid := valid && (if !o.height.Undefined? then o.height.IsFinite() else true);
    valid && (if !o.width.Undefined? then o.width.IsFinite() else true)
  }

  /** A service written as documented, with string literals for `embedUrl` or `html`,
      never passes; an empty String object does. */
  lemma StringLiteralsRejected(o: ServiceObject)
    ensures o.embedUrl.PrimitiveString? || o.html.PrimitiveString? ==> !LegacyCheck(o)
    ensures (o.regex.RegExpObject? && o.embedUrl == StringObject("") && o.html == StringObject("")
             && o.id.Undefined? && o.height.Undefined? && o.width.Undefined?) ==> LegacyCheck(o)
  {
  }

  // ---------------------------------------------------------------------------
  // prepare

  /** `whitelist` or `blacklist`: an array of keys, or anything else (only a non-empty
      array filters). An absent list defaults to `[]`. */
  datatype ListSetting = NotAnArray | AnArray(keys: seq<string>)

  /** `list instanceof Array && list.length`. */
  predicate Active(l: ListSetting) {
    l.AnArray? && |l.keys| > 0
  }

  /** The `config` destructured by `prepare({config})`: absent or `null` (destructuring
      it throws), or a configuration object. */
  datatype LegacyConfigArg =
    | NoConfig
    | NullConfig
    | Config(services: ServicesSetting, whitelist: ListSetting, blacklist: ListSetting)

  /** The user services are only validated, but validating destructures every value,
      so a `null` or `undefined` one throws. */
  predicate UserCheckThrows(entries: seq<(string, ConfigValue)>) {
    exists i :: 0 <= i < |entries| && Destructure(entries[i].1).None?
  }

  /** `entries.filter(([key]) => !list.includes(key))`. */
  function DropListed(entries: seq<(string, Service)>, list: seq<string>): (r: seq<(string, Service)>)
    ensures forall e :: e in r <==> e in entries && e.0 !in list
  {
    if entries == [] then []
    else
      var prefix := entries[..|entries| - 1];
      var last := entries[|entries| - 1];
      assert entries == prefix + [last];
      if last.0 in list then DropListed(prefix, list) else DropListed(prefix, list) + [last]
  }

  /** The blacklist filter distributes over concatenation, so it keeps the entries' order. */
  lemma {:induction false} DropListedAppend(a: seq<(string, Service)>, b: seq<(string, Service)>, list: seq<string>)
    ensures DropListed(a + b, list) == DropListed(a, list) + DropListed(b, list)
    decreases |b|
  {
    if b == [] {
      assert a + b == a;
    } else {
      var b' := b[..|b| - 1];
      assert (a + b)[..|a + b| - 1] == a + b';
      assert (a + b)[|a + b| - 1] == b[|b| - 1];
      DropListedAppend(a, b', list);
    }
  }

  /** The built-ins after the whitelist and then the blacklist. */
  function FilterLists(builtins: seq<(string, Service)>, whitelist: ListSetting, blacklist: ListSetting): (r: seq<(string, Service)>)
    ensures forall e :: e in r <==>
      (e in builtins && (!Active(whitelist) || e.0 in whitelist.keys) && (!Active(blacklist) || e.0 !in blacklist.keys))
  {
    var kept := if Active(whitelist) then KeepKeys(builtins, whitelist.keys) else builtins;
    if Active(blacklist) then DropListed(kept, blacklist.keys) else kept
  }

  /** The entry list `prepare` reduces. None: it throws. */
  function LegacyPrepareEntries(builtins: seq<(string, Service)>, config: LegacyConfigArg): (r: Option<seq<(string, Service)>>)
    ensures r.None? <==> (!config.Config? || config.services.NullServices?
      || (config.services.Given? && UserCheckThrows(config.services.entries)))
    ensures r.Some? ==> r.value == FilterLists(builtins, config.whitelist, config.blacklist)
  {
    match config
    case NoConfig => None
    case NullConfig => None
    case Config(services, whitelist, blacklist) =>
      if services.NullServices? || (services.Given? && UserCheckThrows(services.entries)) then None
      else Some(FilterLists(builtins, whitelist, blacklist))
  }

  /** The static state of the earlier tool class: `Embed.services` and `Embed.patterns`. */
  class LegacyRegistry {
    /** The imported `SERVICES` table, as `Object.entries` lists it. */
    const builtins: seq<(string, Service)>
    var services: Table<Service>
    var patterns: Table<RegExp>

    /** Before `prepare` runs no key resolves. */
    constructor()
      ensures builtins == Builtins()
      ensures services == Table([], map[]) && patterns == Table([], map[])
    {
      builtins := Builtins();
      services := Table([], map[]);
      patterns := Table([], map[]);
    }

    /** `Embed.prepare` of src/index.js. When it throws, the static objects keep their
        old values. */
    method Prepare(config: LegacyConfigArg) returns (thrown: bool)
      modifies this
      ensures thrown <==> LegacyPrepareEntries(builtins, config).None?
      ensures thrown ==> services == old(services) && patterns == old(patterns)
      ensures !thrown ==> services == ReduceServices(LegacyPrepareEntries(builtins, config).value)
      ensures !thrown ==> patterns == ReducePatterns(LegacyPrepareEntries(builtins, config).value)
    {
      if !config.Config? || config.services.NullServices? {
        return true;
      }
      if config.services.Given? {
        var given := config.services.entries;
        var i := 0;
        while i < |given|
          invariant 0 <= i <= |given|
          invariant forall k :: 0 <= k < i ==> Destructure(given[k].1).Some?
        {
          if Destructure(given[i].1).None? {
            return true;
          }
          i := i + 1;
        }
      }
      var entries := builtins;
      if Active(config.whitelist) {
        entries := KeepKeys(entries, config.whitelist.keys);
      }
      if Active(config.blacklist) {
        entries := DropListed(entries, config.blacklist.keys);
      }
      services := BuildServices(entries);
      patterns := BuildPatterns(entries);
      thrown := false;
    }
  }

  /** A built-in key is in `services` exactly when the whitelist, if active, lists it
      and the blacklist, if active, does not. */
  lemma {:induction false} ListsFilter(builtins: seq<(string, Service)>, whitelist: ListSetting, blacklist: ListSetting, key: string)
    requires key in KeysOf(builtins)
    ensures key in ReduceServices(FilterLists(builtins, whitelist, blacklist)).values
      <==> (!Active(whitelist) || key in whitelist.keys) && (!Active(blacklist) || key !in blacklist.keys)
  {
    var kept := if Active(whitelist) then KeepKeys(builtins, whitelist.keys) else builtins;
    var result := FilterLists(builtins, whitelist, blacklist);
    ServicesHoldKey(result, key);
    var b :| 0 <= b < |builtins| && KeysOf(builtins)[b] == key;
    assert builtins[b] in builtins;
    if (!Active(whitelist) || key in whitelist.keys) && (!Active(blacklist) || key !in blacklist.keys) {
      assert builtins[b] in kept;
      assert builtins[b] in result;
      var m :| 0 <= m < |result| && result[m] == builtins[b];
    } else {
      forall m | 0 <= m < |result|
        ensures result[m].0 != key
      {
        assert result[m] in result;
        assert result[m] in kept;
      }
    }
  }

  /** Whatever the configuration, `services` holds only built-in keys: user services are
      never added. */
  lemma OnlyBuiltins(builtins: seq<(string, Service)>, config: LegacyConfigArg, key: string)
    requires LegacyPrepareEntries(builtins, config).Some?
    requires key in ReduceServices(LegacyPrepareEntries(builtins, config).value).values
    ensures key in KeysOf(builtins)
  {
    var result := LegacyPrepareEntries(builtins, config).value;
    var kept := if Active(config.whitelist) then KeepKeys(builtins, config.whitelist.keys) else builtins;
    ServicesHoldKey(result, key);
    var m :| 0 <= m < |result| && result[m].0 == key;
    assert result[m] in result;
    assert result[m] in kept;
    assert result[m] in builtins;
    var b :| 0 <= b < |builtins| && builtins[b] == result[m];
    assert KeysOf(builtins)[b] == key;
  }

  /** A blacklisted key is never in `services`, whitelisted or not. */
  lemma BlacklistWins(builtins: seq<(string, Service)>, config: LegacyConfigArg, key: string)
    requires LegacyPrepareEntries(builtins, config).Some?
    requires config.blacklist.AnArray? && key in config.blacklist.keys
    ensures key !in ReduceServices(LegacyPrepareEntries(builtins, config).value).values
  {
    if key in ReduceServices(LegacyPrepareEntries(builtins, config).value).values {
      OnlyBuiltins(builtins, config, key);
      ListsFilter(builtins, config.whitelist, config.blacklist, key);
    }
  }

  /** A filtered built-in keeps its own service object, and its regex is its pattern. */
  lemma BuiltinKept(builtins: seq<(string, Service)>, whitelist: ListSetting, blacklist: ListSetting, b: nat)
    requires DistinctKeys(builtins)
    requires b < |builtins|
    requires builtins[b].0 in ReduceServices(FilterLists(builtins, whitelist, blacklist)).values
    ensures ReduceServices(FilterLists(builtins, whitelist, blacklist)).values[builtins[b].0] == builtins[b].1
    ensures builtins[b].0 in ReducePatterns(FilterLists(builtins, whitelist, blacklist)).values
    ensures ReducePatterns(FilterLists(builtins, whitelist, blacklist)).values[builtins[b].0] == builtins[b].1.regex
  {
    var kept := if Active(whitelist) then KeepKeys(builtins, whitelist.keys) else builtins;
    var result := FilterLists(builtins, whitelist, blacklist);
    var key := builtins[b].0;
    FilterListsDistinct(builtins, whitelist, blacklist);
    ServicesHoldKey(result, key);
    var m :| 0 <= m < |result| && result[m].0 == key;
    assert result[m] in result && result[m] in kept && result[m] in builtins;
    var a :| 0 <= a < |builtins| && builtins[a] == result[m];
    assert a == b;
    ServicesLookup(result, m);
    PatternsMatchServices(result);
  }

  /** The filtered list keeps the built-ins' keys distinct. */
  lemma FilterListsDistinct(builtins: seq<(string, Service)>, whitelist: ListSetting, blacklist: ListSetting)
    requires DistinctKeys(builtins)
    ensures DistinctKeys(FilterLists(builtins, whitelist, blacklist))
  {
    var kept := if Active(whitelist) then KeepKeys(builtins, whitelist.keys) else builtins;
    if Active(whitelist) {
      KeepKeysDistinct(builtins, whitelist.keys);
    }
    if Active(blacklist) {
      DropListedDistinct(kept, blacklist.keys);
    }
  }

  /** Filtering by exclusion keeps keys distinct. */
  lemma {:induction false} DropListedDistinct(entries: seq<(string, Service)>, list: seq<string>)
    requires DistinctKeys(entries)
    ensures DistinctKeys(DropListed(entries, list))
  {
    if entries != [] {
      var prefix := entries[..|entries| - 1];
      var last := entries[|entries| - 1];
      assert DistinctKeys(prefix);
      DropListedDistinct(prefix, list);
      var r := DropListed(prefix, list);
      forall i | 0 <= i < |r|
        ensures r[i].0 != last.0
      {
        assert r[i] in r;
        var a :| 0 <= a < |prefix| && prefix[a] == r[i];
        assert entries[a] == prefix[a];
      }
    }
  }

  // ---------------------------------------------------------------------------
  // Block data

  /** The earlier `EmbedData`; every field may be undefined. */
  datatype LegacyData = LegacyData(
    key: Option<string>,
    source: Option<string>,
    embed: Option<string>,
    width: Option<int>,
    height: Option<int>,
    caption: Option<string>)

  /** `this._data = {}`. */
  const LegacyBlank := LegacyData(None, None, None, None, None, None)

  /** The argument of the setter. `!data instanceof Object` is `false instanceof Object`,
      so the guard never throws; destructuring `null` or `undefined` does, and a
      primitive reads as an object without these keys. */
  datatype LegacyArg = Nullish | Primitive | DataObject(data: LegacyData)

  /** The setter's new value: each field is the value already held if truthy, otherwise
      the incoming one; an undefined incoming caption reads as `''`. */
  function LegacyMerge(current: LegacyData, incoming: LegacyData): (r: LegacyData)
    ensures TruthyStr(current.key) ==> r.key == current.key
    ensures !TruthyStr(current.key) ==> r.key == incoming.key
    ensures TruthyStr(current.source) ==> r.source == current.source
    ensures !TruthyStr(current.source) ==> r.source == incoming.source
    ensures TruthyStr(current.embed) ==> r.embed == current.embed
    ensures !TruthyStr(current.embed) ==> r.embed == incoming.embed
    ensures TruthyNum(current.width) ==> r.width == current.width
    ensures !TruthyNum(current.width) ==> r.width == incoming.width
    ensures TruthyNum(current.height) ==> r.height == current.height
    ensures !TruthyNum(current.height) ==> r.height == incoming.height
    ensures r.caption.Some?
    ensures TruthyStr(current.caption) ==> r.caption == current.caption
    ensures !TruthyStr(current.caption) ==> r.caption == Some(incoming.caption.GetOr(""))
  {
    LegacyData(
      OrStr(current.key, incoming.key),
      OrStr(current.source, incoming.source),
      OrStr(current.embed, incoming.embed),
      OrNum(current.width, incoming.width),
      OrNum(current.height, incoming.height),
      OrStr(current.caption, Some(incoming.caption.GetOr(""))))
  }

  /** What the setter reads from its argument. */
  function ArgData(arg: LegacyArg): LegacyData
    requires !arg.Nullish?
  {
    if arg.DataObject? then arg.data else LegacyBlank
  }

  /** Setting the same data twice is setting it once. */
  lemma LegacyMergeIdempotent(current: LegacyData, incoming: LegacyData)
    ensures LegacyMerge(LegacyMerge(current, incoming), incoming) == LegacyMerge(current, incoming)
  {
  }

  /** The three text fields the setter treats alike. */
  datatype LegacyField = KeyField | SourceField | EmbedField

  function LegacyFieldOf(d: LegacyData, f: LegacyField): Option<string> {
    match f
    case KeyField => d.key
    case SourceField => d.source
    case EmbedField => d.embed
  }

  /** Applying the setter to each data object in turn. */
  function LegacyMergeAll(current: LegacyData, history: seq<LegacyData>): LegacyData
    decreases |history|
  {
    if history == [] then current else LegacyMergeAll(LegacyMerge(current, history[0]), history[1..])
  }

  /** A truthy text field never changes again. */
  lemma {:induction false} TruthyFieldIsFinal(current: LegacyData, history: seq<LegacyData>, f: LegacyField)
    requires TruthyStr(LegacyFieldOf(current, f))
    ensures LegacyFieldOf(LegacyMergeAll(current, history), f) == LegacyFieldOf(current, f)
    decreases |history|
  {
    if history != [] {
      TruthyFieldIsFinal(LegacyMerge(current, history[0]), history[1..], f);
    }
  }

  /** Starting from a falsy field, the first truthy value a set supplies is the one kept
      for good. */
  lemma {:induction false} SetterKeepsFirstTruthy(current: LegacyData, history: seq<LegacyData>, f: LegacyField, i: nat)
    requires !TruthyStr(LegacyFieldOf(current, f))
    requires i < |history| && TruthyStr(LegacyFieldOf(history[i], f))
    requires forall k :: 0 <= k < i ==> !TruthyStr(LegacyFieldOf(history[k], f))
    ensures LegacyFieldOf(LegacyMergeAll(current, history), f) == LegacyFieldOf(history[i], f)
    decreases |history|
  {
    var next := LegacyMerge(current, history[0]);
    if i == 0 {
      TruthyFieldIsFinal(next, history[1..], f);
    } else {
      SetterKeepsFirstTruthy(next, history[1..], f, i - 1);
    }
  }

  /** `save` sets `{caption: html}`: the caption is written only while it is empty, every
      truthy field stays, and every falsy one becomes undefined. */
  lemma SaveEffect(current: LegacyData, html: string)
    ensures var r := LegacyMerge(current, LegacyData(None, None, None, None, None, Some(html)));
      r.caption == (if TruthyStr(current.caption) then current.caption else Some(html))
      && r.key == (if TruthyStr(current.key) then current.key else None)
      && r.source == (if TruthyStr(current.source) then current.source else None)
      && r.embed == (if TruthyStr(current.embed) then current.embed else None)
      && r.width == (if TruthyNum(current.width) then current.width else None)
      && r.height == (if TruthyNum(current.height) then current.height else None)
  {
  }

  /** The block: its data, set through the `data` setter. */
  class LegacyEmbed {
    var data: LegacyData

    /** `new Embed({data})` with a data object: it is set on `{}`. */
    constructor(saved: LegacyData)
      ensures data == LegacyMerge(LegacyBlank, saved)
    {
      data := LegacyMerge(LegacyBlank, saved);
    }

    /** `set data`. `null` or `undefined` throws and changes nothing. */
    method SetData(arg: LegacyArg) returns (thrown: bool)
      modifies this
      ensures thrown <==> arg.Nullish?
      ensures thrown ==> data == old(data)
      ensures !thrown ==> data == LegacyMerge(old(data), ArgData(arg))
    {
      if arg.Nullish? {
        return true;
      }
      data := LegacyMerge(data, ArgData(arg));
      thrown := false;
    }

    /** `save`, given the caption markup of the rendered element, or None while the block
        has not been rendered (`this.element` is still `null`, so `querySelector` throws
        and nothing changes). Otherwise it sets `{caption}` and returns the data. */
    method Save(caption: Option<string>) returns (thrown: bool, saved: LegacyData)
      modifies this
      ensures thrown <==> caption.None?
      ensures thrown ==> data == old(data)
      ensures !thrown ==> data == LegacyMerge(old(data), LegacyData(None, None, None, None, None, caption))
      ensures saved == data
    {
      if caption.None? {
        return true, data;
      }
      var _ := SetData(DataObject(LegacyData(None, None, None, None, None, caption)));
      thrown, saved := false, data;
    }
  }

  // ---------------------------------------------------------------------------
  // pasteHandler

  /** The default `id`: `ids.shift()`, which is undefined when there is no group. */
  function LegacyDefaultId(groups: seq<Option<string>>): Option<string> {
    At(groups, 0)
  }

  /** The value `replace` inserts: `String(id(result))`. None: the extractor throws. */
  function LegacyExtractId(id: Prop<Extractor>, groups: seq<Option<string>>): (r: Option<string>)
    ensures id.Get().None? ==> r == Some(ToStr(At(groups, 0)))
  {
    match id.Get()
    case None => Some(ToStr(LegacyDefaultId(groups)))
    case Some(e) => ApplyExtractor(e, groups)
  }

  /** `Embed.pasteHandler(url, key)`. None: it throws, because the key is not in
      `services`, the regex does not match (`null.slice`), or the extractor throws. */
  function PasteHandler(services: Table<Service>, key: string, url: string, exec: Matcher): (r: Option<LegacyData>)
    ensures key !in services.values ==> r.None?
    ensures key in services.values && exec(services.values[key].regex, url).None? ==> r.None?
    ensures r.Some? ==> r.value.key == Some(key) && r.value.source == Some(url) && r.value.caption.None?
    ensures r.Some? ==> (r.value.width == services.values[key].width.Get()
                         && r.value.height == services.values[key].height.Get())
    ensures key in services.values && exec(services.values[key].regex, url).Some? ==>
      var s := services.values[key];
      var extracted := LegacyExtractId(s.id, Groups(exec(s.regex, url).value));
      (r.None? <==> extracted.None?)
      && (extracted.Some? ==> r.Some? && r.value.embed == Some(ReplaceAll(s.embedUrl, Placeholder, extracted.value)))
  {
    if key !in services.values then None
    else
      var s := services.values[key];
      match exec(s.regex, url)
      case None => None
      case Some(matched) =>
        match LegacyExtractId(s.id, Groups(matched))
        case None => None
        case Some(id) =>
          Some(LegacyData(Some(key), Some(url), Some(ReplaceAll(s.embedUrl, Placeholder, id)),
            s.width.Get(), s.height.Get(), None))
  }

  /** A service without `id` whose match has no first group renders `undefined` in place
      of the id. */
  lemma MissingGroupRendersUndefined(services: Table<Service>, key: string, url: string, exec: Matcher)
    requires key in services.values && services.values[key].id.Get().None?
    requires exec(services.values[key].regex, url).Some?
    requires At(Groups(exec(services.values[key].regex, url).value), 0).None?
    ensures PasteHandler(services, key, url, exec).Some?
    ensures PasteHandler(services, key, url, exec).value.embed
      == Some(ReplaceAll(services.values[key].embedUrl, Placeholder, "undefined"))
  {
  }

  /** A vimeo match renders the player URL for its group. */
  lemma LegacyVimeoPaste(services: Table<Service>, url: string, exec: Matcher, id: string)
    requires "vimeo" in services.values && services.values["vimeo"] == Vimeo.AsService()
    requires exec(Vimeo.Pattern(), url) == Some([Some(url), Some(id)])
    ensures PasteHandler(services, "vimeo", url, exec)
      == Some(LegacyData(Some("vimeo"), Some(url), Some("https://player.vimeo.com/video/" + id + "?title=0&byline=0"),
           Some(580), Some(320), None))
  {
    VimeoRender(id);
    assert Groups([Some(url), Some(id)]) == [Some(id)];
  }
}
