/** The current tool (src/index.ts): service validation, `prepare` building the static
    `services` and `patterns` objects, and the block's `data` setter, `onPaste` and `save`.
    The static objects live in a `ServiceRegistry` the block is handed; the block has no
    rendered element, so its `data` getter returns the stored data unchanged. */
module EmbedTool {
  import opened Js
  import opened Text
  import opened ServiceConfig
  import opened Services
  import opened ServiceTable

  // ---------------------------------------------------------------------------
  // checkServiceConfig

  /** `Embed.checkServiceConfig`: `regex` a truthy RegExp, `embedUrl` and `html` truthy
      primitive strings, and `id`, `height`, `width` each undefined or of the right kind. */
  function CheckServiceConfig(o: ServiceObject): (r: bool)
    ensures r <==>
      o.regex.RegExpObject? &&
      o.embedUrl.PrimitiveString? && o.embedUrl.s != "" &&
      o.html.PrimitiveString? && o.html.s != "" &&
      (o.id.Undefined? || o.id.FunctionObject?) &&
      (o.height.Undefined? || o.height.Number?) &&
      (o.width.Undefined? || o.width.Number?)
  {
    var valid := (o.regex.Truthy() && o.regex.InstanceOfRegExp())
      && (o.embedUrl.Truthy() && o.embedUrl.TypeofString())
      && (o.html.Truthy() && o.html.TypeofString());
    var valid := valid && (if !o.id.Undefined? then o.id.InstanceOfFunction() else true);
    var valid := valid && (if !o.height.Undefined? then o.height.IsFinite() else true);
    valid && (if !o.width.Undefined? then o.width.IsFinite() else true)
  }

  /** An optional size as a property: always an own key, undefined unless a number. */
  function SizeProp(v: Value): Prop<int> {
    if v.Number? then Present(Some(v.n)) else Present(None)
  }

  /** An optional `id` as a property: always an own key, undefined unless a function. */
  function IdProp(v: Value): Prop<Extractor> {
    if v.FunctionObject? then Present(Some(v.f)) else Present(None)
  }

  /** The object literal `{regex, embedUrl, html, height, width, id}` that `prepare`
      rebuilds from a user service that passed the check. */
  function Rebuild(o: ServiceObject): (r: Service)
    requires CheckServiceConfig(o)
    ensures HasAllKeys(r)
  {
    Service(o.regex.r, o.embedUrl.s, o.html.s, SizeProp(o.height), SizeProp(o.width), IdProp(o.id))
  }

  function SizeValue(p: Prop<int>): Value {
    match p.Get()
    case Some(n) => Number(n)
    case None => Undefined
  }

  function IdValue(p: Prop<Extractor>): Value {
    match p.Get()
    case Some(e) => FunctionObject(e)
    case None => Undefined
  }

  /** A typed service object seen as the untyped value the validator destructures. */
  function ToObject(s: Service): ServiceObject {
    ServiceObject(RegExpObject(s.regex), PrimitiveString(s.embedUrl), PrimitiveString(s.html),
      SizeValue(s.height), SizeValue(s.width), IdValue(s.id))
  }

  /** Rebuilding a valid user service loses nothing the validator looked at. */
  lemma RebuildLosesNothing(o: ServiceObject)
    requires CheckServiceConfig(o)
    ensures ToObject(Rebuild(o)) == o
  {
  }

  /** A typed service passes the check exactly when its template and markup are
      non-empty, and then rebuilding it gives it back with every key made own. */
  lemma CheckTypedService(s: Service)
    ensures CheckServiceConfig(ToObject(s)) <==> s.embedUrl != "" && s.html != ""
    ensures CheckServiceConfig(ToObject(s)) && HasAllKeys(s) ==> Rebuild(ToObject(s)) == s
  {
  }

  /** Every built-in provider would itself pass `checkServiceConfig`. */
  lemma BuiltinsPassCheck()
    ensures forall i :: 0 <= i < |Builtins()| ==> CheckServiceConfig(ToObject(Builtins()[i].1))
  {
    RegistryWellFormed();
    forall i | 0 <= i < |Builtins()|
      ensures CheckServiceConfig(ToObject(Builtins()[i].1))
    {
      var p := Registry[i];
      assert |p.EmbedUrl()| >= |Placeholder|;
    }
  }

  // ---------------------------------------------------------------------------
  // prepare

  /** The argument of `prepare`: `config` absent (it defaults to `{}`), `null`
      (destructuring it throws), or a configuration object. */
  datatype ConfigArg = NoConfig | NullConfig | Config(services: ServicesSetting)

  /** The keys whose value is literally `true`, in order. */
  function EnabledKeys(entries: seq<(string, ConfigValue)>): (r: seq<string>)
    ensures forall k :: k in r <==> (k, Flag(true)) in entries
  {
    if entries == [] then []
    else
      var prefix := entries[..|entries| - 1];
      var last := entries[|entries| - 1];
      assert entries == prefix + [last];
      if last.1 == Flag(true) then EnabledKeys(prefix) + [last.0] else EnabledKeys(prefix)
  }

  /** What one configuration value contributes to `userServices`: a service object that
      passes the check, rebuilt. Booleans, `undefined` and other non-objects are not
      `typeof 'object'`; `null` is, and is handled by `UserServices`. */
  function UserEntry(v: ConfigValue): (r: Option<Service>)
    ensures r.Some? <==> v.Object? && CheckServiceConfig(v.fields)
  {
    if v.Object? && CheckServiceConfig(v.fields) then Some(Rebuild(v.fields)) else None
  }

  /** `userServices` of `prepare`: the object entries that pass the check, rebuilt, in
      order. None: some entry is `null`, which is `typeof 'object'` and makes the check
      throw when it destructures it. */
  function UserServices(entries: seq<(string, ConfigValue)>): (r: Option<seq<(string, Service)>>)
    ensures r.None? <==> exists i :: 0 <= i < |entries| && entries[i].1.NullEntry?
  {
    if entries == [] then Some([])
    else
      var prefix := entries[..|entries| - 1];
      var last := entries[|entries| - 1];
      var rest := UserServices(prefix);
      if last.1.NullEntry? || rest.None? then None
      else
        match UserEntry(last.1)
        case None => rest
        case Some(s) => Some(rest.value + [(last.0, s)])
  }

  /** `userServices` of two configuration lists one after the other is the user services
      of the first followed by those of the second: the configuration order is kept. */
  lemma {:induction false} UserServicesAppend(a: seq<(string, ConfigValue)>, b: seq<(string, ConfigValue)>)
    requires UserServices(a + b).Some?
    ensures UserServices(a).Some? && UserServices(b).Some?
    ensures UserServices(a + b).value == UserServices(a).value + UserServices(b).value
    decreases |b|
  {
    if b == [] {
      assert a + b == a;
    } else {
      var b' := b[..|b| - 1];
      var last := b[|b| - 1];
      assert (a + b)[..|a + b| - 1] == a + b';
      assert (a + b)[|a + b| - 1] == last;
      UserServicesAppend(a, b');
      var ua := UserServices(a).value;
      var ub' := UserServices(b').value;
      match UserEntry(last.1)
      case None =>
      case Some(sv) =>
        assert (ua + ub') + [(last.0, sv)] == ua + (ub' + [(last.0, sv)]);
    }
  }

  /** Every user service comes from a configuration entry with its key that passes the check. */
  lemma {:induction false} UserServicesFrom(entries: seq<(string, ConfigValue)>, m: nat)
    requires UserServices(entries).Some? && m < |UserServices(entries).value|
    ensures exists i :: (0 <= i < |entries| && entries[i].0 == UserServices(entries).value[m].0
                         && UserEntry(entries[i].1) == Some(UserServices(entries).value[m].1))
  {
    var prefix := entries[..|entries| - 1];
    var rest := UserServices(prefix).value;
    if m < |rest| {
      UserServicesFrom(prefix, m);
      var i :| 0 <= i < |prefix| && prefix[i].0 == rest[m].0 && UserEntry(prefix[i].1) == Some(rest[m].1);
      assert entries[i] == prefix[i];
    }
  }

  /** Every configuration entry that passes the check yields a user service. */
  lemma {:induction false} UserServicesComplete(entries: seq<(string, ConfigValue)>, j: nat)
    requires UserServices(entries).Some?
    requires j < |entries| && UserEntry(entries[j].1).Some?
    ensures (entries[j].0, UserEntry(entries[j].1).value) in UserServices(entries).value
  {
    var prefix := entries[..|entries| - 1];
    if j < |prefix| {
      UserServicesComplete(prefix, j);
      assert prefix[j] == entries[j];
    }
  }

  /** The built-ins that survive the enable filter: all of them unless some key is enabled. */
  function SelectBuiltins(builtins: seq<(string, Service)>, entries: seq<(string, ConfigValue)>): (r: seq<(string, Service)>)
    ensures forall e :: e in r <==> e in builtins && (EnabledKeys(entries) == [] || e.0 in EnabledKeys(entries))
  {
    var enabled := EnabledKeys(entries);
    if |enabled| > 0 then KeepKeys(builtins, enabled) else builtins
  }

  /** The entry list `prepare` reduces, for a given built-in table. None: it throws. */
  function PrepareEntries(builtins: seq<(string, Service)>, config: ConfigArg): (r: Option<seq<(string, Service)>>)
    ensures r.None? <==> (config.NullConfig? || (config.Config? && config.services.NullServices?)
      || (config.Config? && config.services.Given? && UserServices(config.services.entries).None?))
  {
    match config
    case NullConfig => None
    case NoConfig => Some(builtins)
    case Config(Unset) => Some(builtins)
    case Config(NullServices) => None
    case Config(Given(entries)) =>
      match UserServices(entries)
      case None => None
      case Some(user) => Some(SelectBuiltins(builtins, entries) + user)
  }

  /** The static state of the tool class: `Embed.services` and `Embed.patterns`. */
  class ServiceRegistry {
    /** The imported `SERVICES` table, as `Object.entries` lists it. */
    const builtins: seq<(string, Service)>
    var services: Table<Service>
    var patterns: Table<RegExp>

    /** Before `prepare` runs no key resolves. */
    constructor()
      ensures builtins == Builtins()
      ensures services == Table([], map[]) && patterns == Table([], map[])
    {
      builtins := Builtins();
      services := Table([], map[]);
      patterns := Table([], map[]);
    }

    /** `Embed.prepare`. When it throws, the static objects keep their old values. */
    method Prepare(config: ConfigArg) returns (thrown: bool)
      modifies this
      ensures thrown <==> PrepareEntries(builtins, config).None?
      ensures thrown ==> services == old(services) && patterns == old(patterns)
      ensures !thrown ==> services == ReduceServices(PrepareEntries(builtins, config).value)
      ensures !thrown ==> patterns == ReducePatterns(PrepareEntries(builtins, config).value)
    {
      var given: seq<(string, ConfigValue)>;
      match config {
        case NullConfig => return true;
        case NoConfig => given := [];
        case Config(Unset) => given := [];
        case Config(NullServices) => return true;
        case Config(Given(es)) => given := es;
      }
      var entries := builtins;
      var enabled := EnabledKeys(given);
      var user := UserServices(given);
      if user.None? {
        return true;
      }
      if |enabled| > 0 {
        entries := KeepKeys(entries, enabled);
      }
      entries := entries + user.value;
      assert PrepareEntries(builtins, config) == Some(entries) by {
        if config.NoConfig? || config == Config(Unset) {
          assert builtins + [] == builtins;
        }
      }
      services := BuildServices(entries);
      patterns := BuildPatterns(entries);
      thrown := false;
    }
  }

  /** The user services have distinct keys, since the configuration's keys are. */
  lemma {:induction false} UserServicesDistinct(entries: seq<(string, ConfigValue)>)
    requires DistinctKeys(entries)
    requires UserServices(entries).Some?
    ensures DistinctKeys(UserServices(entries).value)
  {
    if entries != [] {
      var prefix := entries[..|entries| - 1];
      var last := entries[|entries| - 1];
      var rest := UserServices(prefix).value;
      assert DistinctKeys(prefix);
      UserServicesDistinct(prefix);
      forall m | 0 <= m < |rest|
        ensures rest[m].0 != last.0
      {
        UserServicesFrom(prefix, m);
        var i :| 0 <= i < |prefix| && prefix[i].0 == rest[m].0 && UserEntry(prefix[i].1) == Some(rest[m].1);
        assert entries[i] == prefix[i];
      }
    }
  }

  /** With no value literally `true`, no key is enabled. */
  lemma NothingEnabled(entries: seq<(string, ConfigValue)>)
    requires forall i :: 0 <= i < |entries| ==> entries[i].1 != Flag(true)
    ensures EnabledKeys(entries) == []
  {
    if EnabledKeys(entries) != [] {
      assert EnabledKeys(entries)[0] in EnabledKeys(entries);
    }
  }

  /** A key no configuration entry supplies a valid service for is not a user service key. */
  lemma UserServicesLack(entries: seq<(string, ConfigValue)>, key: string)
    requires UserServices(entries).Some?
    requires forall i :: 0 <= i < |entries| && entries[i].0 == key ==> UserEntry(entries[i].1).None?
    ensures key !in KeysOf(UserServices(entries).value)
  {
    var user := UserServices(entries).value;
    if key in KeysOf(user) {
      var m :| 0 <= m < |user| && KeysOf(user)[m] == key;
      UserServicesFrom(entries, m);
    }
  }

  /** A built-in key survives the enable filter exactly when no value is literally `true`
      or its own value is. */
  lemma SelectedKey(builtins: seq<(string, Service)>, entries: seq<(string, ConfigValue)>, key: string)
    requires key in KeysOf(builtins)
    ensures key in KeysOf(SelectBuiltins(builtins, entries))
      <==> (forall i :: 0 <= i < |entries| ==> entries[i].1 != Flag(true)) || (key, Flag(true)) in entries
  {
    if forall i :: 0 <= i < |entries| ==> entries[i].1 != Flag(true) {
      NothingEnabled(entries);
    } else {
      var i :| 0 <= i < |entries| && entries[i].1 == Flag(true);
      assert entries[i] in entries;
      assert entries[i].0 in EnabledKeys(entries);
      KeptKey(builtins, EnabledKeys(entries), key);
    }
  }

  /** The enable filter: a built-in key that no user service claims is in `services`
      exactly when no value is literally `true` or its own value is; `false` entries
      play no part. */
  lemma EnableFilter(builtins: seq<(string, Service)>, entries: seq<(string, ConfigValue)>, key: string)
    requires UserServices(entries).Some?
    requires key in KeysOf(builtins)
    requires forall i :: 0 <= i < |entries| && entries[i].0 == key ==> UserEntry(entries[i].1).None?
    ensures key in ReduceServices(PrepareEntries(builtins, Config(Given(entries))).value).values
      <==> (forall i :: 0 <= i < |entries| ==> entries[i].1 != Flag(true)) || (key, Flag(true)) in entries
  {
    var user := UserServices(entries).value;
    var selected := SelectBuiltins(builtins, entries);
    assert PrepareEntries(builtins, Config(Given(entries))) == Some(selected + user);
    ServicesHoldKeyAppend(selected, user, key);
    UserServicesLack(entries, key);
    SelectedKey(builtins, entries, key);
  }

  /** `false` entries alone filter nothing: with no `true` value every built-in survives. */
  lemma FalseFlagsFilterNothing(builtins: seq<(string, Service)>, entries: seq<(string, ConfigValue)>)
    requires UserServices(entries).Some?
    requires forall i :: 0 <= i < |entries| ==> entries[i].1 != Flag(true)
    ensures PrepareEntries(builtins, Config(Given(entries))) == Some(builtins + UserServices(entries).value)
  {
    NothingEnabled(entries);
  }

  /** A user service that passes the check is stored, rebuilt, under its key, whether or
      not the key is enabled and whether or not a built-in has it: on a collision no field
      falls back to the built-in's, undefined ones included. Its regex becomes the pattern. */
  lemma UserServiceWins(builtins: seq<(string, Service)>, entries: seq<(string, ConfigValue)>, j: nat)
    requires DistinctKeys(entries)
    requires UserServices(entries).Some?
    requires j < |entries| && UserEntry(entries[j].1).Some?
    ensures var all := PrepareEntries(builtins, Config(Given(entries))).value;
      entries[j].0 in ReduceServices(all).values
      && ReduceServices(all).values[entries[j].0] == Rebuild(entries[j].1.fields)
      && entries[j].0 in ReducePatterns(all).values
      && ReducePatterns(all).values[entries[j].0] == entries[j].1.fields.regex.r
  {
    var user := UserServices(entries).value;
    var selected := SelectBuiltins(builtins, entries);
    var all := selected + user;
    assert PrepareEntries(builtins, Config(Given(entries))) == Some(all);
    UserServicesComplete(entries, j);
    var m :| 0 <= m < |user| && user[m] == (entries[j].0, UserEntry(entries[j].1).value);
    UserServicesDistinct(entries);
    assert HasAllKeys(user[m].1);
    LookupAppended(selected, user, m);
  }

  /** An object entry that fails the check is dropped without a word: unless a built-in
      has its key, the key is not in `services`. */
  lemma InvalidUserServiceDropped(builtins: seq<(string, Service)>, entries: seq<(string, ConfigValue)>, j: nat)
    requires DistinctKeys(entries)
    requires UserServices(entries).Some?
    requires j < |entries| && entries[j].1.Object? && !CheckServiceConfig(entries[j].1.fields)
    requires entries[j].0 !in KeysOf(builtins)
    ensures entries[j].0 !in ReduceServices(PrepareEntries(builtins, Config(Given(entries))).value).values
  {
    var key := entries[j].0;
    var user := UserServices(entries).value;
    var selected := SelectBuiltins(builtins, entries);
    assert PrepareEntries(builtins, Config(Given(entries))) == Some(selected + user);
    ServicesHoldKeyAppend(selected, user, key);
    forall i | 0 <= i < |entries| && entries[i].0 == key
      ensures UserEntry(entries[i].1).None?
    {
      assert i == j;
    }
    UserServicesLack(entries, key);
    if key in KeysOf(selected) {
      SelectedFromBuiltins(builtins, entries, key);
    }
  }

  /** The enable filter only removes built-ins. */
  lemma SelectedFromBuiltins(builtins: seq<(string, Service)>, entries: seq<(string, ConfigValue)>, key: string)
    requires key in KeysOf(SelectBuiltins(builtins, entries))
    ensures key in KeysOf(builtins)
  {
    var selected := SelectBuiltins(builtins, entries);
    var m :| 0 <= m < |selected| && KeysOf(selected)[m] == key;
    assert selected[m] in selected;
    var b :| 0 <= b < |builtins| && builtins[b] == selected[m];
    assert KeysOf(builtins)[b] == key;
  }

  /** The built-ins that survive the enable filter keep their distinct keys. */
  lemma SelectBuiltinsDistinct(builtins: seq<(string, Service)>, entries: seq<(string, ConfigValue)>)
    requires DistinctKeys(builtins)
    ensures DistinctKeys(SelectBuiltins(builtins, entries))
  {
    if |EnabledKeys(entries)| > 0 {
      KeepKeysDistinct(builtins, EnabledKeys(entries));
    }
  }

  /** Key order: the surviving built-ins in registry order, then the user keys no
      built-in took, in configuration order. `patterns` has the same keys in the same
      order, each holding the regex of the service under that key. */
  lemma PreparedKeyOrder(builtins: seq<(string, Service)>, entries: seq<(string, ConfigValue)>)
    requires DistinctKeys(builtins) && DistinctKeys(entries)
    requires UserServices(entries).Some?
    ensures var all := PrepareEntries(builtins, Config(Given(entries))).value;
      var selected := KeysOf(SelectBuiltins(builtins, entries));
      ReduceServices(all).keys == selected + NotIn(KeysOf(UserServices(entries).value), selected)
      && ReducePatterns(all).keys == ReduceServices(all).keys
      && forall k :: k in ReduceServices(all).values ==>
           k in ReducePatterns(all).values && ReducePatterns(all).values[k] == ReduceServices(all).values[k].regex
  {
    var user := UserServices(entries).value;
    var selected := SelectBuiltins(builtins, entries);
    var all := selected + user;
    assert PrepareEntries(builtins, Config(Given(entries))).value == all;
    SelectBuiltinsDistinct(builtins, entries);
    UserServicesDistinct(entries);
    ServicesKeys(all);
    KeysOfAppend(selected, user);
    FirstOccurrencesAppend(KeysOf(selected), KeysOf(user));
    PatternsMatchServices(all);
  }

  // ---------------------------------------------------------------------------
  // Block data

  /** `EmbedData`; every field may be undefined (a new block starts from `{}`). */
  datatype EmbedData = EmbedData(
    service: Option<string>,
    source: Option<string>,
    embed: Option<string>,
    width: Option<int>,
    height: Option<int>,
    caption: Option<string>)

  /** The block's data before anything is set: `{}`. */
  const Blank := EmbedData(None, None, None, None, None, None)

  /** The argument of the `data` setter: a non-object throws. */
  datatype DataArg = NotAnObject | AnObject(data: EmbedData)

  /** The `data` setter's new value: each field is the incoming one if truthy, otherwise
      the current one; the caption falls back to `''`. */
  function Merge(current: EmbedData, incoming: EmbedData): (r: EmbedData)
    ensures TruthyStr(incoming.service) ==> r.service == incoming.service
    ensures !TruthyStr(incoming.service) ==> r.service == current.service
    ensures TruthyStr(incoming.source) ==> r.source == incoming.source
    ensures !TruthyStr(incoming.source) ==> r.source == current.source
    ensures TruthyStr(incoming.embed) ==> r.embed == incoming.embed
    ensures !TruthyStr(incoming.embed) ==> r.embed == current.embed
    ensures TruthyNum(incoming.width) ==> r.width == incoming.width
    ensures !TruthyNum(incoming.width) ==> r.width == current.width
    ensures TruthyNum(incoming.height) ==> r.height == incoming.height
    ensures !TruthyNum(incoming.height) ==> r.height == current.height
    ensures r.caption.Some?
    ensures TruthyStr(incoming.caption) ==> r.caption == incoming.caption
    ensures !TruthyStr(incoming.caption) && TruthyStr(current.caption) ==> r.caption == current.caption
    ensures !TruthyStr(incoming.caption) && !TruthyStr(current.caption) ==> r.caption == Some("")
  {
    EmbedData(
      OrStr(incoming.service, current.service),
      OrStr(incoming.source, current.source),
      OrStr(incoming.embed, current.embed),
      OrNum(incoming.width, current.width),
      OrNum(incoming.height, current.height),
      OrStr(OrStr(Some(incoming.caption.GetOr("")), current.caption), Some("")))
  }

  /** Setting the same data twice is setting it once. */
  lemma MergeIdempotent(current: EmbedData, incoming: EmbedData)
    ensures Merge(Merge(current, incoming), incoming) == Merge(current, incoming)
  {
  }

  /** The three text fields the setter treats alike. */
  datatype TextField = ServiceField | SourceField | EmbedField

  function FieldOf(d: EmbedData, f: TextField): Option<string> {
    match f
    case ServiceField => d.service
    case SourceField => d.source
    case EmbedField => d.embed
  }

  /** Applying the setter to each data object in turn. */
  function MergeAll(current: EmbedData, history: seq<EmbedData>): EmbedData
    decreases |history|
  {
    if history == [] then current else MergeAll(Merge(current, history[0]), history[1..])
  }

  /** Reference definition: the last truthy value of a field in a history, or the
      starting value if none is truthy. */
  function LastTruthy(start: Option<string>, history: seq<EmbedData>, f: TextField): (r: Option<string>)
    ensures r == start || exists i :: 0 <= i < |history| && r == FieldOf(history[i], f)
    decreases |history|
  {
    if history == [] then start
    else
      var last := FieldOf(history[|history| - 1], f);
      if TruthyStr(last) then last else LastTruthy(start, history[..|history| - 1], f)
  }

  /** After a sequence of sets, each text field holds the last truthy value it was given. */
  lemma {:induction false} SetterKeepsLastTruthy(current: EmbedData, history: seq<EmbedData>, f: TextField)
    ensures FieldOf(MergeAll(current, history), f) == LastTruthy(FieldOf(current, f), history, f)
    decreases |history|
  {
    if history != [] {
      var next := Merge(current, history[0]);
      SetterKeepsLastTruthy(next, history[1..], f);
      LastTruthyAfterFirst(FieldOf(current, f), history, f);
    }
  }

  /** Taking the first value of a history as the new start, if truthy, gives the same
      last truthy value. */
  lemma {:induction false} LastTruthyAfterFirst(start: Option<string>, history: seq<EmbedData>, f: TextField)
    requires history != []
    ensures LastTruthy(OrStr(FieldOf(history[0], f), start), history[1..], f) == LastTruthy(start, history, f)
    decreases |history|
  {
    if |history| > 1 {
      var init := history[..|history| - 1];
      assert init[1..] == history[1..][..|history[1..]| - 1];
      LastTruthyAfterFirst(start, init, f);
    }
  }

  // ---------------------------------------------------------------------------
  // onPaste

  /** The default `id`: `ids.shift() || ''`. */
  function DefaultId(groups: seq<Option<string>>): (r: string)
    ensures TruthyStr(At(groups, 0)) ==> r == At(groups, 0).value
    ensures !TruthyStr(At(groups, 0)) ==> r == ""
  {
    OrStr(At(groups, 0), Some("")).value
  }

  /** The resource id for a service's groups: its own `id` if it has one, else the
      default. None: the extractor throws. */
  function ExtractId(id: Prop<Extractor>, groups: seq<Option<string>>): (r: Option<string>)
    ensures id.Get().None? ==> r == Some(DefaultId(groups))
    ensures r.None? ==> id.Get() == Some(YouTubeParams)
  {
    match id.Get()
    case None => Some(DefaultId(groups))
    case Some(e) => ApplyExtractor(e, groups)
  }

  /** The object `onPaste` hands to the setter. None: it throws, either because the key is
      not in `services` (destructuring undefined) or because the extractor throws. A URL
      the regex does not match gives an empty `embed`. */
  function PasteData(services: Table<Service>, key: string, url: string, exec: Matcher): (r: Option<EmbedData>)
    ensures key !in services.values ==> r.None?
    ensures r.Some? ==> r.value.service == Some(key) && r.value.source == Some(url) && r.value.caption.None?
    ensures r.Some? ==> (r.value.width == services.values[key].width.Get()
                         && r.value.height == services.values[key].height.Get())
    ensures key in services.values && exec(services.values[key].regex, url).None? ==>
      (r.Some? && r.value.embed == Some(""))
    ensures key in services.values && exec(services.values[key].regex, url).Some? ==>
      var s := services.values[key];
      var extracted := ExtractId(s.id, Groups(exec(s.regex, url).value));
      (r.None? <==> extracted.None?)
      && (extracted.Some? ==> r.Some? && r.value.embed == Some(ReplaceAll(s.embedUrl, Placeholder, extracted.value)))
  {
    if key !in services.values then None
    else
      var s := services.values[key];
      var embed :=
        match exec(s.regex, url)
        case None => Some("")
        case Some(matched) =>
          match ExtractId(s.id, Groups(matched))
          case None => None
          case Some(id) => Some(ReplaceAll(s.embedUrl, Placeholder, id));
      if embed.None? then None
      else Some(EmbedData(Some(key), Some(url), embed, s.width.Get(), s.height.Get(), None))
  }

  /** A paste whose URL the regex does not match keeps the previous `embed` (the empty
      one is falsy), overwrites `service` and `source`, and leaves the caption as it was
      (or `''`). */
  lemma PasteWithoutMatch(services: Table<Service>, key: string, url: string, exec: Matcher, current: EmbedData)
    requires key in services.values && exec(services.values[key].regex, url).None?
    requires key != "" && url != ""
    ensures var next := Merge(current, PasteData(services, key, url, exec).value);
      next.embed == current.embed && next.service == Some(key) && next.source == Some(url)
      && next.caption == (if TruthyStr(current.caption) then current.caption else Some(""))
  {
  }

  /** A paste whose URL matches and whose id extracts: the embed is the template with the
      id in place of every placeholder, and the sizes are the service's. */
  lemma PasteWithMatch(services: Table<Service>, key: string, url: string, exec: Matcher,
                       matched: seq<Option<string>>, id: string)
    requires key in services.values && exec(services.values[key].regex, url) == Some(matched)
    requires ExtractId(services.values[key].id, Groups(matched)) == Some(id)
    ensures PasteData(services, key, url, exec)
      == Some(EmbedData(Some(key), Some(url), Some(ReplaceAll(services.values[key].embedUrl, Placeholder, id)),
           services.values[key].width.Get(), services.values[key].height.Get(), None))
  {
  }

  /** A paste for a built-in stored as is: the embed is the template's prefix, the
      extracted id, and the template's suffix, and the sizes are the built-in's. */
  lemma BuiltinPaste(services: Table<Service>, key: string, p: Builtin, url: string, exec: Matcher,
                     matched: seq<Option<string>>, id: string)
    requires key in services.values && services.values[key] == p.AsService()
    requires exec(services.values[key].regex, url) == Some(matched)
    requires ExtractId(p.IdProp(), Groups(matched)) == Some(id)
    ensures PasteData(services, key, url, exec)
      == Some(EmbedData(Some(key), Some(url), Some(p.UrlPrefix() + id + p.UrlSuffix()),
           Some(p.Width()), Some(p.Height()), None))
  {
    AsServiceFields(p);
    PasteWithMatch(services, key, url, exec, matched, id);
    RenderBuiltin(p, id);
  }

  /** A vimeo URL pasted into a block of the built-in vimeo service: the player URL for
      the matched id, and vimeo's sizes. */
  lemma VimeoPaste(services: Table<Service>, url: string, exec: Matcher, id: string)
    requires "vimeo" in services.values && services.values["vimeo"] == Vimeo.AsService()
    requires exec(Vimeo.Pattern(), url) == Some([Some(url), Some(id)])
    ensures PasteData(services, "vimeo", url, exec)
      == Some(EmbedData(Some("vimeo"), Some(url), Some("https://player.vimeo.com/video/" + id + "?title=0&byline=0"),
           Some(580), Some(320), None))
  {
    assert Groups([Some(url), Some(id)]) == [Some(id)];
    assert At([Some(id)], 0) == Some(id);
    VimeoRender(id);
  }

  /** A key missing from `services` makes `onPaste` throw. */
  lemma PasteMissingKeyThrows(services: Table<Service>, key: string, url: string, exec: Matcher)
    requires key !in services.values
    ensures PasteData(services, key, url, exec).None?
  {
  }

  /** The block: its data, set through the `data` setter. */
  class Embed {
    var data: EmbedData

    /** `new Embed({data})`: the data is set on `{}`. */
    constructor(saved: EmbedData)
      ensures data == Merge(Blank, saved)
    {
      data := Merge(Blank, saved);
    }

    /** `set data`. A non-object throws and changes nothing. */
    method SetData(arg: DataArg) returns (thrown: bool)
      modifies this
      ensures thrown <==> arg.NotAnObject?
      ensures thrown ==> data == old(data)
      ensures !thrown ==> data == Merge(old(data), arg.data)
    {
      if arg.NotAnObject? {
        return true;
      }
      data := Merge(data, arg.data);
      thrown := false;
    }

    /** `onPaste`, for the paste event's key and URL, against the registry's `services`. */
    method OnPaste(registry: ServiceRegistry, key: string, url: string, exec: Matcher) returns (thrown: bool)
      modifies this
      ensures thrown <==> PasteData(old(registry.services), key, url, exec).None?
      ensures thrown ==> data == old(data)
      ensures !thrown ==> data == Merge(old(data), PasteData(old(registry.services), key, url, exec).value)
    {
      var pasted := PasteData(registry.services, key, url, exec);
      if pasted.None? {
        return true;
      }
      thrown := SetData(AnObject(pasted.value));
    }

    /** `save`: the current data. */
    method Save() returns (saved: EmbedData)
      ensures saved == data
    {
      saved := data;
    }
  }

  // ---------------------------------------------------------------------------
  // Concrete pastes of the built-in providers

  /** vimeo has no `id`: the default takes the single group. */
  lemma VimeoExtract(id: string)
    requires id != ""
    ensures ExtractId(Vimeo.IdProp(), [Some(id)]) == Some(id)
  {
    assert At([Some(id)], 0) == Some(id);
  }

  /** A youtube URL whose parameter group is empty yields the bare id. */
  lemma YouTubeExtract(id: string)
    requires id != ""
    ensures ExtractId(YouTube.IdProp(), [Some(id), Some("")]) == Some(id)
  {
    var groups := [Some(id), Some("")];
    assert At(groups, 0) == Some(id) && At(groups, 1) == Some("");
    assert YouTubeId(groups) == Some(id);
  }

  /** codepen's extractor joins the user and the pen with `/embed/`. */
  lemma CodepenExtract(user: string, pen: string)
    ensures ExtractId(Codepen.IdProp(), [Some(user), Some(pen)]) == Some(user + "/embed/" + pen)
  {
    JoinTwoGroups(user, pen, "/embed/");
  }
}
