/** The built-in provider registry of src/services.js and its `id` extractors. */
module Services {
  import opened Js
  import opened Text
  import opened ServiceConfig

  /** The token every `embedUrl` template carries where the resource id goes. */
  const Placeholder: string := "<%= remote_id %>"

  /** The built-in providers: one constructor per entry of the `SERVICES` object, and
      one function per property of an entry. */
  datatype Builtin =
    | Vimeo | YouTube | Coub | Vine | Imgur
    | Gfycat | TwitchChannel | TwitchVideo | YandexMusicAlbum | YandexMusicTrack
    | YandexMusicPlaylist | Codepen | Instagram | Twitter
  {
    /** The entry's key in `SERVICES`. */
    function Key(): string {
      match this
      case Vimeo => "vimeo"
      case YouTube => "youtube"
      case Coub => "coub"
      case Vine => "vine"
      case Imgur => "imgur"
      case Gfycat => "gfycat"
      case TwitchChannel => "twitch-channel"
      case TwitchVideo => "twitch-video"
      case YandexMusicAlbum => "yandex-music-album"
      case YandexMusicTrack => "yandex-music-track"
      case YandexMusicPlaylist => "yandex-music-playlist"
      case Codepen => "codepen"
      case Instagram => "instagram"
      case Twitter => "twitter"
    }

    /** `regex`, by its source text. */
    function Pattern(): RegExp {
      match this
      case Vimeo => RegExp(@"(?:http[s]?:\/\/)?(?:www.)?vimeo\.co(?:.+\/([^\/]\d+)(?:#t=[\d]+)?s?$)")
      case YouTube => RegExp(@"(?:https?:\/\/)?(?:www\.)?(?:(?:youtu\.be\/)|(?:youtube\.com)\/(?:v\/|u\/\w\/|embed\/|watch))(?:(?:\?v=)?([^#&?=]*))?((?:[?&]\w*=\w*)*)")
      case Coub => RegExp(@"https?:\/\/coub\.com\/view\/([^\/\?\&]+)")
      case Vine => RegExp(@"https?:\/\/vine\.co\/v\/([^\/\?\&]+)")
      case Imgur => RegExp(@"https?:\/\/(?:i\.)?imgur\.com.*\/([a-zA-Z0-9]+)(?:\.gifv)?")
      case Gfycat => RegExp(@"https?:\/\/gfycat\.com(?:\/detail)?\/([a-zA-Z]+)")
      case TwitchChannel => RegExp(@"https?:\/\/www\.twitch\.tv\/([^\/\?\&]*)\/?$")
      case TwitchVideo => RegExp(@"https?:\/\/www\.twitch\.tv\/(?:[^\/\?\&]*\/v|videos)\/([0-9]*)")
      case YandexMusicAlbum => RegExp(@"https?:\/\/music\.yandex\.ru\/album\/([0-9]*)\/?$")
      case YandexMusicTrack => RegExp(@"https?:\/\/music\.yandex\.ru\/album\/([0-9]*)\/track\/([0-9]*)")
      case YandexMusicPlaylist => RegExp(@"https?:\/\/music\.yandex\.ru\/users\/([^\/\?\&]*)\/playlists\/([0-9]*)")
      case Codepen => RegExp(@"https?:\/\/codepen\.io\/([^\/\?\&]*)\/pen\/([^\/\?\&]*)")
      case Instagram => RegExp(@"https?:\/\/www\.instagram\.com\/p\/([^\/\?\&]+)\/?")
      case Twitter => RegExp(@"^https?:\/\/twitter\.com\/(?:#!\/)?(\w+)\/status(?:es)?\/(\d+)(?:\/.*)?$")
    }

    /** The `embedUrl` template up to the placeholder. The yandex templates are written
        with `\.` inside a JavaScript string literal, which reads as a plain `.`. */
    function UrlPrefix(): string {
      match this
      case Vimeo => "https://player.vimeo.com/video/"
      case YouTube => "https://www.youtube.com/embed/"
      case Coub => "https://coub.com/embed/"
      case Vine => "https://vine.co/v/"
      case Imgur => "http://imgur.com/"
      case Gfycat => "https://gfycat.com/ifr/"
      case TwitchChannel => "https://player.twitch.tv/?channel="
      case TwitchVideo => "https://player.twitch.tv/?video=v"
      case YandexMusicAlbum => "https://music.yandex.ru/iframe/#album/"
      case YandexMusicTrack => "https://music.yandex.ru/iframe/#track/"
      case YandexMusicPlaylist => "https://music.yandex.ru/iframe/#playlist/"
      case Codepen => "https://codepen.io/"
      case Instagram => "https://www.instagram.com/p/"
      case Twitter => "https://twitframe.com/show?url=" + "https://twitter.com/"
    }

    /** The `embedUrl` template after the placeholder. */
    function UrlSuffix(): string {
      match this
      case Vimeo => "?title=0&byline=0"
      case YouTube => ""
      case Coub => ""
      case Vine => "/embed/simple/"
      case Imgur => "/embed"
      case Gfycat => ""
      case TwitchChannel => ""
      case TwitchVideo => ""
      case YandexMusicAlbum => "/"
      case YandexMusicTrack => "/"
      case YandexMusicPlaylist => "/show/cover/description/"
      case Codepen => "?height=300&theme-id=0&default-tab=css,result&embed-version=2"
      case Instagram => "/embed"
      case Twitter => ""
    }

    /** `html`: an iframe element; only its attributes differ between providers. */
    function Html(): string {
      "<iframe " + IframeAttributes() + "></iframe>"
    }

    /** The attributes of the `html` iframe, as written in the entry. */
    function IframeAttributes(): string {
      match this
      case Vimeo => @"style=""width:100%;"" height=""320"" frameborder=""0"""
      case YouTube => @"style=""width:100%;"" height=""320"" frameborder=""0"" allowfullscreen"
      case Coub => @"style=""width:100%;"" height=""320"" frameborder=""0"" allowfullscreen"
      case Vine => @"style=""width:100%;"" height=""320"" frameborder=""0"" allowfullscreen"
      case Imgur => @"allowfullscreen=""true"" scrolling=""no"" id=""imgur-embed-iframe-pub-<%= remote_id %>"" class=""imgur-embed-iframe-pub"" style=""height: 500px; width: 100%; border: 1px solid #000"""
      case Gfycat => @"frameborder='0' scrolling='no' style=""width:100%;"" height='436' allowfullscreen "
      case TwitchChannel => @"frameborder=""0"" allowfullscreen=""true"" scrolling=""no"" height=""366"" style=""width:100%;"""
      case TwitchVideo => @"frameborder=""0"" allowfullscreen=""true"" scrolling=""no"" height=""366"" style=""width:100%;"""
      case YandexMusicAlbum => @"frameborder=""0"" style=""border:none;width:540px;height:400px;"" style=""width:100%;"" height=""400"""
      case YandexMusicTrack => @"frameborder=""0"" style=""border:none;width:540px;height:100px;"" style=""width:100%;"" height=""100"""
      case YandexMusicPlaylist => @"frameborder=""0"" style=""border:none;width:540px;height:400px;"" width=""540"" height=""400"""
      case Codepen => @"height='300' scrolling='no' frameborder='no' allowtransparency='true' allowfullscreen='true' style='width: 100%;'"
      case Instagram => @"width=""400"" height=""505"" style=""margin: 0 auto;"" frameborder=""0"" scrolling=""no"" allowtransparency=""true"""
      case Twitter => @"width=""600"" height=""600"" style=""margin: 0 auto;"" frameborder=""0"" scrolling=""no"" allowtransparency=""true"""
    }

    /** `height`. */
    function Height(): int {
      match this
      case Vimeo => 320
      case YouTube => 320
      case Coub => 320
      case Vine => 320
      case Imgur => 500
      case Gfycat => 436
      case TwitchChannel => 366
      case TwitchVideo => 366
      case YandexMusicAlbum => 400
      case YandexMusicTrack => 100
      case YandexMusicPlaylist => 400
      case Codepen => 300
      case Instagram => 505
      case Twitter => 300
    }

    /** `width`. */
    function Width(): int {
      match this
      case Vimeo => 580
      case YouTube => 580
      case Coub => 580
      case Vine => 580
      case Imgur => 540
      case Gfycat => 580
      case TwitchChannel => 600
      case TwitchVideo => 600
      case YandexMusicAlbum => 540
      case YandexMusicTrack => 540
      case YandexMusicPlaylist => 540
      case Codepen => 600
      case Instagram => 400
      case Twitter => 600
    }

    /** `id`, where the entry declares one. */
    function Id(): Option<Extractor> {
      match this
      case Vimeo => None
      case YouTube => Some(YouTubeParams)
      case Coub => None
      case Vine => None
      case Imgur => None
      case Gfycat => None
      case TwitchChannel => None
      case TwitchVideo => None
      case YandexMusicAlbum => None
      case YandexMusicTrack => Some(JoinGroups("/"))
      case YandexMusicPlaylist => Some(JoinGroups("/"))
      case Codepen => Some(JoinGroups("/embed/"))
      case Instagram => None
      case Twitter => Some(JoinGroups("/status/"))
    }

    /** `embedUrl`: the template with the placeholder between prefix and suffix. */
    function EmbedUrl(): string {
      UrlPrefix() + Placeholder + UrlSuffix()
    }

    /** `id` as a property: an own key only where the entry declares one. */
    function IdProp(): Prop<Extractor> {
      match Id()
      case Some(e) => Present(Some(e))
      case None => Missing
    }

    /** The entry as the service object the table holds; both sizes are own keys. */
    function AsService(): Service {
      Service(Pattern(), EmbedUrl(), Html(), Present(Some(Height())), Present(Some(Width())), IdProp())
    }
  }

  /** The service object of a built-in carries its template, extractor and sizes. */
  lemma AsServiceFields(p: Builtin)
    ensures p.AsService().embedUrl == p.EmbedUrl() && p.AsService().id == p.IdProp()
    ensures p.AsService().width.Get() == Some(p.Width()) && p.AsService().height.Get() == Some(p.Height())
  {
    var s := p.AsService();
    var url, h, w := p.EmbedUrl(), p.Height(), p.Width();
    assert s == Service(p.Pattern(), url, p.Html(), Present(Some(h)), Present(Some(w)), p.IdProp());
  }

  /** The built-in table, in the source's declaration order. */
  const Registry: seq<Builtin> := [
    Vimeo, YouTube, Coub, Vine, Imgur,
    Gfycat, TwitchChannel, TwitchVideo, YandexMusicAlbum, YandexMusicTrack,
    YandexMusicPlaylist, Codepen, Instagram, Twitter
  ]

  /** `Object.entries(SERVICES)`. */
  function Builtins(): (r: seq<(string, Service)>)
    ensures |r| == |Registry|
    ensures forall i :: 0 <= i < |r| ==> r[i] == (Registry[i].Key(), Registry[i].AsService())
  {
    seq(|Registry|, i requires 0 <= i < |Registry| => (Registry[i].Key(), Registry[i].AsService()))
  }

  /** A built-in's markup is non-empty and both its sizes are set and positive; its
      template carries the placeholder by construction. */
  predicate WellFormedProvider(p: Builtin) {
    p.Html() != "" && p.Height() > 0 && p.Width() > 0
  }

  lemma RegistryWellFormed()
    ensures forall i :: 0 <= i < |Registry| ==> WellFormedProvider(Registry[i])
  {
  }

  /** No two providers share a key. */
  lemma RegistryKeysDistinct()
    ensures forall i, j :: 0 <= i < j < |Registry| ==> Registry[i].Key() != Registry[j].Key()
  {
  }

  /** The built-in table is a proper JavaScript object: its keys are distinct. */
  lemma BuiltinKeysDistinct()
    ensures DistinctKeys(Builtins())
  {
    RegistryKeysDistinct();
  }

  /** Every built-in template holds the placeholder, right after its prefix. */
  lemma BuiltinHasPlaceholder(p: Builtin)
    ensures OccursAt(p.EmbedUrl(), Placeholder, |p.UrlPrefix()|)
  {
    var u := p.EmbedUrl();
    assert u[|p.UrlPrefix()|..|p.UrlPrefix()| + |Placeholder|] == Placeholder;
  }

  // ---------------------------------------------------------------------------
  // Rendering the built-in templates

  /** No built-in template holds a `<` (the placeholder's first character) before its
      placeholder. */
  lemma BuiltinPrefixClean(p: Builtin)
    ensures '<' !in p.UrlPrefix()
  {
    match p
    case Vimeo | YouTube | Coub | Vine | Imgur | Gfycat | TwitchChannel =>
      FirstPrefixesClean(p);
    case TwitchVideo | Codepen | Instagram =>
      MiddlePrefixesClean(p);
    case YandexMusicAlbum | YandexMusicTrack | YandexMusicPlaylist =>
      YandexPrefixesClean(p);
    case Twitter =>
      TwitterPrefixClean();
  }

  lemma FirstPrefixesClean(p: Builtin)
    requires p.Vimeo? || p.YouTube? || p.Coub? || p.Vine? || p.Imgur? || p.Gfycat? || p.TwitchChannel?
    ensures '<' !in p.UrlPrefix()
  {
  }

  lemma MiddlePrefixesClean(p: Builtin)
    requires p.TwitchVideo? || p.Codepen? || p.Instagram?
    ensures '<' !in p.UrlPrefix()
  {
  }

  lemma YandexPrefixesClean(p: Builtin)
    requires p.YandexMusicAlbum? || p.YandexMusicTrack? || p.YandexMusicPlaylist?
    ensures '<' !in p.UrlPrefix()
  {
    assert p.UrlPrefix()[..27] == "https://music.yandex.ru/ifr";
  }

  lemma TwitterPrefixClean()
    ensures '<' !in Twitter.UrlPrefix()
  {
    assert '<' !in "https://twitframe.com/show?url=";
  }

  /** Nor after it. */
  lemma BuiltinSuffixClean(p: Builtin)
    ensures '<' !in p.UrlSuffix()
  {
    match p
    case Codepen =>
      CodepenTemplate();
    case _ =>
  }

  /** Every built-in template renders as the text before the placeholder, the id, and
      the text after. */
  lemma RenderBuiltin(p: Builtin, id: string)
    ensures ReplaceAll(p.EmbedUrl(), Placeholder, id) == p.UrlPrefix() + id + p.UrlSuffix()
  {
    BuiltinPrefixClean(p);
    BuiltinSuffixClean(p);
    SingleReplace(p.UrlPrefix(), p.UrlSuffix(), Placeholder, id);
  }

  /** The vimeo template: its text around the placeholder holds no `<`. */
  lemma VimeoTemplate()
    ensures Vimeo.UrlPrefix() == "https://player.vimeo.com/video/" && '<' !in "https://player.vimeo.com/video/"
    ensures Vimeo.UrlSuffix() == "?title=0&byline=0" && '<' !in "?title=0&byline=0"
  {
  }

  /** A vimeo video embeds the player for its id, followed by the player's query. */
  lemma VimeoRender(id: string)
    ensures ReplaceAll(Vimeo.EmbedUrl(), Placeholder, id) == "https://player.vimeo.com/video/" + id + "?title=0&byline=0"
  {
    VimeoTemplate();
    RenderBuiltin(Vimeo, id);
  }

  /** The youtube template: the id is appended to the embed URL. */
  lemma YouTubeTemplate()
    ensures YouTube.UrlPrefix() == "https://www.youtube.com/embed/" && '<' !in "https://www.youtube.com/embed/"
    ensures YouTube.UrlSuffix() == ""
  {
  }

  lemma YouTubeRender(id: string)
    ensures ReplaceAll(YouTube.EmbedUrl(), Placeholder, id) == "https://www.youtube.com/embed/" + id
  {
    YouTubeTemplate();
    RenderBuiltin(YouTube, id);
    assert "https://www.youtube.com/embed/" + id + "" == "https://www.youtube.com/embed/" + id;
  }

  /** The codepen query, in three pieces short enough to inspect character by character. */
  lemma CodepenQuery()
    ensures Codepen.UrlSuffix() == "?height=300&theme-id=0" + "&default-tab=css,result" + "&embed-version=2"
  {
  }

  /** The codepen template: its text around the placeholder holds no `<`. */
  lemma CodepenTemplate()
    ensures Codepen.UrlPrefix() == "https://codepen.io/" && '<' !in Codepen.UrlPrefix()
    ensures '<' !in Codepen.UrlSuffix()
  {
    CodepenQuery();
    assert '<' !in "?height=300&theme-id=0" + "&default-tab=css,result" + "&embed-version=2";
  }

  /** A codepen pen embeds under the codepen host, followed by the embed query. */
  lemma CodepenRender(id: string)
    ensures ReplaceAll(Codepen.EmbedUrl(), Placeholder, id)
      == "https://codepen.io/" + id + "?height=300&theme-id=0&default-tab=css,result&embed-version=2"
  {
    CodepenTemplate();
    RenderBuiltin(Codepen, id);
  }

  // ---------------------------------------------------------------------------
  // Extractors

  /** Capture groups as strings, undefined ones read as `''` (what `Array.prototype.join` does). */
  function GroupTexts(groups: seq<Option<string>>): (r: seq<string>)
    ensures |r| == |groups|
    ensures forall i :: 0 <= i < |groups| ==> r[i] == groups[i].GetOr("")
  {
    seq(|groups|, i requires 0 <= i < |groups| => groups[i].GetOr(""))
  }

  /** `(ids) => ids.join(sep)`. */
  function JoinIds(groups: seq<Option<string>>, sep: string): (r: string)
    ensures |groups| == 0 ==> r == ""
    ensures |groups| == 1 ==> r == groups[0].GetOr("")
    ensures forall c :: c in r ==> c in sep || exists i :: 0 <= i < |groups| && c in groups[i].GetOr("")
  {
    Join(GroupTexts(groups), sep)
  }

  /** Two groups join into the first, the separator, the second. */
  lemma JoinTwoGroups(a: string, b: string, sep: string)
    ensures JoinIds([Some(a), Some(b)], sep) == a + sep + b
  {
    assert GroupTexts([Some(a), Some(b)]) == [a, b];
    assert [a, b][1..] == [b];
    assert Join([b], sep) == b;
  }

  /** The join extractors of the registry: yandex tracks and playlists join their two
      groups with `/`, codepen with `/embed/`, twitter with `/status/`. */
  lemma JoinExtractors(a: string, b: string)
    ensures ApplyExtractor(YandexMusicTrack.Id().value, [Some(a), Some(b)]) == Some(a + "/" + b)
    ensures ApplyExtractor(YandexMusicPlaylist.Id().value, [Some(a), Some(b)]) == Some(a + "/" + b)
    ensures ApplyExtractor(Codepen.Id().value, [Some(a), Some(b)]) == Some(a + "/embed/" + b)
    ensures ApplyExtractor(Twitter.Id().value, [Some(a), Some(b)]) == Some(a + "/status/" + b)
  {
    JoinTwoGroups(a, b, "/");
    JoinTwoGroups(a, b, "/embed/");
    JoinTwoGroups(a, b, "/status/");
  }

  /** The youtube `paramsMap`: a recognised query name and the canonical name it is emitted under. */
  function CanonicalName(name: string): (r: Option<string>)
    ensures r == Some("start") <==> name in {"start", "t", "time_continue"}
    ensures r == Some("end") <==> name == "end"
    ensures r == Some("list") <==> name == "list"
    ensures r.None? <==> name !in {"start", "t", "time_continue", "end", "list"}
  {
    if name == "start" || name == "t" || name == "time_continue" then Some("start")
    else if name == "end" then Some("end")
    else if name == "list" then Some("list")
    else None
  }

  /** `const [name, value] = param.split('=')`. */
  function NameValue(param: string): (r: (string, Option<string>))
    ensures '=' !in r.0
    ensures r.1.Some? ==> '=' !in r.1.value
  {
    var parts := Split(param, '=');
    (parts[0], if |parts| > 1 then Some(parts[1]) else None)
  }

  /** A parameter without `=` is all name, and its value is undefined. */
  lemma NameWithoutValue(param: string)
    requires '=' !in param
    ensures NameValue(param) == (param, None)
  {
    SplitWithoutSeparator(param, '=');
  }

  /** The youtube extractor's running state: the (reassigned) id and the pairs kept so far. */
  datatype Scan = Scan(id: Option<string>, kept: seq<string>)

  /** One call of the `map` callback: while the id is falsy a `v` pair becomes the id and
      is not emitted; a recognised name is emitted under its canonical name; everything
      else is dropped by the later `filter`. */
  function ScanParam(st: Scan, param: string): (r: Scan)
    ensures st.kept <= r.kept && |r.kept| <= |st.kept| + 1
    ensures TruthyStr(st.id) ==> r.id == st.id
  {
    var (name, value) := NameValue(param);
    if !TruthyStr(st.id) && name == "v" then Scan(value, st.kept)
    else match CanonicalName(name)
      case None => st
      case Some(c) => Scan(st.id, st.kept + [c + "=" + ToStr(value)])
  }

  /** The `map`/`filter` pass over all parameters, left to right. */
  function ScanParams(st: Scan, params: seq<string>): (r: Scan)
    ensures st.kept <= r.kept && |r.kept| <= |st.kept| + |params|
    ensures TruthyStr(st.id) ==> r.id == st.id
    decreases |params|
  {
    if params == [] then st else ScanParams(ScanParam(st, params[0]), params[1..])
  }

  /** A kept pair begins with one of the canonical names and `=`. */
  predicate CanonicalPair(pair: string) {
    StartsWith(pair, "start=") || StartsWith(pair, "end=") || StartsWith(pair, "list=")
  }

  /** Reference definition: the recognised parameters renamed, in encounter order, with
      everything else (`v` included) dropped. */
  function Renamed(params: seq<string>): (r: seq<string>)
    ensures |r| <= |params|
    ensures forall pair :: pair in r ==> CanonicalPair(pair)
  {
    if params == [] then [] else RenamedParam(params[0]) + Renamed(params[1..])
  }

  /** What `Renamed` keeps of one parameter. */
  function RenamedParam(param: string): (r: seq<string>)
    ensures |r| <= 1
    ensures forall pair :: pair in r ==> CanonicalPair(pair)
  {
    var (name, value) := NameValue(param);
    match CanonicalName(name)
    case None => []
    case Some(c) =>
      var pair := c + "=" + ToStr(value);
      assert pair[..|c| + 1] == c + "=";
      [pair]
  }

  /** A parameter that cannot supply the id is kept exactly as `Renamed` keeps it. */
  lemma ScanParamKeeps(st: Scan, param: string)
    requires TruthyStr(st.id) || NameValue(param).0 != "v"
    ensures ScanParam(st, param) == Scan(st.id, st.kept + RenamedParam(param))
  {
  }

  /** Once the id is truthy, scanning keeps exactly the renamed recognised pairs. */
  lemma {:induction false} ScanWithKnownId(st: Scan, params: seq<string>)
    requires TruthyStr(st.id)
    ensures ScanParams(st, params) == Scan(st.id, st.kept + Renamed(params))
    decreases |params|
  {
    if params != [] {
      ScanParamKeeps(st, params[0]);
      var head := RenamedParam(params[0]);
      var next := Scan(st.id, st.kept + head);
      assert ScanParams(st, params) == ScanParams(next, params[1..]);
      ScanWithKnownId(next, params[1..]);
      assert Renamed(params) == head + Renamed(params[1..]);
      assert st.kept + (head + Renamed(params[1..])) == (st.kept + head) + Renamed(params[1..]);
    }
  }

  /** While the id is falsy and no `v` pair has come, scanning also keeps the renamed pairs. */
  lemma {:induction false} ScanWithoutV(st: Scan, params: seq<string>)
    requires forall p :: p in params ==> NameValue(p).0 != "v"
    ensures ScanParams(st, params) == Scan(st.id, st.kept + Renamed(params))
    decreases |params|
  {
    if params != [] {
      ScanParamKeeps(st, params[0]);
      var head := RenamedParam(params[0]);
      var next := Scan(st.id, st.kept + head);
      assert ScanParams(st, params) == ScanParams(next, params[1..]);
      ScanWithoutV(next, params[1..]);
      assert Renamed(params) == head + Renamed(params[1..]);
      assert st.kept + (head + Renamed(params[1..])) == (st.kept + head) + Renamed(params[1..]);
    }
  }

  lemma {:induction false} ScanAppend(st: Scan, a: seq<string>, b: seq<string>)
    ensures ScanParams(st, a + b) == ScanParams(ScanParams(st, a), b)
    decreases |a|
  {
    if a != [] {
      assert (a + b)[1..] == a[1..] + b;
      ScanAppend(ScanParam(st, a[0]), a[1..], b);
    } else {
      assert a + b == b;
    }
  }

  lemma {:induction false} RenamedAppend(a: seq<string>, b: seq<string>)
    ensures Renamed(a + b) == Renamed(a) + Renamed(b)
    decreases |a|
  {
    if a != [] {
      assert (a + b)[1..] == a[1..] + b;
      RenamedAppend(a[1..], b);
    } else {
      assert a + b == b;
    }
  }

  /** While the id is falsy, `v` pairs with an empty or missing value replace it by
      another falsy id and are not emitted; the recognised pairs are kept. */
  lemma {:induction false} ScanFalsyV(st: Scan, params: seq<string>)
    requires !TruthyStr(st.id)
    requires forall p :: p in params && NameValue(p).0 == "v" ==> !TruthyStr(NameValue(p).1)
    ensures !TruthyStr(ScanParams(st, params).id)
    ensures ScanParams(st, params).kept == st.kept + Renamed(params)
    decreases |params|
  {
    if params != [] {
      var p := params[0];
      assert p in params;
      ScanParamFalsyV(st, p);
      var next := ScanParam(st, p);
      assert params == [p] + params[1..];
      ScanFalsyV(next, params[1..]);
      assert Renamed(params) == RenamedParam(p) + Renamed(params[1..]);
      assert st.kept + (RenamedParam(p) + Renamed(params[1..]))
          == (st.kept + RenamedParam(p)) + Renamed(params[1..]);
    }
  }

  /** One step of `ScanFalsyV`. */
  lemma ScanParamFalsyV(st: Scan, p: string)
    requires !TruthyStr(st.id)
    requires NameValue(p).0 == "v" ==> !TruthyStr(NameValue(p).1)
    ensures !TruthyStr(ScanParam(st, p).id)
    ensures ScanParam(st, p).kept == st.kept + RenamedParam(p)
  {
  }

  /** With a falsy id, the first `v` pair with a non-empty value supplies the id and is
      not emitted; `v` pairs before it without a value are dropped, and every recognised
      pair before and after it is kept in order. */
  lemma ScanRecoversId(id0: Option<string>, before: seq<string>, v: string, after: seq<string>)
    requires !TruthyStr(id0)
    requires forall p :: p in before && NameValue(p).0 == "v" ==> !TruthyStr(NameValue(p).1)
    requires NameValue(v).0 == "v" && TruthyStr(NameValue(v).1)
    ensures ScanParams(Scan(id0, []), before + [v] + after)
         == Scan(NameValue(v).1, Renamed(before) + Renamed(after))
  {
    ScanAppend(Scan(id0, []), before, [v] + after);
    assert before + [v] + after == before + ([v] + after);
    ScanFalsyV(Scan(id0, []), before);
    assert [] + Renamed(before) == Renamed(before);
    var mid := ScanParams(Scan(id0, []), before);
    assert ([v] + after)[0] == v && ([v] + after)[1..] == after;
    assert ScanParam(mid, v) == Scan(NameValue(v).1, Renamed(before));
    assert ScanParams(mid, [v] + after) == ScanParams(ScanParam(mid, v), after);
    ScanWithKnownId(Scan(NameValue(v).1, Renamed(before)), after);
  }

  /** The youtube `id` function of src/services.js. None: it throws (`params.slice` on an
      undefined params group). */
  function YouTubeId(groups: seq<Option<string>>): (r: Option<string>)
    ensures r.None? <==> At(groups, 1).None? && !TruthyStr(At(groups, 0))
    ensures !TruthyStr(At(groups, 1)) && TruthyStr(At(groups, 0)) ==> r == At(groups, 0)
  {
    var id := At(groups, 0);
    var params := At(groups, 1);
    if !TruthyStr(params) && TruthyStr(id) then id
    else if params.None? then None
    else
      var st := ScanParams(Scan(id, []), Split(DropFirst(params.value), '&'));
      Some(ToStr(st.id) + "?" + Join(st.kept, "&"))
  }

  /** With a non-empty id and a non-empty params group, the result is the id, `?`, and
      the recognised pairs renamed and joined by `&` in encounter order. */
  lemma YouTubeWithId(id: string, params: string)
    requires id != "" && params != ""
    ensures YouTubeId([Some(id), Some(params)])
         == Some(id + "?" + Join(Renamed(Split(DropFirst(params), '&')), "&"))
  {
    var groups := [Some(id), Some(params)];
    assert At(groups, 0) == Some(id) && At(groups, 1) == Some(params);
    var ps := Split(DropFirst(params), '&');
    ScanWithKnownId(Scan(Some(id), []), ps);
    assert [] + Renamed(ps) == Renamed(ps);
  }

  /** A params group `&t=<value>` holds one pair, `t=<value>`. */
  lemma TimeParamSplits(value: string)
    requires '&' !in value && '=' !in value
    ensures Split(DropFirst("&t=" + value), '&') == ["t=" + value]
    ensures NameValue("t=" + value) == ("t", Some(value))
  {
    assert DropFirst("&t=" + value) == "t=" + value;
    SplitWithoutSeparator("t=" + value, '&');
    assert "t=" + value == "t" + ['='] + value;
    SplitAfterPiece("t", value, '=');
    SplitWithoutSeparator(value, '=');
  }

  /** `t=<value>` is renamed to `start=<value>`. */
  lemma TimeParamRenamed(value: string)
    requires '&' !in value && '=' !in value
    ensures Renamed(["t=" + value]) == ["start=" + value]
  {
    TimeParamSplits(value);
    assert CanonicalName("t") == Some("start");
    assert RenamedParam("t=" + value) == ["start" + "=" + value];
    assert ["t=" + value][1..] == [];
    assert Renamed(["t=" + value]) == RenamedParam("t=" + value) + Renamed([]);
    assert "start" + "=" + value == "start=" + value;
  }

  /** A watch URL with a `t` parameter: its params group `&t=<value>` becomes the
      `?start=<value>` query of the embed. */
  lemma YouTubeStartTime(id: string, value: string)
    requires id != "" && '&' !in value && '=' !in value
    ensures YouTubeId([Some(id), Some("&t=" + value)]) == Some(id + "?start=" + value)
  {
    TimeParamSplits(value);
    TimeParamRenamed(value);
    assert Join(["start=" + value], "&") == "start=" + value;
    YouTubeWithId(id, "&t=" + value);
    assert id + "?" + ("start=" + value) == id + "?start=" + value;
  }

  /** The video of the youtube example, at two minutes. */
  lemma YouTubeExample()
    ensures YouTubeId([Some("wZZ7oFKsKzY"), Some("&t=120")]) == Some("wZZ7oFKsKzY?start=120")
  {
    YouTubeStartTime("wZZ7oFKsKzY", "120");
    assert "&t=" + "120" == "&t=120";
    assert "wZZ7oFKsKzY" + "?start=" + "120" == "wZZ7oFKsKzY?start=120";
  }

  /** A URL whose id group is falsy but whose query holds a `v` pair with a value: the
      extractor takes the id from the first such pair (earlier `v` pairs without a value
      are dropped) and emits the recognised pairs before and after it. */
  lemma YouTubeIdFromQuery(id0: Option<string>, before: seq<string>, v: string, after: seq<string>)
    requires !TruthyStr(id0)
    requires forall p :: p in before + [v] + after ==> '&' !in p
    requires forall p :: p in before && NameValue(p).0 == "v" ==> !TruthyStr(NameValue(p).1)
    requires NameValue(v).0 == "v" && TruthyStr(NameValue(v).1)
    ensures YouTubeId([id0, Some("?" + Join(before + [v] + after, "&"))])
         == Some(NameValue(v).1.value + "?" + Join(Renamed(before) + Renamed(after), "&"))
  {
    var ps := before + [v] + after;
    var params := "?" + Join(ps, "&");
    var groups := [id0, Some(params)];
    assert At(groups, 0) == id0 && At(groups, 1) == Some(params);
    assert DropFirst(params) == Join(ps, "&");
    SplitJoin(ps, '&');
    ScanRecoversId(id0, before, v, after);
  }

  /** A params group with no recognised name leaves a trailing `?`. */
  lemma YouTubeTrailingQuestionMark(id: string, params: string)
    requires id != "" && params != ""
    requires forall p :: p in Split(DropFirst(params), '&') ==> CanonicalName(NameValue(p).0).None?
    ensures YouTubeId([Some(id), Some(params)]) == Some(id + "?")
  {
    YouTubeWithId(id, params);
    NothingRecognised(Split(DropFirst(params), '&'));
    assert id + "?" + Join([], "&") == id + "?";
  }

  lemma {:induction false} NothingRecognised(params: seq<string>)
    requires forall p :: p in params ==> CanonicalName(NameValue(p).0).None?
    ensures Renamed(params) == []
    decreases |params|
  {
    if params != [] {
      NothingRecognised(params[1..]);
    }
  }

  /** The extractor named by a strategy. None: it throws. */
  function ApplyExtractor(e: Extractor, groups: seq<Option<string>>): (r: Option<string>)
    ensures e.JoinGroups? ==> r == Some(JoinIds(groups, e.separator))
    ensures e.YouTubeParams? ==> r == YouTubeId(groups)
  {
    match e
    case YouTubeParams => YouTubeId(groups)
    case JoinGroups(sep) => Some(JoinIds(groups, sep))
  }
}
