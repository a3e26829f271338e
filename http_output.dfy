/** The remote MIDI output that sends control and program changes as HTTP requests. */
module HttpOutput {
  import opened Wrappers
  import opened Numbers
  import opened Utils
  import opened Types

  /** The configuration of one remote output; `id` and `name` may be absent. */
  datatype OutputConfig = OutputConfig(baseUrl: string, id: Option<string>, name: Option<string>, auth: Auth)

  /** A constructed output: its read-only fields. */
  datatype Output = Output(id: string, name: string, manufacturer: string, baseUrl: string, auth: Auth)

  /** `baseUrl.trim().replace(/\/$/, "")`: trimmed, then one trailing '/' dropped. */
  function NormalizeBaseUrl(baseUrl: string): string
  {
    var t := Trim(baseUrl);
    if |t| > 0 && t[|t| - 1] == '/' then t[..|t| - 1] else t
  }

  function InvalidBaseUrl(baseUrl: string): string
  {
    "HttpOutput: invalid baseUrl \"" + baseUrl + "\""
  }

  /**
   * The constructor: the normalised base URL must pass `isUrl` with local paths allowed,
   * otherwise it throws naming the base URL as given; `libraryIsUrl` is the library check.
   */
  function Construct(config: OutputConfig, libraryIsUrl: string -> bool): Result<Output>
  {
    var baseUrl := NormalizeBaseUrl(config.baseUrl);
    if !IsUrl(baseUrl, true, libraryIsUrl) then Err(InvalidBaseUrl(config.baseUrl))
    else Ok(Output(config.id.GetOr("http-" + baseUrl), config.name.GetOr(baseUrl), "HTTP", baseUrl, config.auth))
  }

  /** The stored base URL is the trimmed one, less exactly one trailing '/' when there is one. */
  lemma NormalizeBaseUrlDropsOneSlash(baseUrl: string)
    ensures var t := Trim(baseUrl);
            if |t| > 0 && t[|t| - 1] == '/' then NormalizeBaseUrl(baseUrl) + "/" == t
            else NormalizeBaseUrl(baseUrl) == t
  {
    var t := Trim(baseUrl);
    if |t| > 0 && t[|t| - 1] == '/' {
      assert t[..|t| - 1] + "/" == t;
    }
  }

  /**
   * Construction fails exactly when `isUrl` rejects the normalised URL, with the message naming
   * the URL as configured; otherwise the id and name default to "http-" + URL and the URL, and
   * the manufacturer is "HTTP".
   */
  lemma ConstructFields(config: OutputConfig, libraryIsUrl: string -> bool)
    ensures var baseUrl := NormalizeBaseUrl(config.baseUrl);
            Construct(config, libraryIsUrl).Err? <==> !IsUrl(baseUrl, true, libraryIsUrl)
    ensures Construct(config, libraryIsUrl).Err? ==> Construct(config, libraryIsUrl).message == InvalidBaseUrl(config.baseUrl)
    ensures Construct(config, libraryIsUrl).Ok? ==>
              var o := Construct(config, libraryIsUrl).value;
              var baseUrl := NormalizeBaseUrl(config.baseUrl);
              o.baseUrl == baseUrl && o.manufacturer == "HTTP" && o.auth == config.auth
              && (config.id.Some? ==> o.id == config.id.value) && (config.id.None? ==> o.id == "http-" + baseUrl)
              && (config.name.Some? ==> o.name == config.name.value) && (config.name.None? ==> o.name == baseUrl)
  {
  }

  /** A base URL that is blank or only "/" leaves nothing to check and is always rejected. */
  lemma BlankBaseUrlRejected(config: OutputConfig, libraryIsUrl: string -> bool)
    requires Trim(config.baseUrl) == "" || Trim(config.baseUrl) == "/"
    ensures Construct(config, libraryIsUrl) == Err(InvalidBaseUrl(config.baseUrl))
  {
    assert NormalizeBaseUrl(config.baseUrl) == "";
  }

  /** A base URL that is a local path is accepted whatever the library says. */
  lemma LocalBaseUrlAccepted(config: OutputConfig, libraryIsUrl: string -> bool)
    requires NormalizeBaseUrl(config.baseUrl) != [] && NormalizeBaseUrl(config.baseUrl)[0] == '/'
    ensures Construct(config, libraryIsUrl).Ok?
  {
    LocalPathIsUrl(NormalizeBaseUrl(config.baseUrl), libraryIsUrl);
  }

  /** A string starting with '/' passes `isUrl` when local paths are allowed. */
  lemma LocalPathIsUrl(b: string, libraryIsUrl: string -> bool)
    requires b != [] && b[0] == '/'
    ensures IsUrl(b, true, libraryIsUrl)
  {
    assert TrimStart(b) == b;
    TrimEndKeepsFirst(b);
    assert StartsWith(Trim(b), "/");
  }

  /** `_authHeaders`: the bearer token or the API key header. */
  function AuthHeaders(auth: Auth): seq<(string, string)>
  {
    match auth
    case Bearer(token) => [("Authorization", "Bearer " + token)]
    case ApiKey(key) => [("X-API-Key", key)]
  }

  /** The headers of every request: the content type first, then the authentication header. */
  function RequestHeaders(auth: Auth): seq<(string, string)>
  {
    [("Content-Type", "application/json")] + AuthHeaders(auth)
  }

  lemma RequestHeadersShape(auth: Auth)
    ensures |RequestHeaders(auth)| == 2 && RequestHeaders(auth)[0] == ("Content-Type", "application/json")
    ensures RequestHeaders(auth)[1].0 == "Authorization" <==> auth.Bearer?
    ensures auth.Bearer? ==> RequestHeaders(auth)[1].1 == "Bearer " + auth.token
    ensures auth.ApiKey? ==> RequestHeaders(auth)[1] == ("X-API-Key", auth.key)
  {
  }

  /** The `channels` option: one channel or a list of channels. */
  datatype ChannelsOption = Single(channel: int) | Many(channels: seq<int>)

  /** `_normalizeChannels`: a list stays as it is, a single channel becomes a singleton. */
  function NormalizeChannels(options: ChannelsOption): seq<int>
  {
    match options
    case Single(c) => [c]
    case Many(list) => list
  }

  /** A JSON value of a request body. */
  datatype JsonValue = Number(n: int) | Numbers(items: seq<int>)

  /** The body's `channel`: the sole channel of a one-element list, the whole list otherwise. */
  function ChannelField(channels: seq<int>): JsonValue
  {
    if |channels| == 1 then Number(channels[0]) else Numbers(channels)
  }

  /** Reading the channel list back from the body's `channel` field. */
  function ChannelsOfField(field: JsonValue): seq<int>
  {
    match field
    case Number(n) => [n]
    case Numbers(items) => items
  }

  /** The body field determines the normalised channel list, and a scalar equals its singleton list. */
  lemma ChannelFieldRoundTrip(options: ChannelsOption, c: int)
    ensures ChannelsOfField(ChannelField(NormalizeChannels(options))) == NormalizeChannels(options)
    ensures ChannelField(NormalizeChannels(Single(c))) == ChannelField(NormalizeChannels(Many([c]))) == Number(c)
    ensures |NormalizeChannels(options)| != 1 ==> ChannelField(NormalizeChannels(options)) == Numbers(NormalizeChannels(options))
  {
  }

  /** The description of one request: URL, method (`verb`), headers and the body's fields in order. */
  datatype Request = Request(url: string, verb: string, headers: seq<(string, string)>, body: seq<(string, JsonValue)>)

  /** The request `sendControlChange(note, velocity, options)` issues. */
  function ControlChangeRequest(o: Output, note: int, velocity: int, options: ChannelsOption): Request
  {
    Request(o.baseUrl + "/midi/control-change", "POST", RequestHeaders(o.auth),
            [("channel", ChannelField(NormalizeChannels(options))), ("note", Number(note)), ("velocity", Number(velocity))])
  }

  /** The request `sendProgramChange(note, options)` issues. */
  function ProgramChangeRequest(o: Output, note: int, options: ChannelsOption): Request
  {
    Request(o.baseUrl + "/midi/program-change", "POST", RequestHeaders(o.auth),
            [("channel", ChannelField(NormalizeChannels(options))), ("note", Number(note))])
  }

  function Keys(body: seq<(string, JsonValue)>): seq<string>
  {
    seq(|body|, i requires 0 <= i < |body| => body[i].0)
  }

  /** The value of the first body field named `key`, if any. */
  function Field(body: seq<(string, JsonValue)>, key: string): Option<JsonValue>
  {
    if body == [] then None else if body[0].0 == key then Some(body[0].1) else Field(body[1..], key)
  }

  /**
   * Both requests are POSTs below the base URL with the same headers; a control change carries
   * channel, note and velocity in that order, a program change only channel and note, and the
   * channels the body names are the normalised option.
   */
  lemma RequestsShape(o: Output, note: int, velocity: int, options: ChannelsOption)
    ensures var cc := ControlChangeRequest(o, note, velocity, options);
            cc.verb == "POST" && cc.url == o.baseUrl + "/midi/control-change" && cc.headers == RequestHeaders(o.auth)
            && Keys(cc.body) == ["channel", "note", "velocity"]
            && Field(cc.body, "note") == Some(Number(note)) && Field(cc.body, "velocity") == Some(Number(velocity))
            && ChannelsOfField(Field(cc.body, "channel").value) == NormalizeChannels(options)
    ensures var pc := ProgramChangeRequest(o, note, options);
            pc.verb == "POST" && pc.url == o.baseUrl + "/midi/program-change" && pc.headers == RequestHeaders(o.auth)
            && Keys(pc.body) == ["channel", "note"] && Field(pc.body, "velocity") == None
            && Field(pc.body, "note") == Some(Number(note))
            && ChannelsOfField(Field(pc.body, "channel").value) == NormalizeChannels(options)
  {
    var cc := ControlChangeRequest(o, note, velocity, options);
    assert cc.body[1..][1..][1..] == [];
    assert Field(cc.body[1..][1..], "velocity") == Some(Number(velocity));
    assert Field(cc.body[1..], "velocity") == Some(Number(velocity));
    var pc := ProgramChangeRequest(o, note, options);
    assert pc.body[1..][1..] == [];
    assert Field(pc.body[1..][1..], "velocity") == None;
    assert Field(pc.body[1..], "velocity") == None;
  }
}
