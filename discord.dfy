// src/utils/discord.ts: the validators, the request body the webhook call
// sends, the classification of the webhook's response, and the two small
// conversions (hex colour text, avatar fallback).

module Discord {
  import opened Types
  import opened Text

  /** Milliseconds that must pass between two sends. */
  const RateLimitDelay: int := 2000
  const MaxMessageLength: nat := 2000
  /** Declared by the source and never enforced anywhere. */
  const MaxEmbedFields: nat := 25

  const WebhookPrefix: string := "https://discord.com/api/webhooks/"

  // ---------------------------------------------------------------------------
  // validateWebhookUrl

  /** `\d` of the pattern (no Unicode flag): the ASCII digits. */
  predicate IsAsciiDigit(c: char) {
    '0' <= c <= '9'
  }

  /** `[\w-]` of the pattern: ASCII letters, digits, underscore and hyphen. */
  predicate IsTokenChar(c: char) {
    ('a' <= c <= 'z') || ('A' <= c <= 'Z') || IsAsciiDigit(c) || c == '_' || c == '-'
  }

  predicate AllDigits(s: string) {
    forall i :: 0 <= i < |s| ==> IsAsciiDigit(s[i])
  }

  predicate AllTokenChars(s: string) {
    forall i :: 0 <= i < |s| ==> IsTokenChar(s[i])
  }

  /** `rest` splits at `k` into `\d+`, a slash, and `[\w-]+`. */
  predicate SplitsAt(rest: string, k: int) {
    && 0 < k < |rest| - 1
    && AllDigits(rest[..k])
    && rest[k] == '/'
    && AllTokenChars(rest[k + 1..])
  }

  /** The anchored pattern ^https://discord\.com/api/webhooks/\d+/[\w-]+$ read as
      a concatenation of character classes: the fixed prefix, then some split of
      the rest into digits, a slash and token characters, with nothing after. */
  ghost predicate MatchesWebhookPattern(url: string) {
    && |WebhookPrefix| <= |url|
    && url[..|WebhookPrefix|] == WebhookPrefix
    && exists k :: SplitsAt(url[|WebhookPrefix|..], k)
  }

  /** The length of the run of digits `s` starts with. */
  function LeadingDigits(s: string): (k: nat)
    ensures k <= |s| && AllDigits(s[..k])
    ensures k == |s| || !IsAsciiDigit(s[k])
  {
    if |s| > 0 && IsAsciiDigit(s[0]) then
      var k := 1 + LeadingDigits(s[1..]);
      assert s[..k] == [s[0]] + s[1..][..k - 1];
      k
    else 0
  }

  /** validateWebhookUrl, computed in one left-to-right scan: the prefix, the
      run of digits, a slash right after it, and token characters to the end. */
  function ValidateWebhookUrl(url: string): (valid: bool)
    ensures valid ==> |url| >= |WebhookPrefix| + 3 && url[..|WebhookPrefix|] == WebhookPrefix
    ensures valid ==> IsTokenChar(url[|url| - 1])
  {
    && |WebhookPrefix| <= |url|
    && url[..|WebhookPrefix|] == WebhookPrefix
    && var rest := url[|WebhookPrefix|..];
       var k := LeadingDigits(rest);
       && 0 < k < |rest| - 1
       && rest[k] == '/'
       && AllTokenChars(rest[k + 1..])
  }

  /** The scan accepts exactly the strings the anchored pattern matches. */
  lemma ValidateWebhookUrlMatchesPattern(url: string)
    ensures ValidateWebhookUrl(url) <==> MatchesWebhookPattern(url)
  {
    if |WebhookPrefix| <= |url| && url[..|WebhookPrefix|] == WebhookPrefix {
      var rest := url[|WebhookPrefix|..];
      var k := LeadingDigits(rest);
      if ValidateWebhookUrl(url) {
        assert SplitsAt(rest, k);
      }
      forall j | SplitsAt(rest, j) ensures j == k {
        OnlySplitIsDigitRun(rest, j);
      }
    }
  }

  /** A split point of the pattern is necessarily the end of the digit run. */
  lemma OnlySplitIsDigitRun(rest: string, j: int)
    requires SplitsAt(rest, j)
    ensures j == LeadingDigits(rest)
  {
    var k := LeadingDigits(rest);
    assert forall i :: 0 <= i < j ==> IsAsciiDigit(rest[i]) by {
      forall i | 0 <= i < j ensures IsAsciiDigit(rest[i]) { assert rest[..j][i] == rest[i]; }
    }
    assert forall i :: 0 <= i < k ==> IsAsciiDigit(rest[i]) by {
      forall i | 0 <= i < k ensures IsAsciiDigit(rest[i]) { assert rest[..k][i] == rest[i]; }
    }
    assert !IsAsciiDigit(rest[j]);
  }

  /** A well-formed webhook URL is accepted. */
  lemma WebhookUrlAccepted()
    ensures ValidateWebhookUrl("https://discord.com/api/webhooks/1234/Ab-c_9")
  {
    var good := "https://discord.com/api/webhooks/1234/Ab-c_9";
    assert good[..|WebhookPrefix|] == WebhookPrefix;
    var rest := good[|WebhookPrefix|..];
    assert rest == "1234/Ab-c_9";
    assert AllDigits(rest[..4]) by {
      assert rest[..4] == "1234";
    }
    assert AllTokenChars(rest[5..]) by {
      assert rest[5..] == "Ab-c_9";
    }
    assert SplitsAt(rest, 4);
    ValidateWebhookUrlMatchesPattern(good);
  }

  /** A URL on another host is refused. */
  lemma WebhookUrlOtherHostRefused()
    ensures !ValidateWebhookUrl("https://discordapp.com/api/webhooks/1/x")
  {
    var other := "https://discordapp.com/api/webhooks/1/x";
    assert other[..|WebhookPrefix|][15] != WebhookPrefix[15];
  }

  /** Nothing may follow the token: a trailing slash is refused. */
  lemma WebhookUrlTrailingSlashRefused()
    ensures !ValidateWebhookUrl("https://discord.com/api/webhooks/1/x/")
  {
    var slash := "https://discord.com/api/webhooks/1/x/";
    assert slash[..|WebhookPrefix|] == WebhookPrefix;
    var rest := slash[|WebhookPrefix|..];
    assert rest == "1/x/";
    assert LeadingDigits(rest) == 1 by {
      assert LeadingDigits(rest[1..]) == 0;
    }
    assert !IsTokenChar(rest[2..][1]);
  }

  // ---------------------------------------------------------------------------
  // validateMessage

  const ContentRequiredText: string := "Message content or embed is required"
  /** The template `cannot exceed ${MAX_MESSAGE_LENGTH} characters`, filled in. */
  const ContentTooLongText: string := "Message content cannot exceed 2000 characters"

  /** validateMessage: the error text, or None for the source's null. The
      emptiness check is tried first. */
  function ValidateMessage(content: string, embeds: seq<DiscordEmbed>): (r: Option<string>)
    ensures r == None || r == Some(ContentRequiredText) || r == Some(ContentTooLongText)
    ensures |embeds| > 0 && |content| <= MaxMessageLength ==> r == None
    ensures |content| > MaxMessageLength ==> r != None
  {
    if Trim(content) == [] && |embeds| == 0 then Some(ContentRequiredText)
    else if |content| > MaxMessageLength then Some(ContentTooLongText)
    else None
  }

  /** The three outcomes of validateMessage in terms of the draft: content
      that is all whitespace with no embed is refused first, whatever its
      length; otherwise content longer than 2000 is refused; all else passes. */
  lemma ValidateMessageOutcomes(content: string, embeds: seq<DiscordEmbed>)
    ensures ValidateMessage(content, embeds) == Some(ContentRequiredText)
            <==> IsBlank(content) && embeds == []
    ensures ValidateMessage(content, embeds) == Some(ContentTooLongText)
            <==> (!IsBlank(content) || embeds != []) && |content| > MaxMessageLength
    ensures ValidateMessage(content, embeds) == None
            <==> (!IsBlank(content) || embeds != []) && |content| <= MaxMessageLength
  {
    assert ContentRequiredText != ContentTooLongText by {
      assert ContentRequiredText[16] != ContentTooLongText[16];
    }
  }

  /** 2001 spaces with no embed fail the emptiness check, not the length check. */
  lemma BlankOverLimitIsEmptyError()
    ensures ValidateMessage(Repeat(' ', 2001), []) == Some(ContentRequiredText)
  {
    ValidateMessageOutcomes(Repeat(' ', 2001), []);
  }

  /** Blank content with an embed passes. */
  lemma BlankWithEmbedPasses(content: string, e: DiscordEmbed)
    requires IsBlank(content) && |content| <= MaxMessageLength
    ensures ValidateMessage(content, [e]) == None
  {
    ValidateMessageOutcomes(content, [e]);
  }

  // ---------------------------------------------------------------------------
  // The request body of sendDiscordWebhook

  /** The object serialised into `payload_json`; None is a key left out. */
  datatype Payload = Payload(
    content: Option<string>,
    username: string,
    avatarUrl: Option<string>,
    embeds: Option<seq<DiscordEmbed>>)

  /** The payload: trimmed content, or none when blank; the configured name
      always; the avatar URL unless absent or empty; the embeds unless there
      are none. */
  function BuildPayload(config: WebhookConfig, content: string, embeds: seq<DiscordEmbed>): (p: Payload)
    ensures p.content == None <==> IsBlank(content)
    ensures p.content != None ==>
              && p.content.value == Trim(content)
              && !IsWhitespace(p.content.value[0])
              && !IsWhitespace(p.content.value[|p.content.value| - 1])
    ensures p.username == config.username
    ensures p.avatarUrl == None <==> config.avatarUrl == None || config.avatarUrl == Some("")
    ensures p.avatarUrl != None ==> p.avatarUrl == config.avatarUrl
    ensures p.embeds == None <==> embeds == []
    ensures p.embeds != None ==> p.embeds.value == embeds
  {
    Payload(
      if Trim(content) == [] then None else Some(Trim(content)),
      config.username,
      if config.avatarUrl == None || config.avatarUrl.value == [] then None else config.avatarUrl,
      if |embeds| > 0 then Some(embeds) else None)
  }

  datatype PartValue = JsonPart(payload: Payload) | FilePart(file: File)

  /** One entry of the multipart/form-data body: its field name and value. */
  datatype FormPart = FormPart(name: string, value: PartValue)

  const PayloadPartName: string := "payload_json"

  /** The template `files[${index}]`. */
  function FileFieldName(i: nat): (name: string)
    ensures |name| >= 8 && name[..6] == "files[" && name[|name| - 1] == ']'
  {
    "files[" + ToBase(i, 10) + "]"
  }

  /** The index can be read back from between the brackets. */
  lemma FileFieldNameCarriesIndex(i: nat)
    ensures var name := FileFieldName(i);
      IsDigitString(name[6..|name| - 1], 10) && FromDigits(name[6..|name| - 1], 10) == i
  {
    var name := FileFieldName(i);
    assert name[6..|name| - 1] == ToBase(i, 10);
    FromToBase(i, 10);
  }

  /** Two attachments never share a field name. */
  lemma FileFieldNamesDistinct(i: nat, j: nat)
    ensures i != j ==> FileFieldName(i) != FileFieldName(j)
  {
    var a, b := FileFieldName(i), FileFieldName(j);
    assert a[6..|a| - 1] == ToBase(i, 10);
    assert b[6..|b| - 1] == ToBase(j, 10);
    ToBaseInjective(i, j, 10);
  }

  /** The body: `payload_json` first, then one `files[k]` part per file, in
      the order of the files. */
  predicate IsRequestBody(parts: seq<FormPart>, payload: Payload, files: seq<File>) {
    && |parts| == |files| + 1
    && parts[0] == FormPart(PayloadPartName, JsonPart(payload))
    && forall k :: 0 <= k < |files| ==> parts[k + 1] == FormPart(FileFieldName(k), FilePart(files[k]))
  }

  /** In a request body no two parts share a name. */
  lemma RequestBodyNamesDistinct(parts: seq<FormPart>, payload: Payload, files: seq<File>)
    requires IsRequestBody(parts, payload, files)
    ensures forall a, b :: 0 <= a < b < |parts| ==> parts[a].name != parts[b].name
  {
    forall a, b | 0 <= a < b < |parts| ensures parts[a].name != parts[b].name {
      var nb := FileFieldName(b - 1);
      if a == 0 {
        assert parts[a].name[0] != nb[0];
      } else {
        FileFieldNamesDistinct(a - 1, b - 1);
      }
    }
  }

  /** The FormData construction from the payload object: the `payload_json`
      part, then a forEach over the files appending `files[index]`. With no
      files the body is the payload part alone; it is multipart either way. */
  method BuildFormData(payload: Payload, files: seq<File>) returns (parts: seq<FormPart>)
    ensures IsRequestBody(parts, payload, files)
    ensures files == [] ==> parts == [FormPart(PayloadPartName, JsonPart(payload))]
  {
    parts := [FormPart(PayloadPartName, JsonPart(payload))];
    for index := 0 to |files|
      invariant |parts| == index + 1
      invariant parts[0] == FormPart(PayloadPartName, JsonPart(payload))
      invariant forall k :: 0 <= k < index ==> parts[k + 1] == FormPart(FileFieldName(k), FilePart(files[k]))
    {
      parts := parts + [FormPart(FileFieldName(index), FilePart(files[index]))];
    }
  }

  // ---------------------------------------------------------------------------
  // The webhook's response

  /** What the fetch call produced: a response with its HTTP status, or a
      rejection (network failure) carrying the thrown value. */
  datatype FetchOutcome = Responded(status: nat) | Rejected(reason: Thrown)

  /** Response.ok: a status in the range 200 to 299. */
  predicate IsOkStatus(status: nat) {
    200 <= status <= 299
  }

  const ApiErrorPrefix: string := "Discord API error: "

  /** The template `Discord API error: ${response.status}`. */
  function ApiErrorText(status: nat): (text: string)
    ensures |text| > |ApiErrorPrefix| && text[..|ApiErrorPrefix|] == ApiErrorPrefix
    ensures IsDigitString(text[|ApiErrorPrefix|..], 10)
  {
    var text := ApiErrorPrefix + ToBase(status, 10);
    assert text[|ApiErrorPrefix|..] == ToBase(status, 10);
    text
  }

  /** The status can be read back from the error text. */
  lemma ApiErrorCarriesStatus(status: nat)
    ensures |ApiErrorText(status)| > |ApiErrorPrefix|
    ensures IsDigitString(ApiErrorText(status)[|ApiErrorPrefix|..], 10)
    ensures FromDigits(ApiErrorText(status)[|ApiErrorPrefix|..], 10) == status
  {
    assert ApiErrorText(status)[|ApiErrorPrefix|..] == ToBase(status, 10);
    FromToBase(status, 10);
  }

  /** How sendDiscordWebhook settles: true for an ok response; an Error
      naming the status for any other response; the rejection itself,
      re-thrown, when the request failed. */
  function DeliveryResult(outcome: FetchOutcome): (r: Result<bool, Thrown>)
    ensures r.Success? <==> outcome.Responded? && IsOkStatus(outcome.status)
    ensures r.Success? ==> r.value
    ensures (outcome.Responded? && !IsOkStatus(outcome.status)) ==>
              r == Failure(ErrorObject(ApiErrorText(outcome.status)))
    ensures outcome.Rejected? ==> r == Failure(outcome.reason)
  {
    match outcome
    case Responded(status) =>
      if IsOkStatus(status) then Success(true) else Failure(ErrorObject(ApiErrorText(status)))
    case Rejected(reason) => Failure(reason)
  }

  /** The request sendDiscordWebhook issues. */
  datatype Request = Request(url: string, httpMethod: string, body: seq<FormPart>)

  /** sendDiscordWebhook: one POST to the configured URL carrying the
      multipart body, settled by the response `outcome` that the network
      gives back for it. */
  method SendDiscordWebhook(config: WebhookConfig, content: string, embeds: seq<DiscordEmbed>,
                            files: seq<File>, outcome: FetchOutcome)
    returns (request: Request, r: Result<bool, Thrown>)
    ensures request.url == config.url && request.httpMethod == "POST"
    ensures IsRequestBody(request.body, BuildPayload(config, content, embeds), files)
    ensures r.Success? <==> outcome.Responded? && IsOkStatus(outcome.status)
    ensures r == DeliveryResult(outcome)
  {
    var payload := BuildPayload(config, content, embeds);
    var body := BuildFormData(payload, files);
    request := Request(config.url, "POST", body);
    r := DeliveryResult(outcome);
  }

  // ---------------------------------------------------------------------------
  // hexToDecimal, getAvatarUrl

  /** `replace('#', '')`: the text with its first '#' removed, wherever it
      is; text without a '#' is returned as it is. */
  function StripHash(hex: string): (digits: string)
    ensures '#' !in hex ==> digits == hex
    ensures '#' in hex ==> |digits| == |hex| - 1
    ensures |hex| > 0 && hex[0] == '#' ==> digits == hex[1..]
  {
    if |hex| == 0 then []
    else if hex[0] == '#' then hex[1..]
    else [hex[0]] + StripHash(hex[1..])
  }

  /** The '#' that StripHash removes is the first one: the text before it
      and the text after it are kept. */
  lemma {:induction false} StripHashDropsFirstHash(hex: string) returns (k: nat)
    requires '#' in hex
    ensures k < |hex| && hex[k] == '#' && '#' !in hex[..k]
    ensures StripHash(hex) == hex[..k] + hex[k + 1..]
  {
    if hex[0] == '#' {
      k := 0;
    } else {
      assert '#' in hex[1..] by {
        var j :| 0 <= j < |hex| && hex[j] == '#';
        assert hex[1..][j - 1] == '#';
      }
      var k' := StripHashDropsFirstHash(hex[1..]);
      k := k' + 1;
      assert hex[..k] == [hex[0]] + hex[1..][..k'];
      assert hex[k + 1..] == hex[1..][k' + 1..];
    }
  }

  /** The inputs hexToDecimal is given: hex digits once the first '#' is
      removed; at most 13 of them, so that parseInt's double result is exact. */
  predicate IsHexInput(hex: string) {
    IsDigitString(StripHash(hex), 16) && |StripHash(hex)| <= 13
  }

  /** hexToDecimal: the base-16 value of the digits left once the first '#'
      is removed; None is NaN, what parseInt gives for an empty digit string. */
  function HexToDecimal(hex: string): (r: Option<nat>)
    requires IsHexInput(hex)
    ensures r == None <==> StripHash(hex) == []
    ensures r != None ==> r.value < Pow(16, |StripHash(hex)|)
  {
    var digits := StripHash(hex);
    if digits == [] then None else Some(FromDigits(digits, 16))
  }

  /** A '#' and six hex digits give a 24-bit colour. */
  lemma HexColorInRange(hex: string)
    requires |hex| == 7 && hex[0] == '#' && IsDigitString(hex[1..], 16)
    ensures IsHexInput(hex)
    ensures HexToDecimal(hex) != None && HexToDecimal(hex).value <= 0xFFFFFF
  {
    assert Pow(16, 6) == 0x1000000;
  }

  const DefaultAvatarUrl: string :=
    "https://images.unsplash.com/photo-1607746882042-944635dfe10e?w=64&h=64&fit=crop&crop=face"

  /** getAvatarUrl: the given URL when it is non-empty, the fixed picture
      otherwise; never empty. */
  function GetAvatarUrl(avatarUrl: Option<string>): (r: string)
    ensures r != []
    ensures avatarUrl != None && avatarUrl.value != [] ==> r == avatarUrl.value
    ensures avatarUrl == None || avatarUrl.value == [] ==> r == DefaultAvatarUrl
  {
    if avatarUrl != None && avatarUrl.value != [] then avatarUrl.value else DefaultAvatarUrl
  }
}
