// The records of src/types.ts, as values, plus the few shapes the webhook
// client needs that the browser supplies (a selected File, a thrown value).

module Types {

  datatype Option<+T> = None | Some(value: T)

  datatype Result<+R, +E> = Success(value: R) | Failure(error: E)

  /** A selected browser File: its name, its size in bytes and its MIME type. */
  datatype File = File(name: string, size: nat, fileType: string)

  /** The value a rejected promise carries: an Error object with its message,
      or anything else that was thrown. */
  datatype Thrown = ErrorObject(message: string) | NonError

  datatype EmbedField = EmbedField(name: string, value: string, inline: Option<bool>)

  datatype Footer = Footer(text: string, iconUrl: Option<string>)

  datatype Thumbnail = Thumbnail(url: string)

  datatype Image = Image(url: string)

  datatype Author = Author(name: string, url: Option<string>, iconUrl: Option<string>)

  /** DiscordEmbed: every key is optional. */
  datatype DiscordEmbed = DiscordEmbed(
    title: Option<string>,
    description: Option<string>,
    url: Option<string>,
    color: Option<int>,
    timestamp: Option<string>,
    footer: Option<Footer>,
    thumbnail: Option<Thumbnail>,
    image: Option<Image>,
    author: Option<Author>,
    fields: Option<seq<EmbedField>>)

  /** DiscordAttachment: an entry of a recorded message; `url` is a local object URL. */
  datatype DiscordAttachment = DiscordAttachment(
    id: string,
    filename: string,
    size: nat,
    url: string,
    contentType: Option<string>)

  /** DiscordMessage: one entry of the local history; `timestamp` in milliseconds. */
  datatype DiscordMessage = DiscordMessage(
    id: string,
    content: string,
    username: string,
    avatarUrl: Option<string>,
    embeds: Option<seq<DiscordEmbed>>,
    timestamp: int,
    webhookUrl: string,
    attachments: Option<seq<DiscordAttachment>>)

  datatype WebhookConfig = WebhookConfig(url: string, username: string, avatarUrl: Option<string>)

  /** AppState: the one state cell of the webhook hook. Times are in milliseconds. */
  datatype AppState = AppState(
    messages: seq<DiscordMessage>,
    currentConfig: WebhookConfig,
    isLoading: bool,
    lastSentTime: int,
    rateLimitRemaining: int)
}
