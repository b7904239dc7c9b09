// src/hooks/useDiscordWebhook.ts: the session's one AppState cell, its
// initial load from storage, and the three operations that overwrite it
// (updateConfig, sendMessage, clearMessages), each followed by a save.

module Session {
  import opened Types
  import opened Text
  import opened Lists
  import opened Discord

  /** How many messages the history keeps. */
  const HistoryLimit: nat := 100
  /** The quota counter's starting value; it only ever goes down. */
  const InitialQuota: int := 100

  const DefaultConfig: WebhookConfig := WebhookConfig("", "CyberHook", None)

  /** What storage holds under the key `cyberhook_data`, as read back: no
      blob (absent or empty), text that does not parse to an object, or an
      object whose `messages` and `currentConfig` are present or missing
      (None stands for a missing or otherwise falsy value). */
  datatype StoredBlob =
    | NoBlob
    | Unparseable
    | Blob(messages: Option<seq<DiscordMessage>>, currentConfig: Option<WebhookConfig>)

  /** The snapshot saveToStorage writes: the messages and the configuration,
      which a later start-up takes back while resetting everything else. */
  function Persisted(s: AppState): (blob: StoredBlob)
    ensures InitialState(blob) == s.(isLoading := false, lastSentTime := 0, rateLimitRemaining := InitialQuota)
  {
    Blob(Some(s.messages), Some(s.currentConfig))
  }

  /** The lazy initial state: the transient fields always start afresh, and
      the stored messages and configuration are used when present, the
      defaults otherwise. */
  function InitialState(stored: StoredBlob): (s: AppState)
    ensures !s.isLoading && s.lastSentTime == 0 && s.rateLimitRemaining == InitialQuota
    ensures s.messages == (if stored.Blob? && stored.messages != None then stored.messages.value else [])
    ensures s.currentConfig == (if stored.Blob? && stored.currentConfig != None then stored.currentConfig.value else DefaultConfig)
    ensures !stored.Blob? ==> s == AppState([], DefaultConfig, false, 0, InitialQuota)
  {
    match stored
    case Blob(messages, config) =>
      AppState(
        if messages == None then [] else messages.value,
        if config == None then DefaultConfig else config.value,
        false, 0, InitialQuota)
    case _ => AppState([], DefaultConfig, false, 0, InitialQuota)
  }

  // ---------------------------------------------------------------------------
  // The cooldown and the quota

  /** The seconds to wait when fewer than RateLimitDelay milliseconds have
      passed: the ceiling of the remaining milliseconds over 1000. */
  function CooldownWait(elapsed: int): (wait: Option<int>)
    ensures wait == None <==> elapsed >= RateLimitDelay
    ensures wait != None ==>
              && wait.value >= 1
              && (wait.value - 1) * 1000 < RateLimitDelay - elapsed <= wait.value * 1000
  {
    if elapsed >= RateLimitDelay then None else Some((RateLimitDelay - elapsed + 999) / 1000)
  }

  const RateLimitPrefix: string := "Rate limit: Please wait "
  const RateLimitSuffix: string := " seconds"

  /** The template `Rate limit: Please wait ${seconds} seconds`: the wait
      can be read back from between the fixed words. */
  function RateLimitText(seconds: nat): (text: string)
    ensures |text| > |RateLimitPrefix| + |RateLimitSuffix|
    ensures text[..|RateLimitPrefix|] == RateLimitPrefix
    ensures text[|text| - |RateLimitSuffix|..] == RateLimitSuffix
    ensures IsDigitString(text[|RateLimitPrefix|..|text| - |RateLimitSuffix|], 10)
    ensures FromDigits(text[|RateLimitPrefix|..|text| - |RateLimitSuffix|], 10) == seconds
  {
    var digits := ToBase(seconds, 10);
    var text := RateLimitPrefix + digits + RateLimitSuffix;
    assert text[|RateLimitPrefix|..|text| - |RateLimitSuffix|] == digits;
    FromToBase(seconds, 10);
    text
  }

  /** `Math.max(0, remaining - 1)`: one less, floored at 0, so the counter
      stays within 0..InitialQuota once it starts there. */
  function NextQuota(remaining: int): (r: int)
    ensures r >= 0 && (remaining > 0 ==> r == remaining - 1) && (remaining <= 0 ==> r == 0)
    ensures 0 <= remaining <= InitialQuota ==> 0 <= r <= InitialQuota && r <= remaining
  {
    if remaining - 1 > 0 then remaining - 1 else 0
  }

  // ---------------------------------------------------------------------------
  // The history

  /** `[message, ...history].slice(0, 100)`: the new message first, then the
      older ones in their order, cut to HistoryLimit. */
  function PrependMessage(m: DiscordMessage, history: seq<DiscordMessage>): (r: seq<DiscordMessage>)
    ensures |r| == Min(|history| + 1, HistoryLimit)
    ensures r[0] == m
    ensures forall i :: 1 <= i < |r| ==> r[i] == history[i - 1]
  {
    Take([m] + history, HistoryLimit)
  }

  /** The history after sending `sent` in order (oldest first), from `history`. */
  function AfterSends(sent: seq<DiscordMessage>, history: seq<DiscordMessage>): seq<DiscordMessage> {
    if sent == [] then history
    else PrependMessage(sent[|sent| - 1], AfterSends(sent[..|sent| - 1], history))
  }

  /** Successive sends keep the newest HistoryLimit messages, newest first:
      the messages sent, latest first, then the older history. */
  lemma {:induction false} AfterSendsKeepsNewest(sent: seq<DiscordMessage>, history: seq<DiscordMessage>)
    requires |history| <= HistoryLimit
    ensures AfterSends(sent, history) == Take(Reversed(sent) + history, HistoryLimit)
  {
    if sent != [] {
      var last, earlier := sent[|sent| - 1], sent[..|sent| - 1];
      AfterSendsKeepsNewest(earlier, history);
      PrependAfterTake(last, Reversed(earlier) + history);
      assert Reversed(sent) + history == [last] + (Reversed(earlier) + history);
    }
  }

  /** Cutting the history before or after putting a message in front gives
      the same list. */
  lemma PrependAfterTake(m: DiscordMessage, all: seq<DiscordMessage>)
    ensures PrependMessage(m, Take(all, HistoryLimit)) == Take([m] + all, HistoryLimit)
  {
    var r := PrependMessage(m, Take(all, HistoryLimit));
    var t := Take([m] + all, HistoryLimit);
    forall i | 0 <= i < |r| ensures r[i] == t[i] {
      if i > 0 {
        assert r[i] == Take(all, HistoryLimit)[i - 1];
      }
    }
  }

  /** 101 sends into an empty history keep exactly 100 entries: all but the
      first message sent, the latest first. */
  lemma OldestEvictedFirst(sent: seq<DiscordMessage>)
    requires |sent| == HistoryLimit + 1
    ensures |AfterSends(sent, [])| == HistoryLimit
    ensures forall k :: 0 <= k < HistoryLimit ==> AfterSends(sent, [])[k] == sent[HistoryLimit - k]
  {
    AfterSendsKeepsNewest(sent, []);
    assert Reversed(sent) + [] == Reversed(sent);
    forall k | 0 <= k < HistoryLimit ensures AfterSends(sent, [])[k] == sent[HistoryLimit - k] {
      ReversedAt(sent, k);
    }
  }

  // ---------------------------------------------------------------------------
  // The history record of a send

  /** The values the source draws from generateRandomId, URL.createObjectURL
      and `new Date()` when it records a send: one id for the message, one id
      and one object URL per file, and the record's timestamp. */
  datatype Generated = Generated(messageId: string, attachmentIds: seq<string>, objectUrls: seq<string>, timestamp: int)

  predicate FitsFiles(gen: Generated, files: seq<File>) {
    |gen.attachmentIds| == |files| && |gen.objectUrls| == |files|
  }

  /** `files.map(file => ({ id, filename, size, url, content_type }))`:
      one entry per file, in file order, with that file's name, size and type. */
  function RecordAttachments(files: seq<File>, ids: seq<string>, urls: seq<string>): (r: seq<DiscordAttachment>)
    requires |ids| == |files| && |urls| == |files|
    ensures |r| == |files|
    ensures forall k :: 0 <= k < |files| ==>
              r[k] == DiscordAttachment(ids[k], files[k].name, files[k].size, urls[k], Some(files[k].fileType))
  {
    if files == [] then []
    else
      [DiscordAttachment(ids[0], files[0].name, files[0].size, urls[0], Some(files[0].fileType))]
        + RecordAttachments(files[1..], ids[1..], urls[1..])
  }

  /** The history entry of a successful send: the content as typed (not
      trimmed), the sender's name, avatar and URL from the configuration, the
      embeds, and one attachment record per file. */
  function RecordMessage(config: WebhookConfig, content: string, embeds: seq<DiscordEmbed>,
                         files: seq<File>, gen: Generated): (m: DiscordMessage)
    requires FitsFiles(gen, files)
    ensures m.id == gen.messageId && m.timestamp == gen.timestamp
    ensures m.content == content && m.embeds == Some(embeds)
    ensures m.username == config.username && m.avatarUrl == config.avatarUrl && m.webhookUrl == config.url
    ensures m.attachments != None && |m.attachments.value| == |files|
    ensures forall k :: 0 <= k < |files| ==>
              && m.attachments.value[k].filename == files[k].name
              && m.attachments.value[k].size == files[k].size
              && m.attachments.value[k].contentType == Some(files[k].fileType)
  {
    DiscordMessage(
      gen.messageId, content, config.username, config.avatarUrl, Some(embeds),
      gen.timestamp, config.url,
      Some(RecordAttachments(files, gen.attachmentIds, gen.objectUrls)))
  }

  /** The state after a successful send from `s`: its record first in the
      history, the send time `now`, one less quota, nothing in flight. */
  function SentState(s: AppState, content: string, embeds: seq<DiscordEmbed>, files: seq<File>,
                     now: int, gen: Generated): AppState
    requires FitsFiles(gen, files)
  {
    s.(messages := PrependMessage(RecordMessage(s.currentConfig, content, embeds, files, gen), s.messages),
       isLoading := false,
       lastSentTime := now,
       rateLimitRemaining := NextQuota(s.rateLimitRemaining))
  }

  /** How one sendMessage call at time `now` takes the state and storage from
      `before` to `after`. Within the cooldown: no request, the rate-limit
      error, nothing changed. Otherwise: one POST of the message to the
      configured URL, settled by the network's `outcome`; on success the
      sent state, saved; on failure everything as before. */
  predicate SendSettled(before: AppState, storedBefore: StoredBlob, after: AppState, storedAfter: StoredBlob,
                        content: string, embeds: seq<DiscordEmbed>, files: seq<File>,
                        now: int, outcome: FetchOutcome, gen: Generated,
                        request: Option<Request>, r: Result<bool, Thrown>)
    requires FitsFiles(gen, files)
  {
    var wait := CooldownWait(now - before.lastSentTime);
    && (wait != None ==>
          && request == None
          && r == Failure(ErrorObject(RateLimitText(wait.value)))
          && after == before && storedAfter == storedBefore)
    && (wait == None ==>
          && request != None
          && request.value.url == before.currentConfig.url
          && request.value.httpMethod == "POST"
          && IsRequestBody(request.value.body, BuildPayload(before.currentConfig, content, embeds), files)
          && r == DeliveryResult(outcome))
    && (wait == None && r.Success? ==>
          after == SentState(before, content, embeds, files, now, gen) && storedAfter == Persisted(after))
    && (r.Failure? ==> after == before && storedAfter == storedBefore)
  }

  /** Outside the cooldown, a POST of the message settled by `outcome` and
      followed by the matching state change is a settled send. */
  lemma DeliverySettles(before: AppState, storedBefore: StoredBlob, after: AppState, storedAfter: StoredBlob,
                        content: string, embeds: seq<DiscordEmbed>, files: seq<File>,
                        now: int, outcome: FetchOutcome, gen: Generated,
                        request: Request, r: Result<bool, Thrown>)
    requires FitsFiles(gen, files)
    requires CooldownWait(now - before.lastSentTime) == None
    requires request.url == before.currentConfig.url && request.httpMethod == "POST"
    requires IsRequestBody(request.body, BuildPayload(before.currentConfig, content, embeds), files)
    requires r == DeliveryResult(outcome)
    requires r.Success? ==> after == SentState(before, content, embeds, files, now, gen) && storedAfter == Persisted(after)
    requires r.Failure? ==> after == before && storedAfter == storedBefore
    ensures SendSettled(before, storedBefore, after, storedAfter, content, embeds, files, now, outcome, gen, Some(request), r)
  {
  }

  // ---------------------------------------------------------------------------
  // The hook

  /** The hook's state cell and the storage blob it writes. */
  class WebhookSession {
    var state: AppState
    var storage: StoredBlob

    /** Between operations nothing is in flight and the quota is in range. */
    ghost predicate Valid()
      reads this
    {
      !state.isLoading && 0 <= state.rateLimitRemaining <= InitialQuota
    }

    /** The first render: the state cell starts from what storage holds. */
    constructor (stored: StoredBlob)
      ensures Valid()
      ensures state == InitialState(stored) && storage == stored
    {
      state := InitialState(stored);
      storage := stored;
    }

    /** saveToStorage(newState): overwrites the blob with the snapshot. */
    method SaveToStorage()
      modifies this`storage
      ensures storage == Persisted(state)
    {
      storage := Persisted(state);
    }

    /** updateConfig: replaces the configuration, nothing else, and saves. */
    method UpdateConfig(config: WebhookConfig)
      requires Valid()
      modifies this
      ensures Valid()
      ensures state == old(state).(currentConfig := config)
      ensures storage == Persisted(state)
    {
      state := state.(currentConfig := config);
      SaveToStorage();
    }

    /** clearMessages: empties the history, nothing else, and saves. */
    method ClearMessages()
      requires Valid()
      modifies this
      ensures Valid()
      ensures state == old(state).(messages := [])
      ensures storage == Persisted(state)
    {
      state := state.(messages := []);
      SaveToStorage();
    }

    /** sendMessage at time `now` (milliseconds). Within the cooldown it
        rejects with the wait in seconds and changes nothing. Otherwise it
        raises the loading flag, issues the one webhook request, and the
        network answers it with `outcome`: on success the record of the send
        goes to the front of the history, the send time becomes `now`, the
        quota drops by one (floored at 0) and the snapshot is saved; on
        failure only the loading flag is lowered and the error is re-thrown. */
    method SendMessage(content: string, embeds: seq<DiscordEmbed>, files: seq<File>,
                       now: int, outcome: FetchOutcome, gen: Generated)
      returns (request: Option<Request>, r: Result<bool, Thrown>)
      requires Valid() && FitsFiles(gen, files)
      modifies this
      ensures Valid()
      ensures SendSettled(old(state), old(storage), state, storage, content, embeds, files, now, outcome, gen, request, r)
    {
      var before := state;
      var wait := CooldownWait(now - before.lastSentTime);
      if wait != None {
        request := None;
        r := Failure(ErrorObject(RateLimitText(wait.value)));
        return;
      }
      state := state.(isLoading := true);
      var req;
      req, r := SendDiscordWebhook(before.currentConfig, content, embeds, files, outcome);
      request := Some(req);
      if r.Success? {
        state := SentState(before, content, embeds, files, now, gen);
        SaveToStorage();
      } else {
        state := before;
      }
      DeliverySettles(before, old(storage), state, storage, content, embeds, files, now, outcome, gen, req, r);
    }
  }
}
