// src/App.tsx: the page's embeds draft and error banner, wired around the
// webhook session, the composer and the configuration form.

module App {
  import opened Types
  import opened Discord
  import opened Session
  import opened Composer
  import opened ConfigForm
  import opened Embeds

  /** The banner for a rejected send: the message of an Error, a fixed text
      for anything else thrown. */
  function ErrorBannerText(thrown: Thrown): (text: string)
    ensures thrown.ErrorObject? ==> text == thrown.message
    ensures thrown.NonError? ==> text == "Failed to send message"
  {
    match thrown
    case ErrorObject(message) => message
    case NonError => "Failed to send message"
  }

  /** A refused webhook call shows Discord's status in the banner. */
  lemma RefusedSendShowsStatus(status: nat)
    requires !IsOkStatus(status)
    ensures DeliveryResult(Responded(status)).Failure?
    ensures ErrorBannerText(DeliveryResult(Responded(status)).error) == ApiErrorText(status)
  {
  }

  /** The page: its own two state cells and the parts it wires together. */
  class AppShell {
    var embeds: seq<DiscordEmbed>
    var error: Option<string>
    const session: WebhookSession
    const composer: MessageInputForm
    const configForm: WebhookConfigForm

    ghost predicate Valid()
      reads this, session, composer, configForm
    {
      session.Valid() && composer.Valid() && configForm.Valid()
    }

    /** `isConfigured`: the session's configuration has a webhook URL. */
    function IsConfigured(): (configured: bool)
      reads this, session
      ensures configured <==> MatchesWebhookPattern(session.state.currentConfig.url)
    {
      ValidateWebhookUrlMatchesPattern(session.state.currentConfig.url);
      ValidateWebhookUrl(session.state.currentConfig.url)
    }

    /** The first render, with what storage holds. */
    constructor (stored: StoredBlob)
      ensures Valid()
      ensures fresh(session) && fresh(composer) && fresh(configForm)
      ensures session.state == InitialState(stored) && session.storage == stored
      ensures embeds == [] && error == None
      ensures composer.message == [] && composer.attachments == []
      ensures configForm.localConfig == session.state.currentConfig
    {
      embeds := [];
      error := None;
      var s := new WebhookSession(stored);
      session := s;
      composer := new MessageInputForm();
      configForm := new WebhookConfigForm(s.state.currentConfig);
    }

    /** handleSendMessage: clears the banner and sends through the session,
        which settles as SendSettled describes; after a success the embeds
        draft is emptied and the banner stays clear, after a failure the
        banner shows the error and the draft is kept. */
    method HandleSendMessage(content: string, embedsToSend: seq<DiscordEmbed>, attachments: seq<File>,
                             now: int, outcome: FetchOutcome, gen: Generated)
      returns (request: Option<Request>, r: Result<bool, Thrown>)
      requires Valid() && FitsFiles(gen, attachments)
      modifies this, session
      ensures Valid()
      ensures SendSettled(old(session.state), old(session.storage), session.state, session.storage,
                          content, embedsToSend, attachments, now, outcome, gen, request, r)
      ensures r.Success? ==> embeds == [] && error == None
      ensures r.Failure? ==> embeds == old(embeds) && error == Some(ErrorBannerText(r.error))
    {
      error := None;
      request, r := session.SendMessage(content, embedsToSend, attachments, now, outcome, gen);
      if r.Success? {
        embeds := [];
      } else {
        error := Some(ErrorBannerText(r.error));
      }
    }

    /** The composer's submit with the page's embeds draft: a refused draft
        is alerted and nothing else happens; an accepted one is sent with the
        composer's text and attachments and the page's embeds, the page
        reacts as handleSendMessage does, and the composer is emptied
        whatever the send's outcome. */
    method SubmitDraft(now: int, outcome: FetchOutcome, gen: Generated)
      returns (submitted: SubmitOutcome, request: Option<Request>, r: Option<Result<bool, Thrown>>)
      requires Valid() && FitsFiles(gen, composer.attachments)
      modifies this, session, composer
      ensures Valid()
      ensures submitted.Alerted? <==> ValidateMessage(old(composer.message), old(embeds)) != None
      ensures submitted.Alerted? ==>
                && submitted.text == ValidateMessage(old(composer.message), old(embeds)).value
                && request == None && r == None && embeds == old(embeds) && error == old(error)
                && session.state == old(session.state) && session.storage == old(session.storage)
                && composer.message == old(composer.message) && composer.attachments == old(composer.attachments)
      ensures submitted.Sent? ==>
                && submitted.draft == Draft(old(composer.message), old(embeds), old(composer.attachments))
                && r != None
                && SendSettled(old(session.state), old(session.storage), session.state, session.storage,
                               old(composer.message), old(embeds), old(composer.attachments),
                               now, outcome, gen, request, r.value)
                && (r.value.Success? ==> embeds == [] && error == None)
                && (r.value.Failure? ==> embeds == old(embeds) && error == Some(ErrorBannerText(r.value.error)))
                && composer.message == [] && composer.attachments == []
    {
      var attachments := composer.attachments;
      submitted := composer.HandleSubmit(embeds);
      if submitted.Alerted? {
        request, r := None, None;
        return;
      }
      var sent;
      request, sent := HandleSendMessage(submitted.draft.content, submitted.draft.embeds, attachments, now, outcome, gen);
      r := Some(sent);
    }

    /** The form's submit: a committed configuration becomes the session's,
        is saved, and flows back into the form as its new prop; after a
        commit the page is configured. */
    method SaveConfig() returns (committed: Option<WebhookConfig>)
      requires Valid()
      modifies session, configForm
      ensures Valid()
      ensures committed != None <==> ValidateWebhookUrl(old(configForm.localConfig.url))
      ensures committed == None ==>
                && session.state == old(session.state) && session.storage == old(session.storage)
                && configForm.localConfig == old(configForm.localConfig)
                && configForm.isValidUrl == old(configForm.isValidUrl)
                && configForm.showConfig == old(configForm.showConfig)
      ensures committed != None ==>
                && committed.value == old(configForm.localConfig)
                && session.state == old(session.state).(currentConfig := committed.value)
                && session.storage == Persisted(session.state)
                && configForm.localConfig == committed.value
                && configForm.isValidUrl
                && configForm.showConfig == old(configForm.showConfig)
                && IsConfigured()
    {
      committed := configForm.HandleSubmit();
      if committed != None {
        session.UpdateConfig(committed.value);
        configForm.SyncProp(committed.value);
      }
    }

    /** onEmbedsChange with the list a builder handler computed. */
    method EditEmbeds(action: BuilderAction)
      requires Applies(embeds, action)
      modifies this`embeds
      ensures embeds == ApplyBuilderAction(old(embeds), action)
    {
      embeds := ApplyBuilderAction(embeds, action);
    }

    /** onClearHistory. */
    method ClearHistory()
      requires Valid()
      modifies session
      ensures Valid()
      ensures session.state == old(session.state).(messages := [])
      ensures session.storage == Persisted(session.state)
    {
      session.ClearMessages();
    }
  }
}
