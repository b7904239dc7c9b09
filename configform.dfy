// src/components/WebhookConfig.tsx: the configuration form's local copy of
// the webhook settings, its URL-validity flag, and its show/hide toggle.

module ConfigForm {
  import opened Types
  import opened Discord

  class WebhookConfigForm {
    var localConfig: WebhookConfig
    var isValidUrl: bool
    var showConfig: bool

    /** The flag always tells whether the URL being edited is a webhook URL. */
    ghost predicate Valid()
      reads this
    {
      isValidUrl == ValidateWebhookUrl(localConfig.url)
    }

    /** Mounting with `config`: the form starts as the prop with the validity
        flag down and the panel shown, then the effect syncs it to the prop. */
    constructor (config: WebhookConfig)
      ensures Valid()
      ensures localConfig == config && showConfig
    {
      localConfig := config;
      isValidUrl := false;
      showConfig := true;
      new;
      SyncProp(config);
    }

    /** The effect on a new `config` prop: the form takes the prop over, and
        the panel is forced open when the prop has no URL. */
    method SyncProp(config: WebhookConfig)
      modifies this
      ensures Valid()
      ensures localConfig == config
      ensures showConfig == (old(showConfig) || config.url == [])
    {
      localConfig := config;
      isValidUrl := ValidateWebhookUrl(config.url);
      if config.url == [] {
        showConfig := true;
      }
    }

    /** handleUrlChange: the URL and its flag change together. */
    method HandleUrlChange(url: string)
      modifies this`localConfig, this`isValidUrl
      ensures Valid()
      ensures localConfig == old(localConfig).(url := url)
    {
      localConfig := localConfig.(url := url);
      isValidUrl := ValidateWebhookUrl(url);
    }

    /** The username input: only the username changes. */
    method HandleUsernameChange(username: string)
      requires Valid()
      modifies this`localConfig
      ensures Valid()
      ensures localConfig == old(localConfig).(username := username)
    {
      localConfig := localConfig.(username := username);
    }

    /** The avatar input: only the avatar URL changes, to the text typed
        (empty text included). */
    method HandleAvatarChange(avatarUrl: string)
      requires Valid()
      modifies this`localConfig
      ensures Valid()
      ensures localConfig == old(localConfig).(avatarUrl := Some(avatarUrl))
    {
      localConfig := localConfig.(avatarUrl := Some(avatarUrl));
    }

    /** handleSubmit: hands the form's configuration to onConfigChange exactly
        when its URL is a webhook URL; otherwise nothing is committed. */
    method HandleSubmit() returns (committed: Option<WebhookConfig>)
      requires Valid()
      ensures committed != None <==> ValidateWebhookUrl(localConfig.url)
      ensures committed != None ==> committed.value == localConfig
    {
      if isValidUrl {
        committed := Some(localConfig);
      } else {
        committed := None;
      }
    }

    /** The Hide/Show button. */
    method Toggle()
      modifies this`showConfig
      ensures showConfig == !old(showConfig)
    {
      showConfig := !showConfig;
    }
  }
}
