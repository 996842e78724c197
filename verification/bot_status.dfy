/**
 * Whether the cloud functions may use the bot (functions/index.js:115-145): the `active` flag of
 * `config/bot_status`, which defaults to on, and the login guard built on it.
 */
module BotStatus {
  /** The `active` field: absent, a boolean, or some other value. */
  datatype ActiveField = NoActive | BoolActive(b: bool) | OtherActive

  /** The result of reading `config/bot_status`. */
  datatype StatusRead = ReadFailed | NoDocument | Document(active: ActiveField)

  /** `isBotEnabled()`: on unless the document exists and says `active: false`. */
  function IsBotEnabled(read: StatusRead): (enabled: bool)
    ensures !enabled <==> read == Document(BoolActive(false))
  {
    match read
    case ReadFailed => true
    case NoDocument => true
    case Document(a) => a != BoolActive(false)
  }

  /**
   * `ensureBotLogin()`: true at once when the client is ready; otherwise a login is attempted
   * only when the bot is enabled, and the result is whether it succeeded.
   */
  function EnsureBotLogin(ready: bool, read: StatusRead, loginOk: bool): (ok: bool)
    ensures ok <==> ready || (read != Document(BoolActive(false)) && loginOk)
  {
    if ready then true
    else if !IsBotEnabled(read) then false
    else loginOk
  }
}
