/**
 * The settings the reply pipeline reads (src/config/settings.py), taken as a
 * value instead of being loaded from the environment.
 */
module Settings {
  datatype Settings = Settings(
    aiProvider: string,
    yandexApiKey: string,
    yandexFolderId: string,
    gigachatApiKey: string)

  /** `has_russian_ai`: some Russian provider has a credential. */
  predicate HasRussianAi(s: Settings) {
    s.yandexApiKey != "" || s.gigachatApiKey != ""
  }
}
