/**
 * The reply generator facade (src/ai/generator.py): chooses one backend at
 * construction and forwards every `generate_reply` call to it unchanged.
 *
 * The free and the local-template generators (free_generator.py and
 * fallback_generator.py) are not part of this model; each is a function
 * from the six reply arguments to the reply.
 */
module Generator {
  import opened Wrappers
  import opened Settings
  import opened Requests
  import opened Templates
  import opened Providers
  import opened RussianGenerator

  datatype Backend = RussianBackend | FreeBackend | FallbackBackend

  /** The backend `__init__` picks: templates in test mode, else by `AI_PROVIDER`. */
  function SelectBackend(testMode: bool, settings: Settings): (b: Backend)
    ensures b == RussianBackend <==> !testMode && settings.aiProvider == "russian" && HasRussianAi(settings)
    ensures b == FreeBackend <==> !testMode && settings.aiProvider == "free"
    ensures b == FallbackBackend <==>
              testMode || (settings.aiProvider != "free" && !(settings.aiProvider == "russian" && HasRussianAi(settings)))
  {
    if testMode then FallbackBackend
    else if settings.aiProvider == "russian" && HasRussianAi(settings) then RussianBackend
    else if settings.aiProvider == "free" then FreeBackend
    else FallbackBackend
  }

  /** Asking for the Russian providers without any key set silently uses the templates. */
  lemma RussianWithoutKeysUsesTemplates(settings: Settings)
    requires settings.aiProvider == "russian" && settings.yandexApiKey == "" && settings.gigachatApiKey == ""
    ensures SelectBackend(false, settings) == FallbackBackend
  {
  }

  class AIGenerator {
    const testMode: bool
    const backend: Backend
    /** The Russian provider chain, built only when it is the backend. */
    const russian: RussianAIGenerator?
    /** `FreeAIGenerator.generate_reply`. */
    const free: ReplyRequest -> string
    /** `FallbackAIGenerator.generate_reply`. */
    const fallback: ReplyRequest -> string

    ghost predicate Valid()
      reads this, russian
    {
      && (backend == RussianBackend <==> russian != null)
      && (russian != null ==> russian.Valid())
    }

    /** `__init__`: only the chosen backend is constructed, so only it probes the network. */
    constructor(testMode: bool, settings: Settings, responses: DefaultResponses, script: seq<Option<string>>,
                free: ReplyRequest -> string, fallback: ReplyRequest -> string)
      ensures Valid()
      ensures this.testMode == testMode && this.free == free && this.fallback == fallback
      ensures backend == SelectBackend(testMode, settings)
      ensures russian != null ==>
                && fresh(russian)
                && (YandexGpt in russian.providers <==> settings.yandexApiKey != "")
                && (GigaChat in russian.providers <==> settings.gigachatApiKey != "")
                && russian.currentProvider == FirstPassing(Configured(SelectionOrder, russian.providers), script).chosen
    {
      this.testMode := testMode;
      this.free := free;
      this.fallback := fallback;
      var b := SelectBackend(testMode, settings);
      backend := b;
      if b == RussianBackend {
        russian := new RussianAIGenerator(settings, responses, script);
      } else {
        russian := null;
      }
    }

    /** `generate_reply`: the chosen backend answers, with the arguments passed through unchanged. */
    method GenerateReply(reviewText: string, productName: string, rating: int,
                         userName: string, pros: string, cons: string) returns (reply: string)
      requires Valid()
      modifies russian
      ensures Valid()
      ensures var req := ReplyRequest(reviewText, productName, rating, userName, pros, cons);
        && (backend == FreeBackend ==> reply == free(req))
        && (backend == FallbackBackend ==> reply == fallback(req))
        && (backend == RussianBackend ==>
              var s := Generate(russian.providers, old(russian.currentProvider), old(russian.script),
                                russian.responses, req, BuildPrompt(req));
              reply == s.reply && russian.currentProvider == s.current
              && russian.script == s.remaining && russian.calls == old(russian.calls) + s.calls)
    {
      if russian != null {
        reply := russian.GenerateReply(reviewText, productName, rating, userName, pros, cons);
      } else if backend == FreeBackend {
        reply := free(ReplyRequest(reviewText, productName, rating, userName, pros, cons));
      } else {
        reply := fallback(ReplyRequest(reviewText, productName, rating, userName, pros, cons));
      }
    }
  }
}
