/**
 * The Russian provider chain with fail-over (src/ai/russian_generator.py).
 *
 * The generator keeps an ordered table of providers (Yandex GPT, GigaChat,
 * then the local templates) and a `currentProvider`. The network is a
 * scripted oracle: `script` lists the outcomes the coming remote requests
 * will get (`None` for an exception, an HTTP error or a missing token), and
 * `calls` logs every request sent.
 */
module RussianGenerator {
  import opened Wrappers
  import opened Text
  import opened Templates
  import opened Providers
  import opened Settings
  import opened Requests

  /** The prompt `_test_provider` sends. */
  const TestPrompt: string := "Тестовое сообщение"

  /** One request sent to a remote provider. */
  datatype Call = Call(provider: AIProvider, prompt: string)

  /** The providers `_make_request` dispatches to the network. */
  predicate IsRemote(p: AIProvider) {
    p == YandexGpt || p == GigaChat
  }

  /** `_test_provider`'s verdict, and `generate_reply`'s test of a response: present and non-empty. */
  predicate Passes(response: Option<string>) {
    response.Some? && |response.value| > 0
  }

  /** The outcome the `k`-th coming request gets; past the end of the script, no answer. */
  function OutcomeAt(script: seq<Option<string>>, k: nat): Option<string> {
    if k < |script| then script[k] else None
  }

  /** The script once one request has been answered. */
  function Advance(script: seq<Option<string>>): seq<Option<string>> {
    if |script| > 0 then script[1..] else []
  }

  datatype Exchange = Exchange(response: Option<string>, calls: seq<Call>, remaining: seq<Option<string>>)

  /**
   * `_make_request`: Yandex GPT and GigaChat send one request and get the next
   * scripted outcome; any other provider gets `None` without a request.
   */
  function Request(p: AIProvider, prompt: string, script: seq<Option<string>>): (ex: Exchange)
    ensures IsRemote(p) ==> ex == Exchange(OutcomeAt(script, 0), [Call(p, prompt)], Advance(script))
    ensures !IsRemote(p) ==> ex == Exchange(None, [], script)
  {
    if IsRemote(p) then Exchange(OutcomeAt(script, 0), [Call(p, prompt)], Advance(script))
    else Exchange(None, [], script)
  }

  // ----- the provider table -----

  /**
   * A provider table as `_initialize_providers` can build it: Yandex GPT
   * before GigaChat, each only when configured, then FALLBACK last.
   */
  predicate WellFormedTable(t: seq<AIProvider>) {
    || t == [Fallback]
    || t == [YandexGpt, Fallback]
    || t == [GigaChat, Fallback]
    || t == [YandexGpt, GigaChat, Fallback]
  }

  /** The shape of a well-formed table: remote providers, no repeats, FALLBACK last. */
  lemma WellFormedTableShape(t: seq<AIProvider>)
    requires WellFormedTable(t)
    ensures |t| > 0 && t[|t| - 1] == Fallback && Kandinsky !in t
    ensures forall i :: 0 <= i < |t| - 1 ==> IsRemote(t[i])
    ensures forall i, j :: 0 <= i < j < |t| ==> t[i] != t[j]
  {
  }

  /** `list(providers.keys()).index(p)`. */
  function IndexOf(t: seq<AIProvider>, p: AIProvider): (i: nat)
    requires p in t
    ensures i < |t| && t[i] == p && p !in t[..i]
  {
    if t[0] == p then 0 else 1 + IndexOf(t[1..], p)
  }

  /** In a well-formed table, a provider's index is its unique position. */
  lemma IndexOfPosition(t: seq<AIProvider>, k: nat)
    requires WellFormedTable(t) && k < |t|
    ensures IndexOf(t, t[k]) == k
  {
    WellFormedTableShape(t);
  }

  /** The remote order `_select_provider` walks. */
  const SelectionOrder: seq<AIProvider> := [YandexGpt, GigaChat]

  /** The providers of `order` that are in the table, in `order`'s order. */
  function Configured(order: seq<AIProvider>, t: seq<AIProvider>): seq<AIProvider>
    decreases |order|
  {
    if |order| == 0 then []
    else (if order[0] in t then [order[0]] else []) + Configured(order[1..], t)
  }

  /** Walking the selection order keeps Yandex GPT, then GigaChat, each when configured. */
  lemma ConfiguredSelection(t: seq<AIProvider>)
    ensures Configured(SelectionOrder, t)
            == (if YandexGpt in t then [YandexGpt] else []) + (if GigaChat in t then [GigaChat] else [])
  {
    assert SelectionOrder[1..] == [GigaChat] && SelectionOrder[1..][1..] == [];
  }

  /** In a well-formed table, `_select_provider` walks exactly the table's remote providers. */
  lemma SelectionWalksRemotes(t: seq<AIProvider>)
    requires WellFormedTable(t)
    ensures Configured(SelectionOrder, t) == t[..|t| - 1]
  {
    ConfiguredSelection(t);
    if t == [YandexGpt, GigaChat, Fallback] {
      assert t[..|t| - 1] == [YandexGpt, GigaChat];
    } else if t == [YandexGpt, Fallback] {
      assert t[..|t| - 1] == [YandexGpt];
    } else if t == [GigaChat, Fallback] {
      assert t[..|t| - 1] == [GigaChat];
    } else {
      assert t[..|t| - 1] == [];
    }
  }

  /** `_select_provider` settles on a provider of the table. */
  lemma SelectionStaysInTable(t: seq<AIProvider>, script: seq<Option<string>>)
    requires WellFormedTable(t)
    ensures FirstPassing(Configured(SelectionOrder, t), script).chosen in t
  {
    SelectionWalksRemotes(t);
    WellFormedTableShape(t);
    var chosen := FirstPassing(t[..|t| - 1], script).chosen;
    if chosen != Fallback {
      var k :| 0 <= k < |t| - 1 && t[..|t| - 1][k] == chosen;
      assert t[k] == chosen;
    }
  }

  // ----- probing -----

  datatype Probing = Probing(chosen: AIProvider, calls: seq<Call>, remaining: seq<Option<string>>)

  /**
   * The loop `_select_provider` and `_try_next_provider` share: skip FALLBACK,
   * probe each other candidate in order, and stop at the first that passes;
   * if none does, FALLBACK.
   */
  function FirstPassing(cands: seq<AIProvider>, script: seq<Option<string>>): (p: Probing)
    ensures p.chosen == Fallback || (p.chosen in cands && IsRemote(p.chosen))
    ensures |p.calls| <= |cands|
    decreases |cands|
  {
    if |cands| == 0 then Probing(Fallback, [], script)
    else if cands[0] == Fallback then FirstPassing(cands[1..], script)
    else
      var ex := Request(cands[0], TestPrompt, script);
      if Passes(ex.response) then Probing(cands[0], ex.calls, ex.remaining)
      else
        var rest := FirstPassing(cands[1..], ex.remaining);
        Probing(rest.chosen, ex.calls + rest.calls, rest.remaining)
  }

  /** Every logged request is a probe (the test prompt) of a remote provider from `cands`. */
  predicate ProbesOf(calls: seq<Call>, cands: seq<AIProvider>) {
    forall k :: 0 <= k < |calls| ==>
      calls[k].prompt == TestPrompt && calls[k].provider in cands && IsRemote(calls[k].provider)
  }

  lemma ProbesOfWiden(calls: seq<Call>, cands: seq<AIProvider>)
    requires |cands| > 0 && ProbesOf(calls, cands[1..])
    ensures ProbesOf(calls, cands)
  {
    forall k | 0 <= k < |calls| ensures calls[k].provider in cands {
      assert calls[k].provider in cands[1..];
    }
  }

  lemma ProbesOfConcat(a: seq<Call>, b: seq<Call>, cands: seq<AIProvider>)
    requires ProbesOf(a, cands) && ProbesOf(b, cands)
    ensures ProbesOf(a + b, cands)
  {
    forall k | |a| <= k < |a + b| ensures (a + b)[k] == b[k - |a|] {}
  }

  /** Probing sends only the test prompt, and only to remote candidates. */
  lemma {:induction false} ProbesAreTests(cands: seq<AIProvider>, script: seq<Option<string>>)
    ensures ProbesOf(FirstPassing(cands, script).calls, cands)
    decreases |cands|
  {
    if |cands| > 0 {
      var p := FirstPassing(cands, script);
      if cands[0] == Fallback {
        ProbesAreTests(cands[1..], script);
        ProbesOfWiden(p.calls, cands);
      } else {
        var ex := Request(cands[0], TestPrompt, script);
        if !Passes(ex.response) {
          var rest := FirstPassing(cands[1..], ex.remaining);
          ProbesAreTests(cands[1..], ex.remaining);
          ProbesOfWiden(rest.calls, cands);
          assert p.calls == ex.calls + rest.calls;
          assert ProbesOf(ex.calls, cands);
          ProbesOfConcat(ex.calls, rest.calls, cands);
        }
      }
    }
  }

  lemma OutcomeAtAdvance(script: seq<Option<string>>, k: nat)
    ensures OutcomeAt(Advance(script), k) == OutcomeAt(script, k + 1)
  {
  }

  /**
   * Among remote candidates, the chosen one is the first whose probe passes:
   * candidates 0..k are probed in order, with the test prompt, and k is kept.
   */
  lemma {:induction false} FirstPassingPicksFirst(cands: seq<AIProvider>, script: seq<Option<string>>, k: nat)
    requires forall j :: 0 <= j < |cands| ==> IsRemote(cands[j])
    requires k < |cands| && Passes(OutcomeAt(script, k))
    requires forall j :: 0 <= j < k ==> !Passes(OutcomeAt(script, j))
    ensures FirstPassing(cands, script).chosen == cands[k]
    ensures |FirstPassing(cands, script).calls| == k + 1
    ensures forall j :: 0 <= j <= k ==> FirstPassing(cands, script).calls[j] == Call(cands[j], TestPrompt)
    decreases k
  {
    if k > 0 {
      assert !Passes(OutcomeAt(script, 0));
      forall j | 0 <= j < k - 1
        ensures !Passes(OutcomeAt(Advance(script), j))
      {
        OutcomeAtAdvance(script, j);
      }
      OutcomeAtAdvance(script, k - 1);
      forall j | 0 <= j < |cands[1..]| ensures IsRemote(cands[1..][j]) {
        assert cands[1..][j] == cands[j + 1];
      }
      FirstPassingPicksFirst(cands[1..], Advance(script), k - 1);
      var rest := FirstPassing(cands[1..], Advance(script));
      assert FirstPassing(cands, script).calls == [Call(cands[0], TestPrompt)] + rest.calls;
    }
  }

  /** When no remote candidate's probe passes, every one is probed and FALLBACK is chosen. */
  lemma {:induction false} FirstPassingNonePass(cands: seq<AIProvider>, script: seq<Option<string>>)
    requires forall j :: 0 <= j < |cands| ==> IsRemote(cands[j])
    requires forall j :: 0 <= j < |cands| ==> !Passes(OutcomeAt(script, j))
    ensures FirstPassing(cands, script).chosen == Fallback
    ensures |FirstPassing(cands, script).calls| == |cands|
    ensures forall j :: 0 <= j < |cands| ==> FirstPassing(cands, script).calls[j] == Call(cands[j], TestPrompt)
    decreases |cands|
  {
    if |cands| > 0 {
      assert !Passes(OutcomeAt(script, 0));
      forall j | 0 <= j < |cands| - 1
        ensures IsRemote(cands[1..][j]) && !Passes(OutcomeAt(Advance(script), j))
      {
        assert cands[1..][j] == cands[j + 1];
        OutcomeAtAdvance(script, j);
      }
      FirstPassingNonePass(cands[1..], Advance(script));
      var rest := FirstPassing(cands[1..], Advance(script));
      assert FirstPassing(cands, script).calls == [Call(cands[0], TestPrompt)] + rest.calls;
    }
  }

  /** A trailing FALLBACK changes nothing: it is skipped without a request. */
  lemma {:induction false} FirstPassingIgnoresFallback(cands: seq<AIProvider>, script: seq<Option<string>>)
    ensures FirstPassing(cands + [Fallback], script) == FirstPassing(cands, script)
    decreases |cands|
  {
    if |cands| == 0 {
      assert [] + [Fallback] == [Fallback];
      assert [Fallback][1..] == [];
    } else {
      assert (cands + [Fallback])[0] == cands[0];
      assert (cands + [Fallback])[1..] == cands[1..] + [Fallback];
      if cands[0] == Fallback {
        FirstPassingIgnoresFallback(cands[1..], script);
      } else {
        var ex := Request(cands[0], TestPrompt, script);
        FirstPassingIgnoresFallback(cands[1..], ex.remaining);
      }
    }
  }

  /**
   * Initial selection: the first configured remote provider (Yandex GPT before
   * GigaChat) whose probe passes becomes current.
   */
  lemma InitialSelectionPicksFirstHealthy(t: seq<AIProvider>, script: seq<Option<string>>, k: nat)
    requires WellFormedTable(t) && k < |t| - 1
    requires Passes(OutcomeAt(script, k))
    requires forall j :: 0 <= j < k ==> !Passes(OutcomeAt(script, j))
    ensures FirstPassing(Configured(SelectionOrder, t), script).chosen == t[k]
  {
    SelectionWalksRemotes(t);
    FirstPassingPicksFirst(t[..|t| - 1], script, k);
  }

  /** Initial selection: when no configured remote provider answers, FALLBACK becomes current. */
  lemma InitialSelectionFallsBack(t: seq<AIProvider>, script: seq<Option<string>>)
    requires WellFormedTable(t)
    requires forall j :: 0 <= j < |t| - 1 ==> !Passes(OutcomeAt(script, j))
    ensures FirstPassing(Configured(SelectionOrder, t), script).chosen == Fallback
  {
    SelectionWalksRemotes(t);
    FirstPassingNonePass(t[..|t| - 1], script);
  }

  // ----- the prompt -----

  const NoExtraInfo: string := "Дополнительная информация не указана"
  const NoName: string := "Имя покупателя не указано"
  const NamePrefix: string := "Имя покупателя: "
  const ProductPrefix: string := "Товар: "
  const ProsPrefix: string := "Плюсы: "
  const ConsPrefix: string := "Минусы: "
  const PromptOpening: string := "\n        Отзыв покупателя: \""
  const PromptInstructions: string :=
    "\n\n        Составь вежливый ответ представителя службы поддержки (2-3 предложения):"
    + "\n        - Поблагодари за отзыв"
    + "\n        - Упоминай ключевую мысль отзыва"
    + "\n        - Будь дружелюбным и профессиональным"
    + "\n        - Не используй шаблонные фразы"
    + "\n        - Используй обращение по имени если оно указано"
    + "\n\n        Ответ:\n        "

  /** The product, pros and cons lines of the prompt, each only when non-empty. */
  function ReviewInfo(productName: string, pros: string, cons: string): seq<string> {
    (if productName != "" then [ProductPrefix + productName] else [])
    + (if pros != "" then [ProsPrefix + pros] else [])
    + (if cons != "" then [ConsPrefix + cons] else [])
  }

  /**
   * One line per non-empty field, and each field's line is there exactly
   * when the field is non-empty: the three prefixes start differently, so no
   * line can stand in for another.
   */
  lemma ReviewInfoLines(productName: string, pros: string, cons: string)
    ensures |ReviewInfo(productName, pros, cons)|
            == (if productName != "" then 1 else 0) + (if pros != "" then 1 else 0) + (if cons != "" then 1 else 0)
    ensures ProductPrefix + productName in ReviewInfo(productName, pros, cons) <==> productName != ""
    ensures ProsPrefix + pros in ReviewInfo(productName, pros, cons) <==> pros != ""
    ensures ConsPrefix + cons in ReviewInfo(productName, pros, cons) <==> cons != ""
  {
    var info := ReviewInfo(productName, pros, cons);
    assert ProductPrefix[0] == 'Т' && ProsPrefix[0] == 'П' && ConsPrefix[0] == 'М';
    forall line | line in info
      ensures |line| > 0
      ensures line[0] == 'Т' ==> productName != "" && line == ProductPrefix + productName
      ensures line[0] == 'П' ==> pros != "" && line == ProsPrefix + pros
      ensures line[0] == 'М' ==> cons != "" && line == ConsPrefix + cons
    {
    }
    assert (ProductPrefix + productName)[0] == 'Т';
    assert (ProsPrefix + pros)[0] == 'П';
    assert (ConsPrefix + cons)[0] == 'М';
  }

  function ReviewContext(productName: string, pros: string, cons: string): string {
    var info := ReviewInfo(productName, pros, cons);
    if |info| > 0 then Join(info, "\n") else NoExtraInfo
  }

  function NameContext(userName: string): string {
    if userName != "" then NamePrefix + userName else NoName
  }

  /** The rating, context and name lines between the quoted review and the instructions. */
  function PromptDetails(req: ReplyRequest): string {
    "\"\n\n        Рейтинг: " + IntToString(req.rating) + "/5\n        "
    + ReviewContext(req.productName, req.pros, req.cons) + "\n        "
    + NameContext(req.userName)
  }

  /** `_build_prompt`. */
  function BuildPrompt(req: ReplyRequest): string {
    PromptOpening + req.reviewText + PromptDetails(req) + PromptInstructions
  }

  /** A concatenation starts with its first part and ends with its last. */
  lemma ConcatEnds(head: string, middle: string, tail: string)
    ensures (head + middle + tail)[..|head|] == head
    ensures (head + middle + tail)[|head + middle + tail| - |tail|..] == tail
  {
  }

  /** The prompt quotes the review text right after its opening and ends with the instructions. */
  lemma BuildPromptFrame(req: ReplyRequest)
    ensures var prompt := BuildPrompt(req);
      && |PromptOpening + req.reviewText| <= |prompt|
      && prompt[..|PromptOpening + req.reviewText|] == PromptOpening + req.reviewText
      && |PromptInstructions| <= |prompt|
      && prompt[|prompt| - |PromptInstructions|..] == PromptInstructions
  {
    ConcatEnds(PromptOpening + req.reviewText, PromptDetails(req), PromptInstructions);
  }

  /** The "no additional information" line appears exactly when product, pros and cons are all empty. */
  lemma ReviewContextPlaceholderIff(productName: string, pros: string, cons: string)
    ensures ReviewContext(productName, pros, cons) == NoExtraInfo <==> (productName == "" && pros == "" && cons == "")
  {
    var info := ReviewInfo(productName, pros, cons);
    if |info| > 0 {
      JoinStartsWithFirst(info, "\n");
      assert Join(info, "\n")[0] == info[0][0];
    }
  }

  /** A product name, when given, opens the context block. */
  lemma ReviewContextOpensWithProduct(productName: string, pros: string, cons: string)
    requires productName != ""
    ensures ReviewContext(productName, pros, cons)[..|"Товар: " + productName|] == "Товар: " + productName
  {
    JoinStartsWithFirst(ReviewInfo(productName, pros, cons), "\n");
  }

  /** The "name not given" line appears exactly when the name is empty. */
  lemma NameContextPlaceholderIff(userName: string)
    ensures NameContext(userName) == NoName <==> userName == ""
  {
    if userName != "" {
      assert NameContext(userName)[14] == ':' != NoName[14];
    }
  }

  // ----- one call of generate_reply -----

  datatype Step = Step(reply: string, current: AIProvider, calls: seq<Call>, remaining: seq<Option<string>>)

  /**
   * `generate_reply` from provider `current` with table `t`, sending `prompt`
   * (the text `BuildPrompt` makes of `req`): the reply, the provider current
   * afterwards, the requests sent and the script left.
   */
  function Generate(t: seq<AIProvider>, current: AIProvider, script: seq<Option<string>>,
                    responses: DefaultResponses, req: ReplyRequest, prompt: string): Step
    requires current in t
  {
    if current != Fallback then
      var ex := Request(current, prompt, script);
      if Passes(ex.response) then
        Step(ReplaceNamePlaceholder(ex.response.value, req.userName), current, ex.calls, ex.remaining)
      else
        var next := FirstPassing(t[IndexOf(t, current) + 1..], ex.remaining);
        Step(GetFallbackResponse(responses, req.rating, req.userName), next.chosen, ex.calls + next.calls, next.remaining)
    else
      Step(GetFallbackResponse(responses, req.rating, req.userName), current, [], script)
  }

  /** `generate_reply` once the call to the current provider has been answered. */
  lemma GenerateOnAnswer(t: seq<AIProvider>, current: AIProvider, script: seq<Option<string>>,
                         responses: DefaultResponses, req: ReplyRequest, prompt: string)
    requires current in t && current != Fallback
    requires Passes(Request(current, prompt, script).response)
    ensures var ex := Request(current, prompt, script);
            Generate(t, current, script, responses, req, prompt)
            == Step(ReplaceNamePlaceholder(ex.response.value, req.userName), current, ex.calls, ex.remaining)
  {
  }

  /** `generate_reply` once the call to the current provider has failed: probe the later providers. */
  lemma GenerateOnFailure(t: seq<AIProvider>, current: AIProvider, script: seq<Option<string>>,
                          responses: DefaultResponses, req: ReplyRequest, prompt: string)
    requires current in t && current != Fallback
    requires !Passes(Request(current, prompt, script).response)
    ensures var ex := Request(current, prompt, script);
            var next := FirstPassing(t[IndexOf(t, current) + 1..], ex.remaining);
            Generate(t, current, script, responses, req, prompt)
            == Step(GetFallbackResponse(responses, req.rating, req.userName), next.chosen, ex.calls + next.calls, next.remaining)
  {
  }

  /** FALLBACK is absorbing: no request is sent and the template reply is returned. */
  lemma FallbackIsAbsorbing(t: seq<AIProvider>, script: seq<Option<string>>,
                            responses: DefaultResponses, req: ReplyRequest, prompt: string)
    requires Fallback in t
    ensures Generate(t, Fallback, script, responses, req, prompt)
            == Step(GetFallbackResponse(responses, req.rating, req.userName), Fallback, [], script)
  {
  }

  /** A non-empty remote response is returned with the name filled in, and the provider stays. */
  lemma RemoteAnswerKeepsProvider(t: seq<AIProvider>, current: AIProvider, script: seq<Option<string>>,
                                  responses: DefaultResponses, req: ReplyRequest, prompt: string)
    requires WellFormedTable(t) && current in t && current != Fallback
    requires Passes(OutcomeAt(script, 0))
    ensures var s := Generate(t, current, script, responses, req, prompt);
      && s.reply == ReplaceNamePlaceholder(OutcomeAt(script, 0).value, req.userName)
      && s.current == current
      && s.calls == [Call(current, prompt)]
  {
    var i := IndexOf(t, current);
    WellFormedTableShape(t);
    assert i < |t| - 1;
  }

  /**
   * A failed remote call still returns the template reply, and the new current
   * provider is a later one or FALLBACK.
   */
  lemma FailedCallFallsBack(t: seq<AIProvider>, current: AIProvider, script: seq<Option<string>>,
                            responses: DefaultResponses, req: ReplyRequest, prompt: string)
    requires WellFormedTable(t) && current in t && current != Fallback
    requires !Passes(OutcomeAt(script, 0))
    ensures var s := Generate(t, current, script, responses, req, prompt);
      && s.reply == GetFallbackResponse(responses, req.rating, req.userName)
      && s.current in t
      && (s.current == Fallback || IndexOf(t, s.current) > IndexOf(t, current))
  {
    var i := IndexOf(t, current);
    RemoteBeforeFallback(t, current);
    GenerateOnFailure(t, current, script, responses, req, prompt);
    LaterIndex(t, i, Generate(t, current, script, responses, req, prompt).current);
  }

  /**
   * After a failed remote call, the failed request is logged first, and only
   * providers strictly after the current one are probed.
   */
  lemma FailedCallProbesOnlyLater(t: seq<AIProvider>, current: AIProvider, script: seq<Option<string>>,
                                  responses: DefaultResponses, req: ReplyRequest, prompt: string)
    requires WellFormedTable(t) && current in t && current != Fallback
    requires !Passes(OutcomeAt(script, 0))
    ensures var s := Generate(t, current, script, responses, req, prompt);
      && |s.calls| > 0 && s.calls[0] == Call(current, prompt)
      && forall k :: 1 <= k < |s.calls| ==>
           s.calls[k].provider in t && IndexOf(t, s.calls[k].provider) > IndexOf(t, current)
  {
    var i := IndexOf(t, current);
    RemoteBeforeFallback(t, current);
    var next := FirstPassing(t[i + 1..], Advance(script));
    FailoverOutcome(t, current, script, responses, req, prompt);
    ProbesAreTests(t[i + 1..], Advance(script));
    ProbesHaveLaterIndex(t, i, next.calls);
  }

  /**
   * Fail-over when a later provider answers: after the current provider's
   * call fails, the later remote providers are probed in table order and the
   * first whose probe passes becomes current; the reply is the template.
   */
  lemma FailoverPicksFirstLater(t: seq<AIProvider>, current: AIProvider, script: seq<Option<string>>,
                                responses: DefaultResponses, req: ReplyRequest, prompt: string, k: nat)
    requires WellFormedTable(t) && current in t && current != Fallback
    requires IndexOf(t, current) + 1 + k < |t| - 1
    requires forall j :: 0 <= j <= k ==> !Passes(OutcomeAt(script, j))
    requires Passes(OutcomeAt(script, k + 1))
    ensures var i := IndexOf(t, current);
            var s := Generate(t, current, script, responses, req, prompt);
      && s.current == t[i + 1 + k]
      && s.reply == GetFallbackResponse(responses, req.rating, req.userName)
      && |s.calls| == k + 2 && s.calls[0] == Call(current, prompt)
      && forall j :: 1 <= j < |s.calls| ==> s.calls[j] == Call(t[i + j], TestPrompt)
  {
    var i := IndexOf(t, current);
    RemoteBeforeFallback(t, current);
    var ex := Request(current, prompt, script);
    assert !Passes(OutcomeAt(script, 0));
    forall j | 0 <= j <= k ensures OutcomeAt(ex.remaining, j) == OutcomeAt(script, j + 1) {
      OutcomeAtAdvance(script, j);
    }
    LaterPicksFirst(t, i, ex.remaining, k);
    FailoverOutcome(t, current, script, responses, req, prompt);
  }

  /**
   * Fail-over when no later provider answers: every later remote provider is
   * probed once, in table order, and FALLBACK becomes current.
   */
  lemma FailoverFallsBackWhenNoneAnswer(t: seq<AIProvider>, current: AIProvider, script: seq<Option<string>>,
                                        responses: DefaultResponses, req: ReplyRequest, prompt: string)
    requires WellFormedTable(t) && current in t && current != Fallback
    requires forall j :: 0 <= j < |t| - 1 - IndexOf(t, current) ==> !Passes(OutcomeAt(script, j))
    ensures var i := IndexOf(t, current);
            var s := Generate(t, current, script, responses, req, prompt);
      && s.current == Fallback
      && s.reply == GetFallbackResponse(responses, req.rating, req.userName)
      && |s.calls| == |t| - 1 - i && s.calls[0] == Call(current, prompt)
      && forall j :: 1 <= j < |s.calls| ==> s.calls[j] == Call(t[i + j], TestPrompt)
  {
    var i := IndexOf(t, current);
    RemoteBeforeFallback(t, current);
    var ex := Request(current, prompt, script);
    assert !Passes(OutcomeAt(script, 0));
    forall j | 0 <= j < |t| - 2 - i ensures !Passes(OutcomeAt(ex.remaining, j)) {
      OutcomeAtAdvance(script, j);
    }
    LaterNonePass(t, i, ex.remaining);
    FailoverOutcome(t, current, script, responses, req, prompt);
  }

  /** Probing the providers after position `i` stops at the first later remote provider that passes. */
  lemma LaterPicksFirst(t: seq<AIProvider>, i: nat, script: seq<Option<string>>, k: nat)
    requires WellFormedTable(t) && i + 1 + k < |t| - 1
    requires forall j :: 0 <= j < k ==> !Passes(OutcomeAt(script, j))
    requires Passes(OutcomeAt(script, k))
    ensures var p := FirstPassing(t[i + 1..], script);
      && p.chosen == t[i + 1 + k]
      && |p.calls| == k + 1
      && forall j :: 0 <= j < |p.calls| ==> p.calls[j] == Call(t[i + 1 + j], TestPrompt)
  {
    var remotes := LaterRemotes(t, i);
    FirstPassingIgnoresFallback(remotes, script);
    FirstPassingPicksFirst(remotes, script, k);
  }

  /** Probing the providers after position `i` when none passes: each is probed in order, then FALLBACK. */
  lemma LaterNonePass(t: seq<AIProvider>, i: nat, script: seq<Option<string>>)
    requires WellFormedTable(t) && i < |t| - 1
    requires forall j :: 0 <= j < |t| - 2 - i ==> !Passes(OutcomeAt(script, j))
    ensures var p := FirstPassing(t[i + 1..], script);
      && p.chosen == Fallback
      && |p.calls| == |t| - 2 - i
      && forall j :: 0 <= j < |p.calls| ==> p.calls[j] == Call(t[i + 1 + j], TestPrompt)
  {
    var remotes := LaterRemotes(t, i);
    FirstPassingIgnoresFallback(remotes, script);
    FirstPassingNonePass(remotes, script);
  }

  /**
   * After a failed call: the template reply, the provider probing the later
   * entries settles on, and the failed request followed by those probes.
   */
  lemma FailoverOutcome(t: seq<AIProvider>, current: AIProvider, script: seq<Option<string>>,
                        responses: DefaultResponses, req: ReplyRequest, prompt: string)
    requires current in t && IsRemote(current) && !Passes(OutcomeAt(script, 0))
    ensures var p := FirstPassing(t[IndexOf(t, current) + 1..], Advance(script));
            var s := Generate(t, current, script, responses, req, prompt);
      && s.current == p.chosen
      && s.reply == GetFallbackResponse(responses, req.rating, req.userName)
      && |s.calls| == 1 + |p.calls| && s.calls[0] == Call(current, prompt)
      && forall j :: 1 <= j < |s.calls| ==> s.calls[j] == p.calls[j - 1]
  {
    var ex := Request(current, prompt, script);
    assert ex == Exchange(OutcomeAt(script, 0), [Call(current, prompt)], Advance(script));
    GenerateOnFailure(t, current, script, responses, req, prompt);
    var p := FirstPassing(t[IndexOf(t, current) + 1..], ex.remaining);
    var calls := ex.calls + p.calls;
    forall j | 1 <= j < |calls| ensures calls[j] == p.calls[j - 1] { }
  }

  /** The providers after position `i`, up to FALLBACK: all remote, and FALLBACK follows them. */
  lemma LaterRemotes(t: seq<AIProvider>, i: nat) returns (remotes: seq<AIProvider>)
    requires WellFormedTable(t) && i < |t| - 1
    ensures remotes == t[i + 1..|t| - 1] && t[i + 1..] == remotes + [Fallback]
    ensures forall j :: 0 <= j < |remotes| ==> IsRemote(remotes[j])
  {
    WellFormedTableShape(t);
    remotes := t[i + 1..|t| - 1];
    forall j | 0 <= j < |remotes| ensures IsRemote(remotes[j]) {
      assert remotes[j] == t[i + 1 + j];
    }
  }

  /** A provider other than FALLBACK in a well-formed table is remote and comes before FALLBACK. */
  lemma RemoteBeforeFallback(t: seq<AIProvider>, current: AIProvider)
    requires WellFormedTable(t) && current in t && current != Fallback
    ensures IsRemote(current) && IndexOf(t, current) < |t| - 1
  {
    WellFormedTableShape(t);
  }

  /** Probes of providers after position `i` all go to providers indexed above `i`. */
  lemma ProbesHaveLaterIndex(t: seq<AIProvider>, i: nat, calls: seq<Call>)
    requires WellFormedTable(t) && i < |t|
    requires ProbesOf(calls, t[i + 1..])
    ensures forall k :: 0 <= k < |calls| ==> calls[k].provider in t && IndexOf(t, calls[k].provider) > i
  {
    forall k | 0 <= k < |calls|
      ensures calls[k].provider in t && IndexOf(t, calls[k].provider) > i
    {
      LaterIndex(t, i, calls[k].provider);
    }
  }

  /** A provider found after position `i` of a well-formed table has index above `i`. */
  lemma LaterIndex(t: seq<AIProvider>, i: nat, p: AIProvider)
    requires WellFormedTable(t) && i < |t|
    requires p in t[i + 1..]
    ensures p in t && IndexOf(t, p) > i
  {
    var k :| i + 1 <= k < |t| && t[k] == p;
    IndexOfPosition(t, k);
  }

  /**
   * Over any call, the current provider stays in the table and its index
   * never decreases; once FALLBACK, always FALLBACK.
   */
  lemma GenerateIsMonotone(t: seq<AIProvider>, current: AIProvider, script: seq<Option<string>>,
                           responses: DefaultResponses, req: ReplyRequest, prompt: string)
    requires WellFormedTable(t) && current in t
    ensures var s := Generate(t, current, script, responses, req, prompt);
      && s.current in t
      && IndexOf(t, s.current) >= IndexOf(t, current)
      && (current == Fallback ==> s.current == Fallback)
  {
    if current != Fallback {
      if Passes(OutcomeAt(script, 0)) {
        RemoteAnswerKeepsProvider(t, current, script, responses, req, prompt);
      } else {
        FailedCallFallsBack(t, current, script, responses, req, prompt);
        var s := Generate(t, current, script, responses, req, prompt);
        if s.current == Fallback {
          IndexOfPosition(t, |t| - 1);
        }
      }
    }
  }

  /**
   * A reply can be empty: a remote answer that is just the placeholder, for a
   * customer without a name, is substituted down to "".
   */
  lemma PlaceholderOnlyAnswerGivesEmptyReply(responses: DefaultResponses, req: ReplyRequest, prompt: string)
    requires req.userName == ""
    ensures Generate([YandexGpt, Fallback], YandexGpt, [Some(Placeholder)], responses, req, prompt).reply == ""
  {
    assert Placeholder[..|Placeholder|] == Placeholder;
    assert Placeholder[|Placeholder|..] == "";
  }

  // ----- the generator object -----

  lemma AppendAssociates<T>(a: seq<T>, b: seq<T>, c: seq<T>)
    ensures a + (b + c) == (a + b) + c
  {
  }

  /**
   * Loop invariant of the probing loops: probing what is left from the
   * current state ends where probing everything from the initial state ends.
   */
  predicate Resumes(whole: Probing, before: seq<Call>, rest: Probing, now: seq<Call>) {
    rest.chosen == whole.chosen && rest.remaining == whole.remaining && before + whole.calls == now + rest.calls
  }

  /** A probe that passes ends the probing on that provider. */
  lemma ResumesPassing(whole: Probing, before: seq<Call>, cands: seq<AIProvider>,
                       script: seq<Option<string>>, now: seq<Call>)
    requires |cands| > 0 && IsRemote(cands[0]) && Passes(OutcomeAt(script, 0))
    requires Resumes(whole, before, FirstPassing(cands, script), now)
    ensures whole.chosen == cands[0] && whole.remaining == Advance(script)
    ensures before + whole.calls == now + [Call(cands[0], TestPrompt)]
  {
  }

  /** A probe that fails is logged, and the probing resumes on the later candidates. */
  lemma ResumesFailing(whole: Probing, before: seq<Call>, cands: seq<AIProvider>,
                       script: seq<Option<string>>, now: seq<Call>)
    requires |cands| > 0 && IsRemote(cands[0]) && !Passes(OutcomeAt(script, 0))
    requires Resumes(whole, before, FirstPassing(cands, script), now)
    ensures Resumes(whole, before, FirstPassing(cands[1..], Advance(script)), now + [Call(cands[0], TestPrompt)])
  {
    var tail := FirstPassing(cands[1..], Advance(script));
    assert FirstPassing(cands, script).calls == [Call(cands[0], TestPrompt)] + tail.calls;
    assert now + ([Call(cands[0], TestPrompt)] + tail.calls) == (now + [Call(cands[0], TestPrompt)]) + tail.calls;
  }

  /** FALLBACK is skipped without a request. */
  lemma ResumesSkipping(whole: Probing, before: seq<Call>, cands: seq<AIProvider>,
                        script: seq<Option<string>>, now: seq<Call>)
    requires |cands| > 0 && cands[0] == Fallback
    requires Resumes(whole, before, FirstPassing(cands, script), now)
    ensures Resumes(whole, before, FirstPassing(cands[1..], script), now)
  {
  }

  /** Every candidate is FALLBACK or a remote provider of the table. */
  predicate Probeable(cands: seq<AIProvider>, t: seq<AIProvider>) {
    forall k :: 0 <= k < |cands| ==> cands[k] == Fallback || (cands[k] in t && IsRemote(cands[k]))
  }

  /** The providers after position `i` of a well-formed table can be probed. */
  lemma LaterAreProbeable(t: seq<AIProvider>, i: nat)
    requires WellFormedTable(t) && i < |t|
    ensures Probeable(t[i + 1..], t)
  {
    WellFormedTableShape(t);
    var later := t[i + 1..];
    forall k | 0 <= k < |later|
      ensures later[k] == Fallback || (later[k] in t && IsRemote(later[k]))
    {
      assert later[k] == t[i + 1 + k];
    }
  }

  class RussianAIGenerator {
    /** `DEFAULT_RESPONSES`, used for every template reply. */
    const responses: DefaultResponses
    /** `self.providers`: the provider table, in insertion order. */
    const providers: seq<AIProvider>
    var currentProvider: AIProvider
    /** Outcomes the network will give the coming remote requests, in order. */
    var script: seq<Option<string>>
    /** Every remote request sent so far. */
    var calls: seq<Call>

    ghost predicate Valid()
      reads this
    {
      WellFormedTable(providers) && currentProvider in providers
    }

    /** `__init__`: build the table, then select a provider by probing. */
    constructor(settings: Settings, responses: DefaultResponses, script: seq<Option<string>>)
      ensures Valid()
      ensures this.responses == responses
      ensures YandexGpt in providers <==> settings.yandexApiKey != ""
      ensures GigaChat in providers <==> settings.gigachatApiKey != ""
      ensures var p := FirstPassing(Configured(SelectionOrder, providers), script);
              currentProvider == p.chosen && this.script == p.remaining && calls == p.calls
    {
      this.responses := responses;
      var table := InitializeProviders(settings);
      providers := table;
      // Python starts from None; SelectProvider overwrites it below.
      currentProvider := Fallback;
      this.script := script;
      calls := [];
      new;
      SelectProvider();
      SelectionStaysInTable(providers, script);
    }

    /** `_initialize_providers`: Yandex GPT and GigaChat when their keys are set, FALLBACK always. */
    static method InitializeProviders(settings: Settings) returns (table: seq<AIProvider>)
      ensures WellFormedTable(table)
      ensures YandexGpt in table <==> settings.yandexApiKey != ""
      ensures GigaChat in table <==> settings.gigachatApiKey != ""
      ensures Kandinsky !in table
    {
      table := [];
      if settings.yandexApiKey != "" {
        table := table + [YandexGpt];
      }
      if settings.gigachatApiKey != "" {
        table := table + [GigaChat];
      }
      table := table + [Fallback];
    }

    /** `_select_provider`. */
    method SelectProvider()
      modifies this`currentProvider, this`script, this`calls
      ensures var p := FirstPassing(Configured(SelectionOrder, providers), old(script));
              currentProvider == p.chosen && script == p.remaining && calls == old(calls) + p.calls
    {
      var order := SelectionOrder;
      ghost var whole := FirstPassing(Configured(order, providers), script);
      var i := 0;
      while i < |order|
        invariant 0 <= i <= |order|
        invariant Resumes(whole, old(calls), FirstPassing(Configured(order[i..], providers), script), calls)
      {
        var provider := order[i];
        assert order[i..][0] == provider && order[i..][1..] == order[i + 1..];
        ghost var cands := Configured(order[i..], providers);
        if provider in providers {
          assert cands == [provider] + Configured(order[i + 1..], providers);
          assert cands[0] == provider && cands[1..] == Configured(order[i + 1..], providers);
          ghost var before := calls;
          ghost var scriptBefore := script;
          var ok := TestProvider(provider);
          if ok {
            ResumesPassing(whole, old(calls), cands, scriptBefore, before);
            assert calls == before + [Call(provider, TestPrompt)] && script == Advance(scriptBefore);
            currentProvider := provider;
            assert currentProvider == whole.chosen && script == whole.remaining && calls == old(calls) + whole.calls;
            return;
          }
          ResumesFailing(whole, old(calls), cands, scriptBefore, before);
        } else {
          assert cands == Configured(order[i + 1..], providers);
        }
        i := i + 1;
      }
      assert order[i..] == [];
      assert calls + [] == calls;
      currentProvider := Fallback;
      assert currentProvider == whole.chosen && script == whole.remaining && calls == old(calls) + whole.calls;
    }

    /** `_test_provider`: a provider outside the table fails (the lookup raises, and the error is caught). */
    method TestProvider(provider: AIProvider) returns (ok: bool)
      modifies this`script, this`calls
      ensures provider !in providers ==> !ok && script == old(script) && calls == old(calls)
      ensures provider in providers ==>
                var ex := Request(provider, TestPrompt, old(script));
                ok == Passes(ex.response) && script == ex.remaining && calls == old(calls) + ex.calls
    {
      if provider !in providers {
        return false;
      }
      var response := MakeRequest(provider, TestPrompt);
      ok := response.Some? && |response.value| > 0;
    }

    /** `_make_request`, with the HTTP call replaced by the next scripted outcome. */
    method MakeRequest(provider: AIProvider, prompt: string) returns (response: Option<string>)
      requires provider in providers
      modifies this`script, this`calls
      ensures var ex := Request(provider, prompt, old(script));
              response == ex.response && script == ex.remaining && calls == old(calls) + ex.calls
    {
      if provider == YandexGpt || provider == GigaChat {
        calls := calls + [Call(provider, prompt)];
        if |script| > 0 {
          response := script[0];
          script := script[1..];
        } else {
          response := None;
        }
      } else {
        response := None;
      }
    }

    /** `generate_reply`. */
    method GenerateReply(reviewText: string, productName: string, rating: int,
                         userName: string, pros: string, cons: string) returns (reply: string)
      requires Valid()
      modifies this`currentProvider, this`script, this`calls
      ensures Valid()
      ensures var req := ReplyRequest(reviewText, productName, rating, userName, pros, cons);
              var s := Generate(providers, old(currentProvider), old(script), responses, req, BuildPrompt(req));
              reply == s.reply && currentProvider == s.current && script == s.remaining
              && calls == old(calls) + s.calls
    {
      var req := ReplyRequest(reviewText, productName, rating, userName, pros, cons);
      var prompt := BuildPrompt(req);
      if currentProvider != Fallback {
        ghost var from := currentProvider;
        ghost var before := calls;
        ghost var scriptBefore := script;
        var response := MakeRequest(currentProvider, prompt);
        if response.Some? && response.value != "" {
          reply := ReplaceNamePlaceholder(response.value, userName);
          GenerateOnAnswer(providers, from, scriptBefore, responses, req, prompt);
          return;
        }
        TryNextProvider();
        GenerateOnFailure(providers, from, scriptBefore, responses, req, prompt);
        ghost var ex := Request(from, prompt, scriptBefore);
        ghost var next := FirstPassing(providers[IndexOf(providers, from) + 1..], ex.remaining);
        AppendAssociates(before, ex.calls, next.calls);
      }
      reply := GetFallbackResponse(responses, rating, userName);
    }

    /** `_try_next_provider`: probe the providers after the current one, skipping FALLBACK. */
    method TryNextProvider()
      requires Valid()
      modifies this`currentProvider, this`script, this`calls
      ensures Valid()
      ensures var p := FirstPassing(providers[IndexOf(providers, old(currentProvider)) + 1..], old(script));
              currentProvider == p.chosen && script == p.remaining && calls == old(calls) + p.calls
    {
      var currentIndex := IndexOf(providers, currentProvider);
      var nextProviders := providers[currentIndex + 1..];
      LaterAreProbeable(providers, currentIndex);
      ProbeInOrder(nextProviders);
      WellFormedTableShape(providers);
    }

    /** The loop of `_try_next_provider`: the first of `cands` other than FALLBACK whose probe passes, else FALLBACK. */
    method ProbeInOrder(cands: seq<AIProvider>)
      requires Probeable(cands, providers)
      modifies this`currentProvider, this`script, this`calls
      ensures var p := FirstPassing(cands, old(script));
              currentProvider == p.chosen && script == p.remaining && calls == old(calls) + p.calls
    {
      ghost var whole := FirstPassing(cands, script);
      var i := 0;
      while i < |cands|
        invariant 0 <= i <= |cands|
        invariant Resumes(whole, old(calls), FirstPassing(cands[i..], script), calls)
      {
        var provider := cands[i];
        assert cands[i..][0] == provider && cands[i..][1..] == cands[i + 1..];
        if provider != Fallback {
          ghost var before := calls;
          ghost var scriptBefore := script;
          var ok := TestProvider(provider);
          if ok {
            ResumesPassing(whole, old(calls), cands[i..], scriptBefore, before);
            currentProvider := provider;
            return;
          }
          ResumesFailing(whole, old(calls), cands[i..], scriptBefore, before);
        } else {
          ResumesSkipping(whole, old(calls), cands[i..], script, calls);
        }
        i := i + 1;
      }
      assert cands[i..] == [];
      assert calls + [] == calls;
      currentProvider := Fallback;
    }
  }
}
