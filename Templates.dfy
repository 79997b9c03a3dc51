/**
 * Canned replies (src/ai/templates.py): the rating picks one of three
 * templates, and the customer's name replaces the placeholder `[имя]`.
 * The template texts themselves live in a constants module that is not part
 * of this model, so they are a parameter.
 */
module Templates {
  import opened Text

  /** The name placeholder every template and every remote reply may carry. */
  const Placeholder: string := "[имя]"

  /** `DEFAULT_RESPONSES`: one template per sentiment bucket. */
  datatype DefaultResponses = DefaultResponses(positive: string, negative: string, neutral: string)

  datatype Sentiment = Positive | Negative | Neutral

  /** The bucket a rating falls into. */
  function SentimentFor(rating: int): (b: Sentiment)
    ensures b == Positive <==> rating >= 4
    ensures b == Negative <==> rating <= 2
    ensures b == Neutral <==> rating == 3
  {
    if rating >= 4 then Positive
    else if rating <= 2 then Negative
    else Neutral
  }

  /** The template of the rating's bucket. */
  function TemplateFor(responses: DefaultResponses, rating: int): string {
    match SentimentFor(rating)
    case Positive => responses.positive
    case Negative => responses.negative
    case Neutral => responses.neutral
  }

  /**
   * `replace_name_placeholder`: a non-blank name replaces every placeholder
   * with its stripped form; a blank one deletes every placeholder.
   */
  function ReplaceNamePlaceholder(text: string, userName: string): string {
    if userName != "" && !Blank(userName) then
      ReplaceAll(text, Placeholder, Strip(userName))
    else
      ReplaceAll(text, Placeholder, "")
  }

  /** `get_fallback_response`: the bucket's template with the name filled in. */
  function GetFallbackResponse(responses: DefaultResponses, rating: int, userName: string): (r: string)
    ensures rating >= 4 ==> r == ReplaceNamePlaceholder(responses.positive, userName)
    ensures rating <= 2 ==> r == ReplaceNamePlaceholder(responses.negative, userName)
    ensures rating == 3 ==> r == ReplaceNamePlaceholder(responses.neutral, userName)
  {
    ReplaceNamePlaceholder(TemplateFor(responses, rating), userName)
  }

  /** Both branches of `replace_name_placeholder` substitute the stripped name. */
  lemma PlaceholderGetsStrippedName(text: string, userName: string)
    ensures ReplaceNamePlaceholder(text, userName) == ReplaceAll(text, Placeholder, Strip(userName))
  {
    if userName == "" {
      assert Strip(userName) == "";
    }
  }

  /** A blank name deletes every placeholder: the text shrinks by five characters per occurrence. */
  lemma BlankNameDeletesPlaceholder(text: string, userName: string)
    requires AllSpace(userName)
    ensures ReplaceNamePlaceholder(text, userName) == ReplaceAll(text, Placeholder, "")
    ensures |ReplaceNamePlaceholder(text, userName)| == |text| - 5 * Count(text, Placeholder)
  {
    BlankIffAllSpace(userName);
    ReplaceLength(text, Placeholder, "");
  }

  /** Text without a placeholder comes back unchanged for every name. */
  lemma NoPlaceholderUnchanged(text: string, userName: string)
    requires NoMatchBefore(text, Placeholder, |text|)
    ensures ReplaceNamePlaceholder(text, userName) == text
  {
    PlaceholderGetsStrippedName(text, userName);
    ReplaceNoMatch(text, Placeholder, Strip(userName));
  }

  /** Names that differ only in surrounding whitespace give the same text. */
  lemma PaddedNamesAgree(text: string, lead: string, userName: string, trail: string)
    requires AllSpace(lead) && AllSpace(trail)
    ensures ReplaceNamePlaceholder(text, lead + userName + trail) == ReplaceNamePlaceholder(text, userName)
  {
    PlaceholderGetsStrippedName(text, lead + userName + trail);
    PlaceholderGetsStrippedName(text, userName);
    StripPadded(lead, userName, trail);
  }

  /**
   * The first placeholder becomes the stripped name, never the raw one:
   * the text before it is kept and the rest is substituted the same way.
   */
  lemma FirstPlaceholderGetsName(before: string, after: string, userName: string)
    requires NoMatchBefore(before + Placeholder + after, Placeholder, |before|)
    ensures ReplaceNamePlaceholder(before + Placeholder + after, userName)
            == before + Strip(userName) + ReplaceNamePlaceholder(after, userName)
  {
    PlaceholderGetsStrippedName(before + Placeholder + after, userName);
    PlaceholderGetsStrippedName(after, userName);
    ReplaceFirstMatch(before, after, Placeholder, Strip(userName));
  }

  /** The fallback reply is determined by the rating's bucket and the stripped name alone. */
  lemma FallbackDeterministic(responses: DefaultResponses, r1: int, n1: string, r2: int, n2: string)
    requires SentimentFor(r1) == SentimentFor(r2) && Strip(n1) == Strip(n2)
    ensures GetFallbackResponse(responses, r1, n1) == GetFallbackResponse(responses, r2, n2)
  {
    PlaceholderGetsStrippedName(TemplateFor(responses, r1), n1);
    PlaceholderGetsStrippedName(TemplateFor(responses, r2), n2);
  }
}
