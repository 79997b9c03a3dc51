/**
 * The part of the Wildberries client (src/api/wb_client.py) that decides
 * what comes back: which raw records become reviews, the test-mode
 * fixtures, the error paths, and the length cap on posted replies. The HTTP
 * exchange itself is a parameter: the decoded response of the request.
 */
module WbClient {
  import opened Wrappers
  import opened Text
  import opened Models
  import opened Sequences

  /** The longest reply text the client posts. */
  const MaxReplyLength: nat := 5000

  /** The list comprehension's condition: text, pros or cons is present and longer than three after stripping. */
  predicate KeepRecord(item: RawFeedback) {
    || (item.text.Some? && Substantive(item.text.value))
    || (item.pros.Some? && Substantive(item.pros.value))
    || (item.cons.Some? && Substantive(item.cons.value))
  }

  /** The filter on raw records is exactly `has_text` on the review built from them. */
  lemma KeepRecordIffHasText(item: RawFeedback)
    ensures KeepRecord(item) <==> FromRaw(item).HasText()
  {
    var r := FromRaw(item);
    assert item.text.None? ==> r.text == "";
    assert item.pros.None? ==> r.pros == "";
    assert item.cons.None? ==> r.cons == "";
  }

  /** A review built from every record, kept or not, in record order. */
  function BuildAll(items: seq<RawFeedback>): (built: seq<WBReview>)
    ensures |built| == |items|
    ensures forall i :: 0 <= i < |items| ==> built[i] == FromRaw(items[i])
  {
    seq(|items|, i requires 0 <= i < |items| => FromRaw(items[i]))
  }

  /** The reviews built from the records that pass `KeepRecord`, in order. */
  function FilterFeedbacks(items: seq<RawFeedback>): (reviews: seq<WBReview>)
    ensures |reviews| <= |items|
    ensures forall r :: r in reviews ==> r.HasText()
    ensures forall i :: 0 <= i < |items| && KeepRecord(items[i]) ==> FromRaw(items[i]) in reviews
    ensures IsSubsequence(reviews, BuildAll(items))
    decreases |items|
  {
    if |items| == 0 then []
    else
      KeepRecordIffHasText(items[0]);
      var rest := FilterFeedbacks(items[1..]);
      assert forall i :: 1 <= i < |items| ==> items[i] == items[1..][i - 1];
      assert BuildAll(items)[1..] == BuildAll(items[1..]);
      if KeepRecord(items[0]) then
        assert ([FromRaw(items[0])] + rest)[1..] == rest;
        [FromRaw(items[0])] + rest
      else
        SubsequenceSkip(rest, BuildAll(items));
        rest
  }

  /** Filtering a concatenation filters each part. */
  lemma {:induction false} FilterConcat(a: seq<RawFeedback>, b: seq<RawFeedback>)
    ensures FilterFeedbacks(a + b) == FilterFeedbacks(a) + FilterFeedbacks(b)
    decreases |a|
  {
    if |a| == 0 {
      assert a + b == b;
    } else {
      assert (a + b)[1..] == a[1..] + b;
      FilterConcat(a[1..], b);
    }
  }

  /** When every record carries text, nothing is dropped and order is kept. */
  lemma {:induction false} FilterKeepsAll(items: seq<RawFeedback>)
    requires forall i :: 0 <= i < |items| ==> KeepRecord(items[i])
    ensures FilterFeedbacks(items) == BuildAll(items)
    decreases |items|
  {
    if |items| > 0 {
      forall i | 0 <= i < |items[1..]| ensures KeepRecord(items[1..][i]) {
        assert items[1..][i] == items[i + 1];
      }
      FilterKeepsAll(items[1..]);
      BuildAllCons(items);
    }
  }

  lemma BuildAllCons(items: seq<RawFeedback>)
    requires |items| > 0
    ensures BuildAll(items) == [FromRaw(items[0])] + BuildAll(items[1..])
  {
    var rest := BuildAll(items[1..]);
    assert forall i :: 0 <= i < |rest| ==> rest[i] == FromRaw(items[i + 1]);
  }

  /** When no record carries text, no review is returned. */
  lemma {:induction false} FilterDropsAll(items: seq<RawFeedback>)
    requires forall i :: 0 <= i < |items| ==> !KeepRecord(items[i])
    ensures FilterFeedbacks(items) == []
    decreases |items|
  {
    if |items| > 0 {
      FilterDropsAll(items[1..]);
    }
  }

  /**
   * The decoded result of `_make_request`: an error (its `error` flag set);
   * the no-content answer, whose `data` is null; or data whose `feedbacks`
   * list may be absent (as may the `data` key itself, read as `{}`).
   */
  datatype FeedbacksResponse =
    | ErrorResponse(errorText: Option<string>)
    | NoContentResponse
    | DataResponse(feedbacks: Option<seq<RawFeedback>>)

  /**
   * How `get_unanswered_reviews` ends: with a list, or with the
   * `AttributeError` raised by calling `get` on a null `data`, which leaves
   * the method.
   */
  datatype Fetch = Fetched(reviews: seq<WBReview>) | AttributeError

  const TestRecord1: RawFeedback := RawFeedback(
    Some("test_review_1"),
    Some("Отличный товар! Качество на высоте, доставка быстрая."),
    Some(ProductDetails(Some("Тестовый товар 1"))),
    Some("2024-01-01"), Some(false), Some(5), Some(false),
    Some("Качество, доставка"), Some(""), Some("Анна"))

  const TestRecord2: RawFeedback := RawFeedback(
    Some("test_review_2"),
    Some(""),
    Some(ProductDetails(Some("Тестовый товар 2"))),
    Some("2024-01-01"), Some(false), Some(5), Some(true),
    Some("Красивый сарафан, отличное качество"), Some(""), Some("Анастасия"))

  /** `_get_test_reviews`: two fixed reviews, built without the text filter. */
  function TestReviews(): (reviews: seq<WBReview>)
    ensures |reviews| == 2
    ensures reviews[0].id == "test_review_1" && reviews[1].id == "test_review_2"
  {
    [FromRaw(TestRecord1), FromRaw(TestRecord2)]
  }

  /** Both fixtures would also pass the live filter, each through its pros field. */
  lemma TestReviewsHaveText()
    ensures forall r :: r in TestReviews() ==> r.HasText()
  {
    var r1 := FromRaw(TestRecord1);
    var r2 := FromRaw(TestRecord2);
    var pros1 := "Качество, доставка";
    var pros2 := "Красивый сарафан, отличное качество";
    assert r1.pros == pros1 && |pros1| == 18 && pros1[0] == 'К' && pros1[17] == 'а';
    assert r2.pros == pros2 && |pros2| == 35 && pros2[0] == 'К' && pros2[34] == 'о';
    StripUnpadded(pros1);
    StripUnpadded(pros2);
    assert Substantive(r1.pros) && Substantive(r2.pros);
  }

  /**
   * `get_unanswered_reviews`: the fixtures in test mode, nothing on an error,
   * `AttributeError` on a null `data`, else the filtered records in order.
   */
  function GetUnansweredReviews(testMode: bool, response: FeedbacksResponse): (f: Fetch)
    ensures f.Fetched? ==> forall r :: r in f.reviews ==> r.HasText()
    ensures testMode ==> f == Fetched(TestReviews())
    ensures !testMode && response.ErrorResponse? ==> f == Fetched([])
    ensures f.AttributeError? <==> !testMode && response.NoContentResponse?
    ensures !testMode && response.DataResponse? ==>
              var items := response.feedbacks.GetOr([]);
              && f == Fetched(FilterFeedbacks(items))
              && IsSubsequence(f.reviews, BuildAll(items))
              && forall i :: 0 <= i < |items| && KeepRecord(items[i]) ==> FromRaw(items[i]) in f.reviews
  {
    if testMode then
      TestReviewsHaveText();
      Fetched(TestReviews())
    else if response.ErrorResponse? then Fetched([])
    else if response.NoContentResponse? then AttributeError
    else Fetched(FilterFeedbacks(response.feedbacks.GetOr([])))
  }

  /** `reply_text[:5000]`. */
  function TruncateReply(text: string): (t: string)
    ensures |t| <= MaxReplyLength
    ensures t <= text
    ensures |text| <= MaxReplyLength ==> t == text
    ensures |text| > MaxReplyLength ==> |t| == MaxReplyLength
  {
    if |text| <= MaxReplyLength then text else text[..MaxReplyLength]
  }

  /** Truncation is idempotent. */
  lemma TruncateIdempotent(text: string)
    ensures TruncateReply(TruncateReply(text)) == TruncateReply(text)
  {
  }

  /** The JSON body posted to `feedbacks/answer`. */
  datatype Payload = Payload(id: string, text: string)

  datatype PostOutcome = PostOutcome(sent: Option<Payload>, ok: bool)

  /**
   * `post_reply_to_review`: in test mode nothing is sent and the post
   * succeeds; otherwise the truncated reply is sent and the post succeeds
   * exactly when the response carries no error.
   */
  function PostReplyToReview(testMode: bool, reviewId: string, replyText: string, responseFails: bool): (o: PostOutcome)
    ensures testMode ==> o.sent.None? && o.ok
    ensures !testMode ==> o.sent.Some? && o.sent.value.id == reviewId && o.ok == !responseFails
    ensures !testMode ==> |o.sent.value.text| <= MaxReplyLength && o.sent.value.text <= replyText
    ensures !testMode && |replyText| <= MaxReplyLength ==> o.sent.value.text == replyText
  {
    if testMode then PostOutcome(None, true)
    else PostOutcome(Some(Payload(reviewId, TruncateReply(replyText))), !responseFails)
  }
}
