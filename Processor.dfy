/**
 * Admission and deduplication of reviews (src/core/processor.py). A
 * `ReviewProcessor` remembers the ids it has answered in this run; each batch
 * yields one result per admitted review, in input order. The reply generator
 * is an arbitrary function that may return the empty string.
 */
module Processor {
  import opened Text
  import opened Models
  import opened Requests
  import opened Sequences

  /** One entry of `process_reviews`' result list. */
  datatype ReplyResult = ReplyResult(review: WBReview, reply: string, success: bool)

  /** What `process_reviews` returns, and `processed_ids` afterwards. */
  datatype Outcome = Outcome(results: seq<ReplyResult>, processed: set<string>)

  /** The noise rule: a short stripped main text that holds a digit. */
  predicate DigitNoise(text: string) {
    |Strip(text)| < 5 && HasDigit(text)
  }

  /** The checks of `should_process` that look only at the review: it has text and is not noise. */
  predicate Eligible(review: WBReview) {
    review.HasText() && !DigitNoise(review.text)
  }

  /** Admission with the per-review checks given as `eligible`. */
  predicate Accepts(eligible: WBReview -> bool, ids: set<string>, review: WBReview) {
    review.id !in ids && eligible(review)
  }

  /** `should_process`, with `processed_ids` as `ids`: admission with the checks of `Eligible`. */
  predicate Admits(ids: set<string>, review: WBReview)
    ensures review.id in ids ==> !Admits(ids, review)
    ensures !review.HasText() ==> !Admits(ids, review)
    ensures |Strip(review.text)| < 5 && HasDigit(review.text) ==> !Admits(ids, review)
    ensures review.id !in ids && review.HasText() && !DigitNoise(review.text) ==> Admits(ids, review)
  {
    Accepts(Eligible, ids, review)
  }

  /** The arguments `process_reviews` hands to the generator for a review. */
  function RequestFor(review: WBReview): ReplyRequest {
    ReplyRequest(review.ReviewText(), review.ProductName(), review.rating,
                 review.userName, review.pros, review.cons)
  }

  /** Ids of the successful results. */
  function SuccessIds(results: seq<ReplyResult>): set<string> {
    set i | 0 <= i < |results| && results[i].success :: results[i].review.id
  }

  /** The reviews that got a result, in result order. */
  function ReviewsOf(results: seq<ReplyResult>): seq<WBReview> {
    seq(|results|, i requires 0 <= i < |results| => results[i].review)
  }

  /** The generator's reply to a review, as `process_reviews` asks for it. */
  function ReplyTo(generate: ReplyRequest -> string): WBReview -> string {
    review => generate(RequestFor(review))
  }

  /**
   * `process_reviews` on a batch, starting from `ids`: the results and the
   * new `processed_ids`. `answer` gives the generator's reply to a review;
   * `eligible` is the per-review part of `should_process` (`Eligible` for the
   * processor itself), kept as a parameter so that the lemmas about `Run`
   * need only the deduplication rule.
   */
  function Run(eligible: WBReview -> bool, answer: WBReview -> string, ids: set<string>, reviews: seq<WBReview>): (o: Outcome)
    ensures ids <= o.processed
    ensures |o.results| <= |reviews|
    decreases |reviews|
  {
    if |reviews| == 0 then Outcome([], ids)
    else
      var review := reviews[0];
      if !Accepts(eligible, ids, review) then Run(eligible, answer, ids, reviews[1..])
      else
        var reply := answer(review);
        if reply != "" then
          var rest := Run(eligible, answer, ids + {review.id}, reviews[1..]);
          Outcome([ReplyResult(review, reply, true)] + rest.results, rest.processed)
        else
          var rest := Run(eligible, answer, ids, reviews[1..]);
          Outcome([ReplyResult(review, "", false)] + rest.results, rest.processed)
  }

  /**
   * Every result is for an admissible review; it succeeds exactly when the
   * generator gave a non-empty reply, and then carries that reply, else "".
   */
  lemma {:induction false} RunResultsFaithful(eligible: WBReview -> bool, answer: WBReview -> string, ids: set<string>, reviews: seq<WBReview>)
    ensures forall i :: 0 <= i < |Run(eligible, answer, ids, reviews).results| ==>
      var res := Run(eligible, answer, ids, reviews).results[i];
      && eligible(res.review)
      && (res.success <==> answer(res.review) != "")
      && res.reply == (if res.success then answer(res.review) else "")
    decreases |reviews|
  {
    if |reviews| > 0 {
      var review := reviews[0];
      if !Accepts(eligible, ids, review) {
        RunResultsFaithful(eligible, answer, ids, reviews[1..]);
      } else if answer(review) != "" {
        RunResultsFaithful(eligible, answer, ids + {review.id}, reviews[1..]);
      } else {
        RunResultsFaithful(eligible, answer, ids, reviews[1..]);
      }
    }
  }

  /** Ids with no result from the current processed set. */
  predicate FreshIds(rs: seq<ReplyResult>, ids: set<string>) {
    forall k :: 0 <= k < |rs| ==> rs[k].review.id !in ids
  }

  /** No result is for an id that was already processed when the batch started. */
  lemma {:induction false} RunSkipsProcessed(eligible: WBReview -> bool, answer: WBReview -> string, ids: set<string>, reviews: seq<WBReview>)
    ensures FreshIds(Run(eligible, answer, ids, reviews).results, ids)
    decreases |reviews|
  {
    if |reviews| > 0 {
      var review := reviews[0];
      if !Accepts(eligible, ids, review) {
        RunSkipsProcessed(eligible, answer, ids, reviews[1..]);
      } else {
        var ids' := if answer(review) != "" then ids + {review.id} else ids;
        RunSkipsProcessed(eligible, answer, ids', reviews[1..]);
        var rest := Run(eligible, answer, ids', reviews[1..]).results;
        var rs := Run(eligible, answer, ids, reviews).results;
        assert rs == [rs[0]] + rest && rs[0].review == review;
        forall k | 1 <= k < |rs| ensures rs[k].review.id !in ids {
          assert rs[k] == rest[k - 1];
        }
      }
    }
  }

  /** `processed_ids` grows by exactly the ids of the successful results. */
  lemma {:induction false} RunProcessedIds(eligible: WBReview -> bool, answer: WBReview -> string, ids: set<string>, reviews: seq<WBReview>)
    ensures Run(eligible, answer, ids, reviews).processed == ids + SuccessIds(Run(eligible, answer, ids, reviews).results)
    decreases |reviews|
  {
    if |reviews| > 0 {
      var review := reviews[0];
      var o := Run(eligible, answer, ids, reviews);
      if !Accepts(eligible, ids, review) {
        RunProcessedIds(eligible, answer, ids, reviews[1..]);
      } else if answer(review) != "" {
        var rest := Run(eligible, answer, ids + {review.id}, reviews[1..]);
        RunProcessedIds(eligible, answer, ids + {review.id}, reviews[1..]);
        assert o.results == [ReplyResult(review, answer(review), true)] + rest.results;
        SuccessIdsCons(ReplyResult(review, answer(review), true), rest.results);
      } else {
        var rest := Run(eligible, answer, ids, reviews[1..]);
        RunProcessedIds(eligible, answer, ids, reviews[1..]);
        SuccessIdsCons(ReplyResult(review, "", false), rest.results);
      }
    }
  }

  lemma SuccessIdsCons(r: ReplyResult, rs: seq<ReplyResult>)
    ensures SuccessIds([r] + rs) == (if r.success then {r.review.id} else {}) + SuccessIds(rs)
  {
    var xs := [r] + rs;
    forall x | x in SuccessIds(xs)
      ensures x in (if r.success then {r.review.id} else {}) + SuccessIds(rs)
    {
      var i :| 0 <= i < |xs| && xs[i].success && xs[i].review.id == x;
      if i > 0 {
        assert rs[i - 1] == xs[i];
      }
    }
    forall x | x in SuccessIds(rs)
      ensures x in SuccessIds(xs)
    {
      var i :| 0 <= i < |rs| && rs[i].success && rs[i].review.id == x;
      assert xs[i + 1] == rs[i];
    }
    if r.success {
      assert xs[0] == r;
    }
  }

  /** After a successful result, no later result carries the same id. */
  predicate SuccessIsFinal(rs: seq<ReplyResult>) {
    forall i, j :: 0 <= i < j < |rs| && rs[i].success ==> rs[j].review.id != rs[i].review.id
  }

  /** Prepending a result keeps `SuccessIsFinal` when the later ids avoid a set holding the new success. */
  lemma SuccessIsFinalCons(head: ReplyResult, rest: seq<ReplyResult>, ids: set<string>)
    requires SuccessIsFinal(rest) && FreshIds(rest, ids)
    requires head.success ==> head.review.id in ids
    ensures SuccessIsFinal([head] + rest)
  {
    var rs := [head] + rest;
    forall i, j | 0 <= i < j < |rs| && rs[i].success
      ensures rs[j].review.id != rs[i].review.id
    {
      assert rs[j] == rest[j - 1];
      if i > 0 {
        assert rs[i] == rest[i - 1];
      }
    }
  }

  /**
   * Once a review's id succeeds, no later result in the batch carries that id,
   * so an id gets at most one successful result.
   */
  lemma {:induction false} RunSuccessIsFinal(eligible: WBReview -> bool, answer: WBReview -> string, ids: set<string>, reviews: seq<WBReview>)
    ensures SuccessIsFinal(Run(eligible, answer, ids, reviews).results)
    decreases |reviews|
  {
    if |reviews| > 0 {
      var review := reviews[0];
      if !Accepts(eligible, ids, review) {
        RunSuccessIsFinal(eligible, answer, ids, reviews[1..]);
      } else {
        var ids' := if answer(review) != "" then ids + {review.id} else ids;
        var rest := Run(eligible, answer, ids', reviews[1..]).results;
        var rs := Run(eligible, answer, ids, reviews).results;
        assert rs == [rs[0]] + rest && rs[0].review == review && (rs[0].success <==> answer(review) != "");
        RunSuccessIsFinal(eligible, answer, ids', reviews[1..]);
        RunSkipsProcessed(eligible, answer, ids', reviews[1..]);
        SuccessIsFinalCons(rs[0], rest, ids');
      }
    }
  }

  /** Results come in input order: their reviews form a subsequence of the batch. */
  lemma {:induction false} RunKeepsOrder(eligible: WBReview -> bool, answer: WBReview -> string, ids: set<string>, reviews: seq<WBReview>)
    ensures IsSubsequence(ReviewsOf(Run(eligible, answer, ids, reviews).results), reviews)
    decreases |reviews|
  {
    var rs := Run(eligible, answer, ids, reviews).results;
    if |reviews| > 0 {
      var review := reviews[0];
      if !Accepts(eligible, ids, review) {
        RunKeepsOrder(eligible, answer, ids, reviews[1..]);
        SubsequenceSkip(ReviewsOf(rs), reviews);
      } else {
        var ids' := if answer(review) != "" then ids + {review.id} else ids;
        var rest := Run(eligible, answer, ids', reviews[1..]).results;
        RunKeepsOrder(eligible, answer, ids', reviews[1..]);
        assert rs[1..] == rest;
        assert ReviewsOf(rs)[1..] == ReviewsOf(rest);
      }
    }
  }

  /**
   * Two calls behave like one call on the concatenated batch, so the dedup
   * guarantees of one batch carry over to later calls.
   */
  lemma {:induction false} RunConcat(eligible: WBReview -> bool, answer: WBReview -> string, ids: set<string>, a: seq<WBReview>, b: seq<WBReview>)
    ensures var first := Run(eligible, answer, ids, a);
            var second := Run(eligible, answer, first.processed, b);
            Run(eligible, answer, ids, a + b) == Outcome(first.results + second.results, second.processed)
    decreases |a|
  {
    if |a| == 0 {
      assert a + b == b;
    } else {
      var review := a[0];
      assert (a + b)[0] == review && (a + b)[1..] == a[1..] + b;
      if !Accepts(eligible, ids, review) {
        assert Run(eligible, answer, ids, a + b) == Run(eligible, answer, ids, a[1..] + b);
        assert Run(eligible, answer, ids, a) == Run(eligible, answer, ids, a[1..]);
        RunConcat(eligible, answer, ids, a[1..], b);
      } else {
        var reply := answer(review);
        var ids' := if reply != "" then ids + {review.id} else ids;
        var head := ReplyResult(review, reply, reply != "");
        var whole := Run(eligible, answer, ids', a[1..] + b);
        var first := Run(eligible, answer, ids', a[1..]);
        assert Run(eligible, answer, ids, a + b) == Outcome([head] + whole.results, whole.processed);
        assert Run(eligible, answer, ids, a) == Outcome([head] + first.results, first.processed);
        RunConcat(eligible, answer, ids', a[1..], b);
        var second := Run(eligible, answer, first.processed, b);
        assert [head] + (first.results + second.results) == ([head] + first.results) + second.results;
      }
    }
  }

  /** A batch of fresh, admissible reviews with distinct ids is answered in full. */
  lemma {:induction false} RunAnswersEveryFreshReview(eligible: WBReview -> bool, answer: WBReview -> string, ids: set<string>, reviews: seq<WBReview>)
    requires forall i :: 0 <= i < |reviews| ==> reviews[i].id !in ids && eligible(reviews[i])
    requires forall i, j :: 0 <= i < j < |reviews| ==> reviews[i].id != reviews[j].id
    ensures |Run(eligible, answer, ids, reviews).results| == |reviews|
    decreases |reviews|
  {
    if |reviews| > 0 {
      var review := reviews[0];
      var ids' := if answer(review) != "" then ids + {review.id} else ids;
      forall i | 0 <= i < |reviews[1..]|
        ensures reviews[1..][i].id !in ids'
      {
        assert reviews[1..][i] == reviews[i + 1];
      }
      RunAnswersEveryFreshReview(eligible, answer, ids', reviews[1..]);
    }
  }

  /** The reviews that pass the per-review checks, in input order. */
  function Admissible(eligible: WBReview -> bool, reviews: seq<WBReview>): seq<WBReview>
    decreases |reviews|
  {
    if |reviews| == 0 then []
    else if eligible(reviews[0]) then [reviews[0]] + Admissible(eligible, reviews[1..])
    else Admissible(eligible, reviews[1..])
  }

  /**
   * In a batch of fresh reviews with distinct ids, whether admitted or
   * rejected, each admitted review gets exactly one result, in input order,
   * and the rejected ones get none.
   */
  lemma {:induction false} RunAnswersAdmissible(eligible: WBReview -> bool, answer: WBReview -> string, ids: set<string>, reviews: seq<WBReview>)
    requires forall i :: 0 <= i < |reviews| ==> reviews[i].id !in ids
    requires forall i, j :: 0 <= i < j < |reviews| ==> reviews[i].id != reviews[j].id
    ensures ReviewsOf(Run(eligible, answer, ids, reviews).results) == Admissible(eligible, reviews)
    decreases |reviews|
  {
    if |reviews| > 0 {
      var review := reviews[0];
      var ids' := if eligible(review) && answer(review) != "" then ids + {review.id} else ids;
      forall i | 0 <= i < |reviews[1..]|
        ensures reviews[1..][i].id !in ids'
      {
        assert reviews[1..][i] == reviews[i + 1];
      }
      RunAnswersAdmissible(eligible, answer, ids', reviews[1..]);
      var rs := Run(eligible, answer, ids, reviews).results;
      var rest := Run(eligible, answer, ids', reviews[1..]).results;
      if eligible(review) {
        assert rs == [rs[0]] + rest && rs[0].review == review;
        assert ReviewsOf(rs) == [review] + ReviewsOf(rest);
      }
    }
  }

  /** A review answered once yields nothing when submitted again, in the same batch or a later one. */
  lemma RunDuplicateAnsweredOnce(eligible: WBReview -> bool, answer: WBReview -> string, ids: set<string>, review: WBReview)
    requires Accepts(eligible, ids, review) && answer(review) != ""
    ensures Run(eligible, answer, ids, [review, review]).results == [ReplyResult(review, answer(review), true)]
  {
    assert [review, review][1..] == [review];
    var o := Run(eligible, answer, ids + {review.id}, [review]);
    assert o.results == [];
  }

  /** A long enough main text is never rejected by the digit rule. */
  lemma LongTextNotNoise(text: string)
    requires |Strip(text)| >= 5
    ensures !DigitNoise(text)
  {
  }

  /** The text "5 5 5" strips to five characters, so the digit rule lets it through. */
  lemma FiveFiveFiveNotNoise()
    ensures Strip("5 5 5") == "5 5 5"
    ensures !DigitNoise("5 5 5")
  {
    StripUnpadded("5 5 5");
  }

  /**
   * Loop invariant of `process_reviews`: the results so far, followed by
   * those of processing the rest from the current set, are the whole run's.
   */
  predicate Continues(whole: Outcome, done: seq<ReplyResult>, rest: Outcome) {
    done + rest.results == whole.results && rest.processed == whole.processed
  }

  /** One iteration of `process_reviews` keeps `Continues`: skip, record a success, or record a failure. */
  lemma ContinuesStep(whole: Outcome, done: seq<ReplyResult>, eligible: WBReview -> bool,
                      answer: WBReview -> string, ids: set<string>, reviews: seq<WBReview>)
    requires |reviews| > 0 && Continues(whole, done, Run(eligible, answer, ids, reviews))
    ensures var r := reviews[0];
      && (!Accepts(eligible, ids, r) ==>
            Continues(whole, done, Run(eligible, answer, ids, reviews[1..])))
      && (Accepts(eligible, ids, r) && answer(r) != "" ==>
            Continues(whole, done + [ReplyResult(r, answer(r), true)], Run(eligible, answer, ids + {r.id}, reviews[1..])))
      && (Accepts(eligible, ids, r) && answer(r) == "" ==>
            Continues(whole, done + [ReplyResult(r, "", false)], Run(eligible, answer, ids, reviews[1..])))
  {
    var r := reviews[0];
    if Accepts(eligible, ids, r) {
      var ids' := if answer(r) != "" then ids + {r.id} else ids;
      var head := ReplyResult(r, if answer(r) != "" then answer(r) else "", answer(r) != "");
      var tail := Run(eligible, answer, ids', reviews[1..]);
      assert done + ([head] + tail.results) == (done + [head]) + tail.results;
    }
  }

  class ReviewProcessor {
    /** The reply generator (`ai_generator.generate_reply`). */
    const generate: ReplyRequest -> string
    /** Ids answered so far in this run. */
    var processedIds: set<string>

    constructor(generate: ReplyRequest -> string)
      ensures this.generate == generate && processedIds == {}
    {
      this.generate := generate;
      processedIds := {};
    }

    /** `should_process` against the current `processed_ids`. */
    predicate ShouldProcess(review: WBReview)
      reads this
      ensures ShouldProcess(review) <==>
                review.id !in processedIds && review.HasText() && !(|Strip(review.text)| < 5 && HasDigit(review.text))
    {
      Admits(processedIds, review)
    }

    /** `process_reviews`. */
    method ProcessReviews(reviews: seq<WBReview>) returns (results: seq<ReplyResult>)
      modifies this
      ensures results == Run(Eligible, ReplyTo(generate), old(processedIds), reviews).results
      ensures processedIds == Run(Eligible, ReplyTo(generate), old(processedIds), reviews).processed
    {
      if |reviews| == 0 {
        return [];
      }
      ghost var answer := ReplyTo(generate);
      ghost var whole := Run(Eligible, answer, processedIds, reviews);
      results := [];
      var i := 0;
      while i < |reviews|
        invariant 0 <= i <= |reviews|
        invariant Continues(whole, results, Run(Eligible, answer, processedIds, reviews[i..]))
      {
        var review := reviews[i];
        assert reviews[i..][0] == review && reviews[i..][1..] == reviews[i + 1..];
        ContinuesStep(whole, results, Eligible, answer, processedIds, reviews[i..]);
        assert ShouldProcess(review) == Accepts(Eligible, processedIds, review);
        if !ShouldProcess(review) {
          i := i + 1;
          continue;
        }
        var reply := generate(RequestFor(review));
        assert reply == answer(review);
        if reply != "" {
          results := results + [ReplyResult(review, reply, true)];
          processedIds := processedIds + {review.id};
        } else {
          results := results + [ReplyResult(review, "", false)];
        }
        i := i + 1;
      }
      assert reviews[i..] == [];
    }
  }
}
