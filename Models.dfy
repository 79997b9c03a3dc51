/**
 * The review entity (src/api/models.py). A `WBReview` is built once from the
 * marketplace's raw feedback record, taking a default for every missing key,
 * and is never changed afterwards.
 */
module Models {
  import opened Wrappers
  import opened Text

  /** The `productDetails` sub-record; only its product name is read. */
  datatype ProductDetails = ProductDetails(productName: Option<string>)

  /** A raw feedback record as the API returns it: `None` is a missing key. */
  datatype RawFeedback = RawFeedback(
    id: Option<string>,
    text: Option<string>,
    productDetails: Option<ProductDetails>,
    createdDate: Option<string>,
    answered: Option<bool>,
    productValuation: Option<int>,
    wasViewed: Option<bool>,
    pros: Option<string>,
    cons: Option<string>,
    userName: Option<string>)

  const ReviewLabel: string := "Отзыв: "
  const ProsLabel: string := "Преимущества: "
  const ConsLabel: string := "Недостатки: "
  /** `review_text` when no text field carries anything. */
  const NoTextSentinel: string := "Текст отзыва отсутствует"

  /** A free-text field with more than three characters after stripping. */
  predicate Substantive(s: string) {
    s != "" && |Strip(s)| > 3
  }

  /** A free-text field that is not blank. */
  predicate Present(s: string) {
    s != "" && !Blank(s)
  }

  datatype WBReview = WBReview(
    id: string,
    text: string,
    productDetails: ProductDetails,
    createdDate: string,
    answered: bool,
    rating: int,
    wasViewed: bool,
    pros: string,
    cons: string,
    userName: string)
  {
    /** `product_name`: `productDetails.productName`, or "" when absent. */
    function ProductName(): (n: string)
      ensures productDetails.productName.None? ==> n == ""
      ensures productDetails.productName.Some? ==> n == productDetails.productName.value
    {
      productDetails.productName.GetOr("")
    }

    /** `has_text`: text, pros or cons has more than three characters after stripping. */
    predicate HasText() {
      Substantive(text) || Substantive(pros) || Substantive(cons)
    }

    /** The labelled sections of `review_text`, in the order text, pros, cons. */
    function Sections(): seq<string> {
      (if Present(text) then [ReviewLabel + text] else [])
      + (if Present(pros) then [ProsLabel + pros] else [])
      + (if Present(cons) then [ConsLabel + cons] else [])
    }

    /** `review_text`: the sections joined by newlines, or the sentinel. */
    function ReviewText(): string {
      var parts := Sections();
      if |parts| > 0 then Join(parts, "\n") else NoTextSentinel
    }
  }

  /** `WBReview.__init__`: every missing key takes its default. */
  function FromRaw(data: RawFeedback): (r: WBReview)
    ensures data.id.None? ==> r.id == ""
    ensures data.text.None? ==> r.text == ""
    ensures data.pros.None? ==> r.pros == ""
    ensures data.cons.None? ==> r.cons == ""
    ensures data.userName.None? ==> r.userName == ""
    ensures data.createdDate.None? ==> r.createdDate == ""
    ensures data.productValuation.None? ==> r.rating == 5
    ensures data.answered.None? ==> !r.answered
    ensures data.wasViewed.None? ==> !r.wasViewed
    ensures data.productDetails.None? ==> r.ProductName() == ""
    ensures data.id.Some? ==> r.id == data.id.value
    ensures data.text.Some? ==> r.text == data.text.value
    ensures data.pros.Some? ==> r.pros == data.pros.value
    ensures data.cons.Some? ==> r.cons == data.cons.value
    ensures data.userName.Some? ==> r.userName == data.userName.value
    ensures data.productValuation.Some? ==> r.rating == data.productValuation.value
    ensures data.productDetails.Some? ==> r.productDetails == data.productDetails.value
    ensures data.createdDate.Some? ==> r.createdDate == data.createdDate.value
    ensures data.answered.Some? ==> r.answered == data.answered.value
    ensures data.wasViewed.Some? ==> r.wasViewed == data.wasViewed.value
  {
    WBReview(
      data.id.GetOr(""),
      data.text.GetOr(""),
      data.productDetails.GetOr(ProductDetails(None)),
      data.createdDate.GetOr(""),
      data.answered.GetOr(false),
      data.productValuation.GetOr(5),
      data.wasViewed.GetOr(false),
      data.pros.GetOr(""),
      data.cons.GetOr(""),
      data.userName.GetOr(""))
  }

  /** `has_text` holds iff some field has stripped length above three. */
  lemma HasTextIffLongField(r: WBReview)
    ensures r.HasText() <==> (|Strip(r.text)| > 3 || |Strip(r.pros)| > 3 || |Strip(r.cons)| > 3)
  {
    assert Strip("") == "";
  }

  /** A review whose three text fields are empty has no text. */
  lemma EmptyFieldsHaveNoText(r: WBReview)
    requires r.text == "" && r.pros == "" && r.cons == ""
    ensures !r.HasText()
  {
  }

  /** One section per non-blank field. */
  lemma SectionsCount(r: WBReview)
    ensures |r.Sections()| == (if Present(r.text) then 1 else 0)
                              + (if Present(r.pros) then 1 else 0)
                              + (if Present(r.cons) then 1 else 0)
  {
  }

  /** `s` opens with one of the three section labels. */
  predicate Labelled(s: string) {
    ReviewLabel <= s || ProsLabel <= s || ConsLabel <= s
  }

  /**
   * Every section opens with its label, followed by a field that is present;
   * none of the labels starts like the sentinel.
   */
  lemma SectionsLabelled(r: WBReview)
    ensures forall k :: 0 <= k < |r.Sections()| ==> Labelled(r.Sections()[k])
    ensures forall k :: 0 <= k < |r.Sections()| ==>
              r.Sections()[k] in {ReviewLabel + r.text, ProsLabel + r.pros, ConsLabel + r.cons}
    ensures |r.Sections()| > 0 ==> |r.Sections()[0]| > 0 && r.Sections()[0][0] != NoTextSentinel[0]
  {
    var parts := r.Sections();
    forall k | 0 <= k < |parts|
      ensures Labelled(parts[k])
    {
      var s := parts[k];
      assert s == ReviewLabel + r.text || s == ProsLabel + r.pros || s == ConsLabel + r.cons;
      assert (ReviewLabel + r.text)[..|ReviewLabel|] == ReviewLabel;
      assert (ProsLabel + r.pros)[..|ProsLabel|] == ProsLabel;
      assert (ConsLabel + r.cons)[..|ConsLabel|] == ConsLabel;
    }
  }

  /** `review_text` is never empty, and is the sentinel exactly when all three fields are blank. */
  lemma ReviewTextSentinelIff(r: WBReview)
    ensures |r.ReviewText()| > 0
    ensures r.ReviewText() == NoTextSentinel <==> (!Present(r.text) && !Present(r.pros) && !Present(r.cons))
  {
    var parts := r.Sections();
    if |parts| > 0 {
      SectionsLabelled(r);
      JoinStartsWithFirst(parts, "\n");
      var j := Join(parts, "\n");
      assert j[0] == parts[0][0];
    }
  }

  /** A review that has text never shows the sentinel. */
  lemma HasTextNotSentinel(r: WBReview)
    requires r.HasText()
    ensures r.ReviewText() != NoTextSentinel
  {
    ReviewTextSentinelIff(r);
  }

  /** With a non-blank main text, `review_text` opens with that text, labelled. */
  lemma ReviewTextOpensWithText(r: WBReview)
    requires Present(r.text)
    ensures |ReviewLabel + r.text| <= |r.ReviewText()|
    ensures r.ReviewText()[..|ReviewLabel + r.text|] == ReviewLabel + r.text
  {
    JoinStartsWithFirst(r.Sections(), "\n");
  }

  /** All three fields present: the three labelled sections, newline-separated, in order. */
  lemma ReviewTextAllFields(r: WBReview)
    requires Present(r.text) && Present(r.pros) && Present(r.cons)
    ensures r.ReviewText() == ReviewLabel + r.text + "\n" + ProsLabel + r.pros + "\n" + ConsLabel + r.cons
  {
    SectionsAllPresent(r);
    JoinThree(ReviewLabel + r.text, ProsLabel + r.pros, ConsLabel + r.cons, "\n");
  }

  lemma SectionsAllPresent(r: WBReview)
    requires Present(r.text) && Present(r.pros) && Present(r.cons)
    ensures r.Sections() == [ReviewLabel + r.text, ProsLabel + r.pros, ConsLabel + r.cons]
  {
  }
}
