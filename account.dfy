/** The rider's account: wallet, fare, ratings and feedback entries. */
module Account {
  import opened Wrappers
  import opened Text

  /** The fixed fare of one ride (`FARE`). */
  const Fare: int := 20

  /** What the profile screen's top-up button adds to the wallet. */
  const TopUpAmount: int := 100

  /** The only payment method the wallet is charged for. */
  const Upi: string := "UPI"

  const LowWalletNotice: string := "Low wallet — simulating external UPI (mock)."

  /** A feedback entry. Its id (`Date.now()`) and date (`toLocaleString()`)
      come from the clock and are opaque here. */
  datatype Feedback = Feedback(id: int, text: string, date: string)

  /** The wallet after `doPayment`: charged the fare only when paying by UPI
      with at least the fare in the wallet, and then exactly the fare. */
  function WalletAfterPayment(wallet: int, payMethod: string): (r: int)
    ensures payMethod == Upi && wallet >= Fare ==> r == wallet - Fare && r >= 0
    ensures payMethod != Upi || wallet < Fare ==> r == wallet
  {
    if payMethod == Upi && wallet >= Fare then Max(0, wallet - Fare) else wallet
  }

  /** The notice `doPayment` raises: only on the low-wallet UPI branch. */
  function PaymentNotice(wallet: int, payMethod: string): (r: Option<string>)
    ensures r.Some? <==> payMethod == Upi && wallet < Fare
  {
    if payMethod == Upi && wallet >= Fare then None
    else if payMethod == Upi then Some(LowWalletNotice)
    else None
  }

  /** A payment never takes the wallet below zero, and never adds to it. */
  lemma PaymentKeepsWalletNonNegative(wallet: int, payMethod: string)
    requires wallet >= 0
    ensures 0 <= WalletAfterPayment(wallet, payMethod) <= wallet
  {
  }

  /** A rating the feedback form accepts: one to five stars. */
  predicate IsStarRating(v: int) {
    1 <= v <= 5
  }

  /** `ratings` after `submitFeedback`: the value appended when it is a star
      rating, otherwise unchanged. */
  function RatingsAfter(ratings: seq<int>, ratingValue: int): (r: seq<int>)
    ensures IsStarRating(ratingValue) ==> r == ratings + [ratingValue]
    ensures !IsStarRating(ratingValue) ==> r == ratings
  {
    if 1 <= ratingValue <= 5 then ratings + [ratingValue] else ratings
  }

  /** A stored feedback text: non-empty and already trimmed. */
  predicate Tidy(f: Feedback) {
    f.text != "" && Trimmed(f.text)
  }

  predicate AllTidy(feedbacks: seq<Feedback>) {
    forall i :: 0 <= i < |feedbacks| ==> Tidy(feedbacks[i])
  }

  lemma TidySingleton(f: Feedback)
    requires Tidy(f)
    ensures AllTidy([f])
  {
  }

  /** `feedbacks` after `submitFeedback`: a new entry with the trimmed text
      in front when that text is not empty, otherwise unchanged. */
  function FeedbacksAfter(feedbacks: seq<Feedback>, text: string, id: int, date: string): (r: seq<Feedback>)
    ensures !AllWhitespace(text) ==> r == [Feedback(id, Trim(text), date)] + feedbacks
    ensures AllWhitespace(text) ==> r == feedbacks
    ensures !AllWhitespace(text) ==> Tidy(r[0])
  {
    TrimEmptyIffBlank(text);
    if |Trim(text)| > 0 then [Feedback(id, Trim(text), date)] + feedbacks else feedbacks
  }

  /** Submitting feedback only ever stores tidy texts. */
  lemma FeedbacksStayTidy(feedbacks: seq<Feedback>, text: string, id: int, date: string)
    requires AllTidy(feedbacks)
    ensures AllTidy(FeedbacksAfter(feedbacks, text, id, date))
  {
    var r := FeedbacksAfter(feedbacks, text, id, date);
    if !AllWhitespace(text) {
      forall i | 1 <= i < |r| ensures Tidy(r[i]) {
        assert r[i] == feedbacks[i - 1];
      }
    }
  }

  /** The sum of the ratings (`reduce((s, v) => s + v, 0)`). */
  function Sum(rs: seq<int>): (total: int) {
    if rs == [] then 0 else rs[0] + Sum(rs[1..])
  }

  /** The mean rating shown on the profile (before `toFixed(1)` formats it),
      zero when there is none. */
  function AverageRating(ratings: seq<int>): (r: real)
    ensures ratings == [] ==> r == 0.0
  {
    if ratings == [] then 0.0 else Sum(ratings) as real / |ratings| as real
  }

  /** The sum of star ratings lies between one and five stars per rating. */
  lemma {:induction false} SumOfStars(rs: seq<int>)
    requires forall i :: 0 <= i < |rs| ==> IsStarRating(rs[i])
    ensures |rs| <= Sum(rs) <= 5 * |rs|
  {
    if rs != [] {
      SumOfStars(rs[1..]);
    }
  }

  /** The mean of star ratings is itself between one and five stars. */
  lemma AverageWithinStars(rs: seq<int>)
    requires rs != [] && forall i :: 0 <= i < |rs| ==> IsStarRating(rs[i])
    ensures 1.0 <= AverageRating(rs) <= 5.0
  {
    SumOfStars(rs);
    QuotientBounds(Sum(rs) as real, |rs| as real, 1.0, 5.0);
  }

  /** Dividing by a positive number keeps bounds that scale with it. */
  lemma QuotientBounds(s: real, n: real, lo: real, hi: real)
    requires n > 0.0 && lo * n <= s <= hi * n
    ensures lo <= s / n <= hi
  {
    var q := s / n;
    assert q * n == s;
    assert (q - lo) * n >= 0.0;
    assert (hi - q) * n >= 0.0;
  }

  /** The seed ratings [5, 4] average 4.5; a single 3 averages 3. */
  lemma SampleAverages()
    ensures AverageRating([5, 4]) == 4.5
    ensures AverageRating([3]) == 3.0
  {
    assert Sum([5, 4]) == 9 by { assert [5, 4][1..] == [4]; }
    assert Sum([3]) == 3;
  }
}
