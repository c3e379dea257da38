/** The sentiment analyzer: insider trades and news articles each become
    votes, and the votes are weighed 0.3 (insider) against 0.7 (news). Both
    versions of the analyzer compute exactly this. */
module Sentiment {
  import opened JsNumber
  import opened Signals
  import opened FinancialData

  // ---------------------------------------------------------------------
  // Votes

  /** The vote of one trade's `transaction_shares`, if it is a number: a sale
      (negative shares) is bearish, anything else bullish. */
  function TradeVote(shares: Field): seq<Signal> {
    match shares
    case Number(x) => if x < 0.0 then [Bearish] else [Bullish]
    case _ => []
  }

  /** analyzeInsiderSignals: keep the trades whose share count is a number,
      then vote on each. */
  function InsiderSignalsOf(trades: seq<Field>): (r: seq<Signal>)
    ensures |r| <= |trades|
    ensures Neutral !in r
  {
    if trades == [] then [] else TradeVote(trades[0]) + InsiderSignalsOf(trades[1..])
  }

  /** Reading the trades one more at a time: a trade adds a vote exactly when
      its share count is a number, and that vote is bearish exactly when the
      count is negative. */
  lemma {:induction false} InsiderSignalsAppend(trades: seq<Field>, trade: Field)
    ensures InsiderSignalsOf(trades + [trade]) == InsiderSignalsOf(trades) + TradeVote(trade)
  {
    if trades == [] {
      assert [trade][1..] == [];
    } else {
      assert (trades + [trade])[1..] == trades[1..] + [trade];
      InsiderSignalsAppend(trades[1..], trade);
    }
  }

  /** analyzeNewsSignals: one vote per article. */
  function NewsSignalsOf(news: seq<string>): (r: seq<Signal>)
    ensures |r| == |news|
    ensures forall i :: 0 <= i < |news| ==>
              (r[i] == Bearish <==> news[i] == "negative") && (r[i] == Bullish <==> news[i] == "positive")
  {
    seq(|news|, i requires 0 <= i < |news| =>
      if news[i] == "negative" then Bearish else if news[i] == "positive" then Bullish else Neutral)
  }

  // ---------------------------------------------------------------------
  // The weighted tally

  const InsiderWeight: real := 0.3
  const NewsWeight: real := 0.7

  /** The weighted number of votes for one signal. */
  function WeightedVotes(insider: seq<Signal>, news: seq<Signal>, s: Signal): real {
    multiset(insider)[s] as real * InsiderWeight + multiset(news)[s] as real * NewsWeight
  }

  /** The weighted number of all votes. */
  function TotalWeight(insider: seq<Signal>, news: seq<Signal>): real {
    |insider| as real * InsiderWeight + |news| as real * NewsWeight
  }

  /** The report: the signal, the confidence percentage and the two weighted
      sums the reasoning text shows. */
  datatype SentimentReport = SentimentReport(signal: Signal, confidence: int, bullishSignals: real, bearishSignals: real)

  /** analyzeSentiment after the fetches. */
  function AnalyzeSentimentOf(trades: seq<Field>, news: seq<string>): SentimentReport {
    var insider := InsiderSignalsOf(trades);
    var newsSignals := NewsSignalsOf(news);
    var bullish := WeightedVotes(insider, newsSignals, Bullish);
    var bearish := WeightedVotes(insider, newsSignals, Bearish);
    var signal := if bullish > bearish then Bullish else if bearish > bullish then Bearish else Neutral;
    var total := TotalWeight(insider, newsSignals);
    SentimentReport(signal, ConfidenceOf(bullish, bearish, total), bullish, bearish)
  }

  /** The larger weighted sum as a percentage of the total weight, 0 when
      there is no weight at all. */
  function ConfidenceOf(bullish: real, bearish: real, total: real): int {
    if total > 0.0 then Percent((if bullish > bearish then bullish else bearish) / total) else 0
  }

  /** Neither weighted sum exceeds the total weight. */
  lemma WeightedVotesBounded(insider: seq<Signal>, news: seq<Signal>, s: Signal)
    ensures 0.0 <= WeightedVotes(insider, news, s) <= TotalWeight(insider, news)
  {
    OccurrencesBounded(insider, s);
    OccurrencesBounded(news, s);
  }

  /** A ratio of a part to a positive whole lies in [0, 1]. */
  lemma PartOfWhole(part: real, whole: real)
    requires 0.0 <= part <= whole && whole > 0.0
    ensures 0.0 <= part / whole <= 1.0
  {
    RatioWithin(part, whole);
  }

  /** The overall signal compares the weighted sums strictly, a tie being
      neutral; the confidence is a percentage, 0 when there are no votes. */
  lemma AnalyzeSentimentMeaning(trades: seq<Field>, news: seq<string>)
    ensures var r := AnalyzeSentimentOf(trades, news);
            (r.signal == Bullish <==> r.bullishSignals > r.bearishSignals) &&
            (r.signal == Bearish <==> r.bearishSignals > r.bullishSignals) &&
            (r.signal == Neutral <==> r.bullishSignals == r.bearishSignals) &&
            0 <= r.confidence <= 100 &&
            (InsiderSignalsOf(trades) == [] && news == [] ==> r.confidence == 0)
  {
    var insider := InsiderSignalsOf(trades);
    var newsSignals := NewsSignalsOf(news);
    var bullish := WeightedVotes(insider, newsSignals, Bullish);
    var bearish := WeightedVotes(insider, newsSignals, Bearish);
    var total := TotalWeight(insider, newsSignals);
    WeightedVotesBounded(insider, newsSignals, Bullish);
    WeightedVotesBounded(insider, newsSignals, Bearish);
    if total > 0.0 {
      var most := if bullish > bearish then bullish else bearish;
      PartOfWhole(most, total);
      PercentRange(most / total);
    }
  }

  /** A vote list made of one signal only counts that signal once per vote. */
  lemma {:induction false} Unanimous(signals: seq<Signal>, s: Signal)
    requires forall i :: 0 <= i < |signals| ==> signals[i] == s
    ensures multiset(signals)[s] == |signals|
  {
    if signals != [] {
      Unanimous(signals[1..], s);
      assert signals == [signals[0]] + signals[1..];
      assert multiset(signals) == multiset{signals[0]} + multiset(signals[1..]);
    }
  }

  /** Only positive articles and no trades: bullish with confidence 100. */
  lemma AllPositiveNews(n: nat)
    requires n > 0
    ensures AnalyzeSentimentOf([], seq(n, _ => "positive")) == SentimentReport(Bullish, 100, n as real * NewsWeight, 0.0)
  {
    var newsSignals := NewsSignalsOf(seq(n, _ => "positive"));
    Unanimous(newsSignals, Bullish);
    assert multiset(newsSignals)[Bearish] == 0;
    assert (n as real * NewsWeight) / (n as real * NewsWeight) == 1.0;
  }

  /** An article that is neither positive nor negative is a neutral vote:
      the sums stay, the total weight grows by the news weight. */
  lemma NeutralArticle(trades: seq<Field>, news: seq<string>, article: string)
    requires article != "negative" && article != "positive"
    ensures var insider := InsiderSignalsOf(trades);
            var before := NewsSignalsOf(news);
            var after := NewsSignalsOf(news + [article]);
            WeightedVotes(insider, after, Bullish) == WeightedVotes(insider, before, Bullish) &&
            WeightedVotes(insider, after, Bearish) == WeightedVotes(insider, before, Bearish) &&
            TotalWeight(insider, after) == TotalWeight(insider, before) + NewsWeight
  {
    var before := NewsSignalsOf(news);
    var after := NewsSignalsOf(news + [article]);
    assert after == before + [Neutral];
    assert multiset(after) == multiset(before) + multiset{Neutral};
  }

  /** With the sums fixed, a larger total weight gives no larger confidence. */
  lemma ConfidenceDilutes(bullish: real, bearish: real, total: real, larger: real)
    requires 0.0 <= bullish <= total && 0.0 <= bearish <= total && total <= larger
    ensures ConfidenceOf(bullish, bearish, larger) <= ConfidenceOf(bullish, bearish, total)
  {
    var most := if bullish > bearish then bullish else bearish;
    if total > 0.0 {
      LargerWholeSmallerRatio(most, total, larger);
      PercentMonotone(most / larger, most / total);
    } else if larger > 0.0 {
      assert most == 0.0;
      PercentRange(0.0);
    }
  }

  /** An article that is neither positive nor negative adds to neither sum
      but to the total weight, so it can only lower the confidence. */
  lemma NeutralNewsDilutes(trades: seq<Field>, news: seq<string>, article: string)
    requires article != "negative" && article != "positive"
    ensures var before := AnalyzeSentimentOf(trades, news);
            var after := AnalyzeSentimentOf(trades, news + [article]);
            after.signal == before.signal &&
            after.bullishSignals == before.bullishSignals && after.bearishSignals == before.bearishSignals &&
            after.confidence <= before.confidence
  {
    var insider := InsiderSignalsOf(trades);
    var news0 := NewsSignalsOf(news);
    NeutralArticle(trades, news, article);
    WeightedVotesBounded(insider, news0, Bullish);
    WeightedVotesBounded(insider, news0, Bearish);
    ConfidenceDilutes(WeightedVotes(insider, news0, Bullish), WeightedVotes(insider, news0, Bearish),
                      TotalWeight(insider, news0), TotalWeight(insider, news0) + NewsWeight);
  }

  /** Dividing a non-negative part by a larger whole gives a smaller ratio. */
  lemma LargerWholeSmallerRatio(part: real, whole: real, larger: real)
    requires 0.0 <= part && 0.0 < whole <= larger
    ensures part / larger <= part / whole
  {
    assert part / larger * larger == part;
    assert part / whole * whole == part;
    ProductNonNegative(part / whole, larger - whole);
  }
}
