/**
 * The rescheduling run of `_main`. Every AnkiConnect round trip is replaced
 * by the answer the server gives (`Responses`), and every request the run
 * sends is recorded, in order, in the trace it returns.
 */
module Rescheduler {
  import opened Wrappers
  import opened AnkiConnect
  import opened Batching
  import opened Query
  import opened Schedule

  const BatchSize := 50
  /** Bound of the probe loop. */
  const MaxProbes := 10
  /** Card `type` of a graduated card (review queue). */
  const ReviewType := 2

  /** What the server answers, in the order the run asks. */
  datatype Responses = Responses(
    foundCards: Option<seq<int>>,    // findCards result; None is JSON null
    graduatingInterval: int,         // getDeckConfig: new.ints[0]
    probeTypes: seq<int>,            // card type seen by the k-th probe cardsInfo
    sampleDue: int,                  // due of the sample card after the probe
    nowSeconds: int,                 // the clock, in whole seconds since the epoch
    batchInfos: seq<seq<CardInfo>>,  // cardsInfo records of the b-th batch
    delays: seq<seq<int>>)           // delay drawn for each record of the b-th batch

  /** `not card_ids`: the search found nothing (empty list or null). */
  predicate NoCards(found: Option<seq<int>>)
  {
    found.None? || found.value == []
  }

  /** One record of cardsInfo and one delay draw per card, for every batch. */
  predicate Aligned(batches: seq<seq<int>>, infos: seq<seq<CardInfo>>, delays: seq<seq<int>>)
  {
    && |infos| == |batches|
    && |delays| == |batches|
    && forall b :: 0 <= b < |batches| ==> |delays[b]| == |infos[b]|
  }

  /** The server has an answer for every request the run makes. */
  predicate Answered(r: Responses)
  {
    !NoCards(r.foundCards) ==>
      && |r.probeTypes| >= MaxProbes
      && Aligned(Chunks(r.foundCards.value, BatchSize), r.batchInfos, r.delays)
  }

  // ---------------------------------------------------------------------
  // Probe loop

  function ProbeFrom(types: seq<int>, k: nat): (c: nat)
    requires k <= MaxProbes <= |types|
    ensures k <= c <= MaxProbes
    ensures forall j :: k <= j < c ==> types[j] != ReviewType
    ensures c < MaxProbes ==> types[c] == ReviewType
    decreases MaxProbes - k
  {
    if k == MaxProbes || types[k] == ReviewType then k else ProbeFrom(types, k + 1)
  }

  /**
   * `review_count` after the probe loop: the index of the first probe that
   * sees a graduated card, or MaxProbes when none of the first MaxProbes does.
   */
  function ReviewCount(types: seq<int>): (c: nat)
    requires |types| >= MaxProbes
    ensures c <= MaxProbes
    ensures forall j :: 0 <= j < c ==> types[j] != ReviewType
    ensures c < MaxProbes ==> types[c] == ReviewType
  {
    ProbeFrom(types, 0)
  }

  /** `k` rounds of "look at the card, answer good". */
  function ProbeRounds(cardId: int, k: nat): seq<Request>
  {
    if k == 0 then []
    else ProbeRounds(cardId, k - 1) + [CardsInfo([cardId]), AnswerCards([Answer(cardId, Good)])]
  }

  /** The probe's requests: one round per answer, and the look that stops the loop early. */
  function ProbeRequests(cardId: int, reviewCount: nat): seq<Request>
  {
    ProbeRounds(cardId, reviewCount) + (if reviewCount < MaxProbes then [CardsInfo([cardId])] else [])
  }

  /**
   * The probe loop: before each answer it reads the sample card's type and
   * stops on a graduated card; it answers at most MaxProbes times.
   */
  method Probe(cardId: int, types: seq<int>) returns (reviewCount: nat, requests: seq<Request>)
    requires |types| >= MaxProbes
    ensures reviewCount == ReviewCount(types)
    ensures requests == ProbeRequests(cardId, reviewCount)
  {
    reviewCount := 0;
    requests := [];
    while reviewCount < MaxProbes
      invariant reviewCount <= MaxProbes
      invariant forall j :: 0 <= j < reviewCount ==> types[j] != ReviewType
      invariant requests == ProbeRounds(cardId, reviewCount)
    {
      requests := requests + [CardsInfo([cardId])];
      if types[reviewCount] == ReviewType {
        break;
      }
      requests := requests + [AnswerCards([Answer(cardId, Good)])];
      reviewCount := reviewCount + 1;
    }
  }

  // ---------------------------------------------------------------------
  // Batches

  /** The values every batch of one run shares. */
  datatype Context = Context(reviewCount: nat, today: int, nowSeconds: int, tag: string)

  /** One "good" answer per card of the batch, in batch order. */
  function GoodAnswers(cids: seq<int>): (answers: seq<Answer>)
    ensures |answers| == |cids|
    ensures forall i :: 0 <= i < |cids| ==> answers[i] == Answer(cids[i], Good)
  {
    if cids == [] then [] else [Answer(cids[0], Good)] + GoodAnswers(cids[1..])
  }

  /** The due update of one card, then the removal of the tag from its note. */
  function CardActions(ctx: Context, ci: CardInfo, delay: int): seq<Action>
  {
    [ SetSpecificValueOfCard(ci.cardId, ["due"], [CardDue(ctx.today, ctx.nowSeconds, ci.cardId, delay)]),
      RemoveTags([ci.note], ctx.tag) ]
  }

  /** The `multi` payload of a batch: the actions of each record, in record order. */
  function BatchActions(ctx: Context, cis: seq<CardInfo>, delays: seq<int>): seq<Action>
    requires |delays| == |cis|
  {
    if cis == [] then []
    else BatchActions(ctx, cis[..|cis| - 1], delays[..|delays| - 1]) + CardActions(ctx, cis[|cis| - 1], delays[|delays| - 1])
  }

  /**
   * Action 2i sets the due day of record i's card to its delay index;
   * action 2i+1 removes the tag from record i's note; nothing else is there.
   */
  lemma {:induction false} BatchActionsLayout(ctx: Context, cis: seq<CardInfo>, delays: seq<int>)
    requires |delays| == |cis|
    ensures |BatchActions(ctx, cis, delays)| == 2 * |cis|
    ensures forall i :: 0 <= i < |cis| ==>
      && BatchActions(ctx, cis, delays)[2 * i]
         == SetSpecificValueOfCard(cis[i].cardId, ["due"], [CardDue(ctx.today, ctx.nowSeconds, cis[i].cardId, delays[i])])
      && BatchActions(ctx, cis, delays)[2 * i + 1] == RemoveTags([cis[i].note], ctx.tag)
    decreases |cis|
  {
    if cis != [] {
      var n := |cis| - 1;
      var pre, dpre := cis[..n], delays[..n];
      BatchActionsLayout(ctx, pre, dpre);
      var a := BatchActions(ctx, cis, delays);
      assert a == BatchActions(ctx, pre, dpre) + CardActions(ctx, cis[n], delays[n]);
      forall i | 0 <= i < |cis|
        ensures a[2 * i] == SetSpecificValueOfCard(cis[i].cardId, ["due"], [CardDue(ctx.today, ctx.nowSeconds, cis[i].cardId, delays[i])])
        ensures a[2 * i + 1] == RemoveTags([cis[i].note], ctx.tag)
      {
        if i < n {
          assert pre[i] == cis[i] && dpre[i] == delays[i];
        }
      }
    }
  }

  /** The `for ci in cis` loop that appends two actions per record. */
  method BuildActions(ctx: Context, cis: seq<CardInfo>, delays: seq<int>) returns (actions: seq<Action>)
    requires |delays| == |cis|
    ensures actions == BatchActions(ctx, cis, delays)
  {
    actions := [];
    for i := 0 to |cis|
      invariant actions == BatchActions(ctx, cis[..i], delays[..i])
    {
      var ci := cis[i];
      var due := CardDue(ctx.today, ctx.nowSeconds, ci.cardId, delays[i]);
      actions := actions + [SetSpecificValueOfCard(ci.cardId, ["due"], [due])];
      actions := actions + [RemoveTags([ci.note], ctx.tag)];
      assert cis[..i + 1][..i] == cis[..i] && delays[..i + 1][..i] == delays[..i];
    }
    assert cis[..|cis|] == cis && delays[..|delays|] == delays;
  }

  /** `times` review iterations, each answering every card of the batch. */
  function ReviewRounds(cids: seq<int>, times: nat): seq<Request>
  {
    if times == 0 then [] else ReviewRounds(cids, times - 1) + [AnswerCards(GoodAnswers(cids))]
  }

  /** Forget the batch, review it `reviewCount` times, read it back, send the `multi`. */
  function BatchRequests(ctx: Context, cids: seq<int>, cis: seq<CardInfo>, delays: seq<int>): seq<Request>
    requires |delays| == |cis|
  {
    [ForgetCards(cids)] + ReviewRounds(cids, ctx.reviewCount) + [CardsInfo(cids), Multi(BatchActions(ctx, cis, delays))]
  }

  /** The requests of the first `k` batches. */
  function BatchesRequests(ctx: Context, batches: seq<seq<int>>, infos: seq<seq<CardInfo>>, delays: seq<seq<int>>, k: nat): seq<Request>
    requires Aligned(batches, infos, delays) && k <= |batches|
  {
    if k == 0 then []
    else BatchesRequests(ctx, batches, infos, delays, k - 1) + BatchRequests(ctx, batches[k - 1], infos[k - 1], delays[k - 1])
  }

  /**
   * The `for cids in batched(...)` loop: per batch, forget, the
   * `for i in range(review_count)` answers, cardsInfo, then the `multi`.
   */
  method RunBatches(ctx: Context, batches: seq<seq<int>>, infos: seq<seq<CardInfo>>, delays: seq<seq<int>>)
    returns (requests: seq<Request>)
    requires Aligned(batches, infos, delays)
    ensures requests == BatchesRequests(ctx, batches, infos, delays, |batches|)
  {
    requests := [];
    var b := 0;
    while b < |batches|
      invariant 0 <= b <= |batches|
      invariant requests == BatchesRequests(ctx, batches, infos, delays, b)
    {
      var cids := batches[b];
      ghost var before := requests;
      requests := requests + [ForgetCards(cids)];
      for i := 0 to ctx.reviewCount
        invariant requests == before + [ForgetCards(cids)] + ReviewRounds(cids, i)
      {
        requests := requests + [AnswerCards(GoodAnswers(cids))];
      }
      requests := requests + [CardsInfo(cids)];
      var actions := BuildActions(ctx, infos[b], delays[b]);
      requests := requests + [Multi(actions)];
      assert requests == before + BatchRequests(ctx, cids, infos[b], delays[b]);
      b := b + 1;
    }
  }

  // ---------------------------------------------------------------------
  // The whole run

  function SearchRequests(tag: string, edited: Option<int>): seq<Request>
  {
    [Sync, FindCards(FindCardsQuery(tag, edited))]
  }

  function RunContext(tag: string, r: Responses): Context
    requires |r.probeTypes| >= MaxProbes
  {
    Context(ReviewCount(r.probeTypes), TodayDayIndex(r.sampleDue, r.graduatingInterval), r.nowSeconds, tag)
  }

  /**
   * The requests before the first batch: the search, the sample card's
   * info, the deck configuration, forgetting the sample, the probe loop and
   * the look at the graduated sample.
   */
  function SetupRequests(tag: string, edited: Option<int>, first: int, reviewCount: nat): seq<Request>
  {
    SearchRequests(tag, edited)
    + [CardsInfo([first]), GetDeckConfig(DeckName), ForgetCards([first])]
    + ProbeRequests(first, reviewCount)
    + [CardsInfo([first])]
  }

  /** Every request of a run, in order. */
  function RunRequests(tag: string, edited: Option<int>, r: Responses): seq<Request>
    requires Answered(r)
  {
    if NoCards(r.foundCards) then SearchRequests(tag, edited)
    else
      var ids := r.foundCards.value;
      var batches := Chunks(ids, BatchSize);
      var ctx := RunContext(tag, r);
      SetupRequests(tag, edited, ids[0], ctx.reviewCount)
      + BatchesRequests(ctx, batches, r.batchInfos, r.delays, |batches|)
      + [Sync]
  }

  /** A run that finds cards is its setup, then its batches, then the final sync. */
  lemma RunRequestsSplit(tag: string, edited: Option<int>, r: Responses)
    requires Answered(r) && !NoCards(r.foundCards)
    ensures var ctx, batches := RunContext(tag, r), Chunks(r.foundCards.value, BatchSize);
      RunRequests(tag, edited, r)
      == SetupRequests(tag, edited, r.foundCards.value[0], ctx.reviewCount)
         + BatchesRequests(ctx, batches, r.batchInfos, r.delays, |batches|)
         + [Sync]
  {
  }

  /**
   * From the sample card's info to the look at the graduated sample:
   * cardsInfo, getDeckConfig, forgetCards, then the probe loop.
   */
  method Setup(search: seq<Request>, first: int, r: Responses) returns (reviewCount: nat, requests: seq<Request>)
    requires |r.probeTypes| >= MaxProbes
    ensures reviewCount == ReviewCount(r.probeTypes)
    ensures requests == search + [CardsInfo([first]), GetDeckConfig(DeckName), ForgetCards([first])]
                        + ProbeRequests(first, reviewCount) + [CardsInfo([first])]
  {
    requests := search + [CardsInfo([first]), GetDeckConfig(DeckName), ForgetCards([first])];
    var probeRequests;
    reviewCount, probeRequests := Probe(first, r.probeTypes);
    requests := requests + probeRequests + [CardsInfo([first])];
  }

  /** Splits the found cards with `batched` and runs the batch loop over them. */
  method RescheduleCards(ctx: Context, cardIds: seq<int>, infos: seq<seq<CardInfo>>, delays: seq<seq<int>>)
    returns (requests: seq<Request>)
    requires Aligned(Chunks(cardIds, BatchSize), infos, delays)
    ensures var batches := Chunks(cardIds, BatchSize);
      requests == BatchesRequests(ctx, batches, infos, delays, |batches|)
  {
    var batched := BatchedLoop(cardIds, BatchSize);
    var batches := batched.value;
    assert batches == Chunks(cardIds, BatchSize);
    requests := RunBatches(ctx, batches, infos, delays);
  }

  /** The run past the search, once it has found cards: setup, batches, the final sync. */
  method RunFound(tag: string, edited: Option<int>, r: Responses, search: seq<Request>) returns (requests: seq<Request>)
    requires Answered(r) && !NoCards(r.foundCards)
    requires search == SearchRequests(tag, edited)
    ensures requests == RunRequests(tag, edited, r)
  {
    var cardIds := r.foundCards.value;
    var reviewCount, setup := Setup(search, cardIds[0], r);
    assert setup == SetupRequests(tag, edited, cardIds[0], reviewCount);
    var today := TodayDayIndex(r.sampleDue, r.graduatingInterval);
    var ctx := Context(reviewCount, today, r.nowSeconds, tag);
    assert ctx == RunContext(tag, r);
    var batchRequests := RescheduleCards(ctx, cardIds, r.batchInfos, r.delays);
    requests := setup + batchRequests + [Sync];
    RunRequestsSplit(tag, edited, r);
  }

  /**
   * `_main` after argument parsing. `rc` is what it returns: 0 when the
   * search finds nothing, None (no explicit code) after a full run.
   */
  method Run(tag: string, edited: Option<int>, r: Responses) returns (rc: Option<int>, requests: seq<Request>)
    requires Answered(r)
    ensures requests == RunRequests(tag, edited, r)
    ensures NoCards(r.foundCards) ==> rc == Some(0) && requests == [Sync, FindCards(FindCardsQuery(tag, edited))]
    ensures !NoCards(r.foundCards) ==> rc == None && requests[|requests| - 1] == Sync
  {
    requests := [Sync];
    var query := FindCardsQuery(tag, edited);
    requests := requests + [FindCards(query)];
    if NoCards(r.foundCards) {
      return Some(0), requests;
    }
    requests := RunFound(tag, edited, r, requests);
    RunRequestsSplit(tag, edited, r);
    rc := None;
  }
}
