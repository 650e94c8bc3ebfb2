/**
 * What the run promises about counts and order: how many answers it sends,
 * one `multi` per batch, and every tag removal right after its card's due
 * update.
 */
module RunProperties {
  import opened Wrappers
  import opened AnkiConnect
  import opened Batching
  import opened Schedule
  import opened Query
  import opened Rescheduler

  /** Number of `answerCards` requests in a trace. */
  function AnswerRequestCount(reqs: seq<Request>): nat
  {
    if reqs == [] then 0
    else AnswerRequestCount(reqs[..|reqs| - 1]) + (if reqs[|reqs| - 1].AnswerCards? then 1 else 0)
  }

  /** The payloads of the `multi` requests of a trace, in order. */
  function MultiPayloads(reqs: seq<Request>): seq<seq<Action>>
  {
    if reqs == [] then []
    else MultiPayloads(reqs[..|reqs| - 1]) + (if reqs[|reqs| - 1].Multi? then [reqs[|reqs| - 1].actions] else [])
  }

  lemma {:induction false} CountsAppend(a: seq<Request>, b: seq<Request>)
    ensures AnswerRequestCount(a + b) == AnswerRequestCount(a) + AnswerRequestCount(b)
    ensures MultiPayloads(a + b) == MultiPayloads(a) + MultiPayloads(b)
    decreases |b|
  {
    if b == [] {
      assert a + b == a;
    } else {
      var n := |b| - 1;
      assert (a + b)[..|a + b| - 1] == a + b[..n];
      assert (a + b)[|a + b| - 1] == b[n];
      CountsAppend(a, b[..n]);
    }
  }

  /** Each review iteration answers every card of the batch once, "good", in batch order. */
  lemma {:induction false} ReviewRoundsShape(cids: seq<int>, times: nat)
    ensures |ReviewRounds(cids, times)| == times
    ensures forall j :: 0 <= j < times ==> ReviewRounds(cids, times)[j] == AnswerCards(GoodAnswers(cids))
    ensures AnswerRequestCount(ReviewRounds(cids, times)) == times
    ensures MultiPayloads(ReviewRounds(cids, times)) == []
  {
    if times > 0 {
      ReviewRoundsShape(cids, times - 1);
      var rr := ReviewRounds(cids, times);
      assert rr[..|rr| - 1] == ReviewRounds(cids, times - 1);
    }
  }

  /** The probe sends one answer per increment of `review_count`, and no `multi`. */
  lemma {:induction false} ProbeCounts(cardId: int, reviewCount: nat)
    ensures AnswerRequestCount(ProbeRequests(cardId, reviewCount)) == reviewCount
    ensures MultiPayloads(ProbeRequests(cardId, reviewCount)) == []
  {
    ProbeRoundsCounts(cardId, reviewCount);
    var tail: seq<Request> := if reviewCount < MaxProbes then [CardsInfo([cardId])] else [];
    CountsAppend(ProbeRounds(cardId, reviewCount), tail);
    if tail != [] {
      assert tail[..0] == [];
    }
  }

  lemma {:induction false} ProbeRoundsCounts(cardId: int, k: nat)
    ensures AnswerRequestCount(ProbeRounds(cardId, k)) == k
    ensures MultiPayloads(ProbeRounds(cardId, k)) == []
  {
    if k > 0 {
      ProbeRoundsCounts(cardId, k - 1);
      var look: seq<Request> := [CardsInfo([cardId])];
      var answer: seq<Request> := [AnswerCards([Answer(cardId, Good)])];
      assert look + answer == [CardsInfo([cardId]), AnswerCards([Answer(cardId, Good)])];
      CountsSingle(look[0]);
      CountsSingle(answer[0]);
      CountsAppend(look, answer);
      CountsAppend(ProbeRounds(cardId, k - 1), look + answer);
    }
  }

  lemma CountsSingle(q: Request)
    ensures AnswerRequestCount([q]) == (if q.AnswerCards? then 1 else 0)
    ensures MultiPayloads([q]) == (if q.Multi? then [q.actions] else [])
  {
    assert [q][..0] == [];
  }

  /** A batch sends `reviewCount` answer requests and exactly one `multi`, carrying its actions. */
  lemma BatchCounts(ctx: Context, cids: seq<int>, cis: seq<CardInfo>, delays: seq<int>)
    requires |delays| == |cis|
    ensures AnswerRequestCount(BatchRequests(ctx, cids, cis, delays)) == ctx.reviewCount
    ensures MultiPayloads(BatchRequests(ctx, cids, cis, delays)) == [BatchActions(ctx, cis, delays)]
  {
    var forget: seq<Request> := [ForgetCards(cids)];
    var rounds := ReviewRounds(cids, ctx.reviewCount);
    var last: seq<Request> := [CardsInfo(cids), Multi(BatchActions(ctx, cis, delays))];
    ReviewRoundsShape(cids, ctx.reviewCount);
    CountsAppend(forget, rounds);
    CountsAppend(forget + rounds, last);
    assert forget[..0] == [];
    assert last[..1][..0] == [] && last[..1] == [CardsInfo(cids)];
  }

  /** The first `k` batches send `k * reviewCount` answer requests and one `multi` each, in batch order. */
  lemma {:induction false} BatchesCounts(ctx: Context, batches: seq<seq<int>>, infos: seq<seq<CardInfo>>, delays: seq<seq<int>>, k: nat)
    requires Aligned(batches, infos, delays) && k <= |batches|
    ensures AnswerRequestCount(BatchesRequests(ctx, batches, infos, delays, k)) == k * ctx.reviewCount
    ensures |MultiPayloads(BatchesRequests(ctx, batches, infos, delays, k))| == k
    ensures forall b :: 0 <= b < k ==>
      MultiPayloads(BatchesRequests(ctx, batches, infos, delays, k))[b] == BatchActions(ctx, infos[b], delays[b])
  {
    if k > 0 {
      BatchesCounts(ctx, batches, infos, delays, k - 1);
      var pre := BatchesRequests(ctx, batches, infos, delays, k - 1);
      var one := BatchRequests(ctx, batches[k - 1], infos[k - 1], delays[k - 1]);
      CountsAppend(pre, one);
      BatchCounts(ctx, batches[k - 1], infos[k - 1], delays[k - 1]);
      MulPred(ctx.reviewCount, k);
    }
  }

  /** Before the first batch, the run sends exactly the probe's answers and no `multi`. */
  lemma SetupCounts(tag: string, edited: Option<int>, first: int, reviewCount: nat)
    ensures AnswerRequestCount(SetupRequests(tag, edited, first, reviewCount)) == reviewCount
    ensures MultiPayloads(SetupRequests(tag, edited, first, reviewCount)) == []
  {
    var front := SearchRequests(tag, edited) + [CardsInfo([first]), GetDeckConfig(DeckName), ForgetCards([first])];
    var probe := ProbeRequests(first, reviewCount);
    var look: seq<Request> := [CardsInfo([first])];
    assert SetupRequests(tag, edited, first, reviewCount) == front + probe + look;
    FrontHasNoAnswers(front);
    CountsSingle(look[0]);
    ProbeCounts(first, reviewCount);
    CountsAppend(front, probe);
    CountsAppend(front + probe, look);
  }

  /** The answer requests of a run are the probe's plus the batches'; its `multi` payloads are the batches'. */
  lemma RunCounts(tag: string, edited: Option<int>, r: Responses)
    requires Answered(r) && !NoCards(r.foundCards)
    ensures var ctx, batches := RunContext(tag, r), Chunks(r.foundCards.value, BatchSize);
      var body := BatchesRequests(ctx, batches, r.batchInfos, r.delays, |batches|);
      && AnswerRequestCount(RunRequests(tag, edited, r)) == ctx.reviewCount + AnswerRequestCount(body)
      && MultiPayloads(RunRequests(tag, edited, r)) == MultiPayloads(body)
  {
    var ids := r.foundCards.value;
    var ctx, batches := RunContext(tag, r), Chunks(ids, BatchSize);
    var setup := SetupRequests(tag, edited, ids[0], ctx.reviewCount);
    var body := BatchesRequests(ctx, batches, r.batchInfos, r.delays, |batches|);
    RunRequestsSplit(tag, edited, r);
    SetupCounts(tag, edited, ids[0], ctx.reviewCount);
    CountsAroundBody(setup, body);
  }

  /** A setup and a final sync around a body add the setup's answers and no `multi`. */
  lemma CountsAroundBody(setup: seq<Request>, body: seq<Request>)
    requires MultiPayloads(setup) == []
    ensures AnswerRequestCount(setup + body + [Sync]) == AnswerRequestCount(setup) + AnswerRequestCount(body)
    ensures MultiPayloads(setup + body + [Sync]) == MultiPayloads(body)
  {
    CountsSingle(Sync);
    CountsAppend(setup, body);
    CountsAppend(setup + body, [Sync]);
  }

  /**
   * A run that finds cards sends `review_count` probe answers plus
   * `review_count` answer requests per batch, and `review_count` is at most
   * MaxProbes.
   */
  lemma RunAnswerCount(tag: string, edited: Option<int>, r: Responses)
    requires Answered(r) && !NoCards(r.foundCards)
    ensures var c, n := ReviewCount(r.probeTypes), |Chunks(r.foundCards.value, BatchSize)|;
      && AnswerRequestCount(RunRequests(tag, edited, r)) == c * (n + 1)
      && c <= MaxProbes
  {
    var ctx, batches := RunContext(tag, r), Chunks(r.foundCards.value, BatchSize);
    var c, n := ctx.reviewCount, |batches|;
    RunCounts(tag, edited, r);
    BatchesCounts(ctx, batches, r.batchInfos, r.delays, n);
    assert c == ReviewCount(r.probeTypes);
    MulSucc(c, n);
  }

  lemma MulSucc(c: nat, n: nat)
    ensures c + n * c == c * (n + 1)
  {
  }

  lemma MulPred(c: nat, k: nat)
    requires k > 0
    ensures (k - 1) * c + c == k * c
  {
  }

  /** Requests that are neither `answerCards` nor `multi` add nothing to either count. */
  lemma {:induction false} FrontHasNoAnswers(reqs: seq<Request>)
    requires forall j :: 0 <= j < |reqs| ==> !reqs[j].AnswerCards? && !reqs[j].Multi?
    ensures AnswerRequestCount(reqs) == 0 && MultiPayloads(reqs) == []
    decreases |reqs|
  {
    if reqs != [] {
      FrontHasNoAnswers(reqs[..|reqs| - 1]);
    }
  }

  /**
   * A run that finds cards sends one `multi` per batch, in batch order; the
   * b-th holds two actions per cardsInfo record of batch b, where action 2i
   * sets the due day of record i's card and action 2i+1 removes the tag from
   * record i's note.
   */
  lemma RunMultiPayloads(tag: string, edited: Option<int>, r: Responses)
    requires Answered(r) && !NoCards(r.foundCards)
    ensures var ctx, mp := RunContext(tag, r), MultiPayloads(RunRequests(tag, edited, r));
      && |mp| == |Chunks(r.foundCards.value, BatchSize)|
      && forall b :: 0 <= b < |mp| ==>
           && |mp[b]| == 2 * |r.batchInfos[b]|
           && forall i :: 0 <= i < |r.batchInfos[b]| ==>
                && mp[b][2 * i] == SetSpecificValueOfCard(r.batchInfos[b][i].cardId, ["due"],
                                     [CardDue(ctx.today, ctx.nowSeconds, r.batchInfos[b][i].cardId, r.delays[b][i])])
                && mp[b][2 * i + 1] == RemoveTags([r.batchInfos[b][i].note], tag)
  {
    var ctx, batches := RunContext(tag, r), Chunks(r.foundCards.value, BatchSize);
    var n := |batches|;
    RunCounts(tag, edited, r);
    BatchesCounts(ctx, batches, r.batchInfos, r.delays, n);
    var mp := MultiPayloads(RunRequests(tag, edited, r));
    forall b | 0 <= b < n
      ensures |mp[b]| == 2 * |r.batchInfos[b]|
      ensures forall i :: 0 <= i < |r.batchInfos[b]| ==>
                && mp[b][2 * i] == SetSpecificValueOfCard(r.batchInfos[b][i].cardId, ["due"],
                                     [CardDue(ctx.today, ctx.nowSeconds, r.batchInfos[b][i].cardId, r.delays[b][i])])
                && mp[b][2 * i + 1] == RemoveTags([r.batchInfos[b][i].note], tag)
    {
      BatchActionsLayout(ctx, r.batchInfos[b], r.delays[b]);
    }
  }

  /**
   * In every `multi` payload of a batch, each tag removal comes right after
   * the due update of the same record's card: removal and rescheduling are
   * always paired.
   */
  lemma TagRemovalFollowsDueUpdate(ctx: Context, cis: seq<CardInfo>, delays: seq<int>, j: int)
    requires |delays| == |cis|
    requires 0 <= j < |BatchActions(ctx, cis, delays)| && BatchActions(ctx, cis, delays)[j].RemoveTags?
    ensures var a, i := BatchActions(ctx, cis, delays), j / 2;
      && j % 2 == 1 && 0 <= i < |cis|
      && a[j - 1] == SetSpecificValueOfCard(cis[i].cardId, ["due"], [CardDue(ctx.today, ctx.nowSeconds, cis[i].cardId, delays[i])])
      && a[j] == RemoveTags([cis[i].note], ctx.tag)
  {
    BatchActionsLayout(ctx, cis, delays);
    var i := j / 2;
    assert j == 2 * i + 1;
  }

  /**
   * A sample card that is new, then learning, then graduated: the probe
   * answers twice, looks three times and does not answer a third time.
   */
  lemma ProbeGraduatesAfterTwo(cardId: int, types: seq<int>)
    requires |types| >= MaxProbes && types[0] == 0 && types[1] == 1 && types[2] == ReviewType
    ensures ReviewCount(types) == 2
    ensures ProbeRequests(cardId, ReviewCount(types))
      == [ CardsInfo([cardId]), AnswerCards([Answer(cardId, Good)]),
           CardsInfo([cardId]), AnswerCards([Answer(cardId, Good)]),
           CardsInfo([cardId]) ]
  {
    assert ProbeRounds(cardId, 1) == [CardsInfo([cardId]), AnswerCards([Answer(cardId, Good)])];
  }
}
