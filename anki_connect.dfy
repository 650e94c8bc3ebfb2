/** The AnkiConnect requests and actions the script sends, and the card records it reads. */
module AnkiConnect {

  /** Ease of a "good" answer. */
  const Good := 3

  /** One entry of an `answerCards` request. */
  datatype Answer = Answer(cardId: int, ease: int)

  /** The actions bundled into a `multi` request. */
  datatype Action =
    | SetSpecificValueOfCard(card: int, keys: seq<string>, newValues: seq<int>)
    | RemoveTags(notes: seq<int>, tags: string)

  datatype Request =
    | Sync
    | FindCards(query: string)
    | CardsInfo(cards: seq<int>)
    | GetDeckConfig(deck: string)
    | ForgetCards(cards: seq<int>)
    | AnswerCards(answers: seq<Answer>)
    | Multi(actions: seq<Action>)

  /** The fields of a `cardsInfo` record the script reads for a batch. */
  datatype CardInfo = CardInfo(cardId: int, note: int)
}
