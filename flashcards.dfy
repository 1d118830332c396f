/**
 * The event handlers of the flashcard page: moving between cards, flipping,
 * scoring an answer, shuffling and replacing the deck. Each handler is one
 * atomic transition of the page state; the deferred index update of
 * `nextCard` and `prevCard` is applied at once. The rendering, the slide
 * animation and the loading flag are not modelled.
 */
module Flashcards {
  import opened Common
  import Scoring

  /** One side of a card: the text in each language, `None` for `null`. */
  datatype CardSide = CardSide(english: Option<string>, hindi: Option<string>, sanskrit: Option<string>)

  datatype Flashcard = Flashcard(front: CardSide, back: CardSide)

  function DemoCard(english: string, hindi: string, sanskrit: string): Flashcard {
    Flashcard(CardSide(Some(english), Some(hindi), None), CardSide(None, None, Some(sanskrit)))
  }

  /** `demoFlashcards`. */
  const DemoFlashcards: seq<Flashcard> := [
    DemoCard("Hello", "नमस्ते", "नमस्कार"),
    DemoCard("Thank you", "धन्यवाद", "धन्यवादः"),
    DemoCard("Good morning", "सुप्रभात", "सुप्रभातम्"),
    DemoCard("Welcome", "स्वागत", "स्वागतम्"),
    DemoCard("How are you?", "आप कैसे हैं?", "कथमस्ति भवान्?")
  ]

  const GenerateError := "Failed to generate flashcards. Please try again."

  /** The state cells the handlers read and set. */
  datatype Deck = Deck(
    cards: seq<Flashcard>,
    currentCard: nat,
    isFlipped: bool,
    score: nat,
    totalAttempts: nat,
    error: Option<string>)

  /** The page once its mount effect has loaded the demo deck. */
  const Initial := Deck(DemoFlashcards, 0, false, 0, 0, None)

  /**
   * What the page relies on: the current card exists whenever the deck is
   * not empty (it renders `cards[currentCard]`), and no more answers are
   * scored correct than were given.
   */
  predicate Valid(d: Deck) {
    && (d.cards == [] ==> d.currentCard == 0)
    && (d.cards != [] ==> d.currentCard < |d.cards|)
    && d.score <= d.totalAttempts
  }

  /** `nextCard`: advance and unflip, unless on the last card. */
  function NextCardStep(d: Deck): (e: Deck)
    ensures e.cards == d.cards && e.score == d.score && e.totalAttempts == d.totalAttempts && e.error == d.error
    ensures e.currentCard == d.currentCard || (e.currentCard == d.currentCard + 1 && !e.isFlipped)
  {
    if d.currentCard < |d.cards| - 1 then d.(currentCard := d.currentCard + 1, isFlipped := false) else d
  }

  /** `prevCard`: go back and unflip, unless on the first card. */
  function PrevCardStep(d: Deck): (e: Deck)
    ensures e.cards == d.cards && e.score == d.score && e.totalAttempts == d.totalAttempts && e.error == d.error
    ensures e.currentCard == d.currentCard || (e.currentCard + 1 == d.currentCard && !e.isFlipped)
  {
    if d.currentCard > 0 then d.(currentCard := d.currentCard - 1, isFlipped := false) else d
  }

  /** The `onClick` of the card and of the flip button. */
  function ToggleFlipStep(d: Deck): Deck {
    d.(isFlipped := !d.isFlipped)
  }

  /** `handleCorrect`: count a correct attempt, then `nextCard`. */
  function HandleCorrectStep(d: Deck): (e: Deck)
    ensures e.score == d.score + 1 && e.totalAttempts == d.totalAttempts + 1
  {
    NextCardStep(d.(score := d.score + 1, totalAttempts := d.totalAttempts + 1))
  }

  /** `handleIncorrect`: count an attempt, then `nextCard`. */
  function HandleIncorrectStep(d: Deck): (e: Deck)
    ensures e.score == d.score && e.totalAttempts == d.totalAttempts + 1
  {
    NextCardStep(d.(totalAttempts := d.totalAttempts + 1))
  }

  /**
   * The order a random shuffle produces, given the random choices `picks`:
   * each pick chooses the next card among those not yet placed.
   */
  function Shuffled<T>(xs: seq<T>, picks: seq<nat>): (ys: seq<T>)
    ensures multiset(ys) == multiset(xs)
    decreases |xs|
  {
    if xs == [] then []
    else
      var k := if picks == [] then 0 else picks[0] % |xs|;
      var rest := xs[..k] + xs[k + 1..];
      assert xs == xs[..k] + [xs[k]] + xs[k + 1..];
      [xs[k]] + Shuffled(rest, if picks == [] then [] else picks[1..])
  }

  /** `shuffleCards`: `[...cards].sort(() => Math.random() - 0.5)`, back to the first card, unflipped. */
  function ShuffleCardsStep(d: Deck, picks: seq<nat>): Deck {
    d.(cards := Shuffled(d.cards, picks), currentCard := 0, isFlipped := false)
  }

  /** `handleGenerate` when the request returns the deck `result`. */
  function GenerateSucceeded(d: Deck, result: seq<Flashcard>): Deck {
    Deck(result, 0, false, 0, 0, None)
  }

  /** `handleGenerate` when the request fails, as written: the demo deck comes back and nothing else is reset. */
  function GenerateFailedAsWritten(d: Deck): Deck {
    d.(cards := DemoFlashcards, error := Some(GenerateError))
  }

  /** `handleGenerate` when the request fails, with the resets of the success branch applied to the demo deck. */
  function GenerateFailed(d: Deck): Deck {
    Deck(DemoFlashcards, 0, false, 0, 0, Some(GenerateError))
  }

  lemma InitialValid()
    ensures Valid(Initial)
  {
  }

  /** Moving between cards keeps the current card on the deck. */
  lemma NavigationKeepsValid(d: Deck)
    requires Valid(d)
    ensures Valid(NextCardStep(d)) && Valid(PrevCardStep(d)) && Valid(ToggleFlipStep(d))
  {
  }

  /** `prevCard` undoes `nextCard` and `nextCard` undoes `prevCard`, apart from unflipping. */
  lemma NextPrevInverse(d: Deck)
    requires Valid(d)
    ensures d.currentCard + 1 < |d.cards| ==> PrevCardStep(NextCardStep(d)) == d.(isFlipped := false)
    ensures d.currentCard > 0 ==> NextCardStep(PrevCardStep(d)) == d.(isFlipped := false)
  {
  }

  /** Scoring an answer keeps `score <= totalAttempts`, and only a correct answer raises the score. */
  lemma AnswersKeepValid(d: Deck)
    requires Valid(d)
    ensures Valid(HandleCorrectStep(d)) && Valid(HandleIncorrectStep(d))
    ensures HandleCorrectStep(d).score - HandleCorrectStep(d).totalAttempts == d.score - d.totalAttempts
  {
  }

  /** Shuffling permutes the deck, starts again from the first card and keeps the score. */
  lemma ShuffleIsPermutation(d: Deck, picks: seq<nat>)
    requires Valid(d)
    ensures var e := ShuffleCardsStep(d, picks);
      && multiset(e.cards) == multiset(d.cards) && |e.cards| == |d.cards|
      && e.currentCard == 0 && !e.isFlipped
      && e.score == d.score && e.totalAttempts == d.totalAttempts
      && Valid(e)
  {
    var e := ShuffleCardsStep(d, picks);
    assert |e.cards| == |multiset(e.cards)| == |multiset(d.cards)| == |d.cards|;
  }

  /** Both outcomes of `handleGenerate` leave a valid page with the counters cleared. */
  lemma GenerateKeepsValid(d: Deck, result: seq<Flashcard>)
    ensures Valid(GenerateSucceeded(d, result)) && Valid(GenerateFailed(d))
    ensures GenerateSucceeded(d, result).cards == result && GenerateFailed(d).cards == DemoFlashcards
  {
  }

  /**
   * As written, a failed generate can leave the index past the end of the
   * demo deck: on the sixth card of a generated deck of six, the page would
   * render the sixth card of a deck of five.
   */
  lemma GenerateFailedAsWrittenLosesCard()
    ensures var d := Deck(DemoFlashcards + [DemoFlashcards[0]], 5, false, 0, 0, None);
      Valid(d) && !Valid(GenerateFailedAsWritten(d))
  {
  }

  /** `accuracy` of the page. */
  function Accuracy(d: Deck): (pct: int)
    requires Valid(d)
    ensures 0 <= pct <= 100
    ensures d.totalAttempts == 0 ==> pct == 0
  {
    Scoring.Accuracy(d.score, d.totalAttempts)
  }

  /** The page component, its state cells as fields and its handlers as methods. */
  class FlashcardsPage {
    var cards: seq<Flashcard>
    var currentCard: nat
    var isFlipped: bool
    var score: nat
    var totalAttempts: nat
    var error: Option<string>

    function State(): Deck
      reads this
    {
      Deck(cards, currentCard, isFlipped, score, totalAttempts, error)
    }

    /** The mounted page: `useState` initial values, then the effect `setCards(demoFlashcards)`. */
    constructor ()
      ensures State() == Initial && Valid(State())
    {
      cards := DemoFlashcards;
      currentCard := 0;
      isFlipped := false;
      score := 0;
      totalAttempts := 0;
      error := None;
    }

    method NextCard()
      requires Valid(State())
      modifies this
      ensures State() == NextCardStep(old(State())) && Valid(State())
    {
      if currentCard < |cards| - 1 {
        isFlipped := false;
        currentCard := currentCard + 1;
      }
    }

    method PrevCard()
      requires Valid(State())
      modifies this
      ensures State() == PrevCardStep(old(State())) && Valid(State())
    {
      if currentCard > 0 {
        isFlipped := false;
        currentCard := currentCard - 1;
      }
    }

    method ToggleFlip()
      requires Valid(State())
      modifies this
      ensures State() == ToggleFlipStep(old(State())) && Valid(State())
    {
      isFlipped := !isFlipped;
    }

    method HandleCorrect()
      requires Valid(State())
      modifies this
      ensures State() == HandleCorrectStep(old(State())) && Valid(State())
    {
      score := score + 1;
      totalAttempts := totalAttempts + 1;
      NextCard();
    }

    method HandleIncorrect()
      requires Valid(State())
      modifies this
      ensures State() == HandleIncorrectStep(old(State())) && Valid(State())
    {
      totalAttempts := totalAttempts + 1;
      NextCard();
    }

    method ShuffleCards(picks: seq<nat>)
      requires Valid(State())
      modifies this
      ensures State() == ShuffleCardsStep(old(State()), picks) && Valid(State())
    {
      ShuffleIsPermutation(State(), picks);
      cards := Shuffled(cards, picks);
      currentCard := 0;
      isFlipped := false;
    }

    /** `handleGenerate`; `result` is the deck the request returned, `None` when it failed. */
    method HandleGenerate(result: Option<seq<Flashcard>>)
      modifies this
      ensures result.Some? ==> State() == GenerateSucceeded(old(State()), result.value)
      ensures result.None? ==> State() == GenerateFailed(old(State()))
      ensures Valid(State())
    {
      error := None;
      match result {
        case Some(deck) =>
          cards := deck;
          currentCard := 0;
          isFlipped := false;
          score := 0;
          totalAttempts := 0;
        case None =>
          error := Some(GenerateError);
          cards := DemoFlashcards;
          currentCard := 0;
          isFlipped := false;
          score := 0;
          totalAttempts := 0;
      }
    }
  }
}
