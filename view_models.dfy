/**
 * The main view model: the list of reference cards, one per card type, and
 * the card type the user has opened.
 */
module ViewModels {
  import opened Wrappers
  import opened Models

  /** `ReferenceCardType.allCases.map { ReferenceCard(type: $0) }`. */
  function LoadedCards(): (cards: seq<ReferenceCard>)
    ensures |cards| == |AllCardTypes()|
    ensures forall i | 0 <= i < |cards| :: cards[i] == NewReferenceCard(AllCardTypes()[i])
  {
    var all := AllCardTypes();
    seq(|all|, i requires 0 <= i < |all| => NewReferenceCard(all[i]))
  }

  /** Each card type has exactly one card, and it is titled with the type's raw value. */
  lemma LoadedCardsOnePerType(t: ReferenceCardType)
    ensures exists i :: 0 <= i < |LoadedCards()| && LoadedCards()[i].cardType == t
    ensures forall i, j | 0 <= i < |LoadedCards()| && 0 <= j < |LoadedCards()| ::
      LoadedCards()[i].cardType == t && LoadedCards()[j].cardType == t ==> i == j
    ensures forall i | 0 <= i < |LoadedCards()| :: LoadedCards()[i].title == CardRawValue(LoadedCards()[i].cardType)
  {
    AllCardTypesComplete(t);
    var all := AllCardTypes();
    var i :| 0 <= i < |all| && all[i] == t;
    assert LoadedCards()[i].cardType == t;
  }

  /** `BlinkRatioViewModel`. */
  class BlinkRatioViewModel {
    var referenceCards: seq<ReferenceCard>
    var selectedCard: Option<ReferenceCardType>

    /** `init()`: the cards are loaded and nothing is selected. */
    constructor()
      ensures referenceCards == LoadedCards()
      ensures selectedCard == None
    {
      selectedCard := None;
      referenceCards := LoadedCards();
    }

    method SelectCard(t: ReferenceCardType)
      modifies this`selectedCard
      ensures selectedCard == Some(t)
    {
      selectedCard := Some(t);
    }

    method DeselectCard()
      modifies this`selectedCard
      ensures selectedCard == None
    {
      selectedCard := None;
    }
  }
}
