/**
 * One card of the board: its front sprite, its position and the three
 * lifecycle flags. Flip animations are collapsed into their final effect.
 */
module Cards {
  import opened Engine

  class Card {
    /** The front sprite; two cards match when their sprites are the same asset. */
    var sprite: Sprite
    var position: Vector3
    var revealed: bool
    var matched: bool
    var interactable: bool
    /** Set by Destroy; Unity then compares the object equal to null. */
    var destroyed: bool

    /**
     * Instantiating the prefab and giving it its front sprite: a new card is
     * face down, unmatched and interactable.
     */
    constructor (front: Sprite, at: Vector3)
      ensures sprite == front && position == at
      ensures !revealed && !matched && interactable && !destroyed
    {
      sprite := front;
      position := at;
      revealed := false;
      matched := false;
      interactable := true;
      destroyed := false;
    }

    /** The three lifecycle flags, for stating what an operation leaves alone. */
    function Flags(): (bool, bool, bool)
      reads this
    {
      (revealed, matched, interactable)
    }

    method SetCardFrontSprite(front: Sprite)
      modifies this
      ensures sprite == front
      ensures Flags() == old(Flags()) && position == old(position) && destroyed == old(destroyed)
    {
      sprite := front;
    }

    /**
     * A click on the card. It is forwarded to the board (`forwarded`) only
     * when the card is interactable, unmatched and face down; the card itself
     * never changes.
     */
    method HandleCardClick() returns (forwarded: bool)
      ensures forwarded <==> interactable && !matched && !revealed
    {
      if !interactable || matched || revealed {
        return false;
      }
      forwarded := true;
    }

    /**
     * Turns the card face up. On a revealed or matched card nothing happens.
     * Otherwise `revealed` is set before the click notification goes out
     * (`notified`), so a listener that looks at the card sees it face up.
     */
    method RevealCard() returns (notified: bool)
      modifies this`revealed
      ensures notified <==> !old(revealed) && !old(matched)
      ensures revealed == (old(revealed) || notified)
      ensures notified ==> revealed
    {
      if revealed || matched {
        return false;
      }
      revealed := true;
      notified := true;
    }

    /** Turns a card that is not matched face down and makes it interactable again. */
    method HideCard()
      modifies this`revealed, this`interactable
      ensures old(matched) ==> Flags() == old(Flags())
      ensures !old(matched) ==> !revealed && interactable
    {
      if matched {
        return;
      }
      revealed := false;
      // the source tests `matched` again once the flip delay has passed
      if !matched {
        interactable := true;
      }
    }

    /** A matched card cannot be clicked any more; whether it shows its face is unchanged. */
    method MarkAsMatched()
      modifies this`matched, this`interactable
      ensures matched && !interactable
    {
      matched := true;
      interactable := false;
    }

    method SetInteractable(value: bool)
      modifies this`interactable
      ensures interactable == value
    {
      interactable := value;
    }

    /** Back to the state of a newly instantiated card. */
    method ResetCard()
      modifies this`revealed, this`matched, this`interactable
      ensures !revealed && !matched && interactable
    {
      revealed := false;
      matched := false;
      interactable := true;
    }

    /** Sets both flags as saved; only an unmatched card is left interactable. */
    method RestoreCardState(isRevealed: bool, isMatched: bool)
      modifies this`revealed, this`matched, this`interactable
      ensures revealed == isRevealed && matched == isMatched
      ensures interactable == !isMatched
    {
      revealed := isRevealed;
      matched := isMatched;
      if isMatched {
        interactable := false;
      } else if isRevealed {
        interactable := true;
      } else {
        interactable := true;
      }
    }

    /** Unity's Destroy: afterwards the object compares equal to null. */
    method Destroy()
      modifies this`destroyed
      ensures destroyed
    {
      destroyed := true;
    }
  }

  /** Unity's overloaded `card != null`: a reference to a destroyed card counts as null. */
  predicate Present(c: Card?)
    reads c
  {
    c != null && !c.destroyed
  }
}
