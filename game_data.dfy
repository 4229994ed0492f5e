/** The persisted snapshot records: one CardData per card and the GameData envelope. */
module GameDataModel {
  import opened Engine
  import opened Wrappers

  /** A saved card: sprite name, flipped/matched flags and the three position coordinates. */
  datatype CardData = CardData(
    cardSpriteName: string,
    isFlipped: bool,
    isMatched: bool,
    positionX: int,
    positionY: int,
    positionZ: int)
  {
    /** Rebuilds the position vector from the three stored coordinates. */
    function GetPosition(): (p: Vector3)
      ensures p.x == positionX && p.y == positionY && p.z == positionZ
    {
      Vector3(positionX, positionY, positionZ)
    }
  }

  /** The CardData constructor: stores its arguments and splits the position into coordinates. */
  function NewCardData(spriteName: string, flipped: bool, matched: bool, position: Vector3): (d: CardData)
    ensures d.cardSpriteName == spriteName && d.isFlipped == flipped && d.isMatched == matched
    ensures d.GetPosition() == position
  {
    CardData(spriteName, flipped, matched, position.x, position.y, position.z)
  }

  /** Rebuilding a record from its own fields and position gives the record back. */
  lemma CardDataFromOwnFields(d: CardData)
    ensures NewCardData(d.cardSpriteName, d.isFlipped, d.isMatched, d.GetPosition()) == d
  {
  }

  /**
   * The whole save record. `cardsOnBoard` is None when the deserialised list is
   * null. `gameTime` is in clock ticks.
   */
  datatype GameData = GameData(
    cardsOnBoard: Option<seq<CardData>>,
    currentScore: int,
    currentCombo: int,
    gameTime: int,
    moves: int,
    highScore: int)

  /** The default GameData constructor: a non-null empty card list and all counters zero. */
  function NewGameData(): (g: GameData)
    ensures g.cardsOnBoard == Some([])
    ensures g.currentScore == 0 && g.currentCombo == 0 && g.gameTime == 0
    ensures g.moves == 0 && g.highScore == 0
  {
    GameData(Some([]), 0, 0, 0, 0, 0)
  }
}
