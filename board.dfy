/**
 * The board manager: deals and shuffles the cards, lays them out on the grid,
 * runs the two-slot selection and the delayed match check, reports moves to
 * the score system and the statistics tracker, detects completion, and saves
 * and restores the cards.
 *
 * Coroutines are pending due times: `pendingChecks` for CheckForMatch and
 * `pendingRevealEnds` for the end of ShowAllCardsBriefly. The random source
 * is passed in as draw sequences (see Shuffling).
 */
module Board {
  import opened Wrappers
  import opened Engine
  import opened Cards
  import opened Shuffling
  import opened GameDataModel
  import opened BoardRules
  import opened Stats
  import opened Scoring
  import opened Tracking

  /** What the save record and the matched count see of a card object. */
  function ViewOf(c: Card): CardView
    reads c
  {
    CardView(c.sprite, c.position, c.revealed, c.matched)
  }

  ghost function Views(cards: seq<Card>): (r: seq<CardView>)
    reads cards
    ensures |r| == |cards|
    ensures forall i :: 0 <= i < |cards| ==> r[i] == ViewOf(cards[i])
  {
    seq(|cards|, i reads cards requires 0 <= i < |cards| => ViewOf(cards[i]))
  }

  /** How many cards a board with this configuration deals. */
  function DealtCards(cfg: BoardConfig): nat
  {
    if PairsNeeded(cfg) <= 0 then 0 else 2 * PairsNeeded(cfg)
  }

  /** The nested row/column loop that lists the grid positions in row-major order. */
  method GenerateGridPositions(rows: int, cols: int) returns (positions: seq<Vector3>)
    ensures positions == GridSpec(rows, cols)
  {
    positions := [];
    ghost var width := if cols > 0 then cols else 0;
    var row := 0;
    while row < rows
      invariant 0 <= row && (rows > 0 ==> row <= rows) && (rows <= 0 ==> row == 0)
      invariant |positions| == row * width
      invariant cols <= 0 ==> positions == []
      invariant forall k :: 0 <= k < |positions| ==> cols > 0 && positions[k] == GridCell(rows, cols, k / cols, k % cols)
    {
      var col := 0;
      while col < cols
        invariant 0 <= col <= width
        invariant |positions| == row * width + col
        invariant forall k :: 0 <= k < |positions| ==> cols > 0 && positions[k] == GridCell(rows, cols, k / cols, k % cols)
      {
        RowMajorIndex(row, col, cols);
        positions := positions + [GridCell(rows, cols, row, col)];
        col := col + 1;
      }
      assert |positions| == (row + 1) * width;
      row := row + 1;
    }
    if rows > 0 && cols > 0 {
      assert forall k :: 0 <= k < |positions| ==> positions[k] == GridSpec(rows, cols)[k];
    }
  }

  class GameBoardManager {
    const config: BoardConfig
    /** The local position a freshly instantiated card prefab has in the container. */
    const prefabPosition: Vector3
    /** The injected collaborators, or null when there are none. */
    const scoreSystem: ScoreManager?
    const statsTracker: GameStatsTracker?
    var allCards: seq<Card>
    var cardSpritePairs: seq<Sprite>
    var firstSelectedCard: Card?
    var secondSelectedCard: Card?
    var matchedPairsCount: int
    var isGameActive: bool
    /** The card container's column constraint. */
    var constraintCount: int
    /** Due times of the CheckForMatch coroutines still waiting. */
    var pendingChecks: seq<int>
    /** Due times of the ShowAllCardsBriefly coroutines still waiting. */
    var pendingRevealEnds: seq<int>

    /** The tracker's statistics record, which is also the score system's combo subscriber. */
    ghost function Record(): GameStats?
      reads statsTracker
    {
      if statsTracker != null then statsTracker.currentStats else null
    }

    ghost function Store(): PlayerPrefs?
      reads statsTracker
    {
      if statsTracker != null then statsTracker.prefs else null
    }

    /** One score system in the scene: the tracker observes the board's own score system. */
    ghost predicate Wired()
      reads scoreSystem, statsTracker, Record()
    {
      (statsTracker != null ==> statsTracker.scoreSystem == scoreSystem && statsTracker.Valid())
      && (scoreSystem != null ==> scoreSystem.comboSink == Record() && scoreSystem.Valid())
    }

    /** A tracker's record holds a new game: every counter zero and no combo seen. */
    ghost predicate RecordCleared()
      reads statsTracker, Record()
    {
      statsTracker != null ==>
        Record().Counters() == (0, 0, 0, 0, 0, 0.0) && Record().maxCombo == 0 && Record().combosSeen == []
    }

    /** The cards are distinct and alive, and the pair count is the matched cards over two. */
    ghost predicate Roster()
      reads this`allCards, this`matchedPairsCount, allCards
    {
      (forall i, j :: 0 <= i < j < |allCards| ==> allCards[i] != allCards[j])
      && (forall i :: 0 <= i < |allCards| ==> !allCards[i].destroyed)
      && matchedPairsCount == CountMatched(Views(allCards)) / 2
    }

    /**
     * A selected card that still exists is on the board, face up and
     * unmatched; the second slot is only filled after the first.
     */
    ghost predicate Slots()
      reads this`allCards, this`firstSelectedCard, this`secondSelectedCard, allCards, firstSelectedCard, secondSelectedCard
    {
      (Present(firstSelectedCard) ==>
         firstSelectedCard in allCards && firstSelectedCard.revealed && !firstSelectedCard.matched)
      && (Present(secondSelectedCard) ==>
            Present(firstSelectedCard) && secondSelectedCard != firstSelectedCard
            && secondSelectedCard in allCards && secondSelectedCard.revealed && !secondSelectedCard.matched)
    }

    ghost predicate Valid()
      reads this`allCards, this`matchedPairsCount, this`firstSelectedCard, this`secondSelectedCard
      reads allCards, firstSelectedCard, secondSelectedCard, scoreSystem, statsTracker, Record()
    {
      Roster() && Slots() && Wired()
    }

    /**
     * The board InitializeGame deals with these draws: the shuffled pair
     * list, one face-down card per entry laid out on the shuffled grid, and
     * every card locked for the initial reveal.
     */
    ghost predicate Dealt(spriteDraws: seq<int>, positionDraws: seq<int>)
      requires PairsNeeded(config) <= 0 || |config.availableCards| > 0
      requires ValidDraws(spriteDraws, DealtCards(config))
      requires ValidDraws(positionDraws, |GridSpec(config.rows, config.columns)|)
      reads this`cardSpritePairs, this`allCards, allCards
    {
      cardSpritePairs == Shuffled(PairList(config.availableCards, PairsNeeded(config)), spriteDraws)
      && Views(allCards) == Placed(DealtViews(cardSpritePairs, prefabPosition),
                                   Shuffled(GridSpec(config.rows, config.columns), positionDraws))
      && forall k :: 0 <= k < |allCards| ==> !allCards[k].interactable
    }

    /**
     * Changing cards without turning any face down and without touching the
     * matched or destroyed flags keeps the roster and the slots.
     */
    twostate lemma FlagsKeptPreserves()
      requires old(Roster() && Slots())
      requires allCards == old(allCards) && matchedPairsCount == old(matchedPairsCount)
      requires firstSelectedCard == old(firstSelectedCard) && secondSelectedCard == old(secondSelectedCard)
      requires forall k :: 0 <= k < |allCards| ==>
                 (old(allCards[k].revealed) ==> allCards[k].revealed)
                 && allCards[k].matched == old(allCards[k].matched) && allCards[k].destroyed == old(allCards[k].destroyed)
      requires firstSelectedCard != null ==> firstSelectedCard.destroyed == old(firstSelectedCard.destroyed)
      requires secondSelectedCard != null ==> secondSelectedCard.destroyed == old(secondSelectedCard.destroyed)
      ensures Roster() && Slots()
    {
      CountMatchedSameFlags(old(Views(allCards)), Views(allCards));
      if firstSelectedCard in allCards {
        var k :| 0 <= k < |allCards| && allCards[k] == firstSelectedCard;
      }
      if secondSelectedCard in allCards {
        var k :| 0 <= k < |allCards| && allCards[k] == secondSelectedCard;
      }
    }

    /** Calls that leave every card object alone keep the roster. */
    twostate lemma RosterKept()
      requires old(Roster())
      requires allCards == old(allCards) && matchedPairsCount == old(matchedPairsCount)
      requires unchanged(allCards)
      ensures Roster()
    {
      assert Views(allCards) == old(Views(allCards));
    }

    /** Calls that leave every card object and the slots alone keep the slots. */
    twostate lemma SlotsKept()
      requires old(Slots())
      requires allCards == old(allCards) && unchanged(allCards)
      requires firstSelectedCard == old(firstSelectedCard) && secondSelectedCard == old(secondSelectedCard)
      requires firstSelectedCard != null ==> unchanged(firstSelectedCard)
      requires secondSelectedCard != null ==> unchanged(secondSelectedCard)
      ensures Slots()
    {
    }

    /** The field initialisers: an empty, active board with no selection. */
    constructor (cfg: BoardConfig, prefab: Vector3, score: ScoreManager?, tracker: GameStatsTracker?,
                 containerColumns: int)
      requires tracker != null ==> tracker.scoreSystem == score && tracker.Valid()
      requires score != null ==> score.comboSink == (if tracker != null then tracker.currentStats else null)
      requires score != null ==> score.Valid()
      ensures Valid()
      ensures config == cfg && prefabPosition == prefab && scoreSystem == score && statsTracker == tracker
      ensures allCards == [] && cardSpritePairs == [] && firstSelectedCard == null && secondSelectedCard == null
      ensures matchedPairsCount == 0 && isGameActive && constraintCount == containerColumns
      ensures pendingChecks == [] && pendingRevealEnds == []
    {
      config := cfg;
      prefabPosition := prefab;
      scoreSystem := score;
      statsTracker := tracker;
      allCards := [];
      cardSpritePairs := [];
      firstSelectedCard := null;
      secondSelectedCard := null;
      matchedPairsCount := 0;
      isGameActive := true;
      constraintCount := containerColumns;
      pendingChecks := [];
      pendingRevealEnds := [];
    }

    /** The column constraint of the card container, as dealing or a restore last set it. */
    function GetConstraintCount(): (c: int)
      reads this`constraintCount
      ensures c == constraintCount
    {
      constraintCount
    }

    /** The first configured sprite with the given name; nothing for an empty name. */
    method FindSpriteByName(spriteName: string) returns (r: Option<Sprite>)
      ensures r == Lookup(config.availableCards, spriteName)
      ensures r.Some? ==> r.value in config.availableCards && r.value.name == spriteName
    {
      if spriteName == "" {
        return None;
      }
      var pool := config.availableCards;
      var i := 0;
      while i < |pool|
        invariant 0 <= i <= |pool|
        invariant FirstNamed(pool, spriteName) == FirstNamed(pool[i..], spriteName)
      {
        if pool[i].name == spriteName {
          return Some(pool[i]);
        }
        assert pool[i..][1..] == pool[i + 1..];
        i := i + 1;
      }
      r := None;
    }

    /** One record per card, in board order. */
    method GetCardsData() returns (data: seq<CardData>)
      ensures data == SaveAll(Views(allCards))
      ensures |data| == |allCards|
      ensures forall i :: 0 <= i < |allCards| ==>
                data[i].cardSpriteName == allCards[i].sprite.name
                && data[i].isFlipped == allCards[i].revealed && data[i].isMatched == allCards[i].matched
                && data[i].GetPosition() == allCards[i].position
    {
      data := [];
      var i := 0;
      while i < |allCards|
        invariant 0 <= i <= |allCards|
        invariant data == SaveAll(Views(allCards[..i]))
      {
        var card := allCards[i];
        data := data + [NewCardData(card.sprite.name, card.revealed, card.matched, card.position)];
        assert allCards[..i + 1] == allCards[..i] + [card];
        i := i + 1;
      }
      assert allCards[..i] == allCards;
    }

    // -------------------------------------------------------------------
    // Setting up a board

    /** The Fisher–Yates pass over the sprite pair list. */
    method ShuffleCardSprites(draws: seq<int>)
      requires ValidDraws(draws, |cardSpritePairs|)
      modifies this`cardSpritePairs
      ensures cardSpritePairs == Shuffled(old(cardSpritePairs), draws)
      ensures multiset(cardSpritePairs) == multiset(old(cardSpritePairs))
    {
      cardSpritePairs := Shuffle(cardSpritePairs, draws);
    }

    /**
     * Builds the pair list and shuffles it. With pairs to deal and no sprite
     * configured, `i % Length` divides by zero: the exception ends the
     * initialisation (`ok` is false) with the list empty.
     */
    method PrepareCardSprites(draws: seq<int>) returns (ok: bool)
      requires ValidDraws(draws, DealtCards(config))
      modifies this`cardSpritePairs, this`constraintCount
      ensures GetConstraintCount() == config.gridColumn
      ensures ok <==> PairsNeeded(config) <= 0 || |config.availableCards| > 0
      ensures ok ==> cardSpritePairs == Shuffled(PairList(config.availableCards, PairsNeeded(config)), draws)
      ensures !ok ==> cardSpritePairs == []
    {
      cardSpritePairs := [];
      constraintCount := config.gridColumn;
      var totalCards := config.rows * config.columns;
      var pairsNeeded := TruncHalf(totalCards);
      var pool := config.availableCards;
      if pairsNeeded > 0 && |pool| == 0 {
        return false;
      }
      var i := 0;
      while i < pairsNeeded
        invariant 0 <= i && (pairsNeeded > 0 ==> i <= pairsNeeded) && (pairsNeeded <= 0 ==> i == 0)
        invariant cardSpritePairs == PairList(pool, i)
        invariant constraintCount == config.gridColumn
      {
        PairListGrows(pool, i);
        var sprite := pool[i % |pool|];
        ghost var before := cardSpritePairs;
        cardSpritePairs := cardSpritePairs + [sprite];
        cardSpritePairs := cardSpritePairs + [sprite];
        assert cardSpritePairs == before + [sprite, sprite];
        i := i + 1;
      }
      assert cardSpritePairs == PairList(pool, pairsNeeded);
      ShuffleCardSprites(draws);
      ok := true;
    }

    /**
     * One new face-down card per entry of the pair list, in order. Both
     * callers of InitializeGame reach it with no cards on the board.
     */
    method CreateGameBoard()
      requires allCards == []
      modifies this`allCards
      ensures |allCards| == |cardSpritePairs|
      ensures forall i :: 0 <= i < |allCards| ==> fresh(allCards[i]) && allCards[i].interactable && !allCards[i].destroyed
      ensures forall a, b :: 0 <= a < b < |allCards| ==> allCards[a] != allCards[b]
      ensures Views(allCards) == DealtViews(cardSpritePairs, prefabPosition)
      ensures CountMatched(Views(allCards)) == 0
    {
      var i := 0;
      while i < |cardSpritePairs|
        invariant 0 <= i <= |cardSpritePairs| && |allCards| == i
        invariant forall k :: 0 <= k < i ==>
                    fresh(allCards[k]) && allCards[k].interactable && !allCards[k].destroyed
                    && ViewOf(allCards[k]) == CardView(cardSpritePairs[k], prefabPosition, false, false)
        invariant forall j, k :: 0 <= j < k < i ==> allCards[j] != allCards[k]
      {
        var newCard := new Card(cardSpritePairs[i], prefabPosition);
        allCards := allCards + [newCard];
        i := i + 1;
      }
      ghost var dealt := DealtViews(cardSpritePairs, prefabPosition);
      assert Views(allCards) == dealt by {
        forall k | 0 <= k < |allCards|
          ensures Views(allCards)[k] == dealt[k]
        {
        }
      }
      CountMatchedDealt([], cardSpritePairs, prefabPosition);
      assert [] + dealt == dealt;
    }

    /** Filling an empty board with new, distinct, unmatched cards keeps the roster and the (empty) slots. */
    twostate lemma FreshCardsKeep()
      requires old(Roster() && Slots()) && old(allCards) == []
      requires matchedPairsCount == old(matchedPairsCount)
      requires firstSelectedCard == old(firstSelectedCard) && secondSelectedCard == old(secondSelectedCard)
      requires firstSelectedCard != null ==> unchanged(firstSelectedCard)
      requires secondSelectedCard != null ==> unchanged(secondSelectedCard)
      requires forall a, b :: 0 <= a < b < |allCards| ==> allCards[a] != allCards[b]
      requires forall k :: 0 <= k < |allCards| ==> !allCards[k].destroyed
      requires CountMatched(Views(allCards)) == 0
      ensures Roster() && Slots()
    {
    }

    /** Card i moves to grid position i of the shuffled grid; extra cards stay put. */
    method RandomizeCardPositions(draws: seq<int>)
      requires Roster() && Slots()
      requires ValidDraws(draws, |GridSpec(config.rows, config.columns)|)
      modifies allCards
      ensures Roster() && Slots()
      ensures Views(allCards) == Placed(old(Views(allCards)), Shuffled(GridSpec(config.rows, config.columns), draws))
      ensures forall k :: 0 <= k < |allCards| ==> allCards[k].interactable == old(allCards[k].interactable)
    {
      var gridPositions := GenerateGridPositions(config.rows, config.columns);
      gridPositions := Shuffle(gridPositions, draws);
      PlaceCards(gridPositions);
      FlagsKeptPreserves();
    }

    /** The loop of RandomizeCardPositions: card i takes position i while there are positions; nothing else changes. */
    method PlaceCards(gridPositions: seq<Vector3>)
      requires forall a, b :: 0 <= a < b < |allCards| ==> allCards[a] != allCards[b]
      modifies allCards
      ensures forall k :: 0 <= k < |allCards| ==>
                allCards[k].position == (if k < |gridPositions| then gridPositions[k] else old(allCards[k].position))
                && allCards[k].sprite == old(allCards[k].sprite) && allCards[k].revealed == old(allCards[k].revealed)
                && allCards[k].matched == old(allCards[k].matched) && allCards[k].interactable == old(allCards[k].interactable)
                && allCards[k].destroyed == old(allCards[k].destroyed)
      ensures Views(allCards) == Placed(old(Views(allCards)), gridPositions)
    {
      ghost var v0 := Views(allCards);
      var i := 0;
      while i < |allCards|
        invariant 0 <= i <= |allCards|
        invariant forall k :: 0 <= k < |allCards| ==>
                    allCards[k].position == (if k < i && k < |gridPositions| then gridPositions[k] else old(allCards[k].position))
                    && allCards[k].sprite == old(allCards[k].sprite) && allCards[k].revealed == old(allCards[k].revealed)
                    && allCards[k].matched == old(allCards[k].matched) && allCards[k].interactable == old(allCards[k].interactable)
                    && allCards[k].destroyed == old(allCards[k].destroyed)
      {
        if i < |gridPositions| {
          allCards[i].position := gridPositions[i];
        }
        i := i + 1;
      }
      assert Views(allCards) == Placed(v0, gridPositions);
    }

    method SetAllCardsInteractable(interactable: bool)
      requires forall a, b :: 0 <= a < b < |allCards| ==> allCards[a] != allCards[b]
      modifies allCards
      ensures forall k :: 0 <= k < |allCards| ==>
                allCards[k].interactable == interactable
                && ViewOf(allCards[k]) == old(ViewOf(allCards[k])) && allCards[k].destroyed == old(allCards[k].destroyed)
      ensures Views(allCards) == old(Views(allCards))
    {
      var i := 0;
      while i < |allCards|
        invariant 0 <= i <= |allCards|
        invariant forall k :: 0 <= k < i ==> allCards[k].interactable == interactable
        invariant forall k :: 0 <= k < |allCards| ==>
                    ViewOf(allCards[k]) == old(ViewOf(allCards[k])) && allCards[k].destroyed == old(allCards[k].destroyed)
      {
        allCards[i].SetInteractable(interactable);
        i := i + 1;
      }
      assert Views(allCards) == old(Views(allCards));
    }

    /** ShowAllCardsBriefly up to its wait: every card locked, the end due after the reveal duration. */
    method BeginInitialReveal(now: int)
      requires Roster() && Slots()
      modifies allCards, this`pendingRevealEnds
      ensures Roster() && Slots()
      ensures forall k :: 0 <= k < |allCards| ==> !allCards[k].interactable
      ensures Views(allCards) == old(Views(allCards))
      ensures pendingRevealEnds == old(pendingRevealEnds) + [now + config.initialRevealDuration]
    {
      SetAllCardsInteractable(false);
      pendingRevealEnds := pendingRevealEnds + [now + config.initialRevealDuration];
      FlagsKeptPreserves();
    }

    /** The oldest ShowAllCardsBriefly resumes: every card of the board as it is now is unlocked. */
    method EndInitialReveal(now: int)
      requires Roster() && Slots()
      requires pendingRevealEnds != [] && pendingRevealEnds[0] <= now
      modifies allCards, this`pendingRevealEnds
      ensures Roster() && Slots()
      ensures forall k :: 0 <= k < |allCards| ==> allCards[k].interactable
      ensures Views(allCards) == old(Views(allCards))
      ensures pendingRevealEnds == old(pendingRevealEnds[1..])
    {
      pendingRevealEnds := pendingRevealEnds[1..];
      SetAllCardsInteractable(true);
      FlagsKeptPreserves();
    }

    /**
     * The board half of InitializeGame: deal, lay out and begin the initial
     * reveal. When the sprite pool is empty and there are pairs to deal, the
     * exception in PrepareCardSprites ends it early (`ok` is false).
     */
    method SetUpBoard(now: int, spriteDraws: seq<int>, positionDraws: seq<int>) returns (ok: bool)
      requires Roster() && Slots() && allCards == []
      requires ValidDraws(spriteDraws, DealtCards(config))
      requires ValidDraws(positionDraws, |GridSpec(config.rows, config.columns)|)
      modifies this`cardSpritePairs, this`constraintCount, this`allCards, this`pendingRevealEnds, allCards
      ensures Roster() && Slots()
      ensures constraintCount == config.gridColumn
      ensures ok <==> PairsNeeded(config) <= 0 || |config.availableCards| > 0
      ensures forall k :: 0 <= k < |allCards| ==> fresh(allCards[k])
      ensures !ok ==> cardSpritePairs == [] && allCards == [] && pendingRevealEnds == old(pendingRevealEnds)
      ensures ok ==> Dealt(spriteDraws, positionDraws)
      ensures ok ==> pendingRevealEnds == old(pendingRevealEnds) + [now + config.initialRevealDuration]
    {
      ok := PrepareCardSprites(spriteDraws);
      if !ok {
        return;
      }
      CreateGameBoard();
      FreshCardsKeep();
      RandomizeCardPositions(positionDraws);
      ghost var v2 := Views(allCards);
      BeginInitialReveal(now);
      assert Views(allCards) == v2;
    }

    /**
     * Start / InitializeGame: sets up the board, then starts the score
     * system's session and a new statistics record; after the exception of
     * an empty sprite pool nothing further happens.
     */
    method InitializeGame(now: int, spriteDraws: seq<int>, positionDraws: seq<int>) returns (ok: bool)
      requires Valid() && allCards == []
      requires ValidDraws(spriteDraws, DealtCards(config))
      requires ValidDraws(positionDraws, |GridSpec(config.rows, config.columns)|)
      modifies this`cardSpritePairs, this`constraintCount, this`allCards, this`pendingRevealEnds, allCards
      modifies scoreSystem, Record()
      ensures Valid()
      ensures constraintCount == config.gridColumn
      ensures ok <==> PairsNeeded(config) <= 0 || |config.availableCards| > 0
      ensures !ok ==> cardSpritePairs == [] && allCards == [] && pendingRevealEnds == old(pendingRevealEnds)
      ensures !ok && scoreSystem != null ==> unchanged(scoreSystem)
      ensures !ok && statsTracker != null ==> unchanged(Record())
      ensures ok ==> Dealt(spriteDraws, positionDraws)
      ensures ok ==> pendingRevealEnds == old(pendingRevealEnds) + [now + config.initialRevealDuration]
      ensures ok && scoreSystem != null ==> scoreSystem.State() == StartGameOf(scoreSystem.config, old(scoreSystem.State()), now)
      ensures ok ==> RecordCleared()
    {
      ok := SetUpBoard(now, spriteDraws, positionDraws);
      if !ok {
        return;
      }
      StartSession(now);
    }

    /** The collaborator half of InitializeGame: a new scoring session, then a new statistics record. */
    method StartSession(now: int)
      requires Valid()
      modifies scoreSystem, Record()
      ensures Valid()
      ensures Views(allCards) == old(Views(allCards))
      ensures forall k :: 0 <= k < |allCards| ==> allCards[k].interactable == old(allCards[k].interactable)
      ensures scoreSystem != null ==> scoreSystem.State() == StartGameOf(scoreSystem.config, old(scoreSystem.State()), now)
      ensures RecordCleared()
    {
      if scoreSystem != null {
        var _ := scoreSystem.StartGame(now);
      }
      if statsTracker != null {
        statsTracker.StartNewGame();
      }
      RosterKept();
      SlotsKept();
    }

    // -------------------------------------------------------------------
    // Selecting cards

    /** The guard of HandleCardSelection: the game runs and the card is face down and unmatched. */
    predicate Selectable(card: Card)
      reads this, card
    {
      isGameActive && !card.matched && !card.revealed
    }

    /**
     * A click the card forwarded. Ignored unless the card is selectable. The
     * card turns face up; its own click notification re-enters this handler,
     * which ignores it because the card is now face up. Then the card takes
     * the first free slot (see TakeSlot).
     */
    method HandleCardSelection(card: Card, now: int)
      requires Roster() && Slots() && card in allCards
      modifies card, firstSelectedCard, this`firstSelectedCard, this`secondSelectedCard, this`pendingChecks
      ensures Roster() && Slots()
      ensures !old(Selectable(card)) ==>
                unchanged(card) && unchanged(this) && (old(firstSelectedCard) != null ==> unchanged(old(firstSelectedCard)))
      ensures old(Selectable(card)) ==> card.revealed && SlotTaken(card, now)
      ensures card.sprite == old(card.sprite) && card.position == old(card.position)
      ensures card.matched == old(card.matched) && card.destroyed == old(card.destroyed)
    {
      if !isGameActive || card.matched || card.revealed {
        return;
      }
      var notified := card.RevealCard();
      FlagsKeptPreserves();
      if notified {
        // The notification re-enters HandleCardSelection, whose guard now turns the card away.
        assert !Selectable(card);
      }
      TakeSlot(card, now);
    }

    /**
     * How the slots take a card just turned face up: the first free slot gets
     * it, and filling the second slot starts a match check that locks both
     * cards; with both slots taken nothing changes.
     */
    twostate predicate SlotTaken(card: Card, now: int)
      reads this, card, firstSelectedCard
    {
      (old(!Present(firstSelectedCard)) ==>
         firstSelectedCard == card && secondSelectedCard == old(secondSelectedCard)
         && pendingChecks == old(pendingChecks) && card.interactable == old(card.interactable))
      && (old(Present(firstSelectedCard) && !Present(secondSelectedCard)) ==>
            firstSelectedCard == old(firstSelectedCard) && secondSelectedCard == card
            && firstSelectedCard.sprite == old(firstSelectedCard.sprite)
            && firstSelectedCard.position == old(firstSelectedCard.position)
            && !firstSelectedCard.interactable && !card.interactable
            && pendingChecks == old(pendingChecks) + [now + config.matchCheckDelay])
      && (old(Present(firstSelectedCard) && Present(secondSelectedCard)) ==>
            firstSelectedCard == old(firstSelectedCard) && secondSelectedCard == old(secondSelectedCard)
            && pendingChecks == old(pendingChecks) && card.interactable == old(card.interactable))
    }

    /** The slot half of HandleCardSelection, for a card of the board that is face up and unmatched. */
    method TakeSlot(card: Card, now: int)
      requires Roster() && Slots() && card in allCards && card.revealed && !card.matched
      requires card != firstSelectedCard && card != secondSelectedCard
      modifies card, firstSelectedCard, this`firstSelectedCard, this`secondSelectedCard, this`pendingChecks
      ensures Roster() && Slots()
      ensures SlotTaken(card, now)
      ensures card.sprite == old(card.sprite) && card.position == old(card.position)
      ensures card.revealed && card.matched == old(card.matched) && card.destroyed == old(card.destroyed)
    {
      if !Present(firstSelectedCard) {
        firstSelectedCard := card;
      } else if !Present(secondSelectedCard) {
        secondSelectedCard := card;
        StartMatchCheck(now);
      }
    }

    /**
     * CheckForMatch up to its wait: the slot cards that still exist are
     * locked, and the check is due after the match delay.
     */
    method StartMatchCheck(now: int)
      requires Roster() && Slots()
      modifies firstSelectedCard, secondSelectedCard, this`pendingChecks
      ensures Roster() && Slots()
      ensures Present(firstSelectedCard) ==> !firstSelectedCard.interactable
      ensures Present(secondSelectedCard) ==> !secondSelectedCard.interactable
      ensures var f := firstSelectedCard; f != null ==>
                f.sprite == old(f.sprite) && f.position == old(f.position) && f.revealed == old(f.revealed)
                && f.matched == old(f.matched) && f.destroyed == old(f.destroyed)
      ensures var g := secondSelectedCard; g != null ==>
                g.sprite == old(g.sprite) && g.position == old(g.position) && g.revealed == old(g.revealed)
                && g.matched == old(g.matched) && g.destroyed == old(g.destroyed)
      ensures pendingChecks == old(pendingChecks) + [now + config.matchCheckDelay]
    {
      if Present(firstSelectedCard) {
        firstSelectedCard.SetInteractable(false);
      }
      if Present(secondSelectedCard) {
        secondSelectedCard.SetInteractable(false);
      }
      pendingChecks := pendingChecks + [now + config.matchCheckDelay];
      FlagsKeptPreserves();
    }

    /**
     * A click on a card of the board. The card forwards it to the
     * selection handler only when it is interactable, unmatched and face down.
     */
    method ClickCard(card: Card, now: int) returns (forwarded: bool)
      requires Roster() && Slots() && card in allCards
      modifies card, firstSelectedCard, this`firstSelectedCard, this`secondSelectedCard, this`pendingChecks
      ensures Roster() && Slots()
      ensures forwarded <==> old(card.interactable && !card.matched && !card.revealed)
      ensures !(forwarded && old(isGameActive)) ==>
                unchanged(card) && unchanged(this) && (old(firstSelectedCard) != null ==> unchanged(old(firstSelectedCard)))
      ensures forwarded && old(isGameActive) ==> card.revealed && SlotTaken(card, now)
    {
      forwarded := card.HandleCardClick();
      if forwarded {
        HandleCardSelection(card, now);
      }
    }

    // -------------------------------------------------------------------
    // Resolving a match check

    /** Both slots hold a card that still exists. */
    predicate BothSelected()
      reads this`firstSelectedCard, this`secondSelectedCard, firstSelectedCard, secondSelectedCard
    {
      Present(firstSelectedCard) && Present(secondSelectedCard)
    }

    /** The card half of HandleSuccessfulMatch: both slot cards become matched and one more pair is counted. */
    method MatchPair()
      requires Roster() && Slots() && BothSelected()
      modifies firstSelectedCard, secondSelectedCard, this`matchedPairsCount
      ensures Roster()
      ensures matchedPairsCount == old(matchedPairsCount) + 1
      ensures firstSelectedCard.matched && !firstSelectedCard.interactable
      ensures secondSelectedCard.matched && !secondSelectedCard.interactable
      ensures var f := firstSelectedCard;
                f.sprite == old(f.sprite) && f.position == old(f.position) && f.revealed == old(f.revealed)
      ensures var g := secondSelectedCard;
                g.sprite == old(g.sprite) && g.position == old(g.position) && g.revealed == old(g.revealed)
    {
      ghost var count0 := CountMatched(Views(allCards));
      matchedPairsCount := matchedPairsCount + 1;
      assert CountMatched(Views(allCards)) == count0;
      MarkOne(firstSelectedCard);
      MarkOne(secondSelectedCard);
      assert CountMatched(Views(allCards)) == count0 + 2;
    }

    /** MarkAsMatched on one unmatched card of the board: one more matched card. */
    method MarkOne(card: Card)
      requires forall a, b :: 0 <= a < b < |allCards| ==> allCards[a] != allCards[b]
      requires forall k :: 0 <= k < |allCards| ==> !allCards[k].destroyed
      requires card in allCards && !card.matched
      modifies card
      ensures forall k :: 0 <= k < |allCards| ==> !allCards[k].destroyed
      ensures card.matched && !card.interactable
      ensures card.sprite == old(card.sprite) && card.position == old(card.position)
      ensures card.revealed == old(card.revealed) && card.destroyed == old(card.destroyed)
      ensures CountMatched(Views(allCards)) == old(CountMatched(Views(allCards))) + 1
    {
      var i :| 0 <= i < |allCards| && allCards[i] == card;
      ghost var v0 := Views(allCards);
      card.MarkAsMatched();
      CountMatchedMarkOne(v0, Views(allCards), i);
    }

    /** The score system's state after a successful or a failed move. */
    function MoveOf(cfg: ScoringConfig, s: ScoreState, wasSuccessful: bool, now: int): ScoreState
    {
      if wasSuccessful then SuccessOf(cfg, s, now) else FailedOf(cfg, s)
    }

    /** The events the score system raises for a successful or a failed move. */
    function MoveEvents(cfg: ScoringConfig, s: ScoreState, wasSuccessful: bool, now: int): seq<ScoreEvent>
    {
      if wasSuccessful then SuccessEvents(cfg, s, now) else FailedEvents(cfg, s)
    }

    /** The combo values a move delivers to the statistics record: none without a score system. */
    ghost function MoveCombos(wasSuccessful: bool, now: int): seq<int>
      reads scoreSystem
    {
      if scoreSystem != null then ComboValues(MoveEvents(scoreSystem.config, scoreSystem.State(), wasSuccessful, now)) else []
    }

    /**
     * The tracker's record has been fed these combo values: they extend its
     * combo history, and its highest combo is the running maximum over them
     * from the previous highest.
     */
    twostate predicate RecordFed(combos: seq<int>)
      reads statsTracker, Record()
    {
      statsTracker != null ==>
        Record().combosSeen == old(Record().combosSeen) + combos
        && Record().maxCombo == RunningMax(old(Record().maxCombo), combos)
    }

    /**
     * The collaborator half of a match outcome: the score system scores the
     * move, delivering its combo changes to the record, and the tracker
     * counts it.
     */
    method ReportMove(wasSuccessful: bool, now: int)
      requires Roster() && Wired()
      modifies scoreSystem, Record()
      ensures Roster() && Wired()
      ensures scoreSystem != null ==>
                scoreSystem.State() == MoveOf(scoreSystem.config, old(scoreSystem.State()), wasSuccessful, now)
      ensures statsTracker != null ==>
                Record().totalMoves == old(Record().totalMoves) + 1
                && Record().successfulMatches == old(Record().successfulMatches) + (if wasSuccessful then 1 else 0)
                && Record().failedMatches == old(Record().failedMatches) + (if wasSuccessful then 0 else 1)
                && Record().gameTime == old(Record().gameTime) && Record().finalScore == old(Record().finalScore)
      ensures RecordFed(old(MoveCombos(wasSuccessful, now)))
    {
      ghost var seen0 := if statsTracker != null then Record().combosSeen else [];
      ghost var combos := MoveCombos(wasSuccessful, now);
      if scoreSystem != null {
        if wasSuccessful {
          var _ := scoreSystem.OnSuccessfulMatch(now);
        } else {
          var _ := scoreSystem.OnFailedMatch();
        }
      }
      if statsTracker != null {
        RunningMaxAppend(0, seen0, combos);
        statsTracker.RecordMove(wasSuccessful);
      }
      RosterKept();
    }

    /**
     * The game is over: the board stops taking selections, the score system
     * ends its session, and the tracker records the result and saves the
     * high score. The score system goes inactive before the tracker asks it
     * for the game time, so a game with a score system records a time of 0.
     */
    method HandleGameCompletion(now: int)
      requires Roster() && Wired()
      modifies this`isGameActive, scoreSystem, Record(), Store()
      ensures Roster() && Wired() && !isGameActive
      ensures scoreSystem != null ==> scoreSystem.State() == EndGameOf(scoreSystem.config, old(scoreSystem.State()), now)
      ensures statsTracker != null ==>
                Record().totalMoves == old(Record().totalMoves)
                && Record().successfulMatches == old(Record().successfulMatches)
                && Record().failedMatches == old(Record().failedMatches)
                && Store().GetInt(0) == HighScoreAfter(old(Store().GetInt(0)), Record().finalScore)
      ensures statsTracker != null && scoreSystem != null ==>
                Record().gameTime == 0 && Record().finalScore == scoreSystem.TotalScore()
      ensures statsTracker != null && scoreSystem == null ==>
                Record().gameTime == old(Record().gameTime) && Record().finalScore == old(Record().finalScore)
      ensures RecordFed([])
    {
      isGameActive := false;
      if scoreSystem != null {
        EndGameFeedsNoCombo(scoreSystem.config, scoreSystem.State(), now);
        var _ := scoreSystem.EndGame(now);
      }
      if statsTracker != null {
        statsTracker.CompleteGame(now);
        statsTracker.SaveHighScore();
      }
      RosterKept();
    }

    /**
     * On a board with an even number of cards, the completion test of
     * HandleSuccessfulMatch (the pair count reaching half the cards) holds
     * exactly when every card is matched.
     */
    lemma CompletionIffAllMatchedOnBoard()
      requires Roster() && |allCards| % 2 == 0
      ensures matchedPairsCount >= |allCards| / 2 <==> forall k :: 0 <= k < |allCards| ==> allCards[k].matched
    {
      CompletionIffAllMatched(Views(allCards));
    }

    /**
     * Both slot cards become matched and one more pair is counted; the move
     * is reported as a success; when the count reaches half the cards the
     * game is completed (see CompletionIffAllMatchedOnBoard).
     */
    method HandleSuccessfulMatch(now: int)
      requires Valid() && BothSelected()
      modifies firstSelectedCard, secondSelectedCard, this`matchedPairsCount, this`isGameActive
      modifies scoreSystem, Record(), Store()
      ensures Roster() && Wired()
      ensures matchedPairsCount == old(matchedPairsCount) + 1
      ensures firstSelectedCard.matched && !firstSelectedCard.interactable
      ensures secondSelectedCard.matched && !secondSelectedCard.interactable
      ensures isGameActive == (old(isGameActive) && matchedPairsCount < |allCards| / 2)
      ensures scoreSystem != null ==>
                var s1 := SuccessOf(scoreSystem.config, old(scoreSystem.State()), now);
                scoreSystem.State() == if matchedPairsCount >= |allCards| / 2 then EndGameOf(scoreSystem.config, s1, now) else s1
      ensures statsTracker != null ==>
                Record().totalMoves == old(Record().totalMoves) + 1
                && Record().successfulMatches == old(Record().successfulMatches) + 1
                && Record().failedMatches == old(Record().failedMatches)
      ensures statsTracker != null && matchedPairsCount >= |allCards| / 2 ==>
                Store().GetInt(0) == HighScoreAfter(old(Store().GetInt(0)), Record().finalScore)
      ensures statsTracker != null && matchedPairsCount < |allCards| / 2 ==> Store().highScore == old(Store().highScore)
      ensures var f := firstSelectedCard;
                f.sprite == old(f.sprite) && f.position == old(f.position) && f.revealed == old(f.revealed)
      ensures var g := secondSelectedCard;
                g.sprite == old(g.sprite) && g.position == old(g.position) && g.revealed == old(g.revealed)
      ensures RecordFed(old(MoveCombos(true, now)))
      ensures statsTracker != null && matchedPairsCount >= |allCards| / 2 && scoreSystem != null ==>
                Record().gameTime == 0 && Record().finalScore == scoreSystem.TotalScore()
      ensures statsTracker != null && !(matchedPairsCount >= |allCards| / 2 && scoreSystem != null) ==>
                Record().gameTime == old(Record().gameTime) && Record().finalScore == old(Record().finalScore)
    {
      MatchPair();
      ReportSuccess(now, matchedPairsCount >= |allCards| / 2);
    }

    /** The collaborator half of HandleSuccessfulMatch: a successful move, then the completion if it is due. */
    method ReportSuccess(now: int, completes: bool)
      requires Roster() && Wired()
      modifies this`isGameActive, scoreSystem, Record(), Store()
      ensures Roster() && Wired()
      ensures isGameActive == (old(isGameActive) && !completes)
      ensures scoreSystem != null ==>
                var s1 := SuccessOf(scoreSystem.config, old(scoreSystem.State()), now);
                scoreSystem.State() == if completes then EndGameOf(scoreSystem.config, s1, now) else s1
      ensures statsTracker != null ==>
                Record().totalMoves == old(Record().totalMoves) + 1
                && Record().successfulMatches == old(Record().successfulMatches) + 1
                && Record().failedMatches == old(Record().failedMatches)
      ensures statsTracker != null && completes ==>
                Store().GetInt(0) == HighScoreAfter(old(Store().GetInt(0)), Record().finalScore)
      ensures statsTracker != null && !completes ==> Store().highScore == old(Store().highScore)
      ensures RecordFed(old(MoveCombos(true, now)))
      ensures statsTracker != null && completes && scoreSystem != null ==>
                Record().gameTime == 0 && Record().finalScore == scoreSystem.TotalScore()
      ensures statsTracker != null && !(completes && scoreSystem != null) ==>
                Record().gameTime == old(Record().gameTime) && Record().finalScore == old(Record().finalScore)
    {
      ReportMove(true, now);
      if completes {
        HandleGameCompletion(now);
      }
    }

    /** Both slot cards turn face down and can be clicked again; the move is reported as a failure. */
    method HandleFailedMatch(now: int)
      requires Valid() && BothSelected()
      modifies firstSelectedCard, secondSelectedCard, scoreSystem, Record()
      ensures Roster() && Wired()
      ensures !firstSelectedCard.revealed && firstSelectedCard.interactable
      ensures !secondSelectedCard.revealed && secondSelectedCard.interactable
      ensures var f := firstSelectedCard; f.sprite == old(f.sprite) && f.position == old(f.position) && !f.matched
      ensures var g := secondSelectedCard; g.sprite == old(g.sprite) && g.position == old(g.position) && !g.matched
      ensures scoreSystem != null ==> scoreSystem.State() == FailedOf(scoreSystem.config, old(scoreSystem.State()))
      ensures statsTracker != null ==>
                Record().totalMoves == old(Record().totalMoves) + 1
                && Record().successfulMatches == old(Record().successfulMatches)
                && Record().failedMatches == old(Record().failedMatches) + 1
                && Record().gameTime == old(Record().gameTime) && Record().finalScore == old(Record().finalScore)
      ensures RecordFed(old(MoveCombos(false, now)))
    {
      HidePair();
      ReportMove(false, now);
    }

    /** The card half of HandleFailedMatch: both slot cards turn face down and can be clicked again. */
    method HidePair()
      requires Roster() && Slots() && BothSelected()
      modifies firstSelectedCard, secondSelectedCard
      ensures Roster()
      ensures !firstSelectedCard.revealed && firstSelectedCard.interactable
      ensures !secondSelectedCard.revealed && secondSelectedCard.interactable
      ensures var f := firstSelectedCard;
                f.sprite == old(f.sprite) && f.position == old(f.position) && !f.matched && !f.destroyed
      ensures var g := secondSelectedCard;
                g.sprite == old(g.sprite) && g.position == old(g.position) && !g.matched && !g.destroyed
    {
      ghost var v0 := Views(allCards);
      firstSelectedCard.HideCard();
      secondSelectedCard.HideCard();
      CountMatchedSameFlags(v0, Views(allCards));
    }

    /**
     * The score system's state after a resolved pair: a failed move, a
     * successful one, or a successful one that completes the game.
     */
    function ResolvedOf(cfg: ScoringConfig, s: ScoreState, isMatch: bool, completes: bool, now: int): ScoreState
    {
      if isMatch && completes then EndGameOf(cfg, SuccessOf(cfg, s, now), now) else MoveOf(cfg, s, isMatch, now)
    }

    /**
     * What resolving the pair f, g did, judged by their sprites before the
     * call. Both cards keep their sprite and position either way.
     * Equal sprites: both cards matched and locked, still face up, one more
     * pair, the game over once half the cards are paired. Different sprites:
     * both cards face down, unmatched and clickable again, the counts kept.
     * The collaborators' part is PairScored.
     */
    twostate predicate PairResolved(f: Card, g: Card, now: int)
      reads this`allCards, this`matchedPairsCount, this`isGameActive, f, g
      reads scoreSystem, statsTracker, Record(), Store()
    {
      var isMatch := old(f.sprite == g.sprite);
      var completes := isMatch && matchedPairsCount >= |allCards| / 2;
      f.sprite == old(f.sprite) && f.position == old(f.position)
      && g.sprite == old(g.sprite) && g.position == old(g.position)
      && (isMatch ==>
            f.matched && g.matched && !f.interactable && !g.interactable
            && f.revealed == old(f.revealed) && g.revealed == old(g.revealed)
            && matchedPairsCount == old(matchedPairsCount) + 1
            && isGameActive == (old(isGameActive) && !completes))
      && (!isMatch ==>
            !f.revealed && !g.revealed && f.interactable && g.interactable && !f.matched && !g.matched
            && matchedPairsCount == old(matchedPairsCount) && isGameActive == old(isGameActive))
      && PairScored(isMatch, completes, now)
    }

    /**
     * The collaborators' part of a resolved pair. The score system applies
     * ResolvedOf: a failed move, a successful one, or a successful one and
     * the end of the session when it completes the game. The record counts
     * one more move and one more success or failure, is fed the move's combo
     * values (RecordFed), and on completion with a score system holds game
     * time 0 and the total score as its final score; otherwise its time and
     * final score are kept. The high score is saved on completion and left
     * alone otherwise.
     */
    twostate predicate PairScored(isMatch: bool, completes: bool, now: int)
      reads scoreSystem, statsTracker, Record(), Store()
    {
      (scoreSystem != null ==>
         scoreSystem.State() == ResolvedOf(scoreSystem.config, old(scoreSystem.State()), isMatch, completes, now))
      && RecordFed(old(MoveCombos(isMatch, now)))
      && (statsTracker != null ==>
            Record().totalMoves == old(Record().totalMoves) + 1
            && Record().successfulMatches == old(Record().successfulMatches) + (if isMatch then 1 else 0)
            && Record().failedMatches == old(Record().failedMatches) + (if isMatch then 0 else 1)
            && (completes && scoreSystem != null ==>
                  Record().gameTime == 0 && Record().finalScore == scoreSystem.TotalScore())
            && (!(completes && scoreSystem != null) ==>
                  Record().gameTime == old(Record().gameTime) && Record().finalScore == old(Record().finalScore))
            && (completes ==> Store().GetInt(0) == HighScoreAfter(old(Store().GetInt(0)), Record().finalScore))
            && (!completes ==> Store().highScore == old(Store().highScore)))
    }

    /**
     * The CheckForMatch coroutine resumes. When both slot cards still exist
     * the pair is resolved (see ResolvePair); either way both slots are
     * emptied.
     */
    method ResolveMatchCheck(now: int)
      requires Valid() && pendingChecks != [] && pendingChecks[0] <= now
      modifies firstSelectedCard, secondSelectedCard, this`firstSelectedCard, this`secondSelectedCard, this`pendingChecks
      modifies this`matchedPairsCount, this`isGameActive, scoreSystem, Record(), Store()
      ensures Valid()
      ensures firstSelectedCard == null && secondSelectedCard == null
      ensures pendingChecks == old(pendingChecks[1..])
      ensures old(BothSelected()) ==> PairResolved(old(firstSelectedCard), old(secondSelectedCard), now)
      ensures !old(BothSelected()) ==>
                matchedPairsCount == old(matchedPairsCount) && isGameActive == old(isGameActive)
      ensures !old(BothSelected()) && scoreSystem != null ==> unchanged(scoreSystem)
      ensures !old(BothSelected()) && statsTracker != null ==> unchanged(Record()) && unchanged(Store())
      ensures !old(BothSelected()) && old(firstSelectedCard) != null ==> unchanged(old(firstSelectedCard))
      ensures !old(BothSelected()) && old(secondSelectedCard) != null ==> unchanged(old(secondSelectedCard))
    {
      pendingChecks := pendingChecks[1..];
      SettleSelection(now);
    }

    /** The body of the resumed check: resolve the pair when both slots hold a card, then empty both slots. */
    method SettleSelection(now: int)
      requires Valid()
      modifies firstSelectedCard, secondSelectedCard, this`firstSelectedCard, this`secondSelectedCard
      modifies this`matchedPairsCount, this`isGameActive, scoreSystem, Record(), Store()
      ensures Valid()
      ensures firstSelectedCard == null && secondSelectedCard == null
      ensures old(BothSelected()) ==> PairResolved(old(firstSelectedCard), old(secondSelectedCard), now)
      ensures !old(BothSelected()) ==>
                matchedPairsCount == old(matchedPairsCount) && isGameActive == old(isGameActive)
      ensures !old(BothSelected()) && scoreSystem != null ==> unchanged(scoreSystem)
      ensures !old(BothSelected()) && statsTracker != null ==> unchanged(Record()) && unchanged(Store())
      ensures !old(BothSelected()) && old(firstSelectedCard) != null ==> unchanged(old(firstSelectedCard))
      ensures !old(BothSelected()) && old(secondSelectedCard) != null ==> unchanged(old(secondSelectedCard))
    {
      if BothSelected() {
        ResolvePair(now);
      }
      ClearSelection();
    }

    /**
     * The two slot cards are compared by their front sprite: equal sprites
     * are a successful match, different ones a failed match.
     */
    method ResolvePair(now: int)
      requires Valid() && BothSelected()
      modifies firstSelectedCard, secondSelectedCard, this`matchedPairsCount, this`isGameActive
      modifies scoreSystem, Record(), Store()
      ensures Roster() && Wired()
      ensures PairResolved(firstSelectedCard, secondSelectedCard, now)
    {
      var isMatch := firstSelectedCard.sprite == secondSelectedCard.sprite;
      if isMatch {
        HandleSuccessfulMatch(now);
      } else {
        HandleFailedMatch(now);
      }
    }

    /** Empties both selection slots. */
    method ClearSelection()
      requires Roster()
      modifies this`firstSelectedCard, this`secondSelectedCard
      ensures Roster() && Slots()
      ensures firstSelectedCard == null && secondSelectedCard == null
    {
      firstSelectedCard := null;
      secondSelectedCard := null;
      RosterKept();
    }

    /** Ends a running game as if it had been completed; on a game already over it does nothing. */
    method EndGame(now: int)
      requires Valid()
      modifies this`isGameActive, scoreSystem, Record(), Store()
      ensures Valid() && !isGameActive
      ensures !old(isGameActive) && scoreSystem != null ==> unchanged(scoreSystem)
      ensures !old(isGameActive) && statsTracker != null ==> unchanged(Record()) && unchanged(Store())
      ensures old(isGameActive) && scoreSystem != null ==>
                scoreSystem.State() == EndGameOf(scoreSystem.config, old(scoreSystem.State()), now)
      ensures old(isGameActive) && statsTracker != null ==>
                Store().GetInt(0) == HighScoreAfter(old(Store().GetInt(0)), Record().finalScore)
      ensures old(isGameActive) && statsTracker != null && scoreSystem != null ==>
                Record().gameTime == 0 && Record().finalScore == scoreSystem.TotalScore()
      ensures old(isGameActive) && statsTracker != null && scoreSystem == null ==>
                Record().gameTime == old(Record().gameTime) && Record().finalScore == old(Record().finalScore)
      ensures RecordFed([])
    {
      if isGameActive {
        HandleGameCompletion(now);
        SlotsKept();
      }
    }

    // -------------------------------------------------------------------
    // Clearing, restarting and restoring

    /**
     * Destroys every card of the board and empties the card and pair lists.
     * The pair count and the selection slots are left as they are; a slot
     * card, being one of the destroyed cards, no longer counts as present.
     */
    method ClearGameBoard()
      requires Slots()
      modifies allCards, this`allCards, this`cardSpritePairs
      ensures allCards == [] && cardSpritePairs == []
      ensures forall k :: 0 <= k < |old(allCards)| ==> old(allCards)[k].destroyed
      ensures !Present(firstSelectedCard) && !Present(secondSelectedCard)
    {
      var i := 0;
      while i < |allCards|
        invariant 0 <= i <= |allCards| && allCards == old(allCards)
        invariant forall k :: 0 <= k < i ==> allCards[k].destroyed
      {
        allCards[i].Destroy();
        i := i + 1;
      }
      allCards := [];
      cardSpritePairs := [];
    }

    /**
     * RestartGame: clears the board, counts no pairs, reactivates the board,
     * restarts the score system's session and the statistics record, and
     * initialises a new game. Pending coroutines are not stopped.
     */
    method RestartGame(now: int, spriteDraws: seq<int>, positionDraws: seq<int>) returns (ok: bool)
      requires Valid()
      requires ValidDraws(spriteDraws, DealtCards(config))
      requires ValidDraws(positionDraws, |GridSpec(config.rows, config.columns)|)
      modifies allCards, this`allCards, this`cardSpritePairs, this`matchedPairsCount, this`isGameActive
      modifies this`constraintCount, this`pendingRevealEnds, scoreSystem, Record()
      ensures Valid()
      ensures forall k :: 0 <= k < |old(allCards)| ==> old(allCards)[k].destroyed
      ensures matchedPairsCount == 0 && isGameActive
      ensures GetConstraintCount() == config.gridColumn
      ensures ok <==> PairsNeeded(config) <= 0 || |config.availableCards| > 0
      ensures !ok ==> allCards == [] && cardSpritePairs == [] && pendingRevealEnds == old(pendingRevealEnds)
      ensures ok ==> Dealt(spriteDraws, positionDraws)
      ensures ok ==> pendingRevealEnds == old(pendingRevealEnds) + [now + config.initialRevealDuration]
      ensures scoreSystem != null ==> scoreSystem.State() == StartGameOf(scoreSystem.config, old(scoreSystem.State()), now)
      ensures RecordCleared()
    {
      ClearForRestart(now);
      ghost var mid := if scoreSystem != null then scoreSystem.State() else ScoreState(0, 0, 0, 1, 0, 0, false, None);
      ok := InitializeGame(now, spriteDraws, positionDraws);
      if ok {
        assert scoreSystem != null ==> scoreSystem.State() == StartGameOf(scoreSystem.config, mid, now);
      } else {
        assert scoreSystem != null ==> scoreSystem.State() == mid;
      }
    }

    /** RestartGame up to the new deal: an empty, active board and restarted collaborators. */
    method ClearForRestart(now: int)
      requires Valid()
      modifies allCards, this`allCards, this`cardSpritePairs, this`matchedPairsCount, this`isGameActive
      modifies scoreSystem, Record()
      ensures Valid()
      ensures allCards == [] && cardSpritePairs == [] && matchedPairsCount == 0 && isGameActive
      ensures forall k :: 0 <= k < |old(allCards)| ==> old(allCards)[k].destroyed
      ensures scoreSystem != null ==> scoreSystem.State() == StartGameOf(scoreSystem.config, old(scoreSystem.State()), now)
      ensures RecordCleared()
    {
      ResetBoard();
      RestartSession(now);
    }

    /** The board half of RestartGame before the new deal: no cards, no pairs, active. */
    method ResetBoard()
      requires Valid()
      modifies allCards, this`allCards, this`cardSpritePairs, this`matchedPairsCount, this`isGameActive
      ensures Valid()
      ensures allCards == [] && cardSpritePairs == [] && matchedPairsCount == 0 && isGameActive
      ensures forall k :: 0 <= k < |old(allCards)| ==> old(allCards)[k].destroyed
    {
      ClearGameBoard();
      matchedPairsCount := 0;
      isGameActive := true;
    }

    /** The collaborator half of RestartGame: the score system restarts its session, then a new statistics record. */
    method RestartSession(now: int)
      requires Valid()
      modifies scoreSystem, Record()
      ensures Valid()
      ensures scoreSystem != null ==> scoreSystem.State() == StartGameOf(scoreSystem.config, old(scoreSystem.State()), now)
      ensures RecordCleared()
    {
      if scoreSystem != null {
        var _ := scoreSystem.RestartGame(now);
      }
      if statsTracker != null {
        statsTracker.StartNewGame();
      }
      RosterKept();
      SlotsKept();
    }

    /**
     * RestoreBoardState: with no saved records (none at all, or an empty
     * list) nothing happens. Otherwise the board is cleared and rebuilt from
     * the records (see RebuildFromSave).
     */
    method RestoreBoardState(savedCardsData: Option<seq<CardData>>, constraint: int)
      requires Valid()
      modifies allCards, this`allCards, this`cardSpritePairs, this`constraintCount, this`matchedPairsCount
      modifies this`firstSelectedCard
      ensures Valid()
      ensures savedCardsData.None? || savedCardsData.value == [] ==>
                allCards == old(allCards) && unchanged(allCards) && cardSpritePairs == old(cardSpritePairs)
                && constraintCount == old(constraintCount) && firstSelectedCard == old(firstSelectedCard)
      ensures savedCardsData.Some? && savedCardsData.value != [] ==>
                Views(allCards) == RestoreAll(config.availableCards, savedCardsData.value, prefabPosition)
                && cardSpritePairs == [] && GetConstraintCount() == constraint
      ensures savedCardsData.Some? && savedCardsData.value != [] ==>
                forall k :: 0 <= k < |old(allCards)| ==> old(allCards)[k].destroyed
      ensures savedCardsData.Some? && savedCardsData.value != [] && CountPending(Views(allCards)) == 1 ==>
                Present(firstSelectedCard) && firstSelectedCard in allCards
      ensures savedCardsData.Some? && savedCardsData.value != [] && CountPending(Views(allCards)) != 1 ==>
                firstSelectedCard == old(firstSelectedCard) && !Present(firstSelectedCard)
      ensures savedCardsData.Some? && savedCardsData.value != [] ==> !Present(secondSelectedCard)
    {
      if savedCardsData.None? || |savedCardsData.value| == 0 {
        return;
      }
      RebuildFromSave(savedCardsData.value, constraint);
    }

    /**
     * The rebuild of RestoreBoardState: the old cards are destroyed, one card
     * per record whose sprite name resolves is created with the saved flags
     * (at the prefab position), the pair count is recounted, and a single
     * face-up unmatched card becomes the first selection. The second slot is
     * not reset; its old card is destroyed.
     */
    method RebuildFromSave(data: seq<CardData>, constraint: int)
      requires Valid()
      modifies allCards, this`allCards, this`cardSpritePairs, this`constraintCount, this`matchedPairsCount
      modifies this`firstSelectedCard
      ensures Valid()
      ensures Views(allCards) == RestoreAll(config.availableCards, data, prefabPosition)
      ensures cardSpritePairs == [] && constraintCount == constraint
      ensures forall k :: 0 <= k < |old(allCards)| ==> old(allCards)[k].destroyed
      ensures CountPending(Views(allCards)) == 1 ==> Present(firstSelectedCard) && firstSelectedCard in allCards
      ensures CountPending(Views(allCards)) != 1 ==> firstSelectedCard == old(firstSelectedCard) && !Present(firstSelectedCard)
      ensures !Present(secondSelectedCard)
    {
      ClearAndRestore(data, constraint);
      RecountPairs();
      RestoreSelection();
    }

    /** The first part of the rebuild: the old cards destroyed, the saved ones created. */
    method ClearAndRestore(data: seq<CardData>, constraint: int)
      requires Slots()
      modifies allCards, this`allCards, this`cardSpritePairs, this`constraintCount
      ensures Views(allCards) == RestoreAll(config.availableCards, data, prefabPosition)
      ensures cardSpritePairs == [] && constraintCount == constraint
      ensures forall k :: 0 <= k < |allCards| ==> !allCards[k].destroyed
      ensures forall a, b :: 0 <= a < b < |allCards| ==> allCards[a] != allCards[b]
      ensures forall k :: 0 <= k < |old(allCards)| ==> old(allCards)[k].destroyed
      ensures !Present(firstSelectedCard) && !Present(secondSelectedCard)
    {
      ClearGameBoard();
      constraintCount := constraint;
      RestoreCards(data);
    }

    /** The recount of the rebuild: the pair count is the matched cards over two. */
    method RecountPairs()
      requires forall a, b :: 0 <= a < b < |allCards| ==> allCards[a] != allCards[b]
      requires forall k :: 0 <= k < |allCards| ==> !allCards[k].destroyed
      modifies this`matchedPairsCount
      ensures Roster()
    {
      var matchedCards := CountMatchedCards();
      matchedPairsCount := matchedCards / 2;
    }

    /**
     * The last part of the rebuild: when exactly one card is face up and
     * unmatched it becomes the first selection; otherwise the slot is kept.
     */
    method RestoreSelection()
      requires Roster() && !Present(firstSelectedCard) && !Present(secondSelectedCard)
      modifies this`firstSelectedCard
      ensures Roster() && Slots() && !Present(secondSelectedCard)
      ensures CountPending(Views(allCards)) == 1 ==> Present(firstSelectedCard) && firstSelectedCard in allCards
      ensures CountPending(Views(allCards)) != 1 ==> firstSelectedCard == old(firstSelectedCard)
    {
      var flippedCount, singleFlippedCard := FindSingleFlipped();
      if flippedCount == 1 {
        firstSelectedCard := singleFlippedCard;
      }
    }

    /** The creation loop of RestoreBoardState: one card per record whose sprite name resolves. */
    method RestoreCards(data: seq<CardData>)
      requires allCards == []
      modifies this`allCards
      ensures Views(allCards) == RestoreAll(config.availableCards, data, prefabPosition)
      ensures forall k :: 0 <= k < |allCards| ==> !allCards[k].destroyed
      ensures forall a, b :: 0 <= a < b < |allCards| ==> allCards[a] != allCards[b]
    {
      ghost var pool := config.availableCards;
      ghost var restored: seq<CardView> := [];
      var i := 0;
      while i < |data|
        invariant 0 <= i <= |data|
        invariant restored == RestoreAll(pool, data[..i], prefabPosition)
        invariant |allCards| == |restored|
        invariant forall k :: 0 <= k < |allCards| ==> !allCards[k].destroyed
        invariant forall k :: 0 <= k < |allCards| ==> ViewOf(allCards[k]) == restored[k]
        invariant forall a, b :: 0 <= a < b < |allCards| ==> allCards[a] != allCards[b]
      {
        var cardData := data[i];
        RestoreAllStep(pool, data, i, prefabPosition);
        var newCard := RestoredCard(cardData);
        if newCard != null {
          allCards := allCards + [newCard];
        }
        restored := restored + RestoreOne(pool, cardData, prefabPosition);
        i := i + 1;
      }
      assert data[..i] == data;
      assert Views(allCards) == restored by {
        forall k | 0 <= k < |allCards|
          ensures Views(allCards)[k] == restored[k]
        {
        }
      }
    }

    /** One card of RestoreBoardState: the prefab with the record's sprite and saved flags. */
    method RestoredCard(cardData: CardData) returns (newCard: Card?)
      ensures newCard == null <==> RestoreOne(config.availableCards, cardData, prefabPosition) == []
      ensures newCard != null ==> fresh(newCard) && !newCard.destroyed && newCard.interactable == !newCard.matched
      ensures newCard != null ==> RestoreOne(config.availableCards, cardData, prefabPosition) == [ViewOf(newCard)]
    {
      var cardSprite := FindSpriteByName(cardData.cardSpriteName);
      if cardSprite.None? {
        return null;
      }
      newCard := new Card(cardSprite.value, prefabPosition);
      newCard.RestoreCardState(cardData.isFlipped, cardData.isMatched);
    }

    /** The recount loop of RestoreBoardState: how many cards are matched. */
    method CountMatchedCards() returns (n: int)
      ensures n == CountMatched(Views(allCards))
    {
      ghost var vs := Views(allCards);
      n := 0;
      var i := 0;
      while i < |allCards|
        invariant 0 <= i <= |allCards|
        invariant n == CountMatched(vs[..i])
      {
        assert vs[..i + 1][..i] == vs[..i];
        if allCards[i].matched {
          n := n + 1;
        }
        i := i + 1;
      }
      assert vs[..i] == vs;
    }

    /**
     * The face-up scan of RestoreBoardState: how many cards are face up and
     * unmatched, and the last of them.
     */
    method FindSingleFlipped() returns (flippedCount: int, single: Card?)
      ensures flippedCount == CountPending(Views(allCards))
      ensures flippedCount == 0 <==> single == null
      ensures single != null ==> single in allCards && single.revealed && !single.matched
    {
      ghost var vs := Views(allCards);
      flippedCount := 0;
      single := null;
      var i := 0;
      while i < |allCards|
        invariant 0 <= i <= |allCards|
        invariant flippedCount == CountPending(vs[..i])
        invariant flippedCount == 0 <==> single == null
        invariant single != null ==> single in allCards && single.revealed && !single.matched
      {
        assert vs[..i + 1][..i] == vs[..i];
        var card := allCards[i];
        if card.revealed && !card.matched {
          flippedCount := flippedCount + 1;
          single := card;
        }
        i := i + 1;
      }
      assert vs[..i] == vs;
    }
  }
}
