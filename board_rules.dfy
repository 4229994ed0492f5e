/**
 * The value-level rules of the board: the pair list, the grid layout, the
 * value view of a card, the counts the board keeps, the sprite lookup by name
 * and the save/restore mapping between cards and CardData records.
 */
module BoardRules {
  import opened Wrappers
  import opened Engine
  import opened GameDataModel

  /**
   * The board configuration asset. `matchCheckDelay` and
   * `initialRevealDuration` are in clock ticks.
   */
  datatype BoardConfig = BoardConfig(
    availableCards: seq<Sprite>,
    rows: int,
    columns: int,
    gridColumn: int,
    matchCheckDelay: int,
    initialRevealDuration: int)

  /** C# `a / 2` on int, which truncates toward zero. */
  function TruncHalf(a: int): (h: int)
    ensures a >= 0 ==> 2 * h <= a <= 2 * h + 1
    ensures a < 0 ==> 2 * h - 1 <= a <= 2 * h
  {
    if a >= 0 then a / 2 else -((-a) / 2)
  }

  /** `(rows * columns) / 2`: how many pairs the board deals. */
  function PairsNeeded(cfg: BoardConfig): int
  {
    TruncHalf(cfg.rows * cfg.columns)
  }

  // ---------------------------------------------------------------------
  // The pair list

  /** The sprites pool[0 % |pool|], ..., pool[(n - 1) % |pool|]: the pool repeated cyclically. */
  function PoolCycle(pool: seq<Sprite>, n: int): (r: seq<Sprite>)
    requires n <= 0 || |pool| > 0
    ensures |r| == if n <= 0 then 0 else n
    decreases n
  {
    if n <= 0 then [] else PoolCycle(pool, n - 1) + [pool[(n - 1) % |pool|]]
  }

  /** Every entry of the list twice in a row. */
  function Doubled(xs: seq<Sprite>): (r: seq<Sprite>)
    ensures |r| == 2 * |xs|
    decreases |xs|
  {
    if xs == [] then [] else Doubled(xs[..|xs| - 1]) + [xs[|xs| - 1], xs[|xs| - 1]]
  }

  /**
   * The list PrepareCardSprites builds before shuffling: for i below `pairs`,
   * the sprite pool[i % |pool|] twice in a row.
   */
  function PairList(pool: seq<Sprite>, pairs: int): (r: seq<Sprite>)
    requires pairs <= 0 || |pool| > 0
    ensures |r| == if pairs <= 0 then 0 else 2 * pairs
  {
    Doubled(PoolCycle(pool, pairs))
  }

  /** One more loop iteration: the pair list grows by the next sprite, twice. */
  lemma PairListGrows(pool: seq<Sprite>, i: int)
    requires 0 <= i && |pool| > 0
    ensures PairList(pool, i + 1) == PairList(pool, i) + [pool[i % |pool|], pool[i % |pool|]]
  {
    assert PoolCycle(pool, i + 1)[..i] == PoolCycle(pool, i);
  }

  /** Entry j of the doubled list is entry j / 2 of the original. */
  lemma {:induction false} DoubledEntries(xs: seq<Sprite>)
    ensures forall j :: 0 <= j < |Doubled(xs)| ==> Doubled(xs)[j] == xs[j / 2]
    decreases |xs|
  {
    if xs != [] {
      var n := |xs| - 1;
      DoubledEntries(xs[..n]);
      forall j | 0 <= j < |Doubled(xs)|
        ensures Doubled(xs)[j] == xs[j / 2]
      {
        if j < 2 * n {
          assert Doubled(xs)[j] == Doubled(xs[..n])[j];
        }
      }
    }
  }

  /** Entries 2i and 2i + 1 of the pair list are both pool[i % |pool|]. */
  lemma {:induction false} PoolCycleEntries(pool: seq<Sprite>, n: int)
    requires n <= 0 || |pool| > 0
    ensures forall i :: 0 <= i < |PoolCycle(pool, n)| ==> PoolCycle(pool, n)[i] == pool[i % |pool|]
    decreases n
  {
    if n > 0 {
      PoolCycleEntries(pool, n - 1);
    }
  }

  lemma PairListEntries(pool: seq<Sprite>, pairs: int)
    requires pairs <= 0 || |pool| > 0
    ensures forall j :: 0 <= j < |PairList(pool, pairs)| ==> PairList(pool, pairs)[j] == pool[(j / 2) % |pool|]
  {
    DoubledEntries(PoolCycle(pool, pairs));
    PoolCycleEntries(pool, pairs);
  }

  /** Doubling a list doubles every count. */
  lemma {:induction false} DoubledCounts(xs: seq<Sprite>, s: Sprite)
    ensures multiset(Doubled(xs))[s] == 2 * multiset(xs)[s]
    decreases |xs|
  {
    if xs != [] {
      var n := |xs| - 1;
      DoubledCounts(xs[..n], s);
      assert xs == xs[..n] + [xs[n]];
      assert multiset(Doubled(xs)) == multiset(Doubled(xs[..n])) + multiset([xs[n], xs[n]]);
      assert multiset(xs) == multiset(xs[..n]) + multiset([xs[n]]);
    }
  }

  /** Every sprite occurs an even number of times in the pair list. */
  lemma PairListCountsEven(pool: seq<Sprite>, pairs: int, s: Sprite)
    requires pairs <= 0 || |pool| > 0
    ensures multiset(PairList(pool, pairs))[s] % 2 == 0
  {
    var xs := PoolCycle(pool, pairs);
    DoubledCounts(xs, s);
    TwiceIsEven(multiset(xs)[s]);
  }

  lemma TwiceIsEven(m: int)
    ensures (2 * m) % 2 == 0
  {
  }

  lemma ModSmall(x: int, n: int)
    requires 0 <= x < n
    ensures x % n == x
  {
  }

  /** With no more pairs than sprites, the cycle is a prefix of the pool. */
  lemma {:induction false} PoolCyclePrefix(pool: seq<Sprite>, n: int)
    requires 0 <= n <= |pool|
    ensures PoolCycle(pool, n) == pool[..n]
    decreases n
  {
    if n > 0 {
      PoolCyclePrefix(pool, n - 1);
      ModSmall(n - 1, |pool|);
      assert pool[..n] == pool[..n - 1] + [pool[n - 1]];
    }
  }

  /** In a pool of distinct sprites, a prefix holds pool[k] once if it reaches k and not at all otherwise. */
  lemma {:induction false} PrefixCounts(pool: seq<Sprite>, n: int, k: int)
    requires 0 <= n <= |pool| && 0 <= k < |pool|
    requires forall i, j :: 0 <= i < j < |pool| ==> pool[i] != pool[j]
    ensures multiset(pool[..n])[pool[k]] == if k < n then 1 else 0
    decreases n
  {
    if n > 0 {
      PrefixCounts(pool, n - 1, k);
      assert pool[..n] == pool[..n - 1] + [pool[n - 1]];
      assert multiset(pool[..n]) == multiset(pool[..n - 1]) + multiset([pool[n - 1]]);
      if k < n - 1 {
        assert pool[k] != pool[n - 1];
      } else if k > n - 1 {
        assert pool[n - 1] != pool[k];
      }
    }
  }

  /**
   * With a pool of distinct sprites and no more pairs than sprites, each of the
   * first `pairs` sprites occurs exactly twice and the others not at all.
   */
  lemma PairListCountsDistinct(pool: seq<Sprite>, pairs: int, k: int)
    requires 0 <= pairs <= |pool| && 0 <= k < |pool|
    requires forall i, j :: 0 <= i < j < |pool| ==> pool[i] != pool[j]
    ensures multiset(PairList(pool, pairs))[pool[k]] == if k < pairs then 2 else 0
  {
    DoubledCounts(PoolCycle(pool, pairs), pool[k]);
    PoolCyclePrefix(pool, pairs);
    PrefixCounts(pool, pairs, k);
  }

  // ---------------------------------------------------------------------
  // The grid

  /** The local position of grid cell (row, col): spacing 120, centred on the origin. */
  function GridCell(rows: int, cols: int, row: int, col: int): Vector3
  {
    Vector3(col * 120 - (cols - 1) * 60, -row * 120 + (rows - 1) * 60, 0)
  }

  /** The grid positions in row-major order: entry row * cols + col is cell (row, col). */
  function GridSpec(rows: int, cols: int): (g: seq<Vector3>)
    ensures |g| == if rows <= 0 || cols <= 0 then 0 else rows * cols
  {
    if rows <= 0 || cols <= 0 then []
    else seq(rows * cols, k => GridCell(rows, cols, k / cols, k % cols))
  }

  lemma MulAtLeast(d: int, c: int)
    requires d >= 1 && c >= 0
    ensures d * c >= c
  {
  }

  lemma RowMajorIndex(row: int, col: int, cols: int)
    requires 0 <= row && 0 <= col < cols
    ensures (row * cols + col) / cols == row && (row * cols + col) % cols == col
  {
    var k := row * cols + col;
    var q := k / cols;
    if q > row {
      MulAtLeast(q - row, cols);
    } else if q < row {
      MulAtLeast(row - q, cols);
    }
  }

  /** Entry row * cols + col of the grid is the cell (row, col). */
  lemma GridSpecCell(rows: int, cols: int, row: int, col: int)
    requires 0 <= row < rows && 0 <= col < cols
    ensures 0 <= row * cols + col < |GridSpec(rows, cols)|
    ensures GridSpec(rows, cols)[row * cols + col] == GridCell(rows, cols, row, col)
  {
    RowMajorIndex(row, col, cols);
    assert row * cols <= (rows - 1) * cols;
  }

  /** No two grid entries share a position, so no two cards are placed on top of each other. */
  lemma GridPositionsDistinct(rows: int, cols: int, k1: int, k2: int)
    requires 0 <= k1 < |GridSpec(rows, cols)| && 0 <= k2 < |GridSpec(rows, cols)| && k1 != k2
    ensures GridSpec(rows, cols)[k1] != GridSpec(rows, cols)[k2]
  {
  }

  // ---------------------------------------------------------------------
  // The value view of the cards and the counts the board keeps

  /** What the board and the save record see of one card. */
  datatype CardView = CardView(sprite: Sprite, position: Vector3, revealed: bool, matched: bool)

  function CountMatched(vs: seq<CardView>): (n: nat)
    ensures n <= |vs|
    decreases |vs|
  {
    if vs == [] then 0
    else CountMatched(vs[..|vs| - 1]) + (if vs[|vs| - 1].matched then 1 else 0)
  }

  /** Cards face up but not matched: a selection that has not been resolved. */
  function CountPending(vs: seq<CardView>): (n: nat)
    ensures n <= |vs|
    decreases |vs|
  {
    if vs == [] then 0
    else CountPending(vs[..|vs| - 1]) + (if vs[|vs| - 1].revealed && !vs[|vs| - 1].matched then 1 else 0)
  }

  /** The cards CreateGameBoard instantiates: one face-down, unmatched card per sprite, at `at`. */
  function DealtViews(sprites: seq<Sprite>, at: Vector3): (vs: seq<CardView>)
    ensures |vs| == |sprites|
    ensures forall i :: 0 <= i < |sprites| ==> vs[i] == CardView(sprites[i], at, false, false)
  {
    seq(|sprites|, i requires 0 <= i < |sprites| => CardView(sprites[i], at, false, false))
  }

  /**
   * RandomizeCardPositions: card i moves to position i when there is one;
   * cards beyond the list of positions stay where they are.
   */
  function Placed(vs: seq<CardView>, ps: seq<Vector3>): (r: seq<CardView>)
    ensures |r| == |vs|
    ensures forall i :: 0 <= i < |vs| ==> r[i] == if i < |ps| then vs[i].(position := ps[i]) else vs[i]
  {
    seq(|vs|, i requires 0 <= i < |vs| => if i < |ps| then vs[i].(position := ps[i]) else vs[i])
  }

  /** The matched count depends only on the matched flags. */
  lemma {:induction false} CountMatchedSameFlags(a: seq<CardView>, b: seq<CardView>)
    requires |a| == |b|
    requires forall i :: 0 <= i < |a| ==> a[i].matched == b[i].matched
    ensures CountMatched(a) == CountMatched(b)
    decreases |a|
  {
    if a != [] {
      CountMatchedSameFlags(a[..|a| - 1], b[..|b| - 1]);
    }
  }

  /** Marking one unmatched card matched, and changing no other matched flag, adds one. */
  lemma {:induction false} CountMatchedMarkOne(a: seq<CardView>, b: seq<CardView>, i: int)
    requires |a| == |b| && 0 <= i < |a|
    requires forall j :: 0 <= j < |a| && j != i ==> a[j].matched == b[j].matched
    requires !a[i].matched && b[i].matched
    ensures CountMatched(b) == CountMatched(a) + 1
    decreases |a|
  {
    var n := |a| - 1;
    if i == n {
      CountMatchedSameFlags(a[..n], b[..n]);
    } else {
      CountMatchedMarkOne(a[..n], b[..n], i);
    }
  }

  /** Appending a card adds one to the matched count exactly when that card is matched. */
  lemma CountMatchedAppend(a: seq<CardView>, v: CardView)
    ensures CountMatched(a + [v]) == CountMatched(a) + (if v.matched then 1 else 0)
  {
    assert (a + [v])[..|a|] == a;
  }

  /** Freshly dealt cards are unmatched, so dealing them leaves the matched count alone. */
  lemma {:induction false} CountMatchedDealt(a: seq<CardView>, sprites: seq<Sprite>, at: Vector3)
    ensures CountMatched(a + DealtViews(sprites, at)) == CountMatched(a)
    decreases |sprites|
  {
    if sprites == [] {
      assert a + DealtViews(sprites, at) == a;
    } else {
      var n := |sprites| - 1;
      CountMatchedDealt(a, sprites[..n], at);
      assert a + DealtViews(sprites, at) == (a + DealtViews(sprites[..n], at)) + [CardView(sprites[n], at, false, false)];
      CountMatchedAppend(a + DealtViews(sprites[..n], at), CardView(sprites[n], at, false, false));
    }
  }

  /** Every card is matched exactly when the matched count is the number of cards. */
  lemma {:induction false} CountMatchedFull(vs: seq<CardView>)
    ensures CountMatched(vs) == |vs| <==> forall i :: 0 <= i < |vs| ==> vs[i].matched
    decreases |vs|
  {
    if vs != [] {
      var n := |vs| - 1;
      CountMatchedFull(vs[..n]);
      if CountMatched(vs) == |vs| {
        forall i | 0 <= i < |vs|
          ensures vs[i].matched
        {
          if i < n {
            assert vs[..n][i] == vs[i];
          }
        }
      }
      if forall i :: 0 <= i < |vs| ==> vs[i].matched {
        assert forall i :: 0 <= i < n ==> vs[..n][i].matched;
      }
    }
  }

  /**
   * On a board with an even number of cards, the completion test
   * `matchedPairs >= cards / 2`, with matchedPairs = matched / 2, holds exactly
   * when every card is matched.
   */
  lemma CompletionIffAllMatched(vs: seq<CardView>)
    requires |vs| % 2 == 0
    ensures CountMatched(vs) / 2 >= |vs| / 2 <==> forall i :: 0 <= i < |vs| ==> vs[i].matched
  {
    CountMatchedFull(vs);
  }

  // ---------------------------------------------------------------------
  // Sprite lookup by name

  /** `r` is the first sprite of the pool named `name`, or None when no sprite has that name. */
  predicate IsFirstNamed(pool: seq<Sprite>, name: string, r: Option<Sprite>)
  {
    (r.Some? ==> exists i :: 0 <= i < |pool| && pool[i] == r.value && r.value.name == name
                             && forall j :: 0 <= j < i ==> pool[j].name != name)
    && (r.None? ==> forall i :: 0 <= i < |pool| ==> pool[i].name != name)
  }

  /** A search result for the tail is one for the whole pool when the head has another name. */
  lemma FirstNamedShift(pool: seq<Sprite>, name: string, r: Option<Sprite>)
    requires pool != [] && pool[0].name != name
    requires IsFirstNamed(pool[1..], name, r)
    ensures IsFirstNamed(pool, name, r)
  {
    if r.Some? {
      var i :| 0 <= i < |pool[1..]| && pool[1..][i] == r.value && r.value.name == name
               && forall j :: 0 <= j < i ==> pool[1..][j].name != name;
      assert pool[i + 1] == r.value;
      forall j | 0 <= j < i + 1
        ensures pool[j].name != name
      {
        if j > 0 {
          assert pool[j] == pool[1..][j - 1];
        }
      }
    } else {
      forall i | 0 <= i < |pool|
        ensures pool[i].name != name
      {
        if i > 0 {
          assert pool[i] == pool[1..][i - 1];
        }
      }
    }
  }

  /** The first sprite of the pool with the given name. */
  function FirstNamed(pool: seq<Sprite>, name: string): Option<Sprite>
    decreases |pool|
  {
    if pool == [] then None
    else if pool[0].name == name then Some(pool[0])
    else FirstNamed(pool[1..], name)
  }

  /** The search finds the first sprite with the name, or reports that none has it. */
  lemma {:induction false} FirstNamedIsFirst(pool: seq<Sprite>, name: string)
    ensures IsFirstNamed(pool, name, FirstNamed(pool, name))
    decreases |pool|
  {
    if pool != [] && pool[0].name != name {
      FirstNamedIsFirst(pool[1..], name);
      FirstNamedShift(pool, name, FirstNamed(pool[1..], name));
    }
  }

  /** FindSpriteByName: nothing for an empty name, otherwise the first sprite with that name. */
  function Lookup(pool: seq<Sprite>, name: string): Option<Sprite>
  {
    if name == "" then None else FirstNamed(pool, name)
  }

  /** A found sprite comes from the pool and carries the name; nothing is found only for an empty or unknown name. */
  lemma LookupSound(pool: seq<Sprite>, name: string)
    ensures Lookup(pool, name).Some? ==>
              name != "" && Lookup(pool, name).value in pool && Lookup(pool, name).value.name == name
    ensures Lookup(pool, name).None? ==> name == "" || forall i :: 0 <= i < |pool| ==> pool[i].name != name
  {
    if name != "" {
      FirstNamedIsFirst(pool, name);
    }
  }

  predicate UniqueNames(pool: seq<Sprite>)
  {
    forall i, j :: 0 <= i < j < |pool| ==> pool[i].name != pool[j].name
  }

  /** In a pool with unique names, a sprite with a non-empty name is found by its name. */
  lemma LookupFindsOwnName(pool: seq<Sprite>, s: Sprite)
    requires UniqueNames(pool) && s in pool && s.name != ""
    ensures Lookup(pool, s.name) == Some(s)
  {
    var r := Lookup(pool, s.name);
    FirstNamedIsFirst(pool, s.name);
    var k :| 0 <= k < |pool| && pool[k] == s;
    var i :| 0 <= i < |pool| && pool[i] == r.value && r.value.name == s.name
             && forall j :: 0 <= j < i ==> pool[j].name != s.name;
  }

  // ---------------------------------------------------------------------
  // Saving and restoring

  /** The record GetCardsData emits for one card. */
  function SaveEntry(v: CardView): CardData
  {
    NewCardData(v.sprite.name, v.revealed, v.matched, v.position)
  }

  function SaveAll(vs: seq<CardView>): (ds: seq<CardData>)
    ensures |ds| == |vs| && forall i :: 0 <= i < |vs| ==> ds[i] == SaveEntry(vs[i])
  {
    seq(|vs|, i requires 0 <= i < |vs| => SaveEntry(vs[i]))
  }

  /**
   * The card RestoreBoardState instantiates for one record: none when the
   * name does not resolve, otherwise a card with the saved flags at `at`,
   * the prefab's position (the saved position is not applied).
   */
  function RestoreOne(pool: seq<Sprite>, d: CardData, at: Vector3): seq<CardView>
  {
    match Lookup(pool, d.cardSpriteName)
    case None => []
    case Some(s) => [CardView(s, at, d.isFlipped, d.isMatched)]
  }

  function RestoreAll(pool: seq<Sprite>, ds: seq<CardData>, at: Vector3): (vs: seq<CardView>)
    ensures |vs| <= |ds|
    decreases |ds|
  {
    if ds == [] then []
    else RestoreAll(pool, ds[..|ds| - 1], at) + RestoreOne(pool, ds[|ds| - 1], at)
  }

  /** Restoring one more record appends what that record restores. */
  lemma RestoreAllStep(pool: seq<Sprite>, ds: seq<CardData>, i: int, at: Vector3)
    requires 0 <= i < |ds|
    ensures RestoreAll(pool, ds[..i + 1], at) == RestoreAll(pool, ds[..i], at) + RestoreOne(pool, ds[i], at)
  {
    assert ds[..i + 1][..i] == ds[..i];
  }

  /** Every restored card shows a sprite of the pool and stands at `at`. */
  lemma {:induction false} RestoreAllShape(pool: seq<Sprite>, ds: seq<CardData>, at: Vector3)
    ensures forall i :: 0 <= i < |RestoreAll(pool, ds, at)| ==>
              RestoreAll(pool, ds, at)[i].sprite in pool && RestoreAll(pool, ds, at)[i].position == at
    decreases |ds|
  {
    if ds != [] {
      RestoreAllShape(pool, ds[..|ds| - 1], at);
      LookupSound(pool, ds[|ds| - 1].cardSpriteName);
    }
  }

  /** The same cards, all moved to `at`. */
  function Reseat(vs: seq<CardView>, at: Vector3): (r: seq<CardView>)
    ensures |r| == |vs|
    ensures forall i :: 0 <= i < |vs| ==> r[i] == vs[i].(position := at)
  {
    seq(|vs|, i requires 0 <= i < |vs| => vs[i].(position := at))
  }

  /**
   * Restoring what was saved gives back the same cards, in order, with their
   * sprites and flags, provided every sprite is found again by its name; the
   * cards all stand at the prefab position.
   */
  lemma {:induction false} RestoreOfSave(pool: seq<Sprite>, vs: seq<CardView>, at: Vector3)
    requires UniqueNames(pool)
    requires forall i :: 0 <= i < |vs| ==> vs[i].sprite in pool && vs[i].sprite.name != ""
    ensures RestoreAll(pool, SaveAll(vs), at) == Reseat(vs, at)
    decreases |vs|
  {
    if vs != [] {
      var n := |vs| - 1;
      assert SaveAll(vs)[..n] == SaveAll(vs[..n]);
      RestoreOfSave(pool, vs[..n], at);
      LookupFindsOwnName(pool, vs[n].sprite);
      assert RestoreOne(pool, SaveAll(vs)[n], at) == [vs[n].(position := at)];
      assert Reseat(vs, at) == Reseat(vs[..n], at) + [vs[n].(position := at)];
    }
  }

  /**
   * Without any assumption on the pool's names, restoring what was saved
   * gives back as many cards, in order, each showing a sprite of the saved
   * name and carrying the saved flags.
   */
  lemma {:induction false} RestoreOfSaveKeepsNamesAndFlags(pool: seq<Sprite>, vs: seq<CardView>, at: Vector3)
    requires forall i :: 0 <= i < |vs| ==> vs[i].sprite in pool && vs[i].sprite.name != ""
    ensures |RestoreAll(pool, SaveAll(vs), at)| == |vs|
    ensures forall i :: 0 <= i < |vs| ==>
              var r := RestoreAll(pool, SaveAll(vs), at)[i];
              r.sprite.name == vs[i].sprite.name && r.revealed == vs[i].revealed && r.matched == vs[i].matched
    decreases |vs|
  {
    if vs != [] {
      var n := |vs| - 1;
      assert SaveAll(vs)[..n] == SaveAll(vs[..n]);
      RestoreOfSaveKeepsNamesAndFlags(pool, vs[..n], at);
      LookupSound(pool, vs[n].sprite.name);
      FirstNamedIsFirst(pool, vs[n].sprite.name);
    }
  }

  /** Records whose name is empty or unknown leave no card behind. */
  lemma RestoreSkipsUnresolved(pool: seq<Sprite>, ds: seq<CardData>, d: CardData, at: Vector3)
    requires Lookup(pool, d.cardSpriteName).None?
    ensures RestoreAll(pool, ds + [d], at) == RestoreAll(pool, ds, at)
  {
    assert (ds + [d])[..|ds|] == ds;
  }
}
