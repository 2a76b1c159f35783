/** One provider column: its stack of cards, the carousel order set up by
    `setupCarouselInteraction`, and the interval `spinColumn` runs over the cards. */
module Columns {
  import opened Games
  import opened Sampler
  import opened Ring
  import opened Schedule

  /** The sounds and effects the engine asks for; the audio itself is not modelled. */
  datatype Feedback = SpinTick | ColumnStop | LockSound | Jackpot | Confetti

  /** A card element: the game it shows and the classes that matter to the engine. */
  datatype Card = Card(game: Game, position: Position, spinning: bool, winning: bool)

  /** `spinColumn`'s interval: absent, or live with its `elapsed` counter and the
      `finalGames` it will settle on. */
  datatype Interval = Idle | Live(elapsed: int, finalGames: seq<Game>)

  /** The games the cards show, in card order. */
  function GamesOf(cards: seq<Card>): seq<Game>
  {
    seq(|cards|, i requires 0 <= i < |cards| => cards[i].game)
  }

  /** The stack `createInitialStack` builds from a draw of three: fresh cards at order
      [0, 1, 2], neither spinning nor winning. A stack of one card has no active card. */
  function FreshStack(pool: seq<Game>, shuffle: seq<Swap>): (cards: seq<Card>)
    requires SwapsWithin(shuffle, |pool|)
    ensures |cards| == Min(3, |pool|)
    ensures GamesOf(cards) == PickUniqueGames(pool, 3, shuffle)
    ensures multiset(GamesOf(cards)) <= multiset(pool)
    ensures forall i :: 0 <= i < |cards| ==>
      cards[i].position == PositionIn(Home, i) && !cards[i].spinning && !cards[i].winning
  {
    var random3 := PickUniqueGames(pool, 3, shuffle);
    var cards := seq(|random3|, i requires 0 <= i < |random3| => Card(random3[i], PositionIn(Home, i), false, false));
    assert GamesOf(cards) == random3;
    assert |pool| >= 2 ==> cards[1].position == Active;
    cards
  }

  /** A fresh stack has an active card exactly when the pool holds at least two games:
      a stack of one card sits in the left slot only. */
  lemma FreshStackActive(pool: seq<Game>, shuffle: seq<Swap>)
    requires SwapsWithin(shuffle, |pool|)
    ensures (exists i :: 0 <= i < |FreshStack(pool, shuffle)| && FreshStack(pool, shuffle)[i].position == Active)
            <==> |pool| >= 2
  {
    var cards := FreshStack(pool, shuffle);
    if |pool| >= 2 {
      assert cards[1].position == Active;
    }
  }

  class Column {
    const pool: seq<Game>
    const duration: int
    var cards: seq<Card>
    /** `currentOrder`. */
    var order: seq<nat>
    var interval: Interval
    var feedback: seq<Feedback>

    ghost predicate Valid()
      reads this
    {
      && duration > 0
      && IsRingOrder(order)
      && |cards| == Min(3, |pool|)
      && (forall i :: 0 <= i < |cards| ==> cards[i].position == PositionIn(order, i))
      && (forall i :: 0 <= i < |cards| ==> cards[i].spinning == interval.Live?)
      && multiset(GamesOf(cards)) <= multiset(pool)
      && (interval.Live? ==>
            && 0 <= interval.elapsed < duration
            && |interval.finalGames| == |cards|
            && multiset(interval.finalGames) <= multiset(pool))
    }

    /** The firings the live interval still has to make. */
    ghost function Remaining(): seq<Step>
      reads this
    {
      if interval.Live? then Steps(interval.elapsed, duration) else []
    }

    /** `populateInitialCards`: the column as the page first shows it. */
    constructor (pool: seq<Game>, duration: int, shuffle: seq<Swap>)
      requires duration > 0 && SwapsWithin(shuffle, |pool|)
      ensures Valid() && this.pool == pool && this.duration == duration
      ensures cards == FreshStack(pool, shuffle) && order == Home
      ensures interval == Idle && feedback == []
    {
      this.pool := pool;
      this.duration := duration;
      cards := [];
      order := Home;
      interval := Idle;
      feedback := [];
      new;
      CreateInitialStack(shuffle);
    }

    /** `createInitialStack` into this column's emptied container: a fresh draw of three,
        a new carousel at order [0, 1, 2]. An interval of the discarded cards no longer
        drives what is shown. */
    method CreateInitialStack(shuffle: seq<Swap>)
      requires duration > 0 && SwapsWithin(shuffle, |pool|)
      modifies this
      ensures Valid()
      ensures cards == FreshStack(pool, shuffle) && order == Home && interval == Idle
      ensures feedback == old(feedback)
    {
      var random3 := PickUniqueGames(pool, 3, shuffle);
      cards := seq(|random3|, i requires 0 <= i < |random3| => Card(random3[i], Unplaced, false, false));
      order := Home;
      interval := Idle;
      UpdateCardPositions();
      assert GamesOf(cards) == random3;
    }

    /** `getStack`: a locked column keeps its cards as they are; any other column is
        emptied and gets a fresh stack. */
    method GetStack(locked: bool, shuffle: seq<Swap>)
      requires Valid() && SwapsWithin(shuffle, |pool|)
      modifies this
      ensures Valid()
      ensures locked ==> unchanged(this)
      ensures !locked ==> cards == FreshStack(pool, shuffle) && order == Home && interval == Idle
      ensures feedback == old(feedback)
    {
      if locked {
        return;
      }
      CreateInitialStack(shuffle);
    }

    /** `updateCardPositions(cards, currentOrder)`: clear every position class, then mark the
        cards at `order[0]`, `order[1]` and `order[2]`, skipping indices with no card. */
    method UpdateCardPositions()
      requires IsRingOrder(order)
      modifies this
      ensures order == old(order) && interval == old(interval) && feedback == old(feedback)
      ensures |cards| == |old(cards)| && GamesOf(cards) == GamesOf(old(cards))
      ensures forall i :: 0 <= i < |cards| ==> cards[i] == old(cards[i]).(position := PositionIn(order, i))
    {
      ClearPositions();
      ghost var cleared := cards;
      var cs := cards;
      var o := order;
      if o[0] < |cs| { cs := cs[o[0] := cs[o[0]].(position := Left)]; }
      if o[1] < |cs| { cs := cs[o[1] := cs[o[1]].(position := Active)]; }
      if o[2] < |cs| { cs := cs[o[2] := cs[o[2]].(position := Right)]; }
      forall k | 0 <= k < |cs| ensures cs[k] == cleared[k].(position := PositionIn(o, k)) {
        if k == o[0] {
        } else if k == o[1] {
        } else if k == o[2] {
        }
      }
      cards := cs;
    }

    /** The first line of `updateCardPositions`: every card loses its position class. */
    method ClearPositions()
      modifies this
      ensures order == old(order) && interval == old(interval) && feedback == old(feedback)
      ensures |cards| == |old(cards)| && GamesOf(cards) == GamesOf(old(cards))
      ensures forall i :: 0 <= i < |cards| ==> cards[i] == old(cards[i]).(position := Unplaced)
    {
      var cs := cards;
      var i := 0;
      while i < |cs|
        invariant 0 <= i <= |cs| == |cards|
        invariant forall k :: 0 <= k < i ==> cs[k] == cards[k].(position := Unplaced)
        invariant forall k :: i <= k < |cs| ==> cs[k] == cards[k]
      {
        cs := cs[i := cs[i].(position := Unplaced)];
        i := i + 1;
      }
      assert GamesOf(cs) == GamesOf(cards);
      cards := cs;
    }

    /** `cards.forEach(c => c.classList.remove('winning'))`. */
    method ClearWinning()
      modifies this
      ensures |cards| == |old(cards)| && GamesOf(cards) == GamesOf(old(cards))
      ensures forall i :: 0 <= i < |cards| ==> cards[i] == old(cards[i]).(winning := false)
      ensures order == old(order) && interval == old(interval) && feedback == old(feedback)
    {
      var cs := cards;
      var i := 0;
      while i < |cs|
        invariant 0 <= i <= |cs| == |cards|
        invariant forall k :: 0 <= k < i ==> cs[k] == cards[k].(winning := false)
        invariant forall k :: i <= k < |cs| ==> cs[k] == cards[k]
      {
        cs := cs[i := cs[i].(winning := false)];
        i := i + 1;
      }
      cards := cs;
    }

    /** Adds (`on`) or removes the `spinning` class on every card. */
    method SetSpinning(on: bool)
      modifies this
      ensures |cards| == |old(cards)| && GamesOf(cards) == GamesOf(old(cards))
      ensures forall i :: 0 <= i < |cards| ==> cards[i] == old(cards[i]).(spinning := on)
      ensures order == old(order) && interval == old(interval) && feedback == old(feedback)
    {
      var cs := cards;
      var i := 0;
      while i < |cs|
        invariant 0 <= i <= |cs| == |cards|
        invariant forall k :: 0 <= k < i ==> cs[k] == cards[k].(spinning := on)
        invariant forall k :: i <= k < |cs| ==> cs[k] == cards[k]
      {
        cs := cs[i := cs[i].(spinning := on)];
        i := i + 1;
      }
      cards := cs;
    }

    /** `updateStackContent(cards, frame)`: card `i` shows `frame[i]`; every card needs a game. */
    method UpdateStackContent(frame: seq<Game>)
      requires |frame| >= |cards|
      modifies this
      ensures |cards| == |old(cards)| && GamesOf(cards) == frame[..|cards|]
      ensures forall i :: 0 <= i < |cards| ==> cards[i] == old(cards[i]).(game := frame[i])
      ensures order == old(order) && interval == old(interval) && feedback == old(feedback)
    {
      var cs := cards;
      var i := 0;
      while i < |cs|
        invariant 0 <= i <= |cs| == |cards|
        invariant forall k :: 0 <= k < i ==> cs[k] == cards[k].(game := frame[k])
        invariant forall k :: i <= k < |cs| ==> cs[k] == cards[k]
      {
        cs := cs[i := cs[i].(game := frame[i])];
        i := i + 1;
      }
      cards := cs;
    }

    /** `cards.find(c => c.classList.contains('card-active'))`: the index of the first active
        card, or -1 when no card is active. */
    method FindActive() returns (k: int)
      ensures -1 <= k < |cards|
      ensures 0 <= k ==> cards[k].position == Active && forall j :: 0 <= j < k ==> cards[j].position != Active
      ensures k == -1 ==> forall j :: 0 <= j < |cards| ==> cards[j].position != Active
    {
      k := 0;
      while k < |cards| && cards[k].position != Active
        invariant 0 <= k <= |cards|
        invariant forall j :: 0 <= j < k ==> cards[j].position != Active
      {
        k := k + 1;
      }
      if k == |cards| {
        k := -1;
      }
    }

    /** `rotateLeft`: the right card becomes active; every winning mark is cleared. */
    method RotateLeft()
      requires Valid()
      modifies this
      ensures Valid()
      ensures order == RotatedLeft(old(order))
      ensures |cards| == |old(cards)|
      ensures forall i :: 0 <= i < |cards| ==>
        cards[i] == old(cards[i]).(position := PositionIn(order, i), winning := false)
      ensures interval == old(interval) && feedback == old(feedback)
    {
      var first := order[0];
      order := order[1..];
      order := order + [first];
      UpdateCardPositions();
      ClearWinning();
    }

    /** `rotateRight`: the left card becomes active; every winning mark is cleared. */
    method RotateRight()
      requires Valid()
      modifies this
      ensures Valid()
      ensures order == RotatedRight(old(order))
      ensures |cards| == |old(cards)|
      ensures forall i :: 0 <= i < |cards| ==>
        cards[i] == old(cards[i]).(position := PositionIn(order, i), winning := false)
      ensures interval == old(interval) && feedback == old(feedback)
    {
      var last := order[|order| - 1];
      order := order[..|order| - 1];
      order := [last] + order;
      UpdateCardPositions();
      ClearWinning();
    }

    /** `handleCardClick(clickedIndex)`: the clicked card becomes the active one. Clicks are
        taken even while the column spins. */
    method HandleCardClick(clickedIndex: nat)
      requires Valid() && clickedIndex < |cards|
      modifies this
      ensures Valid()
      ensures order == ClickedOrder(old(order), clickedIndex)
      ensures cards[clickedIndex].position == Active
      ensures old(order[1]) == clickedIndex ==> cards == old(cards)
      ensures old(order[1]) != clickedIndex ==> |cards| == |old(cards)| && forall i :: 0 <= i < |cards| ==>
        cards[i] == old(cards[i]).(position := PositionIn(order, i), winning := false)
      ensures interval == old(interval) && feedback == old(feedback)
    {
      var position := IndexOf(order, clickedIndex);
      if position == 0 {
        RotateRight();
      } else if position == 2 {
        RotateLeft();
      }
    }

    /** `spinColumn`: returns at once for a locked column; otherwise every card gets the
        spinning class and the interval starts with `finalGames` fixed. */
    method SpinColumn(locked: bool, finalGames: seq<Game>)
      requires Valid() && |finalGames| == |cards| && multiset(finalGames) <= multiset(pool)
      modifies this
      ensures Valid()
      ensures locked ==> unchanged(this)
      ensures !locked ==> interval == Live(0, finalGames)
      ensures |cards| == |old(cards)| && order == old(order) && feedback == old(feedback)
      ensures !locked ==> forall i :: 0 <= i < |cards| ==> cards[i] == old(cards[i]).(spinning := true)
    {
      if locked {
        return;
      }
      SetSpinning(true);
      interval := Live(0, finalGames);
    }

    /** After an unlocked column's `getStack` and `spinColumn`: a fresh stack drawn by
        `stack` in the home order, every card spinning, and the interval live from zero with
        the games drawn by `final`. */
    ghost predicate Respun(stack: seq<Swap>, final: seq<Swap>)
      reads this
      requires SwapsWithin(stack, |pool|) && SwapsWithin(final, |pool|)
    {
      var drawn := FreshStack(pool, stack);
      && order == Home
      && |cards| == |drawn|
      && (forall i :: 0 <= i < |drawn| ==> cards[i] == drawn[i].(spinning := true))
      && interval == Live(0, PickUniqueGames(pool, 3, final))
    }

    /** A fresh stack drawn by `stack`, then set spinning towards the draw of `final`, is respun. */
    lemma FreshThenSpun(drawn: seq<Card>, stack: seq<Swap>, final: seq<Swap>)
      requires SwapsWithin(stack, |pool|) && SwapsWithin(final, |pool|)
      requires drawn == FreshStack(pool, stack) && order == Home
      requires |cards| == |drawn| && forall i :: 0 <= i < |cards| ==> cards[i] == drawn[i].(spinning := true)
      requires interval == Live(0, PickUniqueGames(pool, 3, final))
      ensures Respun(stack, final)
    {
    }

    /** One firing of the interval. Before the duration it shows a fresh random draw (and
        ticks at multiples of 200); at the duration it stops once. */
    method Tick(shuffle: seq<Swap>)
      requires Valid() && interval.Live? && SwapsWithin(shuffle, |pool|)
      modifies this
      ensures Valid()
      ensures Remaining() == old(Remaining())[1..]
      ensures order == old(order) && |cards| == |old(cards)|
      ensures old(Remaining())[0].Frame? ==>
        && interval == old(interval).(elapsed := old(interval.elapsed) + IntervalTime)
        && GamesOf(cards) == PickUniqueGames(pool, 3, shuffle)
        && (forall i :: 0 <= i < |cards| ==> cards[i] == old(cards[i]).(game := cards[i].game))
        && feedback == old(feedback) + (if old(Remaining())[0].tick then [SpinTick] else [])
      ensures old(Remaining())[0].Stop? ==>
        && interval == Idle
        && (forall i :: 0 <= i < |cards| ==> cards[i] == old(cards[i]).(
              game := old(interval.finalGames)[i], spinning := false,
              winning := old(cards[i].winning) || i == order[1]))
        && feedback == old(feedback) + [ColumnStop]
    {
      ghost var steps := Remaining();
      var elapsed := interval.elapsed + IntervalTime;
      if elapsed < duration {
        assert steps == [Frame(elapsed, elapsed % TickPeriod == 0)] + Steps(elapsed, duration);
        interval := interval.(elapsed := elapsed);
        var randomFrame := PickUniqueGames(pool, 3, shuffle);
        UpdateStackContent(randomFrame);
        assert GamesOf(cards) == randomFrame;
        if elapsed % TickPeriod == 0 {
          feedback := feedback + [SpinTick];
        }
      } else {
        assert steps == [Stop];
        StopSpin();
      }
    }

    /** The stop phase: clear the interval, show `finalGames`, clear the spinning class and
        mark the active card, the one at `order[1]`, as winning. */
    method StopSpin()
      requires Valid() && interval.Live?
      modifies this
      ensures Valid()
      ensures interval == Idle && order == old(order) && |cards| == |old(cards)|
      ensures forall i :: 0 <= i < |cards| ==> cards[i] == old(cards[i]).(
        game := old(interval.finalGames)[i], spinning := false,
        winning := old(cards[i].winning) || i == order[1])
      ensures feedback == old(feedback) + [ColumnStop]
    {
      var finalGames := interval.finalGames;
      interval := Idle;
      UpdateStackContent(finalGames);
      assert GamesOf(cards) == finalGames;
      feedback := feedback + [ColumnStop];
      SetSpinning(false);
      assert forall i :: 0 <= i < |cards| ==> cards[i].position == PositionIn(order, i);
      var active := FindActive();
      assert order[1] < |cards| ==> cards[order[1]].position == Active;
      if active >= 0 {
        assert active == order[1];
        cards := cards[active := cards[active].(winning := true)];
        assert GamesOf(cards) == finalGames;
      }
    }
  }
}
