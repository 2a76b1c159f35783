/** `initApp`'s spin engine: the lock flags, the global `isAnimating` gate, the spin button
    and the completion timeout, over the three provider columns. */
module Machine {
  import opened Games
  import opened Sampler
  import opened Ring
  import opened Schedule
  import opened Columns

  /** One value per provider column. */
  datatype PerColumn<T> = PerColumn(jili: T, pg: T, pp: T) {
    function Get(p: Provider): T
    {
      match p
      case Jili => jili
      case Pg => pg
      case Pp => pp
    }

    /** The record with `p`'s value replaced by `v` and the others kept. */
    function With(p: Provider, v: T): (r: PerColumn<T>)
      ensures r.Get(p) == v
      ensures forall q :: q != p ==> r.Get(q) == Get(q)
    {
      match p
      case Jili => this.(jili := v)
      case Pg => this.(pg := v)
      case Pp => this.(pp := v)
    }
  }

  /** `lockedState`: one flag per column. */
  type Locks = PerColumn<bool>

  /** The gate: `lockedState` and `isAnimating`. */
  datatype Gate = Gate(locked: Locks, animating: bool)

  /** The events that reach the gate: a lock button, the spin button, the completion timeout. */
  datatype Request = Toggle(target: Provider) | SpinRequest | Completion

  /** How one event changes the gate. While a spin is in flight, lock toggles and spin
      requests are ignored; only the completion clears `isAnimating`, whatever is locked. */
  function GateStep(g: Gate, r: Request): (next: Gate)
    ensures g.animating && !r.Completion? ==> next == g
    ensures g.animating && !next.animating ==> r.Completion?
    ensures r.SpinRequest? ==> next.animating && next.locked == g.locked
    ensures r.Toggle? && !g.animating ==>
      && next.animating == g.animating
      && next.locked.Get(r.target) == !g.locked.Get(r.target)
      && forall q :: q != r.target ==> next.locked.Get(q) == g.locked.Get(q)
    ensures r.Completion? ==> !next.animating && next.locked == g.locked
  {
    match r
    case Toggle(p) => if g.animating then g else g.(locked := g.locked.With(p, !g.locked.Get(p)))
    case SpinRequest => if g.animating then g else g.(animating := true)
    case Completion => g.(animating := false)
  }

  function GateRun(g: Gate, rs: seq<Request>): Gate
    decreases |rs|
  {
    if rs == [] then g else GateRun(GateStep(g, rs[0]), rs[1..])
  }

  /** The number of spin requests the gate accepts along a run. */
  function Accepted(g: Gate, rs: seq<Request>): nat
    decreases |rs|
  {
    if rs == [] then 0
    else (if rs[0].SpinRequest? && !g.animating then 1 else 0) + Accepted(GateStep(g, rs[0]), rs[1..])
  }

  function Completions(rs: seq<Request>): nat
  {
    if rs == [] then 0 else (if rs[0].Completion? then 1 else 0) + Completions(rs[1..])
  }

  /** Until the completion fires, nothing a user does changes the gate. */
  lemma {:induction false} FrozenUntilCompletion(g: Gate, rs: seq<Request>)
    requires g.animating && Completion !in rs
    ensures GateRun(g, rs) == g
    ensures Accepted(g, rs) == 0
    decreases |rs|
  {
    if rs != [] {
      assert rs[0] != Completion && Completion !in rs[1..];
      FrozenUntilCompletion(g, rs[1..]);
    }
  }

  /** At most one spin cycle is in flight: every accepted spin request after the first
      needs a completion before it. */
  lemma {:induction false} OneSpinInFlight(g: Gate, rs: seq<Request>)
    ensures Accepted(g, rs) <= Completions(rs) + (if g.animating then 0 else 1)
    decreases |rs|
  {
    if rs != [] {
      OneSpinInFlight(GateStep(g, rs[0]), rs[1..]);
    }
  }

  /** The random choices of one spin request for one column: the draw of its fresh stack
      and the draw of its final games. */
  datatype Draws = Draws(stack: seq<Swap>, final: seq<Swap>)
  {
    predicate Within(n: nat)
    {
      SwapsWithin(stack, n) && SwapsWithin(final, n)
    }
  }

  class SlotMachine {
    const games: seq<Game>
    /** The provider pools `jiliGames`, `pgGames` and `ppGames`. */
    const jiliGames: seq<Game>
    const pgGames: seq<Game>
    const ppGames: seq<Game>
    const jili: Column
    const pg: Column
    const pp: Column
    var lockedState: Locks
    var isAnimating: bool
    var feedback: seq<Feedback>

    function PoolFor(p: Provider): seq<Game>
    {
      match p
      case Jili => jiliGames
      case Pg => pgGames
      case Pp => ppGames
    }

    function ColumnOf(p: Provider): Column
    {
      match p
      case Jili => jili
      case Pg => pg
      case Pp => pp
    }

    ghost function GateState(): Gate
      reads this
    {
      Gate(lockedState, isAnimating)
    }

    /** Column `p` is consistent, draws from its provider's pool and spins for its duration. */
    ghost predicate Fits(p: Provider)
      reads ColumnOf(p)
    {
      ColumnOf(p).Valid() && ColumnOf(p).pool == PoolFor(p) && ColumnOf(p).duration == Duration(p)
    }

    ghost predicate Valid()
      reads this, jili, pg, pp
    {
      && jili != pg && jili != pp && pg != pp
      && Fits(Jili) && Fits(Pg) && Fits(Pp)
    }

    /** Page load: the pools are split off the catalog and every column shows a first draw. */
    constructor (games: seq<Game>, shuffles: PerColumn<seq<Swap>>)
      requires SwapsWithin(shuffles.jili, |PoolOf(games, Jili)|)
      requires SwapsWithin(shuffles.pg, |PoolOf(games, Pg)|) && SwapsWithin(shuffles.pp, |PoolOf(games, Pp)|)
      ensures Valid() && this.games == games
      ensures jiliGames == PoolOf(games, Jili) && pgGames == PoolOf(games, Pg) && ppGames == PoolOf(games, Pp)
      ensures fresh(jili) && fresh(pg) && fresh(pp)
      ensures !isAnimating && feedback == [] && lockedState == PerColumn(false, false, false)
      ensures jili.cards == FreshStack(jiliGames, shuffles.jili)
      ensures pg.cards == FreshStack(pgGames, shuffles.pg)
      ensures pp.cards == FreshStack(ppGames, shuffles.pp)
      ensures jili.order == pg.order == pp.order == Home
      ensures jili.interval == pg.interval == pp.interval == Idle
    {
      this.games := games;
      jiliGames, pgGames, ppGames := PoolOf(games, Jili), PoolOf(games, Pg), PoolOf(games, Pp);
      var jiliColumn, pgColumn, ppColumn := PopulateInitialCards(games, shuffles);
      jili, pg, pp := jiliColumn, pgColumn, ppColumn;
      lockedState := PerColumn(false, false, false);
      isAnimating := false;
      feedback := [];
    }

    /** The three `populateInitialCards` calls of page load, one per provider column. */
    static method PopulateInitialCards(games: seq<Game>, shuffles: PerColumn<seq<Swap>>)
        returns (jili: Column, pg: Column, pp: Column)
      requires SwapsWithin(shuffles.jili, |PoolOf(games, Jili)|)
      requires SwapsWithin(shuffles.pg, |PoolOf(games, Pg)|) && SwapsWithin(shuffles.pp, |PoolOf(games, Pp)|)
      ensures fresh(jili) && fresh(pg) && fresh(pp) && jili != pg && jili != pp && pg != pp
      ensures jili.Valid() && jili.pool == PoolOf(games, Jili) && jili.duration == Duration(Jili)
      ensures pg.Valid() && pg.pool == PoolOf(games, Pg) && pg.duration == Duration(Pg)
      ensures pp.Valid() && pp.pool == PoolOf(games, Pp) && pp.duration == Duration(Pp)
      ensures jili.cards == FreshStack(PoolOf(games, Jili), shuffles.jili)
      ensures pg.cards == FreshStack(PoolOf(games, Pg), shuffles.pg)
      ensures pp.cards == FreshStack(PoolOf(games, Pp), shuffles.pp)
      ensures jili.order == pg.order == pp.order == Home
      ensures jili.interval == pg.interval == pp.interval == Idle
    {
      jili := new Column(PoolOf(games, Jili), Duration(Jili), shuffles.jili);
      pg := new Column(PoolOf(games, Pg), Duration(Pg), shuffles.pg);
      pp := new Column(PoolOf(games, Pp), Duration(Pp), shuffles.pp);
    }

    /** A lock button: ignored during a spin, otherwise flips only its own column's flag. */
    method ToggleLock(target: Provider)
      requires Valid()
      modifies this
      ensures Valid()
      ensures GateState() == GateStep(old(GateState()), Toggle(target))
      ensures feedback == old(feedback) + (if old(isAnimating) then [] else [LockSound])
    {
      if isAnimating {
        return;
      }
      lockedState := lockedState.With(target, !lockedState.Get(target));
      feedback := feedback + [LockSound];
    }

    /** Every draw names positions of its own column's pool. */
    predicate DrawsFit(draws: PerColumn<Draws>)
    {
      draws.jili.Within(|jiliGames|) && draws.pg.Within(|pgGames|) && draws.pp.Within(|ppGames|)
    }

    /** Every unlocked column has been restarted on the draws of this spin. */
    ghost predicate Started(draws: PerColumn<Draws>)
      reads this, jili, pg, pp
      requires Valid() && DrawsFit(draws)
    {
      && (!lockedState.jili ==> jili.Respun(draws.jili.stack, draws.jili.final))
      && (!lockedState.pg ==> pg.Respun(draws.pg.stack, draws.pg.final))
      && (!lockedState.pp ==> pp.Respun(draws.pp.stack, draws.pp.final))
    }

    /** The spin button: ignored during a spin; otherwise it raises `isAnimating` and starts
        every unlocked column on a fresh stack, leaving locked columns as they are. */
    method RequestSpin(draws: PerColumn<Draws>)
      requires Valid() && DrawsFit(draws)
      modifies this, jili, pg, pp
      ensures Valid()
      ensures GateState() == GateStep(old(GateState()), SpinRequest)
      ensures feedback == old(feedback)
      ensures jili.feedback == old(jili.feedback) && pg.feedback == old(pg.feedback) && pp.feedback == old(pp.feedback)
      ensures old(isAnimating) || lockedState.jili ==> unchanged(jili)
      ensures old(isAnimating) || lockedState.pg ==> unchanged(pg)
      ensures old(isAnimating) || lockedState.pp ==> unchanged(pp)
      ensures !old(isAnimating) ==> Started(draws)
    {
      if isAnimating {
        return;
      }
      isAnimating := true;
      ghost var sounds := feedback;
      StartSlotMachineInColumns(draws);
      assert feedback == sounds;
    }

    /** `startSlotMachineInColumns`: `getStack` on the three columns, then `spinColumn` on
        each with a fresh draw of its final games; a locked column is skipped by both. */
    method StartSlotMachineInColumns(draws: PerColumn<Draws>)
      requires Valid() && DrawsFit(draws)
      modifies jili, pg, pp
      ensures Valid()
      ensures jili.feedback == old(jili.feedback) && pg.feedback == old(pg.feedback) && pp.feedback == old(pp.feedback)
      ensures lockedState.jili ==> unchanged(jili)
      ensures lockedState.pg ==> unchanged(pg)
      ensures lockedState.pp ==> unchanged(pp)
      ensures Started(draws)
    {
      GetStacks(draws);
      ghost var jiliFresh, pgFresh, ppFresh := jili.cards, pg.cards, pp.cards;
      SpinColumns(draws);
      if !lockedState.jili {
        jili.FreshThenSpun(jiliFresh, draws.jili.stack, draws.jili.final);
      }
      if !lockedState.pg {
        pg.FreshThenSpun(pgFresh, draws.pg.stack, draws.pg.final);
      }
      if !lockedState.pp {
        pp.FreshThenSpun(ppFresh, draws.pp.stack, draws.pp.final);
      }
    }

    /** The three `getStack` calls: each unlocked column gets a fresh stack in home order. */
    method GetStacks(draws: PerColumn<Draws>)
      requires Valid() && DrawsFit(draws)
      modifies jili, pg, pp
      ensures Valid()
      ensures jili.feedback == old(jili.feedback) && pg.feedback == old(pg.feedback) && pp.feedback == old(pp.feedback)
      ensures lockedState.jili ==> unchanged(jili)
      ensures lockedState.pg ==> unchanged(pg)
      ensures lockedState.pp ==> unchanged(pp)
      ensures !lockedState.jili ==> jili.cards == FreshStack(jiliGames, draws.jili.stack) && jili.order == Home
      ensures !lockedState.pg ==> pg.cards == FreshStack(pgGames, draws.pg.stack) && pg.order == Home
      ensures !lockedState.pp ==> pp.cards == FreshStack(ppGames, draws.pp.stack) && pp.order == Home
    {
      jili.GetStack(lockedState.jili, draws.jili.stack);
      pg.GetStack(lockedState.pg, draws.pg.stack);
      pp.GetStack(lockedState.pp, draws.pp.stack);
    }

    /** The three `spinColumn` calls: each unlocked column starts spinning towards its draw. */
    method SpinColumns(draws: PerColumn<Draws>)
      requires Valid() && DrawsFit(draws)
      modifies jili, pg, pp
      ensures Valid()
      ensures jili.feedback == old(jili.feedback) && pg.feedback == old(pg.feedback) && pp.feedback == old(pp.feedback)
      ensures lockedState.jili ==> unchanged(jili)
      ensures lockedState.pg ==> unchanged(pg)
      ensures lockedState.pp ==> unchanged(pp)
      ensures !lockedState.jili ==>
        (jili.order == old(jili.order) && jili.interval == Live(0, PickUniqueGames(jiliGames, 3, draws.jili.final))
         && |jili.cards| == |old(jili.cards)| && forall i :: 0 <= i < |jili.cards| ==> jili.cards[i] == old(jili.cards[i]).(spinning := true))
      ensures !lockedState.pg ==>
        (pg.order == old(pg.order) && pg.interval == Live(0, PickUniqueGames(pgGames, 3, draws.pg.final))
         && |pg.cards| == |old(pg.cards)| && forall i :: 0 <= i < |pg.cards| ==> pg.cards[i] == old(pg.cards[i]).(spinning := true))
      ensures !lockedState.pp ==>
        (pp.order == old(pp.order) && pp.interval == Live(0, PickUniqueGames(ppGames, 3, draws.pp.final))
         && |pp.cards| == |old(pp.cards)| && forall i :: 0 <= i < |pp.cards| ==> pp.cards[i] == old(pp.cards[i]).(spinning := true))
    {
      jili.SpinColumn(lockedState.jili, PickUniqueGames(jiliGames, 3, draws.jili.final));
      pg.SpinColumn(lockedState.pg, PickUniqueGames(pgGames, 3, draws.pg.final));
      pp.SpinColumn(lockedState.pp, PickUniqueGames(ppGames, 3, draws.pp.final));
    }

    /** The completion timeout, 4000 after an accepted spin: the jackpot sounds only if the
        PP column is unlocked, confetti always, and `isAnimating` is cleared whatever is locked. */
    method Complete()
      requires Valid() && isAnimating
      modifies this
      ensures Valid()
      ensures GateState() == GateStep(old(GateState()), Completion)
      ensures feedback == old(feedback) + (if lockedState.pp then [] else [Jackpot]) + [Confetti]
    {
      if !lockedState.pp {
        feedback := feedback + [Jackpot];
      }
      feedback := feedback + [Confetti];
      isAnimating := false;
    }
  }
}
