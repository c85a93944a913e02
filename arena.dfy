/**
 * The battle screen (BattleArena in src/components/BattleArena.tsx): the winner it derives for
 * the result banner and for the completion card, and the handlers through which the user drives
 * the session. Each handler is followed by the completion effect whenever it changed the phase
 * or the result (the effect's two dependencies).
 */
module BattleArena {
  import opened Wrappers
  import opened BattleEngine
  import opened PokemonBattle
  import opened ScoreLedger

  /**
   * The banner's winner, None while the banner is hidden: hidden unless the battle is complete
   * with a result; otherwise the side with more stat wins, or a tie on equal counts.
   */
  function BannerWinner(phase: GamePhase, result: Option<BattleResult>): (winner: Option<Outcome>)
    ensures winner.None? <==> phase != Complete || result.None?
  {
    if phase != Complete || result.None? then None
    else
      var playerStatWins := result.value.player.Count();
      var cpuStatWins := result.value.cpu.Count();
      Some(if playerStatWins > cpuStatWins then PlayerWins
           else if cpuStatWins > playerStatWins then CpuWins
           else Tie)
  }

  /**
   * The completion card's line, as its nested conditional picks it from the result's flags:
   * the line for the banner's winner.
   */
  function CompletionText(result: BattleResult): (text: string)
    ensures text == OutcomeText(BannerWinner(Complete, Some(result)).value)
  {
    if result.player.Count() > result.cpu.Count() then "🎉 Player Wins!"
    else if result.cpu.Count() > result.player.Count() then "🤖 CPU Wins!"
    else "It's a Draw!"
  }

  /** The completion card's line for each winner. */
  function OutcomeText(outcome: Outcome): string {
    match outcome
    case PlayerWins => "🎉 Player Wins!"
    case CpuWins => "🤖 CPU Wins!"
    case Tie => "It's a Draw!"
  }

  /** For a battle the engine computed, the banner's recomputed winner is the engine's outcome. */
  lemma BannerAgreesWithEngine(player: Pokemon, cpu: Pokemon)
    ensures BannerWinner(Complete, Some(CalculateBattleResult(player, cpu)))
      == Some(CalculateBattleResult(player, cpu).outcome)
  {
  }

  /**
   * The completion card names a winner exactly when the banner names the same one: the three
   * lines differ, so the card's line tells the winner.
   */
  lemma CompletionTextAgreesWithBanner(result: BattleResult, outcome: Outcome)
    ensures CompletionText(result) == OutcomeText(outcome) <==> BannerWinner(Complete, Some(result)) == Some(outcome)
  {
  }

  class Arena {
    /** The session the screen drives. */
    const game: Session
    var bannerVisible: bool
    var resultWinner: Option<Outcome>
    var confettiRunning: bool

    /**
     * What holds between user events once the effects have run. The handlers only offer the
     * commands the screen renders for the current phase, so more holds than for the session alone.
     */
    ghost predicate Valid()
      reads this, game
    {
      && PlayValid()
      // the completion effect has run
      && resultWinner == BannerWinner(game.gamePhase, game.battleResult)
      && bannerVisible == resultWinner.Some?
    }

    /** The session's part of the screen invariant; the completion effect does not touch it. */
    ghost predicate PlayValid()
      reads game
    {
      && game.Valid()
      && (game.loading ==> game.gamePhase == Loading)
      // exactly one resolution is pending, and only while battling
      && (game.timers != [] <==> game.gamePhase == Battling)
      && |game.timers| <= 1
      && (game.gamePhase in {Ready, Battling, Complete} ==> game.CanBattle())
      && (game.gamePhase == Battling ==> game.timers == [CalculateBattleResult(game.Player(), game.Cpu())])
      // a stored result is the engine's result for the current pair, kept through a replay
      && (game.battleResult.Some? ==> game.gamePhase in {Battling, Complete})
      && (game.battleResult.Some? ==> game.battleResult == Some(CalculateBattleResult(game.Player(), game.Cpu())))
    }

    /** Mounting the screen: the session's initial state, then the mount-time fetch. */
    constructor (store: Storage, responses: seq<Response>)
      requires WellFormed(store)
      ensures Valid() && fresh(game)
      ensures !bannerVisible && resultWinner == None && !confettiRunning
      ensures game.playerWins == Restore(store, PlayerWinsKey) && game.cpuWins == Restore(store, CpuWinsKey)
      ensures game.storage == Save(store, game.playerWins, game.cpuWins)
      ensures game.selectedFighter == None && game.battleResult == None && game.timers == []
      ensures game.loading <==> RunFetch(responses).Unfinished?
      ensures RunFetch(responses).Contest? ==>
        && game.pokemon1 == Some(RunFetch(responses).first) && game.pokemon2 == Some(RunFetch(responses).second)
        && game.gamePhase == Selection && game.error == None
      ensures !RunFetch(responses).Contest? ==> game.pokemon1 == None && game.pokemon2 == None
      ensures RunFetch(responses).Failed? ==> game.gamePhase == Error && game.error == Some(LoadFailed)
      ensures RunFetch(responses).Unfinished? ==> game.gamePhase == Loading && game.error == None
    {
      game := new Session(store);
      bannerVisible, resultWinner, confettiRunning := false, None, false;
      new;
      var _ := game.FetchNewBattle(responses);
    }

    /**
     * The completion effect: hides the banner unless the battle is complete with a result;
     * otherwise shows it with the recomputed winner and starts the confetti for a player win.
     */
    method CompletionEffect()
      modifies this`bannerVisible, this`resultWinner, this`confettiRunning
      ensures resultWinner == BannerWinner(game.gamePhase, game.battleResult)
      ensures bannerVisible == resultWinner.Some?
      ensures confettiRunning == (old(confettiRunning) || resultWinner == Some(PlayerWins))
    {
      if game.gamePhase != Complete || game.battleResult.None? {
        bannerVisible := false;
        resultWinner := None;
        return;
      }
      var winner := BannerWinner(game.gamePhase, game.battleResult).value;
      resultWinner := Some(winner);
      bannerVisible := true;
      if winner == PlayerWins && !confettiRunning {
        confettiRunning := true;
      }
    }

    /** The confetti animation ran out (its clock is not modelled). */
    method ConfettiFinished()
      requires Valid()
      modifies this`confettiRunning
      ensures Valid() && !confettiRunning
    {
      confettiRunning := false;
    }

    /**
     * A click on a card: selects that card's creature in the selection phase, does nothing
     * in every other phase.
     */
    method ClickCard(fighter: Fighter)
      requires Valid()
      modifies this`bannerVisible, this`resultWinner, this`confettiRunning
      modifies game`selectedFighter, game`gamePhase
      ensures Valid()
      ensures old(game.gamePhase) == Selection ==>
        && game.selectedFighter == Some(fighter) && game.gamePhase == Ready
        && !bannerVisible && resultWinner == None && confettiRunning == old(confettiRunning)
      ensures old(game.gamePhase) != Selection ==> unchanged(this, game)
      ensures unchanged(game`pokemon1, game`pokemon2, game`battleResult, game`error, game`loading)
      ensures unchanged(game`playerWins, game`cpuWins, game`storage, game`timers)
    {
      if game.gamePhase == Selection {
        game.SelectFighter(fighter);
        CompletionEffect();
      }
    }

    /** The Start Battle button, shown in the ready phase. */
    method ClickStart()
      requires Valid() && game.gamePhase == Ready
      modifies this`bannerVisible, this`resultWinner, this`confettiRunning
      modifies game`gamePhase, game`timers
      ensures Valid()
      ensures game.gamePhase == Battling && !bannerVisible && resultWinner == None
      ensures confettiRunning == old(confettiRunning)
      ensures game.timers == [CalculateBattleResult(game.Player(), game.Cpu())]
      ensures unchanged(game`pokemon1, game`pokemon2, game`selectedFighter, game`battleResult, game`error)
      ensures unchanged(game`playerWins, game`cpuWins, game`storage, game`loading)
    {
      game.StartBattle();
      CompletionEffect();
    }

    /**
     * The pending resolution fires: the result is the engine's result for the selected
     * creature against the other one, the phase is complete, the banner shows the engine's
     * outcome and exactly the winner's counter went up.
     */
    method TimerFires()
      requires Valid() && game.timers != []
      modifies this`bannerVisible, this`resultWinner, this`confettiRunning
      modifies game`battleResult, game`gamePhase, game`playerWins, game`cpuWins, game`storage, game`timers
      ensures Valid()
      ensures game.gamePhase == Complete && game.timers == []
      ensures game.battleResult == Some(old(game.timers)[0])
      ensures unchanged(game`pokemon1, game`pokemon2, game`selectedFighter, game`error, game`loading)
      ensures game.storage == SaveEffect(old(game.storage), (old(game.playerWins), old(game.cpuWins)),
                                         (game.playerWins, game.cpuWins))
      ensures game.battleResult == Some(CalculateBattleResult(game.Player(), game.Cpu()))
      ensures bannerVisible && resultWinner == Some(game.battleResult.value.outcome)
      ensures var o := game.battleResult.value.outcome;
        && game.playerWins == old(game.playerWins) + (if o == PlayerWins then 1 else 0)
        && game.cpuWins == old(game.cpuWins) + (if o == CpuWins then 1 else 0)
    {
      ghost var player, cpu := game.Player(), game.Cpu();
      game.ResolveBattle();
      ResolutionKeepsPlay();
      BannerAgreesWithEngine(player, cpu);
      CompletionEffect();
    }

    /** Resolving the one pending battle keeps the session's part of the screen invariant. */
    twostate lemma ResolutionKeepsPlay()
      requires old(PlayValid()) && old(game.timers) != []
      requires unchanged(game`pokemon1, game`pokemon2, game`selectedFighter, game`error, game`loading)
      requires game.Valid() && game.timers == old(game.timers)[1..]
      requires game.battleResult == Some(old(game.timers)[0]) && game.gamePhase == Complete
      ensures PlayValid()
      ensures game.Player() == old(game.Player()) && game.Cpu() == old(game.Cpu())
    {
    }

    /** The New Battle button, shown once a battle is complete: banner and confetti off, then a new fetch. */
    method HandleNewBattle(responses: seq<Response>) returns (run: FetchRun)
      requires Valid() && game.gamePhase == Complete
      modifies this`bannerVisible, this`resultWinner, this`confettiRunning
      modifies game`pokemon1, game`pokemon2, game`loading, game`selectedFighter, game`battleResult
      modifies game`gamePhase, game`error
      ensures Valid()
      ensures run == RunFetch(responses)
      ensures !bannerVisible && resultWinner == None && !confettiRunning
      ensures game.selectedFighter == None && game.battleResult == None
      ensures game.loading <==> run.Unfinished?
      ensures run.Contest? ==>
        && game.pokemon1 == Some(run.first) && game.pokemon2 == Some(run.second)
        && game.gamePhase == Selection && game.error == None
      ensures !run.Contest? ==> game.pokemon1 == old(game.pokemon1) && game.pokemon2 == old(game.pokemon2)
      ensures run.Failed? ==> game.gamePhase == Error && game.error == Some(LoadFailed)
      ensures run.Unfinished? ==> game.gamePhase == Loading && game.error == None
      ensures unchanged(game`playerWins, game`cpuWins, game`storage, game`timers)
    {
      bannerVisible := false;
      resultWinner := None;
      confettiRunning := false;
      run := game.FetchNewBattle(responses);
      CompletionEffect();
    }

    /**
     * The Replay button, shown once a battle is complete: banner off, then the same two
     * creatures with the same selection battle again.
     */
    method Replay()
      requires Valid() && game.gamePhase == Complete
      modifies this`bannerVisible, this`resultWinner, this`confettiRunning
      modifies game`gamePhase, game`timers
      ensures Valid()
      ensures !bannerVisible && resultWinner == None && confettiRunning == old(confettiRunning)
      ensures game.gamePhase == Battling
      ensures unchanged(game`pokemon1, game`pokemon2, game`selectedFighter, game`battleResult, game`error)
      ensures unchanged(game`playerWins, game`cpuWins, game`storage, game`loading)
      ensures game.timers == [old(game.battleResult).value]
    {
      bannerVisible := false;
      resultWinner := None;
      game.StartBattle();
      CompletionEffect();
    }
  }

  /**
   * One round from mounting: the first fetch finishes with two creatures, the user picks one
   * and starts the battle, and the resolution fires. The stored result is the engine's result
   * for the picked creature against the other, and the tally rose by one unless it was a tie.
   */
  method MountAndBattle(store: Storage, responses: seq<Response>, fighter: Fighter) returns (arena: Arena)
    requires WellFormed(store) && RunFetch(responses).Contest?
    ensures arena.Valid() && arena.game.gamePhase == Complete
    ensures var run := RunFetch(responses);
      var roles := Roles(fighter, run.first, run.second);
      && arena.game.battleResult == Some(CalculateBattleResult(roles.0, roles.1))
      && arena.resultWinner == Some(CalculateBattleResult(roles.0, roles.1).outcome)
      && arena.game.playerWins + arena.game.cpuWins
         == Restore(store, PlayerWinsKey) + Restore(store, CpuWinsKey)
            + (if CalculateBattleResult(roles.0, roles.1).outcome == Tie then 0 else 1)
  {
    arena := new Arena(store, responses);
    arena.ClickCard(fighter);
    arena.ClickStart();
    arena.TimerFires();
  }
}
