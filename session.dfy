/**
 * The session state of the battle hook (usePokemonBattle in src/hooks/usePokemonBattle.ts):
 * the two fetched creatures, the selection, the stored result, the phase, the error, the two
 * win counters and the store they are persisted in.
 */
module PokemonBattle {
  import opened Wrappers
  import opened BattleEngine
  import opened ScoreLedger

  datatype GamePhase = Loading | Selection | Ready | Battling | Complete | Error

  /** The card the user picked as their fighter: the first (1) or the second (2) slot. */
  datatype Fighter = First | Second

  /** The one error the hook reports: any failed request while fetching a contest. */
  datatype FetchError = LoadFailed {
    function Message(): string {
      "Failed to load Pokémon. Please try again."
    }
  }

  /** One answer of the creature provider: a creature, or a failed request. */
  datatype Response = Fetched(pokemon: Pokemon) | FetchFailed

  /** How a run of the fetch protocol over a given series of provider answers ends. */
  datatype FetchRun = Contest(first: Pokemon, second: Pokemon) | Failed | Unfinished

  /**
   * The fetch protocol: fetch a first creature, then fetch a second one again and again until
   * its id differs from the first's. Any failed request ends the run in failure. When the
   * answers run out first, the source's retry loop has not terminated yet.
   */
  function RunFetch(responses: seq<Response>): FetchRun {
    if |responses| == 0 then Unfinished
    else if responses[0].FetchFailed? then Failed
    else FetchSecond(responses[0].pokemon, responses[1..])
  }

  function FetchSecond(first: Pokemon, responses: seq<Response>): FetchRun
    decreases |responses|
  {
    if |responses| == 0 then Unfinished
    else if responses[0].FetchFailed? then Failed
    else if responses[0].pokemon.id != first.id then Contest(first, responses[0].pokemon)
    else FetchSecond(first, responses[1..])
  }

  /**
   * A finished contest holds two creatures with different ids: the first answer, and the first
   * later answer whose id differs from it, with nothing but duplicates in between.
   */
  lemma {:induction false} ContestDistinct(responses: seq<Response>)
    requires RunFetch(responses).Contest?
    ensures responses[0] == Fetched(RunFetch(responses).first)
    ensures RunFetch(responses).first.id != RunFetch(responses).second.id
    ensures exists j :: && 1 <= j < |responses|
                        && responses[j] == Fetched(RunFetch(responses).second)
                        && forall k :: 1 <= k < j ==> responses[k].Fetched? && responses[k].pokemon.id == responses[0].pokemon.id
  {
    var first := responses[0].pokemon;
    var j := SecondFound(first, responses[1..]);
    assert responses[j + 1] == responses[1..][j];
    assert forall k :: 1 <= k < j + 1 ==> responses[k] == responses[1..][k - 1];
  }

  lemma {:induction false} SecondFound(first: Pokemon, responses: seq<Response>) returns (j: nat)
    requires FetchSecond(first, responses).Contest?
    ensures j < |responses|
    ensures responses[j] == Fetched(FetchSecond(first, responses).second)
    ensures FetchSecond(first, responses).first == first
    ensures FetchSecond(first, responses).second.id != first.id
    ensures forall k :: 0 <= k < j ==> responses[k].Fetched? && responses[k].pokemon.id == first.id
    decreases |responses|
  {
    if responses[0].Fetched? && responses[0].pokemon.id == first.id {
      var i := SecondFound(first, responses[1..]);
      j := i + 1;
      assert forall k :: 1 <= k < j ==> responses[k] == responses[1..][k - 1];
    } else {
      j := 0;
    }
  }

  /**
   * The protocol only fails to finish when the provider never answers with a failure or a new
   * id: every answer so far is a creature with the first answer's id.
   */
  lemma {:induction false} UnfinishedOnlyOnDuplicates(responses: seq<Response>)
    requires RunFetch(responses).Unfinished?
    ensures forall k :: 0 <= k < |responses| ==> responses[k].Fetched? && responses[k].pokemon.id == responses[0].pokemon.id
  {
    if |responses| > 0 {
      OnlyDuplicates(responses[0].pokemon, responses[1..]);
      assert forall k :: 1 <= k < |responses| ==> responses[k] == responses[1..][k - 1];
    }
  }

  lemma {:induction false} OnlyDuplicates(first: Pokemon, responses: seq<Response>)
    requires FetchSecond(first, responses).Unfinished?
    ensures forall k :: 0 <= k < |responses| ==> responses[k].Fetched? && responses[k].pokemon.id == first.id
    decreases |responses|
  {
    if |responses| > 0 {
      OnlyDuplicates(first, responses[1..]);
      assert forall k :: 1 <= k < |responses| ==> responses[k] == responses[1..][k - 1];
    }
  }

  /**
   * The awaiting part of fetchNewBattle: a first creature, then a second one fetched again
   * while its id equals the first's; the first failed request ends it.
   */
  method AwaitContest(responses: seq<Response>) returns (run: FetchRun)
    ensures run == RunFetch(responses)
    ensures run.Contest? ==> run.first.id != run.second.id
  {
    if |responses| == 0 {
      return Unfinished;
    }
    if responses[0].FetchFailed? {
      return Failed;
    }
    var poke1 := responses[0].pokemon;
    if |responses| == 1 {
      return Unfinished;
    }
    if responses[1].FetchFailed? {
      return Failed;
    }
    var poke2 := responses[1].pokemon;
    var i := 2;
    while poke1.id == poke2.id
      invariant 2 <= i <= |responses|
      invariant responses[0] == Fetched(poke1) && responses[i - 1] == Fetched(poke2)
      invariant RunFetch(responses) == FetchSecond(poke1, responses[i - 1..])
      decreases |responses| - i
    {
      assert responses[i - 1..][1..] == responses[i..];
      if i == |responses| {
        return Unfinished;
      }
      if responses[i].FetchFailed? {
        return Failed;
      }
      poke2 := responses[i].pokemon;
      i := i + 1;
    }
    return Contest(poke1, poke2);
  }

  /** The player and the CPU for a selection: the selected slot and the other one. */
  function Roles(selected: Fighter, pokemon1: Pokemon, pokemon2: Pokemon): (roles: (Pokemon, Pokemon))
    ensures multiset{roles.0, roles.1} == multiset{pokemon1, pokemon2}
    ensures roles.0 == (if selected == First then pokemon1 else pokemon2)
  {
    if selected == First then (pokemon1, pokemon2) else (pokemon2, pokemon1)
  }

  class Session {
    var pokemon1: Option<Pokemon>
    var pokemon2: Option<Pokemon>
    var loading: bool
    var selectedFighter: Option<Fighter>
    var battleResult: Option<BattleResult>
    var playerWins: nat
    var cpuWins: nat
    var gamePhase: GamePhase
    var error: Option<FetchError>
    /** The persistent store the ledger lives in. */
    var storage: Storage
    /**
     * The scheduled resolution steps, oldest first; each carries the result its battle
     * computed when it was started (all are scheduled with the same delay, so they fire in order).
     */
    var timers: seq<BattleResult>

    ghost predicate Valid()
      reads this
    {
      LedgerPersisted() && ContestValid() && PhaseValid()
    }

    /** The persisted ledger is the ledger in memory once the save effect has run. */
    ghost predicate LedgerPersisted()
      reads this`storage, this`playerWins, this`cpuWins
    {
      && WellFormed(storage)
      && Restore(storage, PlayerWinsKey) == playerWins
      && Restore(storage, CpuWinsKey) == cpuWins
    }

    /** The two slots are filled together, with two different creatures. */
    ghost predicate ContestValid()
      reads this`pokemon1, this`pokemon2
    {
      && pokemon1.Some? == pokemon2.Some?
      && (pokemon1.Some? ==> pokemon1.value.id != pokemon2.value.id)
    }

    /** What each phase implies about the other session fields. */
    ghost predicate PhaseValid()
      reads this
    {
      && (gamePhase == Selection ==> pokemon1.Some?)
      && (gamePhase == Error ==> error == Some(LoadFailed))
      && (gamePhase == Complete ==> battleResult.Some?)
      && (battleResult.Some? ==> gamePhase in {Ready, Battling, Complete})
      && (selectedFighter.Some? ==> gamePhase in {Ready, Battling, Complete})
    }

    /**
     * Both creatures are present and a fighter is selected: the guard of startBattle. When it
     * holds in a valid session, the player and the CPU are two different creatures.
     */
    predicate CanBattle(): (ok: bool)
      reads this
      ensures !ok <==> pokemon1.None? || pokemon2.None? || selectedFighter.None?
      ensures ok && ContestValid() ==>
        Roles(selectedFighter.value, pokemon1.value, pokemon2.value).0.id
        != Roles(selectedFighter.value, pokemon1.value, pokemon2.value).1.id
    {
      pokemon1.Some? && pokemon2.Some? && selectedFighter.Some?
    }

    function Player(): Pokemon
      reads this
      requires CanBattle()
    {
      Roles(selectedFighter.value, pokemon1.value, pokemon2.value).0
    }

    function Cpu(): Pokemon
      reads this
      requires CanBattle()
    {
      Roles(selectedFighter.value, pokemon1.value, pokemon2.value).1
    }

    /**
     * The hook's initial state, with the mount-time effects settled: the load effect restores
     * both counters, then the save effect writes them back.
     */
    constructor (store: Storage)
      requires WellFormed(store)
      ensures Valid()
      ensures pokemon1 == None && pokemon2 == None && !loading && selectedFighter == None
      ensures battleResult == None && gamePhase == Loading && error == None && timers == []
      ensures playerWins == Restore(store, PlayerWinsKey) && cpuWins == Restore(store, CpuWinsKey)
      ensures storage == Save(store, playerWins, cpuWins)
    {
      pokemon1, pokemon2 := None, None;
      loading := false;
      selectedFighter := None;
      battleResult := None;
      gamePhase := Loading;
      error := None;
      timers := [];
      var restoredPlayer := Restore(store, PlayerWinsKey);
      var restoredCpu := Restore(store, CpuWinsKey);
      playerWins, cpuWins := restoredPlayer, restoredCpu;
      storage := Save(store, restoredPlayer, restoredCpu);
    }

    /**
     * Starts a new contest: clears selection, result and error, then runs the fetch protocol
     * over the provider's answers; `run` tells how the protocol ended.
     */
    method FetchNewBattle(responses: seq<Response>) returns (run: FetchRun)
      requires Valid()
      modifies this`pokemon1, this`pokemon2, this`loading, this`selectedFighter, this`battleResult
      modifies this`gamePhase, this`error
      ensures Valid()
      ensures run == RunFetch(responses)
      ensures selectedFighter == None && battleResult == None
      ensures loading <==> run.Unfinished?
      ensures playerWins == old(playerWins) && cpuWins == old(cpuWins)
      ensures storage == old(storage) && timers == old(timers)
      ensures run.Contest? ==>
        && pokemon1 == Some(run.first) && pokemon2 == Some(run.second)
        && pokemon1.value.id != pokemon2.value.id
        && gamePhase == Selection && error == None
      ensures !run.Contest? ==> pokemon1 == old(pokemon1) && pokemon2 == old(pokemon2)
      ensures run.Failed? ==> gamePhase == Error && error == Some(LoadFailed)
      ensures run.Unfinished? ==> gamePhase == Loading && error == None
    {
      BeginFetch();
      run := AwaitContest(responses);
      match run {
        case Contest(poke1, poke2) =>
          StoreContest(poke1, poke2);
        case Failed =>
          FailFetch();
        case Unfinished =>
          // the retry loop is still awaiting answers: the phase stays loading
      }
    }

    /** The synchronous start of fetchNewBattle: loading, with selection, result and error cleared. */
    method BeginFetch()
      modifies this`loading, this`gamePhase, this`selectedFighter, this`battleResult, this`error
      ensures loading && gamePhase == Loading
      ensures selectedFighter == None && battleResult == None && error == None
      ensures PhaseValid()
    {
      loading := true;
      gamePhase := Loading;
      selectedFighter := None;
      battleResult := None;
      error := None;
    }

    /** The success branch of the fetch: both slots filled at once, selection phase, not loading. */
    method StoreContest(poke1: Pokemon, poke2: Pokemon)
      requires poke1.id != poke2.id
      requires selectedFighter == None && battleResult == None && error == None
      modifies this`pokemon1, this`pokemon2, this`gamePhase, this`loading
      ensures pokemon1 == Some(poke1) && pokemon2 == Some(poke2)
      ensures gamePhase == Selection && !loading
      ensures ContestValid() && PhaseValid()
    {
      pokemon1 := Some(poke1);
      pokemon2 := Some(poke2);
      gamePhase := Selection;
      loading := false;
    }

    /** The catch and finally branches of the fetch: error phase, fixed message, not loading. */
    method FailFetch()
      requires selectedFighter == None && battleResult == None
      modifies this`error, this`gamePhase, this`loading
      ensures error == Some(LoadFailed) && gamePhase == Error && !loading
      ensures PhaseValid()
    {
      error := Some(LoadFailed);
      gamePhase := Error;
      loading := false;
    }

    /** Records the selected slot and moves to the ready phase (the hook itself does not guard it). */
    method SelectFighter(fighter: Fighter)
      requires Valid()
      modifies this`selectedFighter, this`gamePhase
      ensures Valid()
      ensures selectedFighter == Some(fighter) && gamePhase == Ready
    {
      selectedFighter := Some(fighter);
      gamePhase := Ready;
    }

    /**
     * Without both creatures and a selection, does nothing. Otherwise moves to the battling
     * phase and schedules the resolution of the battle between the selected creature (the
     * player) and the other one (the CPU).
     */
    method StartBattle()
      requires Valid()
      modifies this`gamePhase, this`timers
      ensures Valid()
      ensures !old(CanBattle()) ==> unchanged(this)
      ensures old(CanBattle()) ==>
        gamePhase == Battling && timers == old(timers) + [CalculateBattleResult(Player(), Cpu())]
    {
      if pokemon1.None? || pokemon2.None? || selectedFighter.None? {
        return;
      }
      gamePhase := Battling;
      var roles := Roles(selectedFighter.value, pokemon1.value, pokemon2.value);
      var result := CalculateBattleResult(roles.0, roles.1);
      timers := timers + [result];
    }

    /**
     * The oldest scheduled resolution fires: the result is stored, the phase becomes complete,
     * and the winner's counter goes up by one (neither on a tie); the save effect then persists
     * the counters if they changed.
     */
    method ResolveBattle()
      requires Valid()
      requires timers != []
      modifies this`battleResult, this`gamePhase, this`playerWins, this`cpuWins, this`storage, this`timers
      ensures Valid()
      ensures timers == old(timers)[1..]
      ensures battleResult == Some(old(timers)[0]) && gamePhase == Complete
      ensures playerWins == old(playerWins) + (if old(timers)[0].outcome == PlayerWins then 1 else 0)
      ensures cpuWins == old(cpuWins) + (if old(timers)[0].outcome == CpuWins then 1 else 0)
      ensures playerWins + cpuWins == old(playerWins) + old(cpuWins) + (if old(timers)[0].outcome == Tie then 0 else 1)
      ensures storage == SaveEffect(old(storage), (old(playerWins), old(cpuWins)), (playerWins, cpuWins))
    {
      var result := timers[0];
      timers := timers[1..];
      battleResult := Some(result);
      gamePhase := Complete;
      Tally(result.outcome);
    }

    /** The winner's counter goes up by one (neither on a tie), and the save effect follows. */
    method Tally(outcome: Outcome)
      requires LedgerPersisted()
      modifies this`playerWins, this`cpuWins, this`storage
      ensures LedgerPersisted()
      ensures playerWins == old(playerWins) + (if outcome == PlayerWins then 1 else 0)
      ensures cpuWins == old(cpuWins) + (if outcome == CpuWins then 1 else 0)
      ensures storage == SaveEffect(old(storage), (old(playerWins), old(cpuWins)), (playerWins, cpuWins))
    {
      var before := (playerWins, cpuWins);
      if outcome == PlayerWins {
        playerWins := playerWins + 1;
      } else if outcome == CpuWins {
        cpuWins := cpuWins + 1;
      }
      storage := SaveEffect(storage, before, (playerWins, cpuWins));
    }

    /**
     * Sets both counters to 0 and removes both keys; the save effect then writes "0" under
     * both keys if the counters were not already 0.
     */
    method ResetScoreboard()
      requires Valid()
      modifies this`playerWins, this`cpuWins, this`storage
      ensures Valid()
      ensures playerWins == 0 && cpuWins == 0
      ensures storage == SaveEffect(Clear(old(storage)), (old(playerWins), old(cpuWins)), (0, 0))
      ensures old(playerWins) == 0 && old(cpuWins) == 0 ==> PlayerWinsKey !in storage && CpuWinsKey !in storage
    {
      var before := (playerWins, cpuWins);
      playerWins, cpuWins := 0, 0;
      storage := Clear(storage);
      storage := SaveEffect(storage, before, (playerWins, cpuWins));
    }
  }
}
