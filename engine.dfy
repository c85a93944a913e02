/**
 * The battle engine: a pure comparison of the three base stats of two creatures
 * (calculateBattleResult in src/hooks/usePokemonBattle.ts).
 */
module BattleEngine {

  /** The three stats that are compared. */
  datatype Stat = Attack | Defense | Speed

  datatype Stats = Stats(attack: nat, defense: nat, speed: nat) {
    function Get(k: Stat): nat {
      match k
      case Attack => attack
      case Defense => defense
      case Speed => speed
    }
  }

  /** A fetched creature; immutable once fetched. */
  datatype Pokemon = Pokemon(id: int, name: string, image: string, stats: Stats)

  /** One side's per-stat flags: true where that side's stat is strictly greater. */
  datatype StatWins = StatWins(attack: bool, defense: bool, speed: bool) {
    function Won(k: Stat): bool {
      match k
      case Attack => attack
      case Defense => defense
      case Speed => speed
    }

    /** The number of true flags (`Object.values(flags).filter(Boolean).length`). */
    function Count(): (n: nat)
      ensures n <= 3
      ensures n == 0 <==> !attack && !defense && !speed
      ensures n == 3 <==> attack && defense && speed
    {
      (if attack then 1 else 0) + (if defense then 1 else 0) + (if speed then 1 else 0)
    }
  }

  datatype Outcome = PlayerWins | CpuWins | Tie {
    /** The same outcome seen from the other side. */
    function Flip(): Outcome {
      match this
      case PlayerWins => CpuWins
      case CpuWins => PlayerWins
      case Tie => Tie
    }
  }

  datatype BattleResult = BattleResult(player: StatWins, cpu: StatWins, outcome: Outcome) {
    /** The same battle with the roles of player and CPU exchanged. */
    function Swapped(): BattleResult {
      BattleResult(cpu, player, outcome.Flip())
    }
  }

  /** -1, 0 or 1 as a is smaller than, equal to or greater than b. */
  function Sign(a: nat, b: nat): int {
    if a > b then 1 else if a < b then -1 else 0
  }

  /**
   * An independent reading of the rule: add +1 for every stat the player has strictly
   * more of and -1 for every stat the CPU has strictly more of.
   */
  function Margin(player: Stats, cpu: Stats): int {
    Sign(player.attack, cpu.attack) + Sign(player.defense, cpu.defense) + Sign(player.speed, cpu.speed)
  }

  /** The outcome the margin decides. */
  function Verdict(margin: int): Outcome {
    if margin > 0 then PlayerWins else if margin < 0 then CpuWins else Tie
  }

  /**
   * Compares the three stats; a side wins a stat when its value is strictly greater, and the
   * side that wins more stats wins the battle (a tie when both win equally many).
   */
  function CalculateBattleResult(player: Pokemon, cpu: Pokemon): (r: BattleResult)
    ensures forall k: Stat :: r.player.Won(k) <==> player.stats.Get(k) > cpu.stats.Get(k)
    ensures forall k: Stat :: r.cpu.Won(k) <==> cpu.stats.Get(k) > player.stats.Get(k)
    ensures forall k: Stat :: !(r.player.Won(k) && r.cpu.Won(k))
    ensures r.outcome == Verdict(Margin(player.stats, cpu.stats))
    ensures r.outcome == PlayerWins <==> r.player.Count() > r.cpu.Count()
    ensures r.outcome == CpuWins <==> r.cpu.Count() > r.player.Count()
    ensures r.outcome == Tie <==> r.player.Count() == r.cpu.Count()
  {
    var p, c := player.stats, cpu.stats;
    var playerStats := StatWins(p.attack > c.attack, p.defense > c.defense, p.speed > c.speed);
    var cpuStats := StatWins(c.attack > p.attack, c.defense > p.defense, c.speed > p.speed);
    var playerWins := playerStats.Count();
    var cpuWins := cpuStats.Count();
    var outcome := if playerWins > cpuWins then PlayerWins else if cpuWins > playerWins then CpuWins else Tie;
    BattleResult(playerStats, cpuStats, outcome)
  }

  /** Exchanging the two creatures exchanges the two flag sets and flips the outcome. */
  lemma SwapSides(player: Pokemon, cpu: Pokemon)
    ensures CalculateBattleResult(cpu, player) == CalculateBattleResult(player, cpu).Swapped()
    ensures CalculateBattleResult(cpu, player).outcome == Tie <==> CalculateBattleResult(player, cpu).outcome == Tie
  {
  }

  /** Equal stats on every count: no side wins any stat and the battle is a tie. */
  lemma EqualStatsTie(player: Pokemon, cpu: Pokemon)
    requires player.stats == cpu.stats
    ensures CalculateBattleResult(player, cpu).player.Count() == 0
    ensures CalculateBattleResult(player, cpu).cpu.Count() == 0
    ensures CalculateBattleResult(player, cpu).outcome == Tie
  {
  }

  /** Two hand-worked battles: a 1-1 split with a draw on speed, and a clean sweep. */
  lemma ExampleBattles()
    ensures CalculateBattleResult(Pokemon(1, "a", "", Stats(100, 50, 70)), Pokemon(2, "b", "", Stats(80, 60, 70)))
      == BattleResult(StatWins(true, false, false), StatWins(false, true, false), Tie)
    ensures CalculateBattleResult(Pokemon(1, "a", "", Stats(120, 80, 90)), Pokemon(2, "b", "", Stats(90, 70, 60)))
      == BattleResult(StatWins(true, true, true), StatWins(false, false, false), PlayerWins)
  {
  }
}
