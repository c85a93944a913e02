/**
 * The score ledger's persistence: the two win counters kept as decimal strings under two keys
 * of a string-keyed store (browser localStorage in src/hooks/usePokemonBattle.ts).
 */
module ScoreLedger {

  /** A string-keyed store: `getItem` is a lookup, `setItem` an update, `removeItem` a removal. */
  type Storage = map<string, string>

  const PlayerWinsKey: string := "pokemon-battle-player-wins"
  const CpuWinsKey: string := "pokemon-battle-cpu-wins"

  predicate IsDigit(c: char) {
    '0' <= c <= '9'
  }

  /** A non-empty string of decimal digits. */
  predicate IsDigits(s: string) {
    |s| > 0 && forall i :: 0 <= i < |s| ==> IsDigit(s[i])
  }

  /** A decimal string without superfluous leading zeros, as `Number.prototype.toString` writes. */
  predicate IsCanonical(s: string) {
    IsDigits(s) && (s[0] == '0' ==> |s| == 1)
  }

  function DigitChar(d: nat): (c: char)
    requires d < 10
    ensures IsDigit(c) && c as int - '0' as int == d
  {
    ('0' as int + d) as char
  }

  function DigitValue(c: char): (d: nat)
    requires IsDigit(c)
    ensures d < 10 && DigitChar(d) == c
  {
    c as int - '0' as int
  }

  /** `n.toString()` for a natural number. */
  function ToDecimal(n: nat): (s: string)
    ensures IsCanonical(s)
    ensures n < 10 <==> |s| == 1
    decreases n
  {
    if n < 10 then [DigitChar(n)] else ToDecimal(n / 10) + [DigitChar(n % 10)]
  }

  /** `parseInt(s)` for a string of decimal digits: 0 exactly when every digit is zero. */
  function ParseDecimal(s: string): (n: nat)
    requires IsDigits(s)
    ensures n == 0 <==> forall i :: 0 <= i < |s| ==> s[i] == '0'
    decreases |s|
  {
    var last := DigitValue(s[|s| - 1]);
    if |s| == 1 then last else 10 * ParseDecimal(s[..|s| - 1]) + last
  }

  /** Writing a counter and reading it back gives the counter. */
  lemma {:induction false} ParseToDecimal(n: nat)
    ensures ParseDecimal(ToDecimal(n)) == n
    decreases n
  {
    if n >= 10 {
      var s := ToDecimal(n);
      assert s[..|s| - 1] == ToDecimal(n / 10);
      ParseToDecimal(n / 10);
    }
  }

  /** Reading a canonical string and writing the number back gives the same string. */
  lemma {:induction false} ToDecimalOfParse(s: string)
    requires IsCanonical(s)
    ensures ToDecimal(ParseDecimal(s)) == s
    decreases |s|
  {
    if |s| > 1 {
      var init := s[..|s| - 1];
      assert IsCanonical(init);
      ToDecimalOfParse(init);
      ParsePositive(init);
      AppendDigit(ParseDecimal(init), DigitValue(s[|s| - 1]));
      assert s == init + [s[|s| - 1]];
    }
  }

  /** Writing 10 * p + d, for a positive p and a digit d, appends d to the writing of p. */
  lemma AppendDigit(p: nat, d: nat)
    requires p >= 1 && d < 10
    ensures ToDecimal(10 * p + d) == ToDecimal(p) + [DigitChar(d)]
  {
    var n := 10 * p + d;
    assert n / 10 == p && n % 10 == d;
  }

  /** A canonical string of two or more digits denotes at least 10. */
  lemma {:induction false} ParsePositive(s: string)
    requires IsCanonical(s) && s[0] != '0'
    ensures ParseDecimal(s) >= 1
    decreases |s|
  {
    if |s| > 1 {
      var init := s[..|s| - 1];
      assert init[0] == s[0];
      ParsePositive(init);
    }
  }

  /**
   * What the store may hold under a ledger key: nothing, the empty string, or digits.
   * The empty string is falsy and so is never parsed.
   */
  predicate EntryOk(store: Storage, key: string) {
    key in store ==> store[key] == "" || IsDigits(store[key])
  }

  predicate WellFormed(store: Storage) {
    EntryOk(store, PlayerWinsKey) && EntryOk(store, CpuWinsKey)
  }

  /** The counter the load effect restores from one key: left at 0 unless a non-empty value is stored. */
  function Restore(store: Storage, key: string): (n: nat)
    requires EntryOk(store, key)
    ensures key !in store || store[key] == "" ==> n == 0
    ensures key in store && store[key] != "" ==> n == ParseDecimal(store[key])
  {
    if key in store && store[key] != "" then ParseDecimal(store[key]) else 0
  }

  /** The save effect: both counters written as decimal strings under their keys. */
  function Save(store: Storage, playerWins: nat, cpuWins: nat): (s: Storage)
    ensures WellFormed(s)
    ensures Restore(s, PlayerWinsKey) == playerWins && Restore(s, CpuWinsKey) == cpuWins
    ensures PlayerWinsKey in s && CpuWinsKey in s
    ensures forall k :: k != PlayerWinsKey && k != CpuWinsKey ==> (k in s <==> k in store)
    ensures forall k :: k in store && k != PlayerWinsKey && k != CpuWinsKey ==> s[k] == store[k]
  {
    ParseToDecimal(playerWins);
    ParseToDecimal(cpuWins);
    store[PlayerWinsKey := ToDecimal(playerWins)][CpuWinsKey := ToDecimal(cpuWins)]
  }

  /** The reset handler's two removals: both keys absent, both counters restore as 0. */
  function Clear(store: Storage): (s: Storage)
    ensures PlayerWinsKey !in s && CpuWinsKey !in s
    ensures WellFormed(s) && Restore(s, PlayerWinsKey) == 0 && Restore(s, CpuWinsKey) == 0
    ensures forall k :: k != PlayerWinsKey && k != CpuWinsKey ==> (k in s <==> k in store)
    ensures forall k :: k in store && k != PlayerWinsKey && k != CpuWinsKey ==> s[k] == store[k]
  {
    store - {PlayerWinsKey, CpuWinsKey}
  }

  /**
   * The save effect as React runs it after a render: only when one of its two dependencies,
   * the counters, changed since the previous render.
   */
  function SaveEffect(store: Storage, before: (nat, nat), after: (nat, nat)): (s: Storage)
    ensures before == after ==> s == store
    ensures before != after ==> WellFormed(s) && Restore(s, PlayerWinsKey) == after.0 && Restore(s, CpuWinsKey) == after.1
  {
    if before == after then store else Save(store, after.0, after.1)
  }

  /**
   * Saved counters survive whatever else is written to or removed from the store before a
   * restart: restoring gives them back.
   */
  lemma RestoreAfterSave(store: Storage, playerWins: nat, cpuWins: nat, later: Storage, removed: set<string>)
    requires PlayerWinsKey !in later && CpuWinsKey !in later
    requires PlayerWinsKey !in removed && CpuWinsKey !in removed
    ensures var s := (Save(store, playerWins, cpuWins) - removed) + later;
      WellFormed(s) && Restore(s, PlayerWinsKey) == playerWins && Restore(s, CpuWinsKey) == cpuWins
  {
  }

  /** Restoring a well-formed store and saving the counters at once leaves canonical values in place. */
  lemma SaveOfRestoreKeepsCanonical(store: Storage)
    requires PlayerWinsKey in store && IsCanonical(store[PlayerWinsKey])
    requires CpuWinsKey in store && IsCanonical(store[CpuWinsKey])
    ensures Save(store, Restore(store, PlayerWinsKey), Restore(store, CpuWinsKey)) == store
  {
    ToDecimalOfParse(store[PlayerWinsKey]);
    ToDecimalOfParse(store[CpuWinsKey]);
  }
}
