/** Agents/PlayerStats.cs: the per-round counters the round winner is decided from. */
module Stats {

  class PlayerStats {
    var totalDamageDealt: int
    var totalCombos: int

    /** Both counters start at 0 (their field initialisers). */
    constructor ()
      ensures totalDamageDealt == 0 && totalCombos == 0
    {
      totalDamageDealt := 0;
      totalCombos := 0;
    }

    /** AddDamage: the damage counter grows by exactly amount; the combo counter is untouched. */
    method AddDamage(amount: int)
      modifies this
      ensures totalDamageDealt == old(totalDamageDealt) + amount
      ensures totalCombos == old(totalCombos)
    {
      totalDamageDealt := totalDamageDealt + amount;
    }

    /** AddCombo: the combo counter grows by exactly one; the damage counter is untouched. */
    method AddCombo()
      modifies this
      ensures totalCombos == old(totalCombos) + 1
      ensures totalDamageDealt == old(totalDamageDealt)
    {
      totalCombos := totalCombos + 1;
    }

    /** ResetStats: both counters become 0 whatever they were, so a second reset changes nothing. */
    method ResetStats()
      modifies this
      ensures totalDamageDealt == 0 && totalCombos == 0
    {
      totalDamageDealt := 0;
      totalCombos := 0;
    }
  }
}
