/** The derived-stat rules written out twice in CharacterCreate.jsx and twice in
    AdminCharacters.jsx: the pool maxima per trilha, and defence and movement from Agility. */
module Rules {

  datatype Maxima = Maxima(pvMax: int, peMax: int, sanMax: int)

  /** The per-trilha table; every value other than `Combatente` and `Ocultista` takes the
      `Especialista` row (the final `else` branch). */
  function PoolMaxima(trilha: string, vig: int, pre: int): Maxima {
    if trilha == "Combatente" then Maxima(20 + vig, 2 + pre, 12)
    else if trilha == "Ocultista" then Maxima(12 + vig, 4 + pre, 20)
    else Maxima(16 + vig, 3 + pre, 16)
  }

  /** `defesa = 10 + AGI`, the same for every trilha. */
  function Defesa(agi: int): int {
    10 + agi
  }

  /** `deslocamento = 9 + AGI`, the same for every trilha. */
  function Deslocamento(agi: int): int {
    9 + agi
  }

  /** An unknown trilha is indistinguishable from `Especialista`. */
  lemma UnknownTrilhaIsEspecialista(trilha: string, vig: int, pre: int)
    requires trilha != "Combatente" && trilha != "Ocultista"
    ensures PoolMaxima(trilha, vig, pre) == PoolMaxima("Especialista", vig, pre)
  {
  }

  /** Health follows Vigor and effort follows Presence point for point; sanity ignores both. */
  lemma MaximaFollowAttributes(trilha: string, vig: int, pre: int, dv: int, dp: int)
    ensures PoolMaxima(trilha, vig + dv, pre + dp).pvMax == PoolMaxima(trilha, vig, pre).pvMax + dv
    ensures PoolMaxima(trilha, vig + dv, pre + dp).peMax == PoolMaxima(trilha, vig, pre).peMax + dp
    ensures PoolMaxima(trilha, vig + dv, pre + dp).sanMax == PoolMaxima(trilha, vig, pre).sanMax
  {
  }

  /** Combatente to Ocultista: sanity 12 to 20, effort up by 2, health down by 8. */
  lemma CombatenteToOcultista(vig: int, pre: int)
    ensures PoolMaxima("Ocultista", vig, pre).sanMax == 20 && PoolMaxima("Combatente", vig, pre).sanMax == 12
    ensures PoolMaxima("Ocultista", vig, pre).peMax == PoolMaxima("Combatente", vig, pre).peMax + 2
    ensures PoolMaxima("Ocultista", vig, pre).pvMax == PoolMaxima("Combatente", vig, pre).pvMax - 8
  {
  }

  lemma CombatenteExample()
    ensures PoolMaxima("Combatente", 3, 2) == Maxima(23, 4, 12)
    ensures Defesa(4) == 14 && Deslocamento(4) == 13
  {
  }
}
