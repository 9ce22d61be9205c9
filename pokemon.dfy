/**
  The Pokémon stat record (a dataclass updated in place): healing, taking
  damage and a one-shot evolution. Python integers are unbounded, as here.
*/
module Pokemons {
  import opened Numeric

  /** All fields of a Pokémon at one moment. */
  datatype Stats = Stats(
    name: string, element: string, level: int,
    maxHp: int, hp: int, attack: int, defense: int, spritePath: string,
    evolved: bool, evoLevel: int, evoName: string, evoSpritePath: string,
    evoBonusHp: int, evoBonusAtk: int, evoBonusDef: int)

  /** Hit points after healing by `amount`: capped at `maxHp`. */
  function Healed(hp: int, maxHp: int, amount: int): (r: int)
    ensures r <= maxHp && r <= hp + amount
    ensures r == maxHp || r == hp + amount
    ensures hp <= maxHp && amount >= 0 ==> hp <= r <= maxHp
  {
    Min(maxHp, hp + amount)
  }

  /** Damage actually dealt: the raw damage less defense, but never below 1. */
  function DamageDealt(raw: int, defense: int): (dmg: int)
    ensures dmg >= 1 && dmg >= raw - defense
    ensures raw - defense >= 1 ==> dmg == raw - defense
    ensures raw - defense < 1 ==> dmg == 1
  {
    Max(1, raw - defense)
  }

  /** Hit points after losing `dmg`: never below 0. */
  function Damaged(hp: int, dmg: int): (r: int)
    ensures r >= 0 && r >= hp - dmg
    ensures hp - dmg >= 0 ==> r == hp - dmg
    ensures hp - dmg < 0 ==> r == 0
    ensures hp > 0 && dmg >= 1 ==> r < hp
  {
    Max(0, hp - dmg)
  }

  /** Whether `try_evolve` succeeds: not yet evolved and the level has been reached. */
  predicate CanEvolve(s: Stats)
  {
    !s.evolved && s.level >= s.evoLevel
  }

  /** The record after a successful evolution. */
  function Evolve(s: Stats): (r: Stats)
    ensures r.evolved
    ensures r.maxHp == s.maxHp + s.evoBonusHp && r.hp == r.maxHp
    ensures r.attack == s.attack + s.evoBonusAtk && r.defense == s.defense + s.evoBonusDef
    ensures r.name == (if s.evoName != "" then s.evoName else s.name)
    ensures r.spritePath == (if s.evoSpritePath != "" then s.evoSpritePath else s.spritePath)
    ensures r.(evolved := s.evolved, name := s.name, spritePath := s.spritePath,
               maxHp := s.maxHp, hp := s.hp, attack := s.attack, defense := s.defense) == s
  {
    var named := if s.evoName != "" then s.(name := s.evoName) else s;
    var drawn := if s.evoSpritePath != "" then named.(spritePath := s.evoSpritePath) else named;
    var maxHp := s.maxHp + s.evoBonusHp;
    drawn.(evolved := true, maxHp := maxHp, attack := s.attack + s.evoBonusAtk,
           defense := s.defense + s.evoBonusDef, hp := maxHp)
  }

  /** `try_evolve` as a value: the new record and whether it evolved. */
  function EvolutionOutcome(s: Stats): (r: (Stats, bool))
  {
    if CanEvolve(s) then (Evolve(s), true) else (s, false)
  }

  /** Evolution is one-shot: trying again fails and changes nothing. */
  lemma TryEvolveIdempotent(s: Stats)
    ensures !EvolutionOutcome(EvolutionOutcome(s).0).1
    ensures EvolutionOutcome(EvolutionOutcome(s).0).0 == EvolutionOutcome(s).0
  {
  }

  class Pokemon {
    var name: string
    var element: string
    var level: int
    var maxHp: int
    var hp: int
    var attack: int
    var defense: int
    var spritePath: string
    var evolved: bool
    var evoLevel: int
    var evoName: string
    var evoSpritePath: string
    var evoBonusHp: int
    var evoBonusAtk: int
    var evoBonusDef: int

    function Snapshot(): Stats
      reads this
    {
      Stats(name, element, level, maxHp, hp, attack, defense, spritePath,
            evolved, evoLevel, evoName, evoSpritePath, evoBonusHp, evoBonusAtk, evoBonusDef)
    }

    /** A record with the given fields (the dataclass constructor). */
    constructor (s: Stats)
      ensures Snapshot() == s
    {
      name, element, level := s.name, s.element, s.level;
      maxHp, hp, attack, defense := s.maxHp, s.hp, s.attack, s.defense;
      spritePath, evolved, evoLevel := s.spritePath, s.evolved, s.evoLevel;
      evoName, evoSpritePath := s.evoName, s.evoSpritePath;
      evoBonusHp, evoBonusAtk, evoBonusDef := s.evoBonusHp, s.evoBonusAtk, s.evoBonusDef;
    }

    method Heal(amount: int)
      modifies this
      ensures Snapshot() == old(Snapshot()).(hp := Healed(old(hp), maxHp, amount))
    {
      hp := Min(maxHp, hp + amount);
    }

    /** Defense reduces the damage (to at least 1); hit points do not go below 0. Only `hp` changes. */
    method TakeDamage(raw: int) returns (dmg: int)
      modifies this
      ensures dmg == DamageDealt(raw, defense) && dmg >= 1
      ensures Snapshot() == old(Snapshot()).(hp := Damaged(old(hp), dmg))
      ensures hp >= 0 && (old(hp) > 0 ==> hp < old(hp))
    {
      dmg := Max(1, raw - defense);
      hp := Max(0, hp - dmg);
    }

    /** Evolves once the level reaches `evoLevel`, at most once in the record's life. */
    method TryEvolve() returns (ok: bool)
      modifies this
      ensures ok == CanEvolve(old(Snapshot()))
      ensures (Snapshot(), ok) == EvolutionOutcome(old(Snapshot()))
      ensures !ok ==> unchanged(this)
    {
      if evolved {
        return false;
      }
      if level < evoLevel {
        return false;
      }
      evolved := true;
      if evoName != "" {
        name := evoName;
      }
      if evoSpritePath != "" {
        spritePath := evoSpritePath;
      }
      maxHp := maxHp + evoBonusHp;
      attack := attack + evoBonusAtk;
      defense := defense + evoBonusDef;
      hp := maxHp;
      return true;
    }
  }
}
