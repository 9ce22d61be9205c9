/**
  The turn-based battle (BattleScene): the elemental type chart and damage
  formula, item effects, the enemy derived from the player's level, and the
  per-frame turn logic. Key presses are given as the set of keys pressed this
  frame; the request to go back to the overworld (`change_scene("game")`) is
  returned instead of being sent to the scheduler.
*/
module Battle {
  import opened Wrappers
  import opened Numeric
  import opened Pokemons
  import opened Bags

  /** The type chart: super-effective pairs at 2x and their reverses at 0.5x. */
  const Chart: map<(string, string), real> := map[
    ("water", "fire") := 2.0,
    ("fire", "grass") := 2.0,
    ("grass", "water") := 2.0,
    ("fire", "water") := 0.5,
    ("grass", "fire") := 0.5,
    ("water", "grass") := 0.5]

  /** Water beats fire, fire beats grass, grass beats water. */
  predicate Beats(attacker: string, defender: string)
  {
    || (attacker == "water" && defender == "fire")
    || (attacker == "fire" && defender == "grass")
    || (attacker == "grass" && defender == "water")
  }

  /** `_type_multiplier`: looked up in the chart, 1.0 for any pair not in it. */
  function TypeMultiplier(attacker: string, defender: string): (m: real)
    ensures Beats(attacker, defender) ==> m == 2.0
    ensures Beats(defender, attacker) ==> m == 0.5
    ensures !Beats(attacker, defender) && !Beats(defender, attacker) ==> m == 1.0
  {
    if (attacker, defender) in Chart then Chart[(attacker, defender)] else 1.0
  }

  /** Integer halving rounded toward zero, as `int(a * 0.5)` does. */
  function HalfTowardZero(a: int): (h: int)
  {
    if a >= 0 then a / 2 else -((-a) / 2)
  }

  /**
    `_calc_damage`: the attacker's attack scaled by the multiplier, truncated,
    and at least 1. With multipliers 2, 0.5 and 1 it is exactly `2a`, `a/2`
    (toward zero) or `a`, before the floor of 1.
  */
  function CalcDamage(attack: int, attackerType: string, defenderType: string): (r: int)
    ensures r >= 1
    ensures Beats(attackerType, defenderType) ==> r == Max(1, 2 * attack)
    ensures Beats(defenderType, attackerType) ==> r == Max(1, HalfTowardZero(attack))
    ensures !Beats(attackerType, defenderType) && !Beats(defenderType, attackerType) ==> r == Max(1, attack)
  {
    Max(1, Trunc(attack as real * TypeMultiplier(attackerType, defenderType)))
  }

  const HealPotion: string := "Heal Potion"
  const StrengthPotion: string := "Strength Potion"
  const DefensePotion: string := "Defense Potion"
  const GameScene: string := "game"

  /**
    The player's battle record built from the first owned monster: grass-type,
    with attack and defense derived from the level (`//` is floor division,
    which is what `/` by a positive divisor is here) and an evolution at
    level 5.
  */
  function PlayerFor(m: Monster): (s: Stats)
    ensures s.name == m.name && s.level == m.level && s.maxHp == m.maxHp && s.hp == m.hp
    ensures s.spritePath == m.spritePath && !s.evolved && s.element == "grass"
    ensures s.attack == 10 + 2 * m.level && s.defense == 2 + m.level / 2
    ensures s.evoLevel == 5 && s.evoName == m.name + " Evo" && s.evoSpritePath == "menu_sprites/menusprite2.png"
    ensures s.evoBonusHp == 20 && s.evoBonusAtk == 5 && s.evoBonusDef == 3
  {
    Stats(m.name, "grass", m.level, m.maxHp, m.hp, 10 + m.level * 2, 2 + m.level / 2, m.spritePath,
          false, 5, m.name + " Evo", "menu_sprites/menusprite2.png", 20, 5, 3)
  }

  /**
    The enemy for a player of level `level`: a fire-type at full health whose
    stats grow with the level (`//` in the source is floor division, which is
    what `/` by a positive divisor is here).
  */
  function EnemyFor(level: int): (s: Stats)
    ensures s.level == Max(1, level) && s.level >= 1
    ensures s.maxHp == 40 + 5 * level && s.hp == s.maxHp
    ensures s.attack == 8 + 2 * level && s.defense == 1 + level / 2
    ensures s.element == "fire" && !s.evolved
  {
    Stats("EnemyMon", "fire", Max(1, level), 40 + level * 5, 40 + level * 5, 8 + level * 2, 1 + level / 2,
          "menu_sprites/menusprite11.png", false, 5, "", "", 20, 5, 3)
  }

  /** The effect an item has through `_apply_item_effect`: on the player's record and the two pending bonuses. */
  function ItemEffect(item: string, mon: Stats, atkBonus: int, defBonus: int): (r: (Stats, int, int))
    ensures item == HealPotion ==> r == (mon.(hp := Healed(mon.hp, mon.maxHp, 20)), atkBonus, defBonus)
    ensures item == StrengthPotion ==> r == (mon, atkBonus + 5, defBonus)
    ensures item == DefensePotion ==> r == (mon, atkBonus, defBonus + 3)
    ensures item != HealPotion && item != StrengthPotion && item != DefensePotion ==> r == (mon, atkBonus, defBonus)
  {
    if item == HealPotion then (mon.(hp := Healed(mon.hp, mon.maxHp, 20)), atkBonus, defBonus)
    else if item == StrengthPotion then (mon, atkBonus + 5, defBonus)
    else if item == DefensePotion then (mon, atkBonus, defBonus + 3)
    else (mon, atkBonus, defBonus)
  }

  /**
    The lasting effect keys 1, 2 and 3 give a potion once it is taken from the
    bag: a heal of 20, or +5 attack or +3 defense for good.
  */
  function KeyPotionEffect(item: string, mon: Stats): (r: Stats)
    ensures item == HealPotion ==> r == mon.(hp := Healed(mon.hp, mon.maxHp, 20))
    ensures item == StrengthPotion ==> r == mon.(attack := mon.attack + 5)
    ensures item == DefensePotion ==> r == mon.(defense := mon.defense + 3)
    ensures item != HealPotion && item != StrengthPotion && item != DefensePotion ==> r == mon
  {
    if item == HealPotion then mon.(hp := Healed(mon.hp, mon.maxHp, 20))
    else if item == StrengthPotion then mon.(attack := mon.attack + 5)
    else if item == DefensePotion then mon.(defense := mon.defense + 3)
    else mon
  }

  /** The saved monster after a won battle: name, level, hit points and sprite copied from the record. */
  function Synced(s: Stats): (m: Monster)
  {
    Monster(s.name, s.level, s.maxHp, s.hp, s.spritePath)
  }

  /** The bag after taking one of `item`, or the bag unchanged when that fails. */
  function AfterTaking(items: seq<Item>, item: string): (r: seq<Item>)
  {
    match Withdrawn(items, item, 1)
    case None => items
    case Some(rest) => rest
  }

  datatype BattleState = PlayerTurn | EnemyTurn | PlayerWin | EnemyWin

  datatype Key = Key1 | Key2 | Key3 | KeyA | KeyR | KeySpace | KeyEscape

  class BattleScene {
    var state: BattleState
    var enemyAttackTimer: real
    var itemOpen: bool
    var pendingAtkBonus: int
    var pendingDefBonus: int
    var playerMon: Pokemon
    var enemyMon: Pokemon
    const bag: Bag

    ghost predicate Valid()
      reads this
    {
      playerMon != enemyMon && pendingAtkBonus >= 0 && pendingDefBonus >= 0
    }

    /** A new battle scene with the built-in player and enemy and no pending bonuses. */
    constructor (bag: Bag)
      ensures Valid() && this.bag == bag
      ensures state == PlayerTurn && enemyAttackTimer == 0.0 && !itemOpen
      ensures pendingAtkBonus == 0 && pendingDefBonus == 0
      ensures playerMon.Snapshot() == Stats("Sproutlet", "grass", 1, 50, 50, 10, 2, "menu_sprites/menusprite16.png",
        false, 5, "Flutterleaf", "menu_sprites/menusprite15.png", 25, 6, 3)
      ensures enemyMon.Snapshot() == Stats("Serpflare", "fire", 1, 40, 40, 8, 1, "menu_sprites/menusprite11.png",
        false, 5, "", "", 20, 5, 3)
    {
      this.bag := bag;
      state := PlayerTurn;
      enemyAttackTimer := 0.0;
      itemOpen := false;
      pendingAtkBonus := 0;
      pendingDefBonus := 0;
      playerMon := new Pokemon(Stats("Sproutlet", "grass", 1, 50, 50, 10, 2, "menu_sprites/menusprite16.png",
        false, 5, "Flutterleaf", "menu_sprites/menusprite15.png", 25, 6, 3));
      enemyMon := new Pokemon(Stats("Serpflare", "fire", 1, 40, 40, 8, 1, "menu_sprites/menusprite11.png",
        false, 5, "", "", 20, 5, 3));
    }

    /**
      Starting a battle: without an owned monster it asks to go back to the
      overworld and changes nothing; otherwise it builds the player from the
      first monster and the enemy from the player's level.
    */
    method Enter() returns (request: Option<string>)
      requires Valid()
      modifies this
      ensures Valid()
      ensures |bag.monsters| == 0 ==> request == Some(GameScene) && unchanged(this)
      ensures |bag.monsters| > 0 ==>
        && request == None
        && fresh(playerMon) && fresh(enemyMon)
        && playerMon.Snapshot() == PlayerFor(bag.monsters[0])
        && enemyMon.Snapshot() == EnemyFor(bag.monsters[0].level)
        && state == PlayerTurn && enemyAttackTimer == 0.0
        && itemOpen == old(itemOpen)
        && pendingAtkBonus == old(pendingAtkBonus) && pendingDefBonus == old(pendingDefBonus)
    {
      if |bag.monsters| == 0 {
        return Some(GameScene);
      }
      playerMon := new Pokemon(PlayerFor(bag.monsters[0]));
      enemyMon := new Pokemon(EnemyFor(playerMon.level));
      state := PlayerTurn;
      enemyAttackTimer := 0.0;
      request := None;
    }

    /** Opens the item overlay (the USE buttons it lays out are not modelled). */
    method OpenItems()
      modifies this
      ensures itemOpen
      ensures state == old(state) && enemyAttackTimer == old(enemyAttackTimer)
      ensures pendingAtkBonus == old(pendingAtkBonus) && pendingDefBonus == old(pendingDefBonus)
      ensures playerMon == old(playerMon) && enemyMon == old(enemyMon)
    {
      itemOpen := true;
    }

    method CloseItems()
      modifies this
      ensures !itemOpen
      ensures state == old(state) && enemyAttackTimer == old(enemyAttackTimer)
      ensures pendingAtkBonus == old(pendingAtkBonus) && pendingDefBonus == old(pendingDefBonus)
      ensures playerMon == old(playerMon) && enemyMon == old(enemyMon)
    {
      itemOpen := false;
    }

    /** `_apply_item_effect`: a heal now, or a bonus for the next attack or the next enemy hit only. */
    method ApplyItemEffect(item: string)
      requires Valid()
      modifies this, playerMon
      ensures Valid()
      ensures playerMon == old(playerMon) && enemyMon == old(enemyMon)
      ensures state == old(state) && enemyAttackTimer == old(enemyAttackTimer) && itemOpen == old(itemOpen)
      ensures (playerMon.Snapshot(), pendingAtkBonus, pendingDefBonus) ==
        ItemEffect(item, old(playerMon.Snapshot()), old(pendingAtkBonus), old(pendingDefBonus))
    {
      if item == HealPotion {
        playerMon.Heal(20);
      } else if item == StrengthPotion {
        pendingAtkBonus := pendingAtkBonus + 5;
      } else if item == DefensePotion {
        pendingDefBonus := pendingDefBonus + 3;
      }
    }

    /** Key 1: takes a Heal Potion from the bag and, if there was one, heals 20. */
    method UseHealPotion()
      requires Valid()
      modifies bag, playerMon
      ensures bag.items == AfterTaking(old(bag.items), HealPotion) && bag.monsters == old(bag.monsters)
      ensures playerMon.Snapshot() ==
        if Withdrawn(old(bag.items), HealPotion, 1).Some?
        then KeyPotionEffect(HealPotion, old(playerMon.Snapshot()))
        else old(playerMon.Snapshot())
    {
      var ok := bag.Remove(HealPotion, 1);
      if ok {
        playerMon.Heal(20);
      }
    }

    /** Key 2: takes a Strength Potion and, if there was one, raises attack by 5 for good. */
    method UseStrengthPotion()
      requires Valid()
      modifies bag, playerMon
      ensures bag.items == AfterTaking(old(bag.items), StrengthPotion) && bag.monsters == old(bag.monsters)
      ensures playerMon.Snapshot() ==
        if Withdrawn(old(bag.items), StrengthPotion, 1).Some?
        then KeyPotionEffect(StrengthPotion, old(playerMon.Snapshot()))
        else old(playerMon.Snapshot())
    {
      var ok := bag.Remove(StrengthPotion, 1);
      if ok {
        playerMon.attack := playerMon.attack + 5;
      }
    }

    /** Key 3: takes a Defense Potion and, if there was one, raises defense by 3 for good. */
    method UseDefensePotion()
      requires Valid()
      modifies bag, playerMon
      ensures bag.items == AfterTaking(old(bag.items), DefensePotion) && bag.monsters == old(bag.monsters)
      ensures playerMon.Snapshot() ==
        if Withdrawn(old(bag.items), DefensePotion, 1).Some?
        then KeyPotionEffect(DefensePotion, old(playerMon.Snapshot()))
        else old(playerMon.Snapshot())
    {
      var ok := bag.Remove(DefensePotion, 1);
      if ok {
        playerMon.defense := playerMon.defense + 3;
      }
    }

    /**
      The USE button of row `index` in the item overlay: nothing for a row
      that does not exist or holds no items; otherwise one item of that name
      is taken (from the first entry with the name) and, if that succeeds,
      its effect applied.
    */
    method UseItemFromOverlay(index: int)
      requires Valid()
      modifies this, bag, playerMon
      ensures Valid()
      ensures playerMon == old(playerMon) && enemyMon == old(enemyMon)
      ensures state == old(state) && enemyAttackTimer == old(enemyAttackTimer) && itemOpen == old(itemOpen)
      ensures bag.monsters == old(bag.monsters)
      ensures index < 0 || index >= |old(bag.items)| || old(bag.items)[index].count <= 0 ==>
        && bag.items == old(bag.items) && playerMon.Snapshot() == old(playerMon.Snapshot())
        && pendingAtkBonus == old(pendingAtkBonus) && pendingDefBonus == old(pendingDefBonus)
      ensures 0 <= index < |old(bag.items)| && old(bag.items)[index].count > 0 ==>
        var item := old(bag.items)[index].name;
        && bag.items == AfterTaking(old(bag.items), item)
        && (playerMon.Snapshot(), pendingAtkBonus, pendingDefBonus) ==
           if Withdrawn(old(bag.items), item, 1).Some?
           then ItemEffect(item, old(playerMon.Snapshot()), old(pendingAtkBonus), old(pendingDefBonus))
           else (old(playerMon.Snapshot()), old(pendingAtkBonus), old(pendingDefBonus))
    {
      if index < 0 || index >= |bag.items| {
        return;
      }
      var item := bag.items[index].name;
      var count := bag.items[index].count;
      if count <= 0 {
        return;
      }
      var ok := bag.Remove(item, 1);
      if !ok {
        return;
      }
      ApplyItemEffect(item);
    }

    /**
      Key A: the player's hit carries the pending attack bonus, which is then
      spent; the battle is won once the enemy has no hit points left,
      otherwise the enemy attacks after 0.5 s.
    */
    method PlayerAttack()
      requires Valid()
      modifies this, enemyMon
      ensures Valid()
      ensures playerMon == old(playerMon) && enemyMon == old(enemyMon) && itemOpen == old(itemOpen)
      ensures pendingAtkBonus == 0 && pendingDefBonus == old(pendingDefBonus)
      ensures var raw := CalcDamage(playerMon.attack, playerMon.element, old(enemyMon.element)) + old(pendingAtkBonus);
        enemyMon.Snapshot() == old(enemyMon.Snapshot()).(hp := Damaged(old(enemyMon.hp), DamageDealt(raw, old(enemyMon.defense))))
      ensures enemyMon.hp <= 0 ==> state == PlayerWin && enemyAttackTimer == old(enemyAttackTimer)
      ensures enemyMon.hp > 0 ==> state == EnemyTurn && enemyAttackTimer == 0.5
    {
      var raw := CalcDamage(playerMon.attack, playerMon.element, enemyMon.element);
      raw := raw + pendingAtkBonus;
      pendingAtkBonus := 0;
      var dealt := enemyMon.TakeDamage(raw);
      if enemyMon.hp <= 0 {
        state := PlayerWin;
      } else {
        state := EnemyTurn;
        enemyAttackTimer := 0.5;
      }
    }

    /**
      The enemy's hit: the pending defense bonus counts for this hit only,
      the player's defense is the same afterwards and the bonus is spent; the
      battle is lost once the player has no hit points left, otherwise it is
      the player's turn again.
    */
    method EnemyAttack()
      requires Valid()
      modifies this, playerMon
      ensures Valid()
      ensures playerMon == old(playerMon) && enemyMon == old(enemyMon) && itemOpen == old(itemOpen)
      ensures pendingDefBonus == 0 && pendingAtkBonus == old(pendingAtkBonus)
      ensures enemyAttackTimer == old(enemyAttackTimer)
      ensures var raw := CalcDamage(enemyMon.attack, enemyMon.element, old(playerMon.element));
        playerMon.Snapshot() == old(playerMon.Snapshot()).(hp := Damaged(old(playerMon.hp),
          DamageDealt(raw, old(playerMon.defense) + old(pendingDefBonus))))
      ensures playerMon.hp <= 0 ==> state == EnemyWin
      ensures playerMon.hp > 0 ==> state == PlayerTurn
    {
      var raw := CalcDamage(enemyMon.attack, enemyMon.element, playerMon.element);
      if pendingDefBonus != 0 {
        var oldDef := playerMon.defense;
        playerMon.defense := playerMon.defense + pendingDefBonus;
        pendingDefBonus := 0;
        var dealt := playerMon.TakeDamage(raw);
        playerMon.defense := oldDef;
      } else {
        var dealt := playerMon.TakeDamage(raw);
      }
      if playerMon.hp <= 0 {
        state := EnemyWin;
      } else {
        state := PlayerTurn;
      }
    }

    /**
      After a won battle, Space levels the player up, tries to evolve it,
      copies the record into the first owned monster and asks to go back to
      the overworld.
    */
    method CollectReward() returns (request: Option<string>)
      requires Valid()
      modifies playerMon, bag
      ensures request == Some(GameScene)
      ensures playerMon.Snapshot() == EvolutionOutcome(old(playerMon.Snapshot()).(level := old(playerMon.level) + 1)).0
      ensures bag.items == old(bag.items)
      ensures bag.monsters == if |old(bag.monsters)| > 0
        then old(bag.monsters)[0 := Synced(playerMon.Snapshot())]
        else old(bag.monsters)
    {
      playerMon.level := playerMon.level + 1;
      var evolved := playerMon.TryEvolve();
      if |bag.monsters| > 0 {
        bag.monsters := bag.monsters[0 := Synced(playerMon.Snapshot())];
      }
      request := Some(GameScene);
    }

    /**
      One frame of the battle. An open item overlay takes all input (Escape
      closes it). Otherwise, on the player's turn the first of keys 1, 2, 3,
      A, R that is pressed acts; on the enemy's turn the timer runs down and
      the enemy hits once it reaches 0; after a win Space collects the reward;
      a lost battle stays lost.
    */
    method Update(dt: real, keys: set<Key>) returns (request: Option<string>)
      requires Valid()
      modifies this, playerMon, enemyMon, bag
      ensures Valid()
      ensures playerMon == old(playerMon) && enemyMon == old(enemyMon)
      ensures old(itemOpen) ==>
        && itemOpen == (KeyEscape !in keys) && request == None
        && state == old(state) && enemyAttackTimer == old(enemyAttackTimer)
        && pendingAtkBonus == old(pendingAtkBonus) && pendingDefBonus == old(pendingDefBonus)
        && unchanged(playerMon, enemyMon, bag)
      ensures !old(itemOpen) ==> !itemOpen
      ensures !old(itemOpen) && old(state) == PlayerTurn ==>
        if Key1 in keys || Key2 in keys || Key3 in keys then
          var item := if Key1 in keys then HealPotion else if Key2 in keys then StrengthPotion else DefensePotion;
          && request == None && state == PlayerTurn && unchanged(this, enemyMon)
          && bag.items == AfterTaking(old(bag.items), item) && bag.monsters == old(bag.monsters)
          && playerMon.Snapshot() ==
               if Withdrawn(old(bag.items), item, 1).Some?
               then KeyPotionEffect(item, old(playerMon.Snapshot()))
               else old(playerMon.Snapshot())
        else if KeyA in keys then
          && request == None && unchanged(playerMon, bag)
          && pendingAtkBonus == 0 && pendingDefBonus == old(pendingDefBonus)
          && state == (if enemyMon.hp <= 0 then PlayerWin else EnemyTurn)
          && enemyAttackTimer == (if state == EnemyTurn then 0.5 else old(enemyAttackTimer))
          && enemyMon.Snapshot() == old(enemyMon.Snapshot()).(hp := Damaged(old(enemyMon.hp),
               DamageDealt(CalcDamage(playerMon.attack, playerMon.element, enemyMon.element) + old(pendingAtkBonus),
                           enemyMon.defense)))
        else
          && request == (if KeyR in keys then Some(GameScene) else None)
          && unchanged(this, playerMon, enemyMon, bag)
      ensures !old(itemOpen) && old(state) == EnemyTurn ==>
        && request == None && enemyAttackTimer == old(enemyAttackTimer) - dt
        && unchanged(enemyMon, bag) && pendingAtkBonus == old(pendingAtkBonus)
        && if enemyAttackTimer <= 0.0 then
             && pendingDefBonus == 0 && playerMon.defense == old(playerMon.defense)
             && state == (if playerMon.hp <= 0 then EnemyWin else PlayerTurn)
             && playerMon.Snapshot() == old(playerMon.Snapshot()).(hp := Damaged(old(playerMon.hp),
                  DamageDealt(CalcDamage(enemyMon.attack, enemyMon.element, playerMon.element),
                              old(playerMon.defense) + old(pendingDefBonus))))
           else
             state == EnemyTurn && pendingDefBonus == old(pendingDefBonus) && unchanged(playerMon)
      ensures !old(itemOpen) && old(state) == PlayerWin ==>
        && state == PlayerWin && unchanged(enemyMon)
        && if KeySpace in keys then
             && request == Some(GameScene)
             && playerMon.Snapshot() == EvolutionOutcome(old(playerMon.Snapshot()).(level := old(playerMon.level) + 1)).0
             && enemyAttackTimer == old(enemyAttackTimer)
             && pendingAtkBonus == old(pendingAtkBonus) && pendingDefBonus == old(pendingDefBonus)
             && bag.items == old(bag.items)
             && bag.monsters == if |old(bag.monsters)| > 0
                  then old(bag.monsters)[0 := Synced(playerMon.Snapshot())]
                  else old(bag.monsters)
           else request == None && unchanged(this, playerMon, bag)
      ensures !old(itemOpen) && old(state) == EnemyWin ==>
        state == EnemyWin && request == None && unchanged(this, playerMon, enemyMon, bag)
    {
      request := None;
      if itemOpen {
        if KeyEscape in keys {
          CloseItems();
        }
        return;
      }
      match state
      case PlayerTurn =>
        if Key1 in keys {
          UseHealPotion();
        } else if Key2 in keys {
          UseStrengthPotion();
        } else if Key3 in keys {
          UseDefensePotion();
        } else if KeyA in keys {
          PlayerAttack();
        } else if KeyR in keys {
          request := Some(GameScene);
        }
      case EnemyTurn =>
        enemyAttackTimer := enemyAttackTimer - dt;
        if enemyAttackTimer <= 0.0 {
          EnemyAttack();
        }
      case PlayerWin =>
        if KeySpace in keys {
          request := CollectReward();
        }
      case EnemyWin =>
    }
  }
}
