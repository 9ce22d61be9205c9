# NTHU-PEPPI-POKEMON core in Dafny

This is a verified model of the logic at the core of a small pygame Pokémon-style game:

- **Scene scheduler** (`SceneManager`). It keeps a registry of named scenes, the current scene, a pending switch and at most one crossfade.
- **Crossfade** (`TransitionScene`). A black overlay fades in over the outgoing scene. The scenes swap at the midpoint, then the overlay fades out over the incoming scene.
- **Pokémon stat record**. It covers healing, taking damage and a one-shot evolution.
- **Battle scene rules**. These are the bag lookups, the type chart and damage formula, item effects, the enemy derived from the player's level, and the per-frame turn logic.
- **Text overlays**. These are the chat box and the name prompt.

Each source file that updates state in place is modelled as a Dafny `class` with the same fields. Its methods have `modifies` clauses. Their `ensures` give every field they may change, case by case. Where useful, a pure function gives the same step as a value, and the timing and bag lemmas are proved about that function:

- `Transitions.Step` for one crossfade update;
- `Bags.Withdrawn` for taking items from the bag;
- `Pokemons.EvolutionOutcome` for an evolution attempt.

Scenes are opaque objects with four hooks. Each hook appends an event to a ghost log (`Scenes.Trace`). This lets the scheduler's contracts say which hooks run, in what order, and how many times.

### How the scheduler behaves

The model follows `scene_manager.py` as written, which differs in three places from what its comments suggest (line 107 says requests during a transition are ignored):

- **Requests during a crossfade are kept, not dropped.** `change_scene` records the name as the pending switch (line 97) before it checks for a crossfade in flight (line 108). The request therefore survives and is applied on the first `update` after the crossfade is gone. The last such request wins. `SceneScenario.DeferredRequestScenario` shows this.
- **The target of a crossfade is exited and entered twice.** The crossfade path also leaves the name pending, and the midpoint swap keeps it (lines 169-171). So on the `update` after a crossfade ends, the target gets `exit` then `enter` a second time. `SceneScenario.CrossfadeScenario` and `SceneScenario.ReenterAfterCrossfade` show this.
- **After the swap, the current scene may differ from the crossfade's incoming scene.** The swap looks up `_scenes[target]` at swap time (line 162). If the name was registered again during the crossfade, the current scene is the new registration, not the crossfade's `to_scene`.

Other points about the arithmetic:

- Opacity uses Python's `int(...)`, which truncates. Half-way through the fade-out it is therefore 127.
- The swap resets the crossfade's clock to 0, so any time past the midpoint in the swap frame is lost.

## Model

| member | source | states |
|---|---|---|
| SceneManagement.SceneManager.constructor | src/core/managers/scene_manager.py:80-88 | An empty registry: no current scene, nothing pending, no crossfade. |
| SceneManagement.SceneManager.RegisterScene | src/core/managers/scene_manager.py:90-91 | Upsert. The name maps to the given scene, every other entry is unchanged, and no other field changes. |
| SceneManagement.SceneManager.ChangeScene | src/core/managers/scene_manager.py:94-118 | An unregistered name gives `NotFound` and changes nothing. Otherwise the name always becomes pending. A crossfade from the current scene to the named scene, with half `max(0.05, duration)`, is created only when a scene is current, no crossfade is in flight and a transition is requested. In every other case the crossfade fields are unchanged. |
| SceneManagement.SceneManager.PerformSceneSwitch | src/core/managers/scene_manager.py:153-171 | The target is the named scene if one is given, else the pending one; with neither, nothing happens. Otherwise the old scene (if any) exits before the target enters, the target becomes current, and only a plain switch clears the pending name. |
| SceneManagement.SceneManager.Update | src/core/managers/scene_manager.py:120-143 | Three cases. (1) With a switch pending and no crossfade: switch, then the new scene alone gets `update(dt)`. (2) With a crossfade: only the crossfade gets `dt`, following `Transitions.Step`. The swap to the crossfade's target runs exactly on the frame `swapped` first turns true. The crossfade, target and flag are reset on the frame it reports `done`. The pending name is untouched. (3) Otherwise the current scene, if any, gets `update(dt)`. The scheduler invariant is preserved. |
| SceneManagement.SceneManager.Draw | src/core/managers/scene_manager.py:145-151 | Draws through the crossfade if one exists, else the current scene if any, else nothing. |
| SceneScenario.Setup | src/core/managers/scene_manager.py:90-143 | Three registered scenes, an initial switch to one of them and one frame: that scene entered once and updated once. |
| Scenes.Scene.Enter | src/core/managers/scene_manager.py:165-167 | Calling the hook appends exactly one `Entered` event. |
| Scenes.Scene.Exit | src/core/managers/scene_manager.py:158-160 | Calling the hook appends exactly one `Exited` event. |
| Scenes.Scene.Update | src/core/managers/scene_manager.py:141-143 | Calling the hook appends exactly one `Updated` event, carrying the `dt`. |
| Scenes.Scene.Draw | src/core/managers/scene_manager.py:150-151 | Calling the hook appends exactly one `Drew` event. |
| Transitions.HalfDuration | src/scenes/transition_scene.py:11 | The half-duration is at least 0.05 and at least `duration`, and equals one of them. |
| Transitions.Progress | src/scenes/transition_scene.py:28 | Progress is at most 1, non-negative for non-negative time, and reaches 1 exactly when `t >= half`. |
| Transitions.FadeOutAlpha | src/scenes/transition_scene.py:28-29 | Fade-out opacity lies in [0, 255]. It is 0 at time 0 and 255 from `half` on. |
| Transitions.FadeInAlpha | src/scenes/transition_scene.py:34-35 | Fade-in opacity lies in [0, 255]. It is 255 at time 0 and 0 from `half` on. |
| Transitions.Step | src/scenes/transition_scene.py:25-38 | `swapped` never reverts. `done` never reverts and is only set after `swapped`. The swapping call resets `t` to 0 and sets opacity 255. The finishing call sets opacity 0. |
| Transitions.FadeOutAlphaMonotone | src/scenes/transition_scene.py:28-29 | Fade-out opacity does not decrease as time advances. |
| Transitions.FadeInAlphaAntitone | src/scenes/transition_scene.py:34-35 | Fade-in opacity does not increase as time advances. |
| Transitions.FadeOutRises | src/scenes/transition_scene.py:27-32 | Before the swap, with `dt >= 0`, an update never lowers the opacity. |
| Transitions.FadeInFalls | src/scenes/transition_scene.py:33-38 | After the swap, with `dt >= 0`, an update never raises the opacity. |
| Transitions.PhaseBelowThreshold | src/scenes/transition_scene.py:25-38 | Frames whose total stays below `half` accumulate their time and leave both flags unchanged. |
| Transitions.PhaseEnds | src/scenes/transition_scene.py:27-38 | A phase ends on the first frame whose accumulated time reaches `half`. For the fade-out that is the swap; for the fade-in it is `done`. |
| Transitions.SwapAtMidpoint | src/scenes/transition_scene.py:11-32 | From a new crossfade, the swap happens on exactly the first frame on which total time reaches `half`. The state is then `t = 0`, opacity 255, not done. |
| Transitions.DoneAfterSecondHalf | src/scenes/transition_scene.py:30-38 | After the swap, `done` is set on exactly the first frame on which the time since the swap reaches `half`. Opacity is then 0. |
| Transitions.Transition.constructor | src/scenes/transition_scene.py:6-16 | Starts at `t = 0`, opacity 0, not swapped, not done, with half `max(0.05, duration)`. |
| Transitions.Transition.Update | src/scenes/transition_scene.py:18-38 | Forwards `dt` to exactly one scene: the outgoing one before the swap, the incoming one after. The fields then follow `Step`, and the invariant (opacity in [0, 255], `done` only after `swapped`) is kept. |
| Transitions.Transition.Draw | src/scenes/transition_scene.py:40-45 | Draws the outgoing scene exactly when not yet swapped. Changes no field. |
| Pokemons.Healed | src/entities/pokemon.py:23-24 | The result is capped at `max_hp` and is either `max_hp` or `hp + amount`. With `hp <= max_hp` and `amount >= 0` it lies between the old `hp` and `max_hp`. |
| Pokemons.DamageDealt | src/entities/pokemon.py:26-28 | Damage is `raw - defense` when that is at least 1, and 1 otherwise. |
| Pokemons.Damaged | src/entities/pokemon.py:29 | Hit points become `hp - dmg` when that is not negative, and 0 otherwise. So they never go below 0, and they strictly drop when they were positive. |
| Pokemons.Evolve | src/entities/pokemon.py:37-46 | Sets `evolved`. Adds the three bonuses and refills hp to the new maximum. Replaces name and sprite only when the evolution values are non-empty. Changes no other field. |
| Pokemons.TryEvolveIdempotent | src/entities/pokemon.py:33-38 | A second evolution attempt fails and leaves the record unchanged. |
| Pokemons.Pokemon.Heal | src/entities/pokemon.py:23-24 | Only `hp` changes, to `Healed(hp, max_hp, amount)`. |
| Pokemons.Pokemon.TakeDamage | src/entities/pokemon.py:26-30 | Returns `DamageDealt(raw, defense) >= 1`. Only `hp` changes, to a value at least 0 that is strictly lower when it was positive. |
| Pokemons.Pokemon.TryEvolve | src/entities/pokemon.py:32-47 | Succeeds exactly when not evolved and `level >= evo_level`, and the record becomes `Evolve` of the old one. On failure nothing changes. |
| Bags.FirstIndex | src/scenes/battle_scene.py:295-296 | The position of the first entry with the name; None when there is none. |
| Bags.Withdrawn | src/scenes/battle_scene.py:300-311 | Succeeds exactly when an entry has the name and the first such entry holds at least `qty`. |
| Bags.WithdrawnAtFirstMatch | src/scenes/battle_scene.py:302-310 | On success only the first match changes: it is lowered by `qty`, or dropped once its count is no longer positive. Every other entry stays in order. |
| Bags.CountOfSplit | src/scenes/battle_scene.py:295-298 | Entries without the name, ahead of the others, do not affect the count. |
| Bags.WithdrawKeepsOthers | src/scenes/battle_scene.py:300-311 | Taking one name leaves the count of every other name unchanged. |
| Bags.WithdrawnCount | src/scenes/battle_scene.py:304-309 | After taking, the name's count is the reduced count. If the entry was dropped, it is the count of the next entry with that name. |
| Bags.Bag.constructor | src/scenes/battle_scene.py:291-292 | A bag holding the given item and monster lists. |
| Bags.Bag.Count | src/scenes/battle_scene.py:294-298 | The count of the first entry with the name, or 0 when there is none. |
| Bags.Bag.Remove | src/scenes/battle_scene.py:300-311 | Reports success exactly when the withdrawal is possible. The item list becomes `Withdrawn`'s result, or stays as it was on failure. |
| Battle.TypeMultiplier | src/scenes/battle_scene.py:449-459 | 2 for water→fire, fire→grass and grass→water; 0.5 for the reverse pairs; 1 otherwise. |
| Battle.CalcDamage | src/scenes/battle_scene.py:461-465 | Damage is at least 1. It is exactly `max(1, 2a)`, `max(1, a/2 rounded toward zero)` or `max(1, a)` for the three kinds of pair. |
| Battle.PlayerFor | src/scenes/battle_scene.py:233-249 | The player's record copies name, level, hit points and sprite from the first owned monster. It is grass-type and not evolved, with attack `10 + 2L` and defense `2 + L // 2` for level L. It evolves at level 5 into `name + " Evo"` with the second sprite and bonuses 20/5/3. |
| Battle.EnemyFor | src/scenes/battle_scene.py:254-263 | For player level L the enemy is fire-type with level `max(1, L)`, `max_hp = hp = 40 + 5L`, attack `8 + 2L` and defense `1 + L // 2`. |
| Battle.KeyPotionEffect | src/scenes/battle_scene.py:313-323 | The lasting effect of a potion taken with keys 1, 2 and 3. Heal Potion heals 20. Strength Potion adds 5 attack. Defense Potion adds 3 defense. Any other item leaves the record unchanged. |
| Battle.ItemEffect | src/scenes/battle_scene.py:147-160 | Heal Potion heals 20. Strength Potion adds 5 pending attack. Defense Potion adds 3 pending defense. Any other item has no effect. |
| Battle.BattleScene.constructor | src/scenes/battle_scene.py:52-60 | Starts on the player's turn with timer 0, the overlay closed, no pending bonuses, and the built-in Sproutlet and Serpflare records from lines 102-133. |
| Battle.BattleScene.Enter | src/scenes/battle_scene.py:223-273 | With no owned monster it requests the overworld and changes nothing. Otherwise the player comes from the first monster and the enemy from `EnemyFor` of the player's level, and it becomes the player's turn with timer 0. |
| Battle.BattleScene.OpenItems | src/scenes/battle_scene.py:139-142 | Opens the item overlay and changes nothing else. |
| Battle.BattleScene.CloseItems | src/scenes/battle_scene.py:144-145 | Closes the item overlay and changes nothing else. |
| Battle.BattleScene.ApplyItemEffect | src/scenes/battle_scene.py:147-160 | The player's record and the two pending bonuses become `ItemEffect` of their old values. |
| Battle.BattleScene.UseHealPotion | src/scenes/battle_scene.py:313-315 | Takes one Heal Potion. Only if that succeeds, the record becomes `KeyPotionEffect` of it: hp becomes `Healed(hp, max_hp, 20)`. |
| Battle.BattleScene.UseStrengthPotion | src/scenes/battle_scene.py:317-319 | Takes one Strength Potion. Only if that succeeds, the record becomes `KeyPotionEffect` of it: attack rises by 5 for good. |
| Battle.BattleScene.UseDefensePotion | src/scenes/battle_scene.py:321-323 | Takes one Defense Potion. Only if that succeeds, the record becomes `KeyPotionEffect` of it: defense rises by 3 for good. |
| Battle.BattleScene.UseItemFromOverlay | src/scenes/battle_scene.py:690-705 | An out-of-range row or a count of at most 0 changes nothing. Otherwise one item of that row's name is taken, and its `ItemEffect` is applied only if that succeeds. |
| Battle.BattleScene.PlayerAttack | src/scenes/battle_scene.py:385-395 | The hit is `CalcDamage` plus the pending attack bonus, taken through the enemy's defense. The bonus is then 0. Enemy hp at most 0 gives `player_win`; otherwise `enemy_turn` with the timer at 0.5. |
| Battle.BattleScene.EnemyAttack | src/scenes/battle_scene.py:403-418 | The pending defense bonus counts for this one hit only. Defense afterwards equals the old defense and the bonus is 0. Player hp at most 0 gives `enemy_win`; otherwise `player_turn`. |
| Battle.BattleScene.CollectReward | src/scenes/battle_scene.py:423-443 | Levels the player up by one and tries evolution. Copies name, level, hit points and sprite into the first owned monster, if any. Requests the overworld. |
| Battle.BattleScene.Update | src/scenes/battle_scene.py:338-443 | An open item overlay takes the frame (lines 338-351), and Escape closes it. On the player's turn the first of keys 1, 2, 3, A, R acts. Keys 1, 2 and 3 take a potion and, on success, apply `KeyPotionEffect`. A attacks and leaves the timer unchanged on a win. R requests the overworld. On the enemy's turn the timer runs down by `dt`, and the enemy hits once it reaches 0. After a win, Space levels up, tries evolution and syncs the first owned monster, leaving the items, timer and bonuses unchanged, then requests the overworld. `enemy_win` is absorbing. |
| TextInput.LeadingSpace | src/interface/chat_overlay.py:140 | Counts the whitespace at the start: those characters are whitespace and the next one is not. |
| TextInput.TrailingSpace | src/interface/chat_overlay.py:140 | Counts the whitespace at the end: those characters are whitespace and the one before them is not. |
| TextInput.Strip | src/interface/chat_overlay.py:140 | `str.strip()` is the slice of the text after its leading whitespace, neither starts nor ends with whitespace, and is empty exactly when the text is all whitespace. Every character dropped from either end is whitespace. |
| TextInput.DropLast | src/interface/chat_overlay.py:147 | `text[:-1]`: appending the old last character gives back the text; empty text stays empty. |
| TextInput.Typed | src/interface/chat_overlay.py:150-152 | The typed text is appended exactly when it is non-empty, printable and the text is below the limit. Single-character input never pushes the length past the limit. |
| ChatOverlays.ChatOverlay.constructor | src/interface/chat_overlay.py:114-116 | Closed, with empty text. |
| ChatOverlays.ChatOverlay.Open | src/interface/chat_overlay.py:122-124 | Open, with empty text. |
| ChatOverlays.ChatOverlay.Close | src/interface/chat_overlay.py:126-128 | Closed, with the text cleared. |
| ChatOverlays.ChatOverlay.HandleEvent | src/interface/chat_overlay.py:130-154 | While closed, or for an event that is not a key press, it returns None and changes nothing. Escape closes and clears. Return clears the text, stays open, and returns the stripped text if non-empty, else None. Backspace drops the last character. Other keys type, up to 120 characters. |
| NameOverlays.NameOverlay.constructor | src/interface/name_overlay.py:4-6 | Closed, with empty text. |
| NameOverlays.NameOverlay.Open | src/interface/name_overlay.py:14-16 | Open, with empty text. |
| NameOverlays.NameOverlay.Close | src/interface/name_overlay.py:18-19 | Closed; the text is kept. |
| NameOverlays.NameOverlay.HandleEvent | src/interface/name_overlay.py:21-43 | While closed, or for an event that is not a key press, it returns None and changes nothing. Escape closes and keeps the text. Return returns the stripped text or None, and neither clears nor closes. Backspace drops the last character. Other keys type, up to 18 characters. |

`SceneScenario.CrossfadeScenario`, `SceneScenario.ReenterAfterCrossfade` and `SceneScenario.DeferredRequestScenario` are client methods. Their assertions follow concrete runs of the scheduler through a crossfade (src/core/managers/scene_manager.py:94-171). They have no postconditions, so the table above has no rows for them.

## Left out

- Rendering is not modelled: surfaces, fonts, sprites, blits, the overlay fill and the HP text. `draw` is modelled only as the choice of which scene is drawn.
- Persistence is not modelled: `GameManager.load`/`save` in the battle scene. The bag is a fixed object the battle sees, and the path where reloading the game manager fails (battle_scene.py:217-221) is not covered.
- Input polling, the mouse and the pygame buttons are not modelled. This covers `item_btn`, the USE buttons that `_rebuild_item_overlay_buttons` lays out, and `_item_overlay_last_key`. Key presses are the set of keys pressed this frame. A key event is a datatype.
- Animations (`player_anim`, `enemy_anim`) are not modelled; they only affect drawing.
- Logging (`Logger` calls) is not modelled.
- Scene hooks are opaque. What a concrete scene does in `enter`/`exit`/`update`, including calling back into the scheduler, is not modelled.
- `_use_transition` and `_transition_duration` are written by `change_scene` but never read, so they are not modelled.
- Exceptions are not modelled as such. `change_scene`'s `ValueError` for an unknown name is the `NotFound` status.
- Time is a Dafny `real`, not a binary float. Float rounding of sums of frame times is therefore not modelled.
- Stored monster records are assumed to carry every key, with integer values. The `.get(..., default)` fallbacks and `int(...)` conversions in `enter`, `_bag_count`, `_bag_remove` and `_use_item_from_overlay` are not modelled.
- The battle's requests to go back to the overworld (`scene_manager.change_scene("game")`) are returned as a value. They are not sent to a scheduler.
- Transitions.Transition.Update: requires `dt >= 0`. Frame times are non-negative, and the opacity invariant needs it. The same holds for SceneManagement.SceneManager.Update.
- TextInput.IsPrintableChar: approximates `str.isprintable()` by the control, separator, common format and private-use ranges. Unassigned code points and most other format characters count as printable here. The Python whitespace set used by `Strip` is exact.
- SceneManagement.SceneManager.Update: the monotonicity and timing lemmas about the crossfade are proved about `Transitions.Step` and `Transitions.Run`. The scheduler's contract ties each frame to `Step` but does not repeat them.
- Dead code is not modelled. This is the string literals at scene_manager.py:2-61, chat_overlay.py:1-109 and battle_scene.py:197-212 and 353-375, and the battle scene methods shadowed by later definitions (battle_scene.py:163-195, 276-289).
