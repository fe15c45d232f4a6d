# rpg-python core, modelled in Dafny

A terminal role-playing game: the player creates a character of one of three
archetypes (Guerreiro, Mago, Arqueiro) and fights enemies in turn-based
battles. This project models the game's deterministic core and proves
properties of it:

- the stat record `Atributos` and the combatant `Entidade` (alive test, base
  attack, damage mitigation, the text health bar);
- the player character `Personagem`, its three archetypes and their
  mana-gated special abilities;
- the enemy catalogue and the boss's two-branch attack;
- items and what using a consumable does;
- the battle loop of `Missao.executar`, turn by turn;
- the state-changing helpers of the session controller `Jogo`.

Layout, one module per source file: `wrappers.dfy` (Option), `texto.dfy`
(Python string helpers: `c * n`, counting, `str(int)`), `base.dfy`
(`Entidades`), `item.dfy` (`Itens`), `personagem.dfy` (`Personagens`),
`inimigo.dfy` (`Inimigos`), `missao.dfy` (`Combate`), `jogo.dfy` (`Sessao`).

How the Python maps to Dafny:

- Objects that hold state are classes: `Atributos` (mutated in place by
  damage, specials and potions), `Personagem`, `Inimigo` and `Jogo`, whose
  own fields change; `Entidade` and `Missao` are classes too, but their
  fields are set once and kept as `const`. Python inheritance becomes
  composition: `Personagem` and `Inimigo` each hold their `Entidade` as `ent`; the subclass is a tag
  (`Personagem.classe`, `Inimigo.especie`).
- `Ficha` is the value an `Atributos` record holds at one moment. Each
  operation that changes a record has a pure function over `Ficha`
  (`AposDano`, `Especial`, `EfeitoUso`, `Rodada`, `Batalha`), and the method
  that does the work in place is proved to produce exactly that function's
  result. The properties are proved about the functions.
- Items are values (`datatype Item`), since nothing changes them.
- Randomness and input are parameters: each battle turn reads an `Entrada`
  holding the typed command, the basic-attack value `calcular_dano_base`
  would return, the flee roll, the boss's roll, and the enemy's damage
  variance as a function from raw to varied damage. The battle runs over a
  finite sequence of such turns; if it runs out while both are alive the
  battle is reported as still running.
- `curar`, `ganhar_xp` and `equipar_item` are called by the code but not
  defined in it. Their calls are returned as requests (`Uso.Curar`, the `xp`
  result of `Executar`, `AcaoMochila.Equipar`) and their effects are not
  modelled.

## Model

| member | source | states |
|---|---|---|
| `Texto.Repeat` | models/base.py:42 | `c * n` has max(0, n) characters, all equal to c |
| `Texto.NatToString` | models/base.py:42 | `str(n)` for n >= 0 is a non-empty string of decimal digits with no leading zero |
| `Texto.NatToStringRoundTrip` | models/base.py:42 | reading the digits of `str(n)` back gives n |
| `Texto.IntToString` | models/item.py:22 | `str(i)` starts with '-' exactly when i < 0, followed by digits |
| `Texto.IntToStringRoundTrip` | models/item.py:22 | parsing `str(i)` gives i back |
| `Entidades.Atributos.constructor` | models/base.py:5-11 | the record holds the given stats; mana defaults to 0 and vida_max to None |
| `Entidades.Entidade.constructor` | models/base.py:16-20 | vida_max is set to vida when it was None and kept when given; nothing else in the record changes |
| `Entidades.Entidade.Vivo` | models/base.py:26-28 | alive exactly when vida > 0 |
| `Entidades.Entidade.Atacar` | models/base.py:30-31 | the base attack is the ataque stat, changing nothing |
| `Entidades.Efetivo` | models/base.py:34 | mitigated damage is the least value that is >= 0 and >= dano - defesa |
| `Entidades.AposDano` | models/base.py:33-36 | reports exactly max(0, dano - defesa) even past the remaining health; vida becomes max(0, vida - efetivo), so it is never negative and never rises; no other stat changes |
| `Entidades.Entidade.ReceberDano` | models/base.py:33-36 | the in-place update leaves the record and the return value equal to `AposDano` of the old record |
| `Entidades.CheioNaLargura` | models/base.py:39-41 | with 0 <= vida <= vida_max and width >= 0, the filled cell count is between 0 and the width |
| `Entidades.CheioCompleto` | models/base.py:39-41 | full health fills every cell |
| `Entidades.Barra` | models/base.py:38-42 | the bar starts with '[' and ends with "] v/vmax HP" (health clamped at 0, maximum at least 1); it has exactly max(0, cheio) '#' and max(0, width - cheio) '-'; with 0 <= vida <= vida_max the two counts add up to the width; the bar is exactly '[', the max(0, cheio) '#' cells, then the max(0, width - cheio) '-' cells, then the suffix, with nothing in between |
| `Entidades.Entidade.BarraHp` | models/base.py:38-42 | the entity's bar is `Barra` of its current health and maximum, width 20 by default |
| `Itens.NovoConsumivel` | models/item.py:11-14 | a consumable keeps its name, kind and effect and is always worth 10 |
| `Itens.NovoEquipamento` | models/item.py:27-31 | equipment keeps its name and slot, bonuses default to 0, and is always worth 50 |
| `Itens.EfeitoUso` | models/item.py:16-23 | "vida" hands valor_efeito to `curar` and changes nothing itself; "mana" adds valor_efeito to mana with no cap; any other kind reports "Item sem efeito." and changes nothing; only mana can change |
| `Itens.Usar` | models/item.py:16-23 | the in-place use leaves the record and report equal to `EfeitoUso`; it removes nothing from any inventory |
| `Personagens.DanoEspecial` | models/personagem.py:39-67 | damages 2*ataque, 40 and int(1.5*ataque)+10; positive for ataque >= 0 (ataque > 0 for Guerreiro) |
| `Personagens.Especial` | models/personagem.py:35-69 | with mana >= cost (10, 25, 15) the cost is paid and the archetype's damage returned; below cost the damage is 0 and nothing changes; only mana ever changes and it never goes negative; damage is positive exactly when the cast succeeds with positive damage |
| `Personagens.Personagem.constructor` | models/personagem.py:10-61 | a new character is level 1 with 0 XP and an empty backpack, and starts at 120/15/5/20, 70/5/2/100 or 90/12/3/40 (vida/ataque/defesa/mana) with vida_max = vida |
| `Personagens.Personagem.HabilidadeEspecial` | models/personagem.py:35-69 | the in-place special leaves the record, damage and message equal to `Especial` of the old record |
| `Inimigos.AtaqueInimigo` | models/inimigo.py:34-39 | the boss with roll < 0.3 hits for int(1.5*ataque), otherwise for ataque; every other enemy always hits for ataque |
| `Inimigos.GolpeDoChefao` | models/inimigo.py:29-39 | at its attack of 25 the boss hits for 37 on a roll below 0.3 and 25 otherwise |
| `Inimigos.Inimigo.constructor` | models/inimigo.py:6-8 | a plain enemy has vida_max = vida, no mana and no XP reward |
| `Inimigos.Inimigo.DoCatalogo` | models/inimigo.py:12-32 | Goblin 30/8/1 worth 50, Lobo 50/12/2 worth 80, Orc 80/15/4 worth 120, Chefao 200/25/8 worth 500, each with its name |
| `Inimigos.Inimigo.Atacar` | models/inimigo.py:34-39 | an enemy's attack is `AtaqueInimigo` of its species and attack stat; nothing changes |
| `Combate.AcaoJogador` | models/missao.py:38-62 | "1" computes the basic-attack value; "2" casts the special and its damage is exactly the special's damage when positive, else 0; a failed flee or an unknown command computes 0; only a special changes the player's record |
| `Combate.Rodada` | models/missao.py:38-80 | escape happens exactly on "3" with roll < 0.3 and then nothing changes; otherwise the enemy's record is the one after `receber_dano` of the player's damage when it is positive, and unchanged when it is not (a special with no damage included); an enemy killed this turn does not strike back, and the player keeps the record after their own action (a killing special still pays its mana); a surviving enemy strikes once, through the player's defence, also after a failed special or an invalid command; health stays >= 0 and never rises; only player vida/mana and enemy vida change |
| `Combate.Final` | models/missao.py:88-112 | after the loop the battle is over with both records as they stand and is never an escape; it is a victory exactly when the player is alive, and exactly then an XP award of 100 + 2*ataque of the enemy goes to `ganhar_xp` |
| `Combate.Batalha` | models/missao.py:27-112 | the loop driven by the given turns: if the turns run out it stops only with both alive; an XP award is only ever made on a victory with the player alive |
| `Combate.BatalhaSaude` | models/missao.py:27-80 | over a whole battle both healths stay between 0 and their starting values |
| `Combate.BatalhaPreserva` | models/missao.py:27-80 | a battle changes only the player's health and mana and the enemy's health |
| `Combate.BatalhaDesfecho` | models/missao.py:27-112 | the battle runs only while both are alive; an escape leaves both alive and awards nothing; otherwise victory holds exactly when the player is alive at the end, implies the enemy is dead, and awards exactly 100 + 2 * the enemy's attack |
| `Combate.BatalhaContinua` | models/missao.py:27-71 | once a battle has ended further turns change nothing; a running battle continues from where it stood |
| `Combate.Missao.constructor` | models/missao.py:14-16 | a mission holds its title and enemy |
| `Combate.Missao.Turno` | models/missao.py:38-80 | one pass of the loop body changes both records exactly as `Rodada` says and reports whether the player escaped |
| `Combate.Missao.Executar` | models/missao.py:26-112 | the loop leaves both records, the result and the XP award equal to `Batalha` over the same turns |
| `Sessao.ClassePorNome` | jogo.py:87-92 | the factory knows exactly the names "Guerreiro", "Mago" and "Arqueiro", and each name builds the archetype of the same name |
| `Sessao.RemoverEm` | jogo.py:327 | `pop(i)` removes exactly the element at i, keeps the order of the rest, and loses nothing else |
| `Sessao.Jogo.constructor` | jogo.py:8-21 | no character, empty draft, difficulty "Fácil" and scenario "Trilha" |
| `Sessao.Jogo.DefinirNome` | jogo.py:57-60 | a non-empty name replaces the draft name; an empty one leaves it |
| `Sessao.Jogo.EscolherArquetipo` | jogo.py:62-76 | "1"/"2"/"3" set the draft class to Guerreiro/Mago/Arqueiro; anything else leaves it |
| `Sessao.Jogo.ConfirmarCriacao` | jogo.py:78-92 | with an empty name or class nothing changes; otherwise a fresh level-1 character of the drafted class and name, with that class's starting stats, replaces the current one |
| `Sessao.Jogo.EscolherDificuldade` | jogo.py:131-143 | "1"/"2"/"3" set Fácil/Média/Difícil; anything else leaves it |
| `Sessao.Jogo.EscolherCenario` | jogo.py:145-158 | "1" to "4" set Trilha/Floresta/Caverna/Ruínas; anything else leaves it |
| `Sessao.InimigoPara` | jogo.py:174-180 | "Fácil" gives Goblin 30/8/0, "Média" gives Orc 60/12/2 and any other difficulty gives Dragão Jovem 100/20/5 (vida/ataque/defesa), a plain enemy with positive health and no XP reward |
| `Sessao.Jogo.IniciarMissao` | jogo.py:167-192 | without a character nothing happens; otherwise the battle is against Goblin 30/8/0 for "Fácil", Orc 60/12/2 for "Média" and Dragão Jovem 100/20/5 for anything else, the XP that victory hands to `ganhar_xp` is returned, and a character dead afterwards is reset to none while a living one is kept |
| `Sessao.Jogo.UsarDaMochila` | jogo.py:316-329 | a non-number or a slot out of range changes nothing; equipment is handed to `equipar_item`; any other item is used on the character and then removed from exactly that slot, the rest keeping their order |

## Left out

- `calcular_dano_base` (models/personagem.py:15-18) draws a random factor; its result is an input of each turn.
- The enemy's damage variance `int(d * uniform(0.8, 1.2))` (models/missao.py:79) is an input of each turn, a function of the raw damage.
- Random rolls (`random.random()`) are real-valued inputs; floating-point rounding is not modelled, so `int(a * 1.5)` is the exact truncated 3a/2 and the bar's `int(largura * v / vmax)` the exact truncated quotient.
- The battle loop need not end (an enemy that does no damage and a player that never attacks); it runs over a finite sequence of turn inputs instead.
- `curar`, `ganhar_xp`, `equipar_item`, `to_dict`, `from_dict`, `ataque_total`, `defesa_total` and the setup of `inventario` are not defined in the code; the model returns the requests for the first three and does not change level, XP or health on their behalf.
- Console I/O: `print`, `input`, `time.sleep`, `_mostrar_status`, the action messages and the menu loops. The helpers take the stripped line they would read; the backpack helper takes the result of `int(op)`, None when it raises.
- The turn counter `turnos` (models/missao.py:26-28) is incremented and never read.
- The mission title is built but only printed.
- The base `Personagem.habilidade_especial` raises for a character without archetype; the model has no such character. A plain `Item` that is neither consumable nor equipment is not modelled either.
- `Itens.Usar` takes the character's `Entidade` rather than the `Personagem`, since it only touches the stat record.
- `Sessao.Jogo.ConfirmarCriacao`: a non-empty but unknown draft class (which the helpers never store) leaves the character unchanged; the code would then print the old character's name or fail.
- Save and load (jogo.py:200-290), the help screens, `_preview_missao`, utils/repositorio.py and utils/logger.py: file I/O and display.
- Features described for the game but absent from its code: passives, critical hits, evasion, status effects, loot, leveling tables, difficulty-dependent boss selection and boss-dependent flee odds. The code flees on a flat roll below 0.3 and awards 100 + 2 × enemy attack rather than the enemy's `xp_recompensa`; the model follows the code.
