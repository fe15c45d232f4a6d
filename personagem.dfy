/**
 * models/personagem.py: the player character, its three archetypes and
 * their mana-gated special abilities.
 */
module Personagens {
  import opened Wrappers
  import opened Entidades
  import opened Itens

  /** The subclasses `Guerreiro`, `Mago` and `Arqueiro`. */
  datatype Classe = Guerreiro | Mago | Arqueiro

  /** Mana cost of each archetype's special. */
  function Custo(c: Classe): nat {
    match c
    case Guerreiro => 10
    case Mago => 25
    case Arqueiro => 15
  }

  /**
   * Damage of a successful special: `int(ataque * 2.0)`, a fixed 40, and
   * `int(ataque * 1.5) + 10`.
   */
  function DanoEspecial(c: Classe, ataque: int): (d: int)
    ensures ataque >= 0 && (c.Guerreiro? ==> ataque > 0) ==> d > 0
    ensures c.Guerreiro? ==> d == 2 * ataque
    ensures c.Mago? ==> d == 40
    ensures c.Arqueiro? && ataque >= 0 ==> d == 3 * ataque / 2 + 10
  {
    match c
    case Guerreiro => 2 * ataque
    case Mago => 40
    case Arqueiro => TruncDiv(3 * ataque, 2) + 10
  }

  function MsgSucesso(c: Classe): string {
    match c
    case Guerreiro => "usou 'Golpe Devastador' (Custo: 10 MP)!"
    case Mago => "lançou 'Bola de Fogo' (Custo: 25 MP)!"
    case Arqueiro => "disparou uma 'Flecha Precisa' (Custo: 15 MP)!"
  }

  function MsgFalha(c: Classe): string {
    match c
    case Guerreiro => "não tem mana suficiente para o Golpe Devastador."
    case Mago => "está sem mana para a magia."
    case Arqueiro => "não tem foco (mana) para o tiro preciso."
  }

  /** What `habilidade_especial` returns, with the caster's record afterwards. */
  datatype Golpe = Golpe(ficha: Ficha, dano: int, msg: string)

  /**
   * `habilidade_especial` on values. With enough mana the cost is paid and the
   * archetype's damage returned; otherwise nothing changes and the damage is 0.
   * Only mana ever changes, and it never drops below zero.
   */
  function Especial(c: Classe, f: Ficha): (r: Golpe)
    ensures r.ficha == f.(mana := r.ficha.mana)
    ensures f.mana >= Custo(c) ==>
      r.ficha.mana == f.mana - Custo(c) && r.dano == DanoEspecial(c, f.ataque)
    ensures f.mana < Custo(c) ==> r.ficha == f && r.dano == 0
    ensures f.mana >= 0 ==> r.ficha.mana >= 0
    ensures r.dano > 0 <==> f.mana >= Custo(c) && DanoEspecial(c, f.ataque) > 0
  {
    if f.mana >= Custo(c) then
      Golpe(f.(mana := f.mana - Custo(c)), DanoEspecial(c, f.ataque), MsgSucesso(c))
    else
      Golpe(f, 0, MsgFalha(c))
  }

  /** Starting record of each archetype (vida, ataque, defesa, mana). */
  function Inicial(c: Classe): Ficha {
    match c
    case Guerreiro => Ficha(120, 15, 5, 20, None)
    case Mago => Ficha(70, 5, 2, 100, None)
    case Arqueiro => Ficha(90, 12, 3, 40, None)
  }

  /**
   * The player character. The subclass is the `classe` tag; `nivel` and `xp`
   * are set by the constructor. `inventario` is read and changed by jogo.py;
   * no code in models/ or jogo.py creates it, and the model starts it empty.
   */
  class Personagem {
    const ent: Entidade
    const classe: Classe
    var nivel: int
    var xp: int
    var inventario: seq<Item>

    /**
     * `Guerreiro(nome)`, `Mago(nome)`, `Arqueiro(nome)`: the archetype's stats,
     * `vida_max` equal to `vida`, level 1 and no experience.
     */
    constructor (nome: string, classe: Classe)
      ensures this.classe == classe && ent.nome == nome && ent.Valid()
      ensures nivel == 1 && xp == 0 && inventario == []
      ensures fresh(ent) && fresh(ent.atrib)
      ensures classe.Guerreiro? ==> ent.atrib.Estado() == Ficha(120, 15, 5, 20, Some(120))
      ensures classe.Mago? ==> ent.atrib.Estado() == Ficha(70, 5, 2, 100, Some(70))
      ensures classe.Arqueiro? ==> ent.atrib.Estado() == Ficha(90, 12, 3, 40, Some(90))
    {
      var f := Inicial(classe);
      var atrib := new Atributos(f.vida, f.ataque, f.defesa, f.mana);
      ent := new Entidade(nome, atrib);
      this.classe := classe;
      nivel := 1;
      xp := 0;
      inventario := [];
    }

    /** `habilidade_especial`: pays the cost in place and returns the damage. */
    method HabilidadeEspecial() returns (dano: int, msg: string)
      modifies ent.atrib
      ensures Golpe(ent.atrib.Estado(), dano, msg) == Especial(classe, old(ent.atrib.Estado()))
    {
      var custo := Custo(classe);
      if ent.atrib.mana >= custo {
        ent.atrib.mana := ent.atrib.mana - custo;
        dano := DanoEspecial(classe, ent.atrib.ataque);
        msg := MsgSucesso(classe);
      } else {
        dano := 0;
        msg := MsgFalha(classe);
      }
    }
  }
}
