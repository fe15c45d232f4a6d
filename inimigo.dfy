/**
 * models/inimigo.py: enemies, the fixed catalogue and the boss's attack.
 */
module Inimigos {
  import opened Wrappers
  import opened Entidades

  /** The subclasses of `Inimigo`. A plain `Inimigo` has no species. */
  datatype Especie = Goblin | Lobo | Orc | Chefao

  /** Catalogue record: name, vida, ataque, defesa and XP reward. */
  datatype Modelo = Modelo(nome: string, vida: int, ataque: int, defesa: int, xp: int)

  function Catalogo(e: Especie): Modelo {
    match e
    case Goblin => Modelo("Goblin Saqueador", 30, 8, 1, 50)
    case Lobo => Modelo("Lobo Selvagem", 50, 12, 2, 80)
    case Orc => Modelo("Orc Guerreiro", 80, 15, 4, 120)
    case Chefao => Modelo("Rei dos Ogros", 200, 25, 8, 500)
  }

  /**
   * `atacar`: the boss crushes for `int(ataque * 1.5)` when its roll is below
   * 0.3 and otherwise hits for `ataque`; every other enemy hits for `ataque`.
   */
  function AtaqueInimigo(e: Option<Especie>, ataque: int, roll: real): (r: int)
    ensures e != Some(Chefao) || roll >= 0.3 ==> r == ataque
    ensures e == Some(Chefao) && roll < 0.3 && ataque >= 0 ==> r == 3 * ataque / 2
    ensures ataque >= 0 ==> ataque <= r <= 2 * ataque
  {
    if e == Some(Chefao) && roll < 0.3 then TruncDiv(3 * ataque, 2) else ataque
  }

  /** At its catalogue attack of 25 the boss hits for 37 or 25. */
  lemma GolpeDoChefao(roll: real)
    ensures AtaqueInimigo(Some(Chefao), Catalogo(Chefao).ataque, roll) == if roll < 0.3 then 37 else 25
  {
  }

  class Inimigo {
    const ent: Entidade
    const especie: Option<Especie>
    var xpRecompensa: int

    /** `Inimigo(nome, vida, ataque, defesa)`: `vida_max = vida`, no mana, no reward. */
    constructor (nome: string, vida: int, ataque: int, defesa: int)
      ensures ent.nome == nome && ent.Valid() && especie == None && xpRecompensa == 0
      ensures ent.atrib.Estado() == Ficha(vida, ataque, defesa, 0, Some(vida))
      ensures fresh(ent) && fresh(ent.atrib)
    {
      var atrib := new Atributos(vida, ataque, defesa, vidaMax := Some(vida));
      ent := new Entidade(nome, atrib);
      especie := None;
      xpRecompensa := 0;
    }

    /** `Goblin()`, `Lobo()`, `Orc()`, `Chefao()`: the catalogue's stats and reward. */
    constructor DoCatalogo(e: Especie)
      ensures especie == Some(e) && ent.Valid()
      ensures fresh(ent) && fresh(ent.atrib)
      ensures e.Goblin? ==>
        (ent.nome == "Goblin Saqueador" && xpRecompensa == 50 && ent.atrib.Estado() == Ficha(30, 8, 1, 0, Some(30)))
      ensures e.Lobo? ==>
        (ent.nome == "Lobo Selvagem" && xpRecompensa == 80 && ent.atrib.Estado() == Ficha(50, 12, 2, 0, Some(50)))
      ensures e.Orc? ==>
        (ent.nome == "Orc Guerreiro" && xpRecompensa == 120 && ent.atrib.Estado() == Ficha(80, 15, 4, 0, Some(80)))
      ensures e.Chefao? ==>
        (ent.nome == "Rei dos Ogros" && xpRecompensa == 500 && ent.atrib.Estado() == Ficha(200, 25, 8, 0, Some(200)))
    {
      var m := Catalogo(e);
      var atrib := new Atributos(m.vida, m.ataque, m.defesa, vidaMax := Some(m.vida));
      ent := new Entidade(m.nome, atrib);
      especie := Some(e);
      xpRecompensa := m.xp;
    }

    /** This enemy's attack for the given roll of `random.random()`. */
    function Atacar(roll: real): (r: int)
      reads ent.atrib
      ensures r == AtaqueInimigo(especie, ent.atrib.ataque, roll)
    {
      AtaqueInimigo(especie, ent.atrib.ataque, roll)
    }
  }
}
