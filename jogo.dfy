/**
 * jogo.py: the state-changing helpers of the session controller `Jogo`:
 * the character-creation draft, the class factory, the mission settings,
 * starting a mission, and using an item from the backpack.
 *
 * The menus themselves only read a line and dispatch; each helper takes the
 * already-stripped line it would have read as a parameter.
 */
module Sessao {
  import opened Wrappers
  import opened Entidades
  import opened Itens
  import opened Personagens
  import opened Inimigos
  import opened Combate

  /** The factory of `_confirmar_criacao`: which archetype a class name builds. */
  function ClassePorNome(s: string): (c: Option<Classe>)
    ensures c.Some? <==> s == "Guerreiro" || s == "Mago" || s == "Arqueiro"
    ensures s == "Guerreiro" ==> c == Some(Classe.Guerreiro)
    ensures s == "Mago" ==> c == Some(Classe.Mago)
    ensures s == "Arqueiro" ==> c == Some(Classe.Arqueiro)
  {
    if s == "Guerreiro" then Some(Classe.Guerreiro)
    else if s == "Mago" then Some(Classe.Mago)
    else if s == "Arqueiro" then Some(Classe.Arqueiro)
    else None
  }

  /** The enemy `_iniciar_missao_placeholder` builds for a difficulty (a plain `Inimigo`, no reward). */
  function InimigoPara(dificuldade: string): (m: Modelo)
    ensures m.xp == 0 && m.vida > 0
    ensures dificuldade == "Fácil" ==> m == Modelo("Goblin", 30, 8, 0, 0)
    ensures dificuldade == "Média" ==> m == Modelo("Orc", 60, 12, 2, 0)
    ensures dificuldade != "Fácil" && dificuldade != "Média" ==> m == Modelo("Dragão Jovem", 100, 20, 5, 0)
  {
    if dificuldade == "Fácil" then Modelo("Goblin", 30, 8, 0, 0)
    else if dificuldade == "Média" then Modelo("Orc", 60, 12, 2, 0)
    else Modelo("Dragão Jovem", 100, 20, 5, 0)
  }

  /** `lista.pop(i)`: the element at i is gone, the others keep their order. */
  function RemoverEm<T>(s: seq<T>, i: nat): (r: seq<T>)
    requires i < |s|
    ensures |r| == |s| - 1
    ensures forall k :: 0 <= k < i ==> r[k] == s[k]
    ensures forall k :: i <= k < |r| ==> r[k] == s[k + 1]
    ensures multiset(r) + multiset{s[i]} == multiset(s)
  {
    assert s == s[..i] + [s[i]] + s[i + 1..];
    s[..i] + s[i + 1..]
  }

  /**
   * What choosing a backpack slot did. Equipping calls `equipar_item`, which
   * is defined nowhere in models/ or jogo.py; it is returned as a request.
   */
  datatype AcaoMochila = Nada | Equipar(item: Item) | Usou(uso: Uso)

  class Jogo {
    var jogador: Personagem?
    /** `dados_criacao["nome"]` and `dados_criacao["classe_str"]`. */
    var nome: string
    var classeStr: string
    /** `missao_config["dificuldade"]` and `missao_config["cenario"]`. */
    var dificuldade: string
    var cenario: string

    constructor ()
      ensures jogador == null && nome == "" && classeStr == ""
      ensures dificuldade == "Fácil" && cenario == "Trilha"
    {
      jogador := null;
      nome, classeStr := "", "";
      dificuldade, cenario := "Fácil", "Trilha";
    }

    /** `_definir_nome`: an empty line keeps the draft name. */
    method DefinirNome(entrada: string)
      modifies this`nome
      ensures nome == if entrada != "" then entrada else old(nome)
    {
      if entrada != "" {
        nome := entrada;
      }
    }

    /** `_escolher_arquetipo`: "1", "2", "3" pick a class; anything else keeps the draft. */
    method EscolherArquetipo(escolha: string)
      modifies this`classeStr
      ensures escolha == "1" ==> classeStr == "Guerreiro"
      ensures escolha == "2" ==> classeStr == "Mago"
      ensures escolha == "3" ==> classeStr == "Arqueiro"
      ensures escolha != "1" && escolha != "2" && escolha != "3" ==> classeStr == old(classeStr)
    {
      if escolha == "1" {
        classeStr := "Guerreiro";
      } else if escolha == "2" {
        classeStr := "Mago";
      } else if escolha == "3" {
        classeStr := "Arqueiro";
      }
    }

    /**
     * `_confirmar_criacao`: with a name and a known class, a new level-1
     * character of that class replaces the current one; otherwise nothing changes.
     */
    method ConfirmarCriacao()
      modifies this`jogador
      ensures nome == "" || ClassePorNome(classeStr).None? ==> jogador == old(jogador)
      ensures nome != "" && ClassePorNome(classeStr).Some? ==>
        && jogador != null && fresh(jogador) && fresh(jogador.ent.atrib)
        && jogador.classe == ClassePorNome(classeStr).value
        && jogador.ent.nome == nome
        && jogador.nivel == 1 && jogador.xp == 0
        && jogador.ent.atrib.Estado() == Inicial(jogador.classe).(vidaMax := Some(Inicial(jogador.classe).vida))
    {
      if nome == "" || classeStr == "" {
        return;
      }
      if classeStr == "Guerreiro" {
        jogador := new Personagem(nome, Classe.Guerreiro);
      } else if classeStr == "Mago" {
        jogador := new Personagem(nome, Classe.Mago);
      } else if classeStr == "Arqueiro" {
        jogador := new Personagem(nome, Classe.Arqueiro);
      }
    }

    /** `_escolher_dificuldade`: "1", "2", "3" pick a difficulty; anything else keeps it. */
    method EscolherDificuldade(op: string)
      modifies this`dificuldade
      ensures op == "1" ==> dificuldade == "Fácil"
      ensures op == "2" ==> dificuldade == "Média"
      ensures op == "3" ==> dificuldade == "Difícil"
      ensures op != "1" && op != "2" && op != "3" ==> dificuldade == old(dificuldade)
    {
      if op == "1" {
        dificuldade := "Fácil";
      } else if op == "2" {
        dificuldade := "Média";
      } else if op == "3" {
        dificuldade := "Difícil";
      }
    }

    /** `_escolher_cenario`: "1" to "4" pick a scenario; anything else keeps it. */
    method EscolherCenario(op: string)
      modifies this`cenario
      ensures op == "1" ==> cenario == "Trilha"
      ensures op == "2" ==> cenario == "Floresta"
      ensures op == "3" ==> cenario == "Caverna"
      ensures op == "4" ==> cenario == "Ruínas"
      ensures op != "1" && op != "2" && op != "3" && op != "4" ==> cenario == old(cenario)
    {
      if op == "1" {
        cenario := "Trilha";
      } else if op == "2" {
        cenario := "Floresta";
      } else if op == "3" {
        cenario := "Caverna";
      } else if op == "4" {
        cenario := "Ruínas";
      }
    }

    /**
     * `_iniciar_missao_placeholder` over the given turns. Without a character
     * nothing happens. Otherwise the difficulty's enemy is fought, the XP
     * that victory hands to `ganhar_xp` is returned as a request, and a
     * character that ends the mission dead is discarded.
     */
    method IniciarMissao(entradas: seq<Entrada>) returns (r: Option<ResultadoMissao>, xp: Option<int>)
      modifies this`jogador, if jogador == null then {} else {jogador.ent.atrib}
      ensures old(jogador) == null ==> r == None && xp == None && jogador == null
      ensures old(jogador) != null ==>
        var m := InimigoPara(dificuldade);
        var d := Batalha(old(jogador).classe, old(jogador.ent.atrib.Estado()), None,
                         Ficha(m.vida, m.ataque, m.defesa, 0, Some(m.vida)), entradas);
        && old(jogador).ent.atrib.Estado() == d.jogador
        && r == (if d.Encerrada? then Some(d.resultado) else None)
        && xp == (if d.Encerrada? then d.xp else None)
        && jogador == (if d.jogador.vida > 0 then old(jogador) else null)
    {
      if jogador == null {
        return None, None;
      }
      var m := InimigoPara(dificuldade);
      var inimigo := new Inimigo(m.nome, m.vida, m.ataque, m.defesa);
      var titulo := "Exploração em " + cenario + " (" + dificuldade + ")";
      var missao := new Missao(titulo, inimigo);
      r, xp := missao.Executar(jogador, entradas);
      if !jogador.ent.Vivo() {
        jogador := null;
      }
    }

    /**
     * The use branch of `menu_inventario`, for the number typed (None when
     * it is not an integer). A slot outside the backpack does nothing; a
     * piece of equipment is handed to `equipar_item`; any other item is used
     * on the character and then removed from exactly that slot.
     */
    method UsarDaMochila(numero: Option<int>) returns (a: AcaoMochila)
      modifies if jogador == null then {} else {jogador as object, jogador.ent.atrib as object}
      ensures jogador == old(jogador)
      ensures old(jogador) == null ==> a == Nada
      ensures old(jogador) != null ==>
        var inv := old(jogador.inventario);
        var antes := old(jogador.ent.atrib.Estado());
        var idx := if numero.Some? then numero.value - 1 else -1;
        && jogador.nivel == old(jogador.nivel) && jogador.xp == old(jogador.xp)
        && (!(0 <= idx < |inv|) ==>
              a == Nada && jogador.inventario == inv && jogador.ent.atrib.Estado() == antes)
        && (0 <= idx < |inv| && inv[idx].Equipamento? ==>
              a == Equipar(inv[idx]) && jogador.inventario == inv && jogador.ent.atrib.Estado() == antes)
        && (0 <= idx < |inv| && inv[idx].Consumivel? ==>
              a == Usou(EfeitoUso(inv[idx], antes).1)
              && jogador.ent.atrib.Estado() == EfeitoUso(inv[idx], antes).0
              && jogador.inventario == RemoverEm(inv, idx))
    {
      if jogador == null {
        return Nada;
      }
      if numero.None? {
        return Nada;
      }
      var p := jogador;
      var inv := p.inventario;
      var idx := numero.value - 1;
      if 0 <= idx < |inv| {
        var item := inv[idx];
        if item.Equipamento? {
          a := Equipar(item);
        } else {
          var u := Usar(item, p.ent);
          a := Usou(u);
          p.inventario := RemoverEm(inv, idx);
        }
      } else {
        a := Nada;
      }
    }
  }
}
