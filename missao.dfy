/**
 * models/missao.py: the battle loop of `Missao.executar`.
 *
 * The player's typed command and the values of the random draws are inputs:
 * the basic-attack value (`calcular_dano_base`), the flee roll, the boss's
 * roll and the enemy's damage variance (`int(d * uniform(0.8, 1.2))`, given
 * as a function of the enemy's raw damage).
 */
module Combate {
  import opened Wrappers
  import opened Entidades
  import opened Personagens
  import opened Inimigos

  datatype ResultadoMissao = ResultadoMissao(venceu: bool, detalhes: string)

  const Vitoria := ResultadoMissao(true, "Vitória em combate.")
  const Derrota := ResultadoMissao(false, "Morto em combate.")
  const Fuga := ResultadoMissao(false, "Fugiu da batalha.")

  /** What one turn reads: the command and the outcomes of that turn's random draws. */
  datatype Entrada = Entrada(acao: string, danoBase: int, fuga: real, rollChefao: real, variar: int -> int)

  /** The two records after a turn, and whether the player escaped. */
  datatype Passo = Passo(jogador: Ficha, inimigo: Ficha, fugiu: bool)

  /**
   * The player's half of a turn that does not end in escape: the player's
   * record afterwards and the damage computed. A special that yields no
   * positive damage, a failed escape and an unknown command compute 0.
   */
  function AcaoJogador(c: Classe, p: Ficha, x: Entrada): (r: (Ficha, int))
    ensures x.acao != "2" ==> r.0 == p
    ensures x.acao == "1" ==> r.1 == x.danoBase
    ensures x.acao == "2" ==> r.0 == Especial(c, p).ficha && r.1 == Max(0, Especial(c, p).dano)
    ensures x.acao != "1" && x.acao != "2" ==> r.1 == 0
  {
    if x.acao == "1" then
      (p, x.danoBase)
    else if x.acao == "2" then
      var g := Especial(c, p);
      (g.ficha, if g.dano > 0 then g.dano else 0)
    else
      (p, 0)
  }

  /**
   * One iteration of the loop body. A successful escape (roll below 0.3) ends
   * the turn at once. Otherwise the player's damage reaches the enemy only if
   * positive; an enemy it kills does not strike back; a surviving enemy
   * attacks once, its varied damage mitigated by the player's defence.
   */
  function Rodada(c: Classe, p: Ficha, e: Option<Especie>, i: Ficha, x: Entrada): (r: Passo)
    ensures r.fugiu <==> x.acao == "3" && x.fuga < 0.3
    ensures r.fugiu ==> r.jogador == p && r.inimigo == i
    ensures r.jogador == p.(vida := r.jogador.vida, mana := r.jogador.mana)
    ensures r.inimigo == i.(vida := r.inimigo.vida)
    ensures p.vida >= 0 ==> 0 <= r.jogador.vida <= p.vida
    ensures i.vida >= 0 ==> 0 <= r.inimigo.vida <= i.vida
    ensures p.mana >= 0 ==> r.jogador.mana >= 0
    ensures !r.fugiu ==>
      r.inimigo == (if AcaoJogador(c, p, x).1 > 0 then AposDano(i, AcaoJogador(c, p, x).1).0 else i)
    ensures x.acao != "1" && x.acao != "2" ==> r.inimigo == i
    ensures !r.fugiu && r.inimigo.vida <= 0 ==> r.jogador == AcaoJogador(c, p, x).0
    ensures !r.fugiu && r.inimigo.vida > 0 ==>
      r.jogador == AposDano(AcaoJogador(c, p, x).0, x.variar(AtaqueInimigo(e, i.ataque, x.rollChefao))).0
  {
    if x.acao == "3" && x.fuga < 0.3 then
      Passo(p, i, true)
    else
      var (p1, dano) := AcaoJogador(c, p, x);
      var i1 := if dano > 0 then AposDano(i, dano).0 else i;
      if i1.vida <= 0 then
        Passo(p1, i1, false)
      else
        var danoVar := x.variar(AtaqueInimigo(e, i1.ataque, x.rollChefao));
        Passo(AposDano(p1, danoVar).0, i1, false)
  }

  /**
   * Where the battle stands: still running when the input ran out while both
   * were alive, or finished with its result, the XP handed to `ganhar_xp`
   * on victory, and both records.
   */
  datatype Desfecho =
    | EmCurso(jogador: Ficha, inimigo: Ficha)
    | Encerrada(resultado: ResultadoMissao, xp: Option<int>, jogador: Ficha, inimigo: Ficha)

  /** After the loop: the player alive is victory, worth `100 + 2 * ataque` of the enemy. */
  function Final(p: Ficha, i: Ficha): (d: Desfecho)
    ensures d.Encerrada? && d.jogador == p && d.inimigo == i && d.resultado != Fuga
    ensures d.resultado.venceu <==> p.vida > 0
    ensures d.xp.Some? <==> p.vida > 0
    ensures d.xp.Some? ==> d.xp.value == 100 + 2 * i.ataque
  {
    if p.vida > 0 then Encerrada(Vitoria, Some(100 + i.ataque * 2), p, i)
    else Encerrada(Derrota, None, p, i)
  }

  /** `executar` driven by the given turn inputs: loops while both are alive. */
  function Batalha(c: Classe, p: Ficha, e: Option<Especie>, i: Ficha, xs: seq<Entrada>): (d: Desfecho)
    ensures d.EmCurso? ==> d.jogador.vida > 0 && d.inimigo.vida > 0
    ensures d.Encerrada? && d.xp.Some? ==> d.resultado == Vitoria && d.jogador.vida > 0
    decreases |xs|
  {
    if !(p.vida > 0 && i.vida > 0) then
      Final(p, i)
    else if xs == [] then
      EmCurso(p, i)
    else
      var s := Rodada(c, p, e, i, xs[0]);
      if s.fugiu then Encerrada(Fuga, None, s.jogador, s.inimigo)
      else Batalha(c, s.jogador, e, s.inimigo, xs[1..])
  }

  /** Health never goes negative or up during a battle. */
  lemma {:induction false} BatalhaSaude(c: Classe, p: Ficha, e: Option<Especie>, i: Ficha, xs: seq<Entrada>)
    requires p.vida >= 0 && i.vida >= 0
    ensures var d := Batalha(c, p, e, i, xs);
      0 <= d.jogador.vida <= p.vida && 0 <= d.inimigo.vida <= i.vida
    decreases |xs|
  {
    if p.vida > 0 && i.vida > 0 && xs != [] {
      var s := Rodada(c, p, e, i, xs[0]);
      if !s.fugiu {
        BatalhaSaude(c, s.jogador, e, s.inimigo, xs[1..]);
      }
    }
  }

  /** The battle changes only the player's health and mana and the enemy's health. */
  lemma {:induction false} BatalhaPreserva(c: Classe, p: Ficha, e: Option<Especie>, i: Ficha, xs: seq<Entrada>)
    ensures var d := Batalha(c, p, e, i, xs);
      d.jogador == p.(vida := d.jogador.vida, mana := d.jogador.mana)
      && d.inimigo == i.(vida := d.inimigo.vida)
    decreases |xs|
  {
    if p.vida > 0 && i.vida > 0 && xs != [] {
      var s := Rodada(c, p, e, i, xs[0]);
      if !s.fugiu {
        BatalhaPreserva(c, s.jogador, e, s.inimigo, xs[1..]);
      }
    }
  }

  /**
   * How a battle can end. It runs on only while both are alive. An escape
   * leaves both alive. Otherwise the player won iff alive at the end; a win
   * means the enemy is dead and awards exactly `100 + 2 * ataque` XP.
   */
  lemma {:induction false} BatalhaDesfecho(c: Classe, p: Ficha, e: Option<Especie>, i: Ficha, xs: seq<Entrada>)
    ensures var d := Batalha(c, p, e, i, xs);
      && (d.EmCurso? ==> d.jogador.vida > 0 && d.inimigo.vida > 0)
      && (d.Encerrada? && d.resultado == Fuga ==>
            d.xp == None && d.jogador.vida > 0 && d.inimigo.vida > 0)
      && (d.Encerrada? && d.resultado != Fuga ==>
            (d.resultado.venceu <==> d.jogador.vida > 0)
            && (d.resultado.venceu ==> d.inimigo.vida <= 0 && d.xp == Some(100 + 2 * i.ataque))
            && (!d.resultado.venceu ==> d.xp == None))
    decreases |xs|
  {
    BatalhaPreserva(c, p, e, i, xs);
    if p.vida > 0 && i.vida > 0 && xs != [] {
      var s := Rodada(c, p, e, i, xs[0]);
      if !s.fugiu {
        BatalhaDesfecho(c, s.jogador, e, s.inimigo, xs[1..]);
      }
    }
  }

  /**
   * Feeding turns after a finished battle changes nothing; a battle still
   * running continues from where it stood.
   */
  lemma {:induction false} BatalhaContinua(c: Classe, p: Ficha, e: Option<Especie>, i: Ficha, xs: seq<Entrada>, ys: seq<Entrada>)
    ensures var d := Batalha(c, p, e, i, xs);
      Batalha(c, p, e, i, xs + ys) ==
        if d.EmCurso? then Batalha(c, d.jogador, e, d.inimigo, ys) else d
    decreases |xs|
  {
    if p.vida > 0 && i.vida > 0 {
      if xs == [] {
        assert xs + ys == ys;
      } else {
        assert (xs + ys)[0] == xs[0];
        assert (xs + ys)[1..] == xs[1..] + ys;
        var s := Rodada(c, p, e, i, xs[0]);
        if !s.fugiu {
          BatalhaContinua(c, s.jogador, e, s.inimigo, xs[1..], ys);
        }
      }
    }
  }

  /** A mission: a title and the enemy to fight. */
  class Missao {
    const titulo: string
    const inimigo: Inimigo

    constructor (titulo: string, inimigo: Inimigo)
      ensures this.titulo == titulo && this.inimigo == inimigo
    {
      this.titulo := titulo;
      this.inimigo := inimigo;
    }

    /** One pass of the loop body; true when the player escaped. */
    method Turno(p: Personagem, x: Entrada) returns (fugiu: bool)
      requires p.ent.atrib != inimigo.ent.atrib
      modifies p.ent.atrib, inimigo.ent.atrib
      ensures Passo(p.ent.atrib.Estado(), inimigo.ent.atrib.Estado(), fugiu)
        == Rodada(p.classe, old(p.ent.atrib.Estado()), inimigo.especie, old(inimigo.ent.atrib.Estado()), x)
    {
      var danoCausado := 0;
      if x.acao == "1" {
        danoCausado := x.danoBase;
      } else if x.acao == "2" {
        var dano, msg := p.HabilidadeEspecial();
        if dano > 0 {
          danoCausado := dano;
        }
      } else if x.acao == "3" {
        if x.fuga < 0.3 {
          return true;
        }
      }
      if danoCausado > 0 {
        var danoReal := inimigo.ent.ReceberDano(danoCausado);
      }
      if !inimigo.ent.Vivo() {
        return false;
      }
      var danoInimigo := inimigo.Atacar(x.rollChefao);
      var danoVar := x.variar(danoInimigo);
      var danoRecebido := p.ent.ReceberDano(danoVar);
      fugiu := false;
    }

    /**
     * `executar(p)` over the given turns. The result is None when the turns
     * ran out with both still alive (the game would be waiting for input).
     * On victory `xp` is the amount `executar` passes to `ganhar_xp`.
     */
    method Executar(p: Personagem, entradas: seq<Entrada>) returns (r: Option<ResultadoMissao>, xp: Option<int>)
      requires p.ent.atrib != inimigo.ent.atrib
      modifies p.ent.atrib, inimigo.ent.atrib
      ensures var d := Batalha(p.classe, old(p.ent.atrib.Estado()), inimigo.especie,
                               old(inimigo.ent.atrib.Estado()), entradas);
        && p.ent.atrib.Estado() == d.jogador
        && inimigo.ent.atrib.Estado() == d.inimigo
        && r == (if d.Encerrada? then Some(d.resultado) else None)
        && xp == (if d.Encerrada? then d.xp else None)
    {
      ghost var todo := Batalha(p.classe, p.ent.atrib.Estado(), inimigo.especie,
                                inimigo.ent.atrib.Estado(), entradas);
      var k := 0;
      while p.ent.Vivo() && inimigo.ent.Vivo()
        invariant 0 <= k <= |entradas|
        invariant todo == Batalha(p.classe, p.ent.atrib.Estado(), inimigo.especie,
                                  inimigo.ent.atrib.Estado(), entradas[k..])
        decreases |entradas| - k
      {
        if k == |entradas| {
          return None, None;
        }
        assert entradas[k..][0] == entradas[k];
        assert entradas[k..][1..] == entradas[k + 1..];
        var fugiu := Turno(p, entradas[k]);
        if fugiu {
          return Some(Fuga), None;
        }
        k := k + 1;
      }
      if p.ent.Vivo() {
        var xpGanho := 100 + inimigo.ent.atrib.ataque * 2;
        return Some(Vitoria), Some(xpGanho);
      }
      return Some(Derrota), None;
    }
  }
}
