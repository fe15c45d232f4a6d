/**
 * models/base.py: the stat record `Atributos` and the combatant `Entidade`
 * with its alive test, base attack, damage mitigation and health bar.
 */
module Entidades {
  import opened Wrappers
  import opened Texto

  function Max(a: int, b: int): int {
    if a >= b then a else b
  }

  /** Python's `int(n / d)` for d > 0: the quotient truncated toward zero. */
  function TruncDiv(n: int, d: int): (q: int)
    requires d > 0
    ensures n >= 0 ==> q == n / d
    ensures n < 0 ==> q == -((-n) / d)
  {
    if n >= 0 then n / d else -((-n) / d)
  }

  /** The values an `Atributos` record holds at one moment. */
  datatype Ficha = Ficha(vida: int, ataque: int, defesa: int, mana: int, vidaMax: Option<int>)

  /**
   * The `Atributos` dataclass. It is mutable: `Entidade` fills in `vidaMax`,
   * damage lowers `vida`, specials and potions change `mana`.
   */
  class Atributos {
    var vida: int
    var ataque: int
    var defesa: int
    var mana: int
    var vidaMax: Option<int>

    constructor (vida: int, ataque: int, defesa: int, mana: int := 0, vidaMax: Option<int> := None)
      ensures Estado() == Ficha(vida, ataque, defesa, mana, vidaMax)
    {
      this.vida := vida;
      this.ataque := ataque;
      this.defesa := defesa;
      this.mana := mana;
      this.vidaMax := vidaMax;
    }

    function Estado(): Ficha
      reads this
    {
      Ficha(vida, ataque, defesa, mana, vidaMax)
    }
  }

  /** The damage that gets through a defence: `max(0, dano - defesa)`. */
  function Efetivo(dano: int, defesa: int): (e: int)
    ensures e >= 0 && e >= dano - defesa
    ensures e == 0 || e == dano - defesa
  {
    Max(0, dano - defesa)
  }

  /**
   * `receber_dano` on values: the record after the hit and the damage reported.
   * The reported damage is the mitigated amount even when it exceeds the health left.
   */
  function AposDano(f: Ficha, dano: int): (r: (Ficha, int))
    ensures r.1 == Efetivo(dano, f.defesa)
    ensures r.0 == f.(vida := r.0.vida)
    ensures r.0.vida >= 0 && r.0.vida >= f.vida - r.1
    ensures r.0.vida == 0 || r.0.vida == f.vida - r.1
    ensures f.vida >= 0 ==> r.0.vida <= f.vida
  {
    var e := Efetivo(dano, f.defesa);
    (f.(vida := Max(0, f.vida - e)), e)
  }

  /** Number of `#` cells in a bar of the given width: `int(largura * v / vmax)`. */
  function Cheio(vida: int, vidaMax: int, largura: int): int {
    TruncDiv(largura * Max(0, vida), Max(1, vidaMax))
  }

  /** With health between 0 and its maximum, the filled part fits in the bar. */
  lemma CheioNaLargura(vida: int, vidaMax: int, largura: int)
    ensures 0 <= vida <= vidaMax && largura >= 0 ==> 0 <= Cheio(vida, vidaMax, largura) <= largura
  {
    if 0 <= vida <= vidaMax && largura >= 0 {
      var m := Max(1, vidaMax);
      MulMonotone(largura, vida, m);
      MulMonotone(largura, 0, vida);
      DivMonotone(largura * vida, largura * m, m);
      MulDivCancel(largura, m);
    }
  }

  /** Full health fills the whole bar. */
  lemma CheioCompleto(vidaMax: int, largura: int)
    requires vidaMax >= 1 && largura >= 0
    ensures Cheio(vidaMax, vidaMax, largura) == largura
  {
    MulMonotone(largura, 0, vidaMax);
    MulDivCancel(largura, vidaMax);
  }

  lemma MulMonotone(a: int, x: int, y: int)
    requires a >= 0
    ensures x <= y ==> a * x <= a * y
  {
    assert a * y - a * x == a * (y - x);
  }

  lemma MulLessCancel(a: int, b: int, d: int)
    requires d > 0 && a * d < b * d
    ensures a < b
  {
    MulMonotone(d, b, a);
  }

  lemma DivMonotone(x: int, y: int, d: int)
    requires 0 <= x <= y && d > 0
    ensures x / d <= y / d
  {
    var qx, qy := x / d, y / d;
    assert qx * d <= x;
    assert y < qy * d + d;
    assert qy * d + d == (qy + 1) * d;
    MulLessCancel(qx, qy + 1, d);
  }

  lemma MulDivCancel(a: int, m: int)
    requires m > 0
    ensures a * m / m == a
  {
    var q := a * m / m;
    assert q * m <= a * m < q * m + m;
    assert q * m + m == (q + 1) * m;
    assert a * m + m == (a + 1) * m;
    MulLessCancel(a, q + 1, m);
    MulLessCancel(q, a + 1, m);
  }

  /** The text after the bar: `"] v/vmax HP"`. */
  function Rodape(v: nat, vmax: nat): string {
    "] " + NatToString(v) + "/" + NatToString(vmax) + " HP"
  }

  /**
   * `barra_hp`: `[`, then `#` for the filled part and `-` for the rest, then
   * the health figures, health clamped at 0 and the maximum at least 1.
   */
  function Barra(vida: int, vidaMax: int, largura: int): (r: string)
    ensures |r| > 0 && r[0] == '['
    ensures var rod := Rodape(Max(0, vida), Max(1, vidaMax));
      |r| >= |rod| && r[|r| - |rod|..] == rod
    ensures Count('#', r) == Max(0, Cheio(vida, vidaMax, largura))
    ensures Count('-', r) == Max(0, largura - Cheio(vida, vidaMax, largura))
    ensures 0 <= vida <= vidaMax && largura >= 0 ==>
      Count('#', r) + Count('-', r) == largura
    ensures var n, m := Max(0, Cheio(vida, vidaMax, largura)), Max(0, largura - Cheio(vida, vidaMax, largura));
      && |r| == 1 + n + m + |Rodape(Max(0, vida), Max(1, vidaMax))|
      && (forall k :: 1 <= k <= n ==> r[k] == '#')
      && (forall k :: n < k <= n + m ==> r[k] == '-')
  {
    var v := Max(0, vida);
    var vmax := Max(1, vidaMax);
    var cheio := Cheio(vida, vidaMax, largura);
    var barra := "[" + Repeat('#', cheio) + Repeat('-', largura - cheio);
    var r := barra + Rodape(v, vmax);
    BarraContagem(barra, cheio, largura, v, vmax);
    CheioNaLargura(vida, vidaMax, largura);
    r
  }

  lemma BarraContagem(barra: string, cheio: int, largura: int, v: nat, vmax: nat)
    requires barra == "[" + Repeat('#', cheio) + Repeat('-', largura - cheio)
    ensures Count('#', barra + Rodape(v, vmax)) == Max(0, cheio)
    ensures Count('-', barra + Rodape(v, vmax)) == Max(0, largura - cheio)
  {
    var a, b := NatToString(v), NatToString(vmax);
    forall c | c == '#' || c == '-'
      ensures Count(c, barra + Rodape(v, vmax)) ==
        (if c == '#' then Max(0, cheio) else Max(0, largura - cheio))
    {
      CountConcat(c, "[" + Repeat('#', cheio), Repeat('-', largura - cheio));
      CountConcat(c, "[", Repeat('#', cheio));
      CountUniform(c, '#', Repeat('#', cheio));
      CountUniform(c, '-', Repeat('-', largura - cheio));
      assert Count(c, "[") == 0;
      CountInDigits(c, a);
      CountInDigits(c, b);
      CountConcat(c, "] " + a + "/" + b, " HP");
      CountConcat(c, "] " + a + "/", b);
      CountConcat(c, "] " + a, "/");
      CountConcat(c, "] ", a);
      assert Count(c, "] ") == 0;
      assert Count(c, "/") == 0;
      assert Count(c, " HP") == 0;
      CountConcat(c, barra, Rodape(v, vmax));
    }
  }

  /** A combatant: a name and the stat record it owns. */
  class Entidade {
    const nome: string
    const atrib: Atributos

    /** After construction the maximum health is always present. */
    ghost predicate Valid()
      reads atrib
    {
      atrib.vidaMax.Some?
    }

    /** `Entidade.__init__`: adopts the record, filling a missing `vida_max` from `vida`. */
    constructor (nome: string, atrib: Atributos)
      modifies atrib
      ensures this.nome == nome && this.atrib == atrib && Valid()
      ensures atrib.Estado() == old(atrib.Estado()).(vidaMax :=
        if old(atrib.vidaMax).None? then Some(old(atrib.vida)) else old(atrib.vidaMax))
    {
      this.nome := nome;
      this.atrib := atrib;
      new;
      if atrib.vidaMax.None? {
        atrib.vidaMax := Some(atrib.vida);
      }
    }

    predicate Vivo()
      reads atrib
    {
      atrib.vida > 0
    }

    /** The base attack is just the attack stat; it reads and changes nothing else. */
    function Atacar(): (r: int)
      reads atrib
      ensures r == atrib.ataque
    {
      atrib.ataque
    }

    /** `receber_dano`: mitigates by defence, lowers health (never below 0), reports the mitigated damage. */
    method ReceberDano(dano: int) returns (efetivo: int)
      modifies atrib
      ensures (atrib.Estado(), efetivo) == AposDano(old(atrib.Estado()), dano)
    {
      efetivo := Max(0, dano - atrib.defesa);
      atrib.vida := Max(0, atrib.vida - efetivo);
    }

    /** `barra_hp` of this entity's current health. */
    function BarraHp(largura: int := 20): (r: string)
      reads atrib
      requires Valid()
      ensures r == Barra(atrib.vida, atrib.vidaMax.value, largura)
    {
      Barra(atrib.vida, atrib.vidaMax.value, largura)
    }
  }
}
