/**
 * models/item.py: items as plain records, and what using a consumable does.
 */
module Itens {
  import opened Texto
  import opened Entidades

  /**
   * The two kinds of item. `valor` is the sale value the constructors fix;
   * `tipo` is `"vida"` or `"mana"` by convention, `slot` `"arma"` or `"armadura"`.
   */
  datatype Item =
    | Consumivel(nome: string, valor: int, tipo: string, valorEfeito: int)
    | Equipamento(nome: string, valor: int, slot: string, ataqueBonus: int, defesaBonus: int)

  /** `Consumivel.__init__`: every consumable is worth 10. */
  function NovoConsumivel(nome: string, tipo: string, valorEfeito: int): (i: Item)
    ensures i.Consumivel? && i.valor == 10
    ensures i.nome == nome && i.tipo == tipo && i.valorEfeito == valorEfeito
  {
    Consumivel(nome, 10, tipo, valorEfeito)
  }

  /** `Equipamento.__init__`: every piece of equipment is worth 50; bonuses default to 0. */
  function NovoEquipamento(nome: string, slot: string, ataque: int := 0, defesa: int := 0): (i: Item)
    ensures i.Equipamento? && i.valor == 50
    ensures i.nome == nome && i.slot == slot && i.ataqueBonus == ataque && i.defesaBonus == defesa
  {
    Equipamento(nome, 50, slot, ataque, defesa)
  }

  /**
   * What `usar` reports. A health potion hands its amount to the character's
   * `curar`, a method that is called here but defined nowhere in models/ or jogo.py; it is returned
   * here as a request instead of being given an invented body.
   */
  datatype Uso =
    | Curar(quantia: int)
    | Recuperou(msg: string)
    | SemEfeito(msg: string)

  /** `usar` on values: the user's record afterwards and the report. */
  function EfeitoUso(c: Item, f: Ficha): (r: (Ficha, Uso))
    requires c.Consumivel?
    ensures r.0 == f.(mana := r.0.mana)
    ensures c.tipo == "mana" ==> r.0.mana == f.mana + c.valorEfeito
    ensures c.tipo != "mana" ==> r.0 == f
    ensures r.1.Curar? <==> c.tipo == "vida"
    ensures r.1.Curar? ==> r.1.quantia == c.valorEfeito
    ensures c.tipo != "vida" && c.tipo != "mana" ==> r.1 == SemEfeito("Item sem efeito.")
  {
    if c.tipo == "vida" then
      (f, Curar(c.valorEfeito))
    else if c.tipo == "mana" then
      (f.(mana := f.mana + c.valorEfeito),
       Recuperou("Usou " + c.nome + " e recuperou " + IntToString(c.valorEfeito) + " MP."))
    else
      (f, SemEfeito("Item sem efeito."))
  }

  /**
   * `Consumivel.usar(personagem)`: only the character's stat record is touched,
   * so the model takes the character's `Entidade`. The item is not removed
   * from any inventory here; that is the caller's job.
   */
  method Usar(c: Item, alvo: Entidade) returns (u: Uso)
    requires c.Consumivel?
    modifies alvo.atrib
    ensures (alvo.atrib.Estado(), u) == EfeitoUso(c, old(alvo.atrib.Estado()))
  {
    if c.tipo == "vida" {
      u := Curar(c.valorEfeito);
    } else if c.tipo == "mana" {
      alvo.atrib.mana := alvo.atrib.mana + c.valorEfeito;
      u := Recuperou("Usou " + c.nome + " e recuperou " + IntToString(c.valorEfeito) + " MP.");
    } else {
      u := SemEfeito("Item sem efeito.");
    }
  }
}
