/** A value that may be absent: the "not found" result of the searches over lists. */
module Opcoes {
  datatype Option<+T> = None | Some(value: T)
}

/**
  The cell values of the board: Go's `Elemento` struct and its eight named
  constants. Every `Elemento` the game ever stores is one of those constants,
  and their symbols are pairwise distinct, so a closed datatype of kinds
  compares exactly as Go's struct equality and as the `simbolo` comparisons
  do. Colours are presentation only and are not modelled.
*/
module Elementos {
  datatype Elemento =
    | Personagem
    | Parede
    | Vegetacao
    | Vazio
    | Inimigo
    | Moeda
    | BotaoLigado
    | BotaoDesligado

  /** The `simbolo` rune of each constant. */
  function Simbolo(e: Elemento): char {
    match e
    case Personagem => '\U{263A}'      // ☺
    case Parede => '\U{25A4}'          // ▤
    case Vegetacao => '\U{2663}'       // ♣
    case Vazio => ' '
    case Inimigo => '\U{2620}'         // ☠
    case Moeda => '$'
    case BotaoLigado => '\U{25CF}'     // ●
    case BotaoDesligado => '\U{25CB}'  // ○
  }

  /** The `tangivel` flag of each constant: only a wall blocks movement. */
  function Tangivel(e: Elemento): (r: bool)
    ensures r <==> e == Parede
  {
    match e
    case Personagem => false
    case Parede => true
    case Vegetacao => false
    case Vazio => false
    case Inimigo => false
    case Moeda => false
    case BotaoLigado => false
    case BotaoDesligado => false
  }

  predicate EhBotao(e: Elemento) {
    e == BotaoLigado || e == BotaoDesligado
  }

  /** Distinct constants have distinct symbols, so comparing symbols compares kinds. */
  lemma SimbolosDistintos(a: Elemento, b: Elemento)
    requires Simbolo(a) == Simbolo(b)
    ensures a == b
  {
  }

  /** The runes the map loader recognises (the ☺ spawn rune is not one: it yields an empty cell). */
  const GlifosDoMapa: set<char> :=
    {Simbolo(Parede), Simbolo(Inimigo), Simbolo(Vegetacao), Simbolo(Moeda), Simbolo(BotaoDesligado)}

  /**
    The rune switch of the map loader: each recognised rune gives its cell,
    every other rune (the spawn rune ☺ and the lit button ● included) gives
    an empty cell.
  */
  function DoSimbolo(ch: char): (e: Elemento)
    ensures e != Vazio <==> ch in GlifosDoMapa
    ensures e != Vazio ==> Simbolo(e) == ch
    ensures e != Personagem && e != BotaoLigado
  {
    if ch == Simbolo(Parede) then Parede
    else if ch == Simbolo(Inimigo) then Inimigo
    else if ch == Simbolo(Vegetacao) then Vegetacao
    else if ch == Simbolo(Moeda) then Moeda
    else if ch == Simbolo(BotaoDesligado) then BotaoDesligado
    else Vazio
  }
}

/** Decimal formatting of a count, as `fmt.Sprintf("%d", n)` prints a non-negative int. */
module Texto {
  function Digito(d: nat): (c: char)
    requires d < 10
    ensures '0' <= c <= '9'
  {
    ('0' as int + d) as char
  }

  predicate SoDigitos(s: string) {
    forall i :: 0 <= i < |s| ==> '0' <= s[i] <= '9'
  }

  /** The decimal digits of `n`, most significant first, with no leading zero. */
  function NatParaTexto(n: nat): (s: string)
    ensures |s| >= 1 && SoDigitos(s)
    ensures s[0] == '0' ==> n == 0
    decreases n
  {
    if n < 10 then [Digito(n)] else NatParaTexto(n / 10) + [Digito(n % 10)]
  }

  /** The number a string of decimal digits denotes. */
  function ValorDecimal(s: string): nat
    requires SoDigitos(s)
    decreases |s|
  {
    if |s| == 0 then 0 else ValorDecimal(s[..|s| - 1]) * 10 + (s[|s| - 1] as int - '0' as int)
  }

  /** Reading back the printed digits gives the number that was printed. */
  lemma {:induction false} ValorDeNatParaTexto(n: nat)
    ensures ValorDecimal(NatParaTexto(n)) == n
  {
    if n >= 10 {
      ValorDeNatParaTexto(n / 10);
      var s := NatParaTexto(n);
      assert s[..|s| - 1] == NatParaTexto(n / 10);
    }
  }
}
