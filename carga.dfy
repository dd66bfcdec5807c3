/**
  The line-to-row mapping of `jogoCarregarMapa`. A map line is given as the
  sequence of runes Go's `range` over the line's string yields; the file
  itself (opening, the line scanner, its errors) is not part of this model.

  `range` over a Go string gives, with each rune, its BYTE offset in the
  UTF-8 encoding, and the loader records that offset as the spawn column.
*/
module Carga {
  import opened Opcoes
  import opened Elementos
  import opened Mapas

  const RunaSpawn: char := Simbolo(Personagem)

  /** Number of bytes the UTF-8 encoding of `c` takes. */
  function Utf8Len(c: char): (n: nat)
    ensures 1 <= n <= 4
    ensures n == 1 <==> c as int < 0x80
  {
    if c as int < 0x80 then 1
    else if c as int < 0x800 then 2
    else if c as int < 0x10000 then 3
    else 4
  }

  /** The byte offset at which rune `i` of `linha` starts: the index `range` reports. */
  function Deslocamento(linha: string, i: nat): (b: nat)
    requires i <= |linha|
    ensures i <= b <= 4 * i
  {
    if i == 0 then 0 else Deslocamento(linha, i - 1) + Utf8Len(linha[i - 1])
  }

  /** When every rune before `i` is ASCII, the byte offset and the rune index coincide. */
  lemma {:induction false} DeslocamentoAscii(linha: string, i: nat)
    requires i <= |linha|
    requires forall k :: 0 <= k < i ==> linha[k] as int < 0x80
    ensures Deslocamento(linha, i) == i
  {
    if i > 0 {
      DeslocamentoAscii(linha, i - 1);
    }
  }

  /** A non-ASCII rune before `i` pushes the byte offset past the rune index. */
  lemma {:induction false} DeslocamentoNaoAscii(linha: string, i: nat, k: nat)
    requires k < i <= |linha|
    requires linha[k] as int >= 0x80
    ensures Deslocamento(linha, i) > i
  {
    if k < i - 1 {
      DeslocamentoNaoAscii(linha, i - 1, k);
    }
  }

  /** One row of the board: one cell per rune, as the rune switch gives it. */
  function Linha(linha: string): seq<Elemento> {
    seq(|linha|, i requires 0 <= i < |linha| => DoSimbolo(linha[i]))
  }

  /** The whole board: one row per line. */
  function Linhas(linhas: seq<string>): Grade {
    seq(|linhas|, y requires 0 <= y < |linhas| => Linha(linhas[y]))
  }

  /** The rune index of the last occurrence of `c` in `linha`, if any. */
  function UltimoIndice(linha: string, c: char): (r: Option<nat>)
    ensures r.Some? ==> r.value < |linha| && linha[r.value] == c &&
                        forall k :: r.value < k < |linha| ==> linha[k] != c
    ensures r.None? ==> forall k :: 0 <= k < |linha| ==> linha[k] != c
    decreases |linha|
  {
    if |linha| == 0 then None
    else if linha[|linha| - 1] == c then Some(|linha| - 1)
    else UltimoIndice(linha[..|linha| - 1], c)
  }

  /**
    The position the loader records for the character: the last ☺ in
    row-major order wins; its column is the byte offset `range` reports and
    its row is the line index. `None` when no line holds ☺ (the position then
    keeps its earlier value).
  */
  function Spawn(linhas: seq<string>): (r: Option<Pos>)
    ensures r.Some? ==>
              && 0 <= r.value.y < |linhas|
              && UltimoIndice(linhas[r.value.y], RunaSpawn).Some?
              && r.value.x == Deslocamento(linhas[r.value.y], UltimoIndice(linhas[r.value.y], RunaSpawn).value)
              && forall y :: r.value.y < y < |linhas| ==> UltimoIndice(linhas[y], RunaSpawn).None?
    ensures r.None? ==> forall y :: 0 <= y < |linhas| ==> UltimoIndice(linhas[y], RunaSpawn).None?
    decreases |linhas|
  {
    if |linhas| == 0 then None
    else
      var y := |linhas| - 1;
      match UltimoIndice(linhas[y], RunaSpawn)
      case Some(i) => Some(Pos(Deslocamento(linhas[y], i), y))
      case None => Spawn(linhas[..y])
  }

  /**
    Every rune gives one cell: recognised runes their own kind, every other
    rune (☺ included) an empty cell; and the spawn rune's own cell is empty.
  */
  lemma LinhasCelulas(linhas: seq<string>, x: int, y: int)
    requires 0 <= y < |linhas| && 0 <= x < |linhas[y]|
    ensures |Linhas(linhas)| == |linhas| && |Linhas(linhas)[y]| == |linhas[y]|
    ensures NoMapa(Linhas(linhas), x, y)
    ensures Linhas(linhas)[y][x] == DoSimbolo(linhas[y][x])
    ensures linhas[y][x] == RunaSpawn ==> Linhas(linhas)[y][x] == Vazio
    ensures linhas[y][x] !in GlifosDoMapa <==> Linhas(linhas)[y][x] == Vazio
  {
  }
}
