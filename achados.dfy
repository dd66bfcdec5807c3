/**
  Two places where the loader and the enemy tick do not do what the rest of
  the game evidently expects, each shown on a concrete input, next to the
  corrected definition and the property it restores.
*/
module Achados {
  import opened Opcoes
  import opened Elementos
  import opened Mapas
  import opened Entidades
  import opened Regras
  import opened Carga
  import opened Inimigos

  // ---------------------------------------------------------------------
  // The spawn column is a byte offset, the board is indexed by rune
  // ---------------------------------------------------------------------

  /** A wall followed by the spawn rune: one line, two runes, four bytes before the end. */
  const LinhaParedeSpawn: string := "\U{25A4}\U{263A}"

  /**
    As written: the loader records column 3 (the byte offset of ☺, after the
    three-byte wall), but the row has two cells, so the recorded position is
    not a cell of the board; the spawn's own cell is column 1.
  */
  lemma SpawnForaDoMapa()
    ensures Spawn([LinhaParedeSpawn]) == Some(Pos(3, 0))
    ensures !NoMapa(Linhas([LinhaParedeSpawn]), 3, 0)
    ensures NoMapa(Linhas([LinhaParedeSpawn]), 1, 0) && Linhas([LinhaParedeSpawn])[0][1] == Vazio
  {
    var l := LinhaParedeSpawn;
    assert UltimoIndice(l, RunaSpawn) == Some(1);
    assert Deslocamento(l, 1) == Deslocamento(l, 0) + Utf8Len(l[0]) == 3;
    assert |Linhas([l])[0]| == 2;
  }

  /** The intended spawn: the last ☺ in row-major order, its column being the rune index. */
  function SpawnRuna(linhas: seq<string>): (r: Option<Pos>)
    ensures r.Some? ==>
              && 0 <= r.value.y < |linhas|
              && 0 <= r.value.x < |linhas[r.value.y]|
              && linhas[r.value.y][r.value.x] == RunaSpawn
              && (forall k :: r.value.x < k < |linhas[r.value.y]| ==> linhas[r.value.y][k] != RunaSpawn)
              && (forall y :: r.value.y < y < |linhas| ==> UltimoIndice(linhas[y], RunaSpawn).None?)
    ensures r.None? ==> forall y :: 0 <= y < |linhas| ==> UltimoIndice(linhas[y], RunaSpawn).None?
    decreases |linhas|
  {
    if |linhas| == 0 then None
    else
      var y := |linhas| - 1;
      match UltimoIndice(linhas[y], RunaSpawn)
      case Some(i) => Some(Pos(i, y))
      case None => SpawnRuna(linhas[..y])
  }

  /** The corrected spawn is a cell of the loaded board, and that cell is empty. */
  lemma SpawnRunaNoMapa(linhas: seq<string>)
    requires SpawnRuna(linhas).Some?
    ensures var p := SpawnRuna(linhas).value;
            NoMapa(Linhas(linhas), p.x, p.y) && Linhas(linhas)[p.y][p.x] == Vazio
  {
    var p := SpawnRuna(linhas).value;
    LinhasCelulas(linhas, p.x, p.y);
  }

  /** Both definitions pick the same rune; they differ only in how its column is counted. */
  lemma {:induction false} SpawnMesmaRuna(linhas: seq<string>)
    ensures Spawn(linhas) == match SpawnRuna(linhas)
                             case Some(p) => Some(Pos(Deslocamento(linhas[p.y], p.x), p.y))
                             case None => None
    decreases |linhas|
  {
    if |linhas| > 0 {
      var y := |linhas| - 1;
      if UltimoIndice(linhas[y], RunaSpawn).None? {
        SpawnMesmaRuna(linhas[..y]);
      }
    }
  }

  /**
    The loader's column is the intended one exactly when every rune before
    the spawn rune in its line is ASCII; otherwise it lies to the right of it.
  */
  lemma SpawnCorretoSeAscii(linhas: seq<string>)
    requires SpawnRuna(linhas).Some?
    ensures var p := SpawnRuna(linhas).value;
            && Spawn(linhas).Some? && Spawn(linhas).value.y == p.y
            && (Spawn(linhas).value.x == p.x <==> forall k :: 0 <= k < p.x ==> linhas[p.y][k] as int < 0x80)
            && Spawn(linhas).value.x >= p.x
  {
    var p := SpawnRuna(linhas).value;
    SpawnMesmaRuna(linhas);
    if forall k :: 0 <= k < p.x ==> linhas[p.y][k] as int < 0x80 {
      DeslocamentoAscii(linhas[p.y], p.x);
    } else {
      var k :| 0 <= k < p.x && linhas[p.y][k] as int >= 0x80;
      DeslocamentoNaoAscii(linhas[p.y], p.x, k);
    }
  }

  // ---------------------------------------------------------------------
  // The enemy tick carries the destination's content back to the source
  // ---------------------------------------------------------------------

  /**
    A row with an enemy, a bush and an empty cell, and the character on a
    second row out of the enemy's way.
  */
  const MundoArbusto: Mundo :=
    MundoNovo.(mapa := [[Inimigo, Vegetacao, Vazio], [Vazio]], posX := 0, posY := 1)

  const InimigoArbusto: InimigoStruct := InimigoStruct(0, 0, Vazio, Patrulha)

  /**
    As written: two patrol steps to the right (draw 0 twice). The first
    carries the bush back to the enemy's starting cell, the second carries
    the empty cell back onto the bush's cell: the bush ends one cell to the
    left of where it was, and the enemy's starting cell, empty before, is
    now a bush.
  */
  lemma InimigoArrastaTerreno()
    ensures var e0, w0 := InimigoArbusto, MundoArbusto;
            && PodeMoverPara(w0.mapa, 1, 0)
            && var (e1, ups1) := Passo(e0, w0.mapa, 0, 1, Pos(1, 0));
            && Executar(w0, ups1).Some?
            && var w1 := Executar(w0, ups1).value;
            && e1 == InimigoStruct(1, 0, Vegetacao, Patrulha)
            && PodeMoverPara(w1.mapa, 2, 0)
            && var (e2, ups2) := Passo(e1, w1.mapa, 0, 1, Pos(2, 0));
            && Executar(w1, ups2).Some?
            && var w2 := Executar(w1, ups2).value;
            && NoMapa(w2.mapa, 0, 0) && NoMapa(w2.mapa, 1, 0) && NoMapa(w2.mapa, 2, 0)
            && w2.mapa[0][0] == Vegetacao && w2.mapa[0][1] == Vazio && w2.mapa[0][2] == Inimigo
  {
    var e0, w0 := InimigoArbusto, MundoArbusto;
    PassoAplicado(w0, e0, Pos(1, 0));
    var (e1, ups1) := Passo(e0, w0.mapa, 0, 1, Pos(1, 0));
    var w1 := Executar(w0, ups1).value;
    assert w1.mapa[0][0] == Vegetacao && w1.mapa[0][2] == Vazio;
    PassoAplicado(w1, e1, Pos(2, 0));
  }

  /**
    The intended end of a tick: the move update carries the cell the enemy
    was covering (its memory), and the destination's content becomes the
    new memory.
  */
  function PassoCorrigido(e: InimigoStruct, m: Grade, px: int, py: int, p: Pos): (InimigoStruct, seq<MapaUpdate>)
    requires p == Pos(e.x, e.y) || NoMapa(m, p.x, p.y)
  {
    if p == Pos(e.x, e.y) then (e, [])
    else
      var capturou: seq<MapaUpdate> := if px == p.x && py == p.y then [MapaUpdate(UpPerdeu, 0, 0, 0, 0, Vazio)] else [];
      (e.(x := p.x, y := p.y, ultimoVisitado := m[p.y][p.x]),
       capturou + [MapaUpdate(UpInimigo, e.x, e.y, p.x, p.y, e.ultimoVisitado)])
  }

  /** The terrain under the board: the enemy lifted off its cell, the cell it covers put back. */
  function Terreno(m: Grade, e: InimigoStruct): (r: Grade)
    requires NoMapa(m, e.x, e.y)
    ensures IgualExceto(m, r, {Pos(e.x, e.y)}) && r[e.y][e.x] == e.ultimoVisitado
  {
    Escrever(m, e.x, e.y, e.ultimoVisitado)
  }

  /**
    The corrected tick's updates, applied by the coordinator: the loss hook
    runs exactly when the enemy steps onto the character, the source gets
    the cell the enemy was covering (re-resolved if a button), the
    destination shows the enemy, the enemy now remembers what the
    destination held, and no other cell changes.
  */
  lemma PassoCorrigidoAplicado(w: Mundo, e: InimigoStruct, p: Pos)
    requires NoMapa(w.mapa, e.x, e.y) && NoMapa(w.mapa, p.x, p.y) && p != Pos(e.x, e.y)
    requires EhBotao(e.ultimoVisitado) ==> |w.botoes| > 0
    ensures var (e', ups) := PassoCorrigido(e, w.mapa, w.posX, w.posY, p);
            && Executar(w, ups).Some?
            && var w' := Executar(w, ups).value;
            && w'.derrotas == w.derrotas + (if p == Pos(w.posX, w.posY) then 1 else 0)
            && IgualExceto(w.mapa, w'.mapa, {Pos(e.x, e.y), p})
            && w'.mapa[p.y][p.x] == Inimigo
            && w'.mapa[e.y][e.x] == ResolverBotao(e.ultimoVisitado, w.botoes)
            && e' == e.(x := p.x, y := p.y, ultimoVisitado := w.mapa[p.y][p.x])
  {
    var ups := PassoCorrigido(e, w.mapa, w.posX, w.posY, p).1;
    var u := MapaUpdate(UpInimigo, e.x, e.y, p.x, p.y, e.ultimoVisitado);
    if p == Pos(w.posX, w.posY) {
      var perdeu := MapaUpdate(UpPerdeu, 0, 0, 0, 0, Vazio);
      assert ups == [perdeu, u];
      AplicarPerdeu(w, perdeu);
      AplicarInimigo(Aplicar(w, perdeu), u);
      ExecutarDois(w, perdeu, u);
    } else {
      assert ups == [u];
      AplicarInimigo(w, u);
      ExecutarUm(w, u);
    }
  }

  /**
    With the correction, one enemy's step leaves the terrain as it was: the
    board after the step, with the enemy lifted off its new cell, is the
    board before, with the enemy lifted off its old cell. A button the enemy
    was covering comes back in the buttons' current colour, so the board
    before is read with the covered cell re-resolved; any other covered
    cell comes back unchanged. The enemy is on its new cell.
  */
  lemma PassoCorrigidoPreservaTerreno(w: Mundo, e: InimigoStruct, p: Pos)
    requires NoMapa(w.mapa, e.x, e.y) && NoMapa(w.mapa, p.x, p.y) && p != Pos(e.x, e.y)
    requires EhBotao(e.ultimoVisitado) ==> |w.botoes| > 0
    ensures var (e', ups) := PassoCorrigido(e, w.mapa, w.posX, w.posY, p);
            && Executar(w, ups).Some?
            && var w' := Executar(w, ups).value;
            && NoMapa(w'.mapa, e'.x, e'.y)
            && w'.mapa[e'.y][e'.x] == Inimigo
            && var er := e.(ultimoVisitado := ResolverBotao(e.ultimoVisitado, w.botoes));
            && IgualExceto(Terreno(w.mapa, er), Terreno(w'.mapa, e'), {})
            && (!EhBotao(e.ultimoVisitado) ==> IgualExceto(Terreno(w.mapa, e), Terreno(w'.mapa, e'), {}))
  {
    PassoCorrigidoAplicado(w, e, p);
    var (e', ups) := PassoCorrigido(e, w.mapa, w.posX, w.posY, p);
    var w' := Executar(w, ups).value;
    var er := e.(ultimoVisitado := ResolverBotao(e.ultimoVisitado, w.botoes));
    var t, t' := Terreno(w.mapa, er), Terreno(w'.mapa, e');
    forall y, x | 0 <= y < |t| && 0 <= x < |t[y]|
      ensures t[y][x] == t'[y][x]
    {
      if Pos(x, y) == Pos(e.x, e.y) {
        assert t'[y][x] == w'.mapa[y][x];
      } else if Pos(x, y) == p {
        assert t[y][x] == w.mapa[y][x];
      } else {
        assert t[y][x] == w.mapa[y][x] == w'.mapa[y][x] == t'[y][x];
      }
    }
    if !EhBotao(e.ultimoVisitado) {
      assert er == e;
    }
  }

  /** On the same two steps, the corrected tick leaves the bush where it was. */
  lemma InimigoCorrigidoNaoArrasta()
    ensures var e0, w0 := InimigoArbusto, MundoArbusto;
            var (e1, ups1) := PassoCorrigido(e0, w0.mapa, 0, 1, Pos(1, 0));
            && Executar(w0, ups1).Some?
            && var w1 := Executar(w0, ups1).value;
            && NoMapa(w1.mapa, 2, 0)
            && var (e2, ups2) := PassoCorrigido(e1, w1.mapa, 0, 1, Pos(2, 0));
            && Executar(w1, ups2).Some?
            && var w2 := Executar(w1, ups2).value;
            && NoMapa(w2.mapa, 0, 0) && NoMapa(w2.mapa, 1, 0) && NoMapa(w2.mapa, 2, 0)
            && w2.mapa[0][0] == Vazio && w2.mapa[0][1] == Vegetacao && w2.mapa[0][2] == Inimigo
  {
    var e0, w0 := InimigoArbusto, MundoArbusto;
    PassoCorrigidoAplicado(w0, e0, Pos(1, 0));
    var (e1, ups1) := PassoCorrigido(e0, w0.mapa, 0, 1, Pos(1, 0));
    var w1 := Executar(w0, ups1).value;
    assert w1.mapa[0][0] == Vazio && w1.mapa[0][2] == Vazio;
    assert e1 == InimigoStruct(1, 0, Vegetacao, Patrulha);
    PassoCorrigidoAplicado(w1, e1, Pos(2, 0));
  }
}
