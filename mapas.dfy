/**
  The board: Go's `Mapa [][]Elemento`, a sequence of rows that may have
  different lengths. Bounds, the move-legality test `jogoPodeMoverPara`,
  single-cell writes and the row-major scans of the setup controllers.
*/
module Mapas {
  import opened Elementos

  type Grade = seq<seq<Elemento>>

  datatype Pos = Pos(x: int, y: int)

  /** `(x, y)` indexes a cell: the row exists and `x` is inside that row's own length. */
  predicate NoMapa(m: Grade, x: int, y: int) {
    0 <= y < |m| && 0 <= x < |m[y]|
  }

  predicate MesmaForma(a: Grade, b: Grade) {
    |a| == |b| && forall y :: 0 <= y < |a| ==> |a[y]| == |b[y]|
  }

  /** `a` and `b` have the same shape and agree on every cell outside `ps`. */
  predicate IgualExceto(a: Grade, b: Grade, ps: set<Pos>) {
    MesmaForma(a, b) &&
    forall y, x :: 0 <= y < |a| && 0 <= x < |a[y]| && Pos(x, y) !in ps ==> a[y][x] == b[y][x]
  }

  /**
    `jogoPodeMoverPara`: the row index is inside the board, the column index
    is inside that row, and the cell there is not tangible.
  */
  function PodeMoverPara(m: Grade, x: int, y: int): (r: bool)
    ensures r <==> NoMapa(m, x, y) && m[y][x] != Parede
  {
    if y < 0 || y >= |m| then false
    else if x < 0 || x >= |m[y]| then false
    else if Tangivel(m[y][x]) then false
    else true
  }

  /** Among in-bounds cells, only a wall is refused; every other kind may be entered. */
  lemma SoParedeBloqueia(m: Grade, x: int, y: int)
    requires NoMapa(m, x, y)
    ensures !PodeMoverPara(m, x, y) <==> m[y][x] == Parede
  {
  }

  /** The in-place write `Mapa[y][x] = e`. */
  function Escrever(m: Grade, x: int, y: int, e: Elemento): (r: Grade)
    requires NoMapa(m, x, y)
    ensures IgualExceto(m, r, {Pos(x, y)})
    ensures r[y][x] == e
  {
    m[y := m[y][x := e]]
  }

  /** Row-major order: earlier row first, then smaller column. */
  predicate Antes(a: Pos, b: Pos) {
    a.y < b.y || (a.y == b.y && a.x < b.x)
  }

  /** The positions in row `y` whose cell is `e`, left to right. */
  function PosicoesLinha(linha: seq<Elemento>, y: int, e: Elemento): (ps: seq<Pos>)
    ensures forall k :: 0 <= k < |ps| ==> ps[k].y == y && 0 <= ps[k].x < |linha| && linha[ps[k].x] == e
    decreases |linha|
  {
    if |linha| == 0 then []
    else
      PosicoesLinha(linha[..|linha| - 1], y, e)
      + (if linha[|linha| - 1] == e then [Pos(|linha| - 1, y)] else [])
  }

  /** The positions of the board whose cell is `e`, in row-major order. */
  function Posicoes(m: Grade, e: Elemento): (ps: seq<Pos>)
    ensures forall k :: 0 <= k < |ps| ==> NoMapa(m, ps[k].x, ps[k].y) && m[ps[k].y][ps[k].x] == e
    decreases |m|
  {
    if |m| == 0 then []
    else Posicoes(m[..|m| - 1], e) + PosicoesLinha(m[|m| - 1], |m| - 1, e)
  }

  lemma {:induction false} PosicoesLinhaCompleta(linha: seq<Elemento>, y: int, e: Elemento, x: int)
    requires 0 <= x < |linha| && linha[x] == e
    ensures Pos(x, y) in PosicoesLinha(linha, y, e)
    decreases |linha|
  {
    if x < |linha| - 1 {
      PosicoesLinhaCompleta(linha[..|linha| - 1], y, e, x);
    }
  }

  lemma {:induction false} PosicoesLinhaOrdenada(linha: seq<Elemento>, y: int, e: Elemento)
    ensures forall i, j :: 0 <= i < j < |PosicoesLinha(linha, y, e)| ==>
              PosicoesLinha(linha, y, e)[i].x < PosicoesLinha(linha, y, e)[j].x
    decreases |linha|
  {
    if |linha| > 0 {
      var n := |linha| - 1;
      PosicoesLinhaOrdenada(linha[..n], y, e);
      var a := PosicoesLinha(linha[..n], y, e);
      var b: seq<Pos> := if linha[n] == e then [Pos(n, y)] else [];
      assert forall i, j :: 0 <= i < j < |a| ==> a[i].x < a[j].x;
      assert PosicoesLinha(linha, y, e) == a + b;
      assert forall i :: 0 <= i < |a| ==> a[i].x < n;
      forall i, j | 0 <= i < j < |a + b|
        ensures (a + b)[i].x < (a + b)[j].x
      {
        if j >= |a| {
          assert (a + b)[j] == Pos(n, y);
          assert (a + b)[i] == a[i];
        } else {
          assert (a + b)[i] == a[i] && (a + b)[j] == a[j];
        }
      }
    }
  }

  /** A scan finds a position exactly when the cell there holds the element scanned for. */
  lemma {:induction false} PosicoesCompleta(m: Grade, e: Elemento, p: Pos)
    ensures p in Posicoes(m, e) <==> NoMapa(m, p.x, p.y) && m[p.y][p.x] == e
    decreases |m|
  {
    if p in Posicoes(m, e) {
      var k :| 0 <= k < |Posicoes(m, e)| && Posicoes(m, e)[k] == p;
    }
    if NoMapa(m, p.x, p.y) && m[p.y][p.x] == e {
      var n := |m| - 1;
      if p.y < n {
        PosicoesCompleta(m[..n], e, p);
      } else {
        PosicoesLinhaCompleta(m[n], n, e, p.x);
      }
    }
  }

  /** A scan lists its positions in strictly increasing row-major order, hence without repeats. */
  lemma {:induction false} PosicoesOrdenadas(m: Grade, e: Elemento)
    ensures forall i, j :: 0 <= i < j < |Posicoes(m, e)| ==> Antes(Posicoes(m, e)[i], Posicoes(m, e)[j])
    decreases |m|
  {
    if |m| > 0 {
      var n := |m| - 1;
      PosicoesOrdenadas(m[..n], e);
      PosicoesLinhaOrdenada(m[n], n, e);
      var a, b := Posicoes(m[..n], e), PosicoesLinha(m[n], n, e);
      assert forall i, j :: 0 <= i < j < |a| ==> Antes(a[i], a[j]);
      assert forall i, j :: 0 <= i < j < |b| ==> b[i].x < b[j].x;
      assert Posicoes(m, e) == a + b;
      assert forall i :: 0 <= i < |a| ==> a[i].y < n;
      forall i, j | 0 <= i < j < |a + b|
        ensures Antes((a + b)[i], (a + b)[j])
      {
        if i >= |a| {
          assert (a + b)[i] == b[i - |a|] && (a + b)[j] == b[j - |a|];
        } else if j >= |a| {
          assert (a + b)[i] == a[i] && (a + b)[j] == b[j - |a|];
        } else {
          assert (a + b)[i] == a[i] && (a + b)[j] == a[j];
        }
      }
    }
  }

  /**
    The nested `for y, linha := range Mapa { for x, elem := range linha { ... } }`
    scan of the setup controllers: collects, row by row and left to right,
    every position whose cell is `e`.
  */
  method Varrer(m: Grade, e: Elemento) returns (ps: seq<Pos>)
    ensures ps == Posicoes(m, e)
  {
    ps := [];
    var y := 0;
    while y < |m|
      invariant 0 <= y <= |m|
      invariant ps == Posicoes(m[..y], e)
    {
      var linha := m[y];
      var x := 0;
      while x < |linha|
        invariant 0 <= x <= |linha|
        invariant ps == Posicoes(m[..y], e) + PosicoesLinha(linha[..x], y, e)
      {
        assert linha[..x + 1][..x] == linha[..x];
        if linha[x] == e {
          ps := ps + [Pos(x, y)];
        }
        x := x + 1;
      }
      assert linha[..x] == linha;
      assert m[..y + 1][..y] == m[..y];
      y := y + 1;
    }
    assert m[..y] == m;
  }
}
