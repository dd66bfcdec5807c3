/**
  The step an enemy agent takes in `ServiceInimigo`: the reaction to its two
  mailboxes, the chase step selection, the patrol step for a drawn direction,
  and the updates a tick sends to the coordinator. The timer, the `select`
  and the random draw are outside the model: the drawn direction is a
  parameter.
*/
module Inimigos {
  import opened Opcoes
  import opened Elementos
  import opened Mapas
  import opened Entidades
  import opened Regras

  /** What arrives on one of an enemy's mailboxes. */
  datatype Sinal = SinalBotao(valor: bool) | SinalMoeda

  /**
    The state change on a received signal: a `true` from the button mailbox
    sets patrol, anything from the coin mailbox sets chase, a `false` from
    the button mailbox changes nothing.
  */
  function Receber(estado: EstadoInimigo, s: Sinal): EstadoInimigo {
    match s
    case SinalBotao(v) => if v then Patrulha else estado
    case SinalMoeda => Perseguicao
  }

  /** The status line the enemy writes on a received signal, if any. */
  function MensagemSinal(s: Sinal): Option<string> {
    match s
    case SinalBotao(v) => if v then Some("Inimigos pararam de perseguir devido ao botao!") else None
    case SinalMoeda => Some("Moeda coletada! Inimigos iniciaram perseguicao!")
  }

  /** The same signal received twice has the effect of receiving it once. */
  lemma ReceberIdempotente(estado: EstadoInimigo, s: Sinal)
    ensures Receber(Receber(estado, s), s) == Receber(estado, s)
  {
  }

  /** The state after receiving the signals `ss` one after another. */
  function ReceberTodos(estado: EstadoInimigo, ss: seq<Sinal>): EstadoInimigo
    decreases |ss|
  {
    if |ss| == 0 then estado else Receber(ReceberTodos(estado, ss[..|ss| - 1]), ss[|ss| - 1])
  }

  /** A signal that changes the state: anything but a `false` from the button mailbox. */
  predicate Efetivo(s: Sinal) {
    s != SinalBotao(false)
  }

  /**
    The last effective signal decides the state: chase after a coin signal,
    patrol after a button `true`; with no effective signal (`k == -1`) the
    starting state is kept.
  */
  lemma {:induction false} UltimoSinalPrevalece(estado: EstadoInimigo, ss: seq<Sinal>, k: int)
    requires -1 <= k < |ss|
    requires k >= 0 ==> Efetivo(ss[k])
    requires forall j :: k < j < |ss| ==> !Efetivo(ss[j])
    ensures k < 0 ==> ReceberTodos(estado, ss) == estado
    ensures k >= 0 && ss[k].SinalMoeda? ==> ReceberTodos(estado, ss) == Perseguicao
    ensures k >= 0 && ss[k].SinalBotao? ==> ReceberTodos(estado, ss) == Patrulha
    decreases |ss|
  {
    if |ss| > 0 && k < |ss| - 1 {
      var init := ss[..|ss| - 1];
      assert forall j :: k < j < |init| ==> init[j] == ss[j];
      UltimoSinalPrevalece(estado, init, k);
    }
  }

  /** Go's `dx`/`dy`: one step towards `para`, or 0 when already level. */
  function Direcao(de: int, para: int): int {
    if de < para then 1 else if de > para then -1 else 0
  }

  function Abs(n: int): nat {
    if n < 0 then -n else n
  }

  /** Manhattan distance between two cells. */
  function Distancia(a: Pos, b: Pos): nat {
    Abs(a.x - b.x) + Abs(a.y - b.y)
  }

  /**
    The chase step selection: the axis with the larger gap first (the
    vertical one on a tie), the other axis when the first step is refused,
    and no move when both are refused. The result is one of the two
    candidate steps or the enemy's own cell, and a step that moves is legal.
  */
  function Perseguir(m: Grade, x: int, y: int, px: int, py: int): (r: Pos)
    ensures r == Pos(x + Direcao(x, px), y) || r == Pos(x, y + Direcao(y, py)) || r == Pos(x, y)
    ensures r != Pos(x, y) ==> PodeMoverPara(m, r.x, r.y)
  {
    var dx, dy := Direcao(x, px), Direcao(y, py);
    if Abs(x - px) > Abs(y - py) then
      if PodeMoverPara(m, x + dx, y) then Pos(x + dx, y)
      else if PodeMoverPara(m, x, y + dy) then Pos(x, y + dy)
      else Pos(x, y)
    else
      if PodeMoverPara(m, x, y + dy) then Pos(x, y + dy)
      else if PodeMoverPara(m, x + dx, y) then Pos(x + dx, y)
      else Pos(x, y)
  }

  /** The step tried first: horizontal exactly when the horizontal gap is strictly larger. */
  function Primario(x: int, y: int, px: int, py: int): Pos {
    if Abs(x - px) > Abs(y - py) then Pos(x + Direcao(x, px), y) else Pos(x, y + Direcao(y, py))
  }

  /**
    A chase step never moves away: either the enemy stays, or it comes
    exactly one cell closer to the character.
  */
  lemma PerseguirAproxima(m: Grade, x: int, y: int, px: int, py: int)
    ensures var r := Perseguir(m, x, y, px, py);
            r == Pos(x, y) || Distancia(r, Pos(px, py)) + 1 == Distancia(Pos(x, y), Pos(px, py))
  {
  }

  /**
    When the first-tried step is legal and the enemy is not on the
    character, the enemy takes that step and the distance drops by one.
  */
  lemma PerseguirPrimario(m: Grade, x: int, y: int, px: int, py: int)
    requires Pos(x, y) != Pos(px, py)
    requires PodeMoverPara(m, Primario(x, y, px, py).x, Primario(x, y, px, py).y)
    ensures Perseguir(m, x, y, px, py) == Primario(x, y, px, py)
    ensures Distancia(Perseguir(m, x, y, px, py), Pos(px, py)) + 1 == Distancia(Pos(x, y), Pos(px, py))
  {
  }

  /** The enemy stays put only when every step that would bring it closer is refused. */
  lemma PerseguirParado(m: Grade, x: int, y: int, px: int, py: int)
    requires Perseguir(m, x, y, px, py) == Pos(x, y)
    ensures x != px ==> !PodeMoverPara(m, x + Direcao(x, px), y)
    ensures y != py ==> !PodeMoverPara(m, x, y + Direcao(y, py))
  {
  }

  /** The four directions `rand.Intn(4)` selects: right, left, down, up. */
  function Candidato(x: int, y: int, n: int): Pos
    requires 0 <= n < 4
  {
    if n == 0 then Pos(x + 1, y)
    else if n == 1 then Pos(x - 1, y)
    else if n == 2 then Pos(x, y + 1)
    else Pos(x, y - 1)
  }

  /**
    One draw of the patrol loop: the neighbour in direction `n` when it is
    legal, `None` when it is refused and the loop draws again.
  */
  function Patrulhar(m: Grade, x: int, y: int, n: int): (r: Option<Pos>)
    requires 0 <= n < 4
    ensures r.Some? ==> PodeMoverPara(m, r.value.x, r.value.y) && Distancia(r.value, Pos(x, y)) == 1
    ensures r.None? ==> !PodeMoverPara(m, Candidato(x, y, n).x, Candidato(x, y, n).y)
  {
    var c := Candidato(x, y, n);
    if PodeMoverPara(m, c.x, c.y) then Some(c) else None
  }

  /**
    The patrol loop can stop exactly when some neighbour is legal: an enemy
    walled in on all four sides draws forever.
  */
  lemma PatrulhaTermina(m: Grade, x: int, y: int)
    ensures (exists n :: 0 <= n < 4 && Patrulhar(m, x, y, n).Some?) <==>
            (exists p :: p in {Pos(x + 1, y), Pos(x - 1, y), Pos(x, y + 1), Pos(x, y - 1)} && PodeMoverPara(m, p.x, p.y))
  {
    if exists p :: p in {Pos(x + 1, y), Pos(x - 1, y), Pos(x, y + 1), Pos(x, y - 1)} && PodeMoverPara(m, p.x, p.y) {
      var p :| p in {Pos(x + 1, y), Pos(x - 1, y), Pos(x, y + 1), Pos(x, y - 1)} && PodeMoverPara(m, p.x, p.y);
      if p == Pos(x + 1, y) { assert Patrulhar(m, x, y, 0).Some?; }
      else if p == Pos(x - 1, y) { assert Patrulhar(m, x, y, 1).Some?; }
      else if p == Pos(x, y + 1) { assert Patrulhar(m, x, y, 2).Some?; }
      else { assert Patrulhar(m, x, y, 3).Some?; }
    }
  }

  /**
    The target of one tick: the chase selection, or the patrol draw `n`
    (`None` when the draw is refused and the loop draws again).
  */
  function Alvo(e: InimigoStruct, m: Grade, px: int, py: int, n: int): Option<Pos>
    requires 0 <= n < 4
  {
    if e.estado == Perseguicao then Some(Perseguir(m, e.x, e.y, px, py)) else Patrulhar(m, e.x, e.y, n)
  }

  lemma AlvoLegal(e: InimigoStruct, m: Grade, px: int, py: int, n: int)
    requires 0 <= n < 4 && Alvo(e, m, px, py, n).Some?
    ensures var p := Alvo(e, m, px, py, n).value;
            p == Pos(e.x, e.y) || (PodeMoverPara(m, p.x, p.y) && Distancia(p, Pos(e.x, e.y)) == 1)
  {
  }

  /**
    The end of a tick, for the chosen target `p`: when it differs from the
    enemy's cell, a loss update if the character stands there, then the move
    update carrying what the enemy reads at the DESTINATION (also kept as its
    new memory); then the enemy takes the new position. No target change, no
    updates.
  */
  function Passo(e: InimigoStruct, m: Grade, px: int, py: int, p: Pos): (InimigoStruct, seq<MapaUpdate>)
    requires p == Pos(e.x, e.y) || NoMapa(m, p.x, p.y)
  {
    if p == Pos(e.x, e.y) then (e, [])
    else
      var capturou: seq<MapaUpdate> := if px == p.x && py == p.y then [MapaUpdate(UpPerdeu, 0, 0, 0, 0, Vazio)] else [];
      var uv := m[p.y][p.x];
      (e.(x := p.x, y := p.y, ultimoVisitado := uv),
       capturou + [MapaUpdate(UpInimigo, e.x, e.y, p.x, p.y, uv)])
  }

  /**
    A tick's updates, applied by the coordinator to the board the enemy read
    (no other update in between): the loss hook runs exactly when the enemy
    moved onto the character; the destination shows the enemy; the source
    receives the destination's former content, re-resolved if it is a
    button; no other cell changes.
  */
  lemma PassoAplicado(w: Mundo, e: InimigoStruct, p: Pos)
    requires NoMapa(w.mapa, e.x, e.y) && NoMapa(w.mapa, p.x, p.y)
    requires EhBotao(w.mapa[p.y][p.x]) ==> |w.botoes| > 0
    ensures var ups := Passo(e, w.mapa, w.posX, w.posY, p).1;
            && Executar(w, ups).Some?
            && var w' := Executar(w, ups).value;
            && w'.derrotas == w.derrotas + (if p != Pos(e.x, e.y) && p == Pos(w.posX, w.posY) then 1 else 0)
            && IgualExceto(w.mapa, w'.mapa, {Pos(e.x, e.y), p})
            && (p != Pos(e.x, e.y) ==>
                  && w'.mapa[p.y][p.x] == Inimigo
                  && w'.mapa[e.y][e.x] == ResolverBotao(w.mapa[p.y][p.x], w.botoes))
            && (p == Pos(e.x, e.y) ==> w' == w)
  {
    var ups := Passo(e, w.mapa, w.posX, w.posY, p).1;
    if p == Pos(e.x, e.y) {
      assert ups == [];
    } else {
      var u := MapaUpdate(UpInimigo, e.x, e.y, p.x, p.y, w.mapa[p.y][p.x]);
      if p == Pos(w.posX, w.posY) {
        var perdeu := MapaUpdate(UpPerdeu, 0, 0, 0, 0, Vazio);
        assert ups == [perdeu, u];
        var w1 := Aplicar(w, perdeu);
        AplicarPerdeu(w, perdeu);
        AplicarInimigo(w1, u);
        ExecutarDois(w, perdeu, u);
      } else {
        assert ups == [u];
        AplicarInimigo(w, u);
        ExecutarUm(w, u);
      }
    }
  }
}
