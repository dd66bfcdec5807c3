/** The records the game keeps besides the board, and the update messages of the map channel. */
module Entidades {
  import opened Elementos

  /** `BotaoStruct`: a button's cell and whether it is currently engaged. */
  datatype BotaoStruct = BotaoStruct(x: int, y: int, ligado: bool)

  /** `MoedaStruct` without its stop channel: where the coin currently is. */
  datatype MoedaStruct = MoedaStruct(x: int, y: int)

  /** The two values of an enemy's `estado` string, "Patrulha" and "Perseguicao". */
  datatype EstadoInimigo = Patrulha | Perseguicao

  /** `InimigoStruct` without its channels: position, covered cell, behaviour state. */
  datatype InimigoStruct = InimigoStruct(x: int, y: int, ultimoVisitado: Elemento, estado: EstadoInimigo)

  /** The five `tipo` strings the senders of the map channel use. */
  datatype TipoUpdate = UpPersonagem | UpMoeda | UpBotao | UpInimigo | UpPerdeu

  /** `MapaUpdate`: a proposed change to the board, applied by the coordinator. */
  datatype MapaUpdate = MapaUpdate(tipo: TipoUpdate, fx: int, fy: int, tx: int, ty: int, ultimoVisitado: Elemento)
}

/**
  The world as the coordinator sees it, and the effect of each update it
  applies, as functions of the state before. The class `Jogo` in module
  `JogoImpl` performs these effects in place and is proved to match them.
*/
module Regras {
  import opened Opcoes
  import opened Elementos
  import opened Mapas
  import opened Texto
  import opened Entidades

  /**
    The fields of `Jogo`, with the global `moedas` and `Inimigos` lists as
    fields, each enemy mailbox as a flag telling whether its single slot is
    full, and the win and loss hooks as counters of their calls.
  */
  datatype Mundo = Mundo(
    mapa: Grade,
    posX: int,
    posY: int,
    ultimoVisitado: Elemento,
    statusMsg: string,
    numMoedas: nat,
    botoes: seq<BotaoStruct>,
    moedas: seq<MoedaStruct>,
    inimigos: seq<InimigoStruct>,
    chInimigoBotao: seq<bool>,
    chInimigoMoeda: seq<bool>,
    vitorias: nat,
    derrotas: nat)

  /** The state `jogoNovo` returns. */
  const MundoNovo: Mundo := Mundo([], 0, 0, Vazio, "", 0, [], [], [], [], [], 0, 0)

  /** The cells of the button records, in list order. */
  function LugaresBotoes(bs: seq<BotaoStruct>): (ps: seq<Pos>)
    ensures |ps| == |bs| && forall k :: 0 <= k < |bs| ==> ps[k] == Pos(bs[k].x, bs[k].y)
  {
    seq(|bs|, k requires 0 <= k < |bs| => Pos(bs[k].x, bs[k].y))
  }

  /** The cells of the coin records, in list order. */
  function LugaresMoedas(ms: seq<MoedaStruct>): (ps: seq<Pos>)
    ensures |ps| == |ms| && forall k :: 0 <= k < |ms| ==> ps[k] == Pos(ms[k].x, ms[k].y)
  {
    seq(|ms|, k requires 0 <= k < |ms| => Pos(ms[k].x, ms[k].y))
  }

  /**
    The first record at cell `p`, as the `for ... break` searches over
    `botoes` and over `moedas` find it: `None` exactly when no record is there.
  */
  function Indice(ps: seq<Pos>, p: Pos): (r: Option<nat>)
    ensures r.Some? ==> r.value < |ps| && ps[r.value] == p
    ensures r.Some? ==> forall k :: 0 <= k < r.value ==> ps[k] != p
    ensures r.None? ==> forall k :: 0 <= k < |ps| ==> ps[k] != p
    decreases |ps|
  {
    if |ps| == 0 then None
    else if ps[0] == p then Some(0)
    else match Indice(ps[1..], p)
      case Some(i) => Some(i + 1)
      case None => None
  }

  /**
    The mailboxes after a non-blocking `true` is offered to each: an empty
    slot takes it, a full one drops it; either way every slot is full.
  */
  function Difundido(ch: seq<bool>): seq<bool> {
    seq(|ch|, _ => true)
  }

  /** The status line set on a pickup, "Moedas coletadas: N/5". */
  function MsgMoedas(n: nat): string {
    "Moedas coletadas: " + NatParaTexto(n) + "/5"
  }

  /** The glyph of a button in the given state. */
  function Glifo(ligado: bool): Elemento {
    if ligado then BotaoLigado else BotaoDesligado
  }

  /**
    A remembered button is re-read from the first button's current flag
    (every button toggles in lockstep). The source indexes `botoes[0]`, so
    it needs a button to exist whenever a button is remembered.
  */
  function ResolverBotao(uv: Elemento, bs: seq<BotaoStruct>): Elemento
    requires EhBotao(uv) ==> |bs| > 0
  {
    if EhBotao(uv) then Glifo(bs[0].ligado) else uv
  }

  /**
    A remembered coin whose record has moved away from `(x, y)` is stale and
    becomes empty; with no coin records at all it stays a coin.
  */
  function ResolverMoeda(uv: Elemento, ms: seq<MoedaStruct>, x: int, y: int): Elemento {
    if uv == Moeda && |ms| > 0 && Indice(LugaresMoedas(ms), Pos(x, y)).None? then Vazio else uv
  }

  /** What the move needs to be defined: both cells exist, and a remembered button has a button to read. */
  predicate PodeMover(w: Mundo, x: int, y: int, nx: int, ny: int) {
    NoMapa(w.mapa, x, y) && NoMapa(w.mapa, nx, ny) && (EhBotao(w.ultimoVisitado) ==> |w.botoes| > 0)
  }

  /** Stepping onto an engaged button offers a "stop chasing" signal to every enemy. */
  function Notificar(w: Mundo, nx: int, ny: int): (r: Mundo)
    ensures r == w.(chInimigoBotao := r.chInimigoBotao)
  {
    match Indice(LugaresBotoes(w.botoes), Pos(nx, ny))
    case Some(i) => if w.botoes[i].ligado then w.(chInimigoBotao := Difundido(w.chInimigoBotao)) else w
    case None => w
  }

  /** The destination holds a coin glyph and a coin record sits there. */
  predicate Coleta(w: Mundo, nx: int, ny: int)
    requires NoMapa(w.mapa, nx, ny)
  {
    w.mapa[ny][nx] == Moeda && Indice(LugaresMoedas(w.moedas), Pos(nx, ny)).Some?
  }

  /**
    Removing coin record `i`, found at `(nx, ny)`: the record leaves the
    list, the cell becomes empty, the count and status line advance, every
    enemy is offered "start chasing", and the win hook runs when the count
    reaches five.
  */
  function Recolher(w: Mundo, nx: int, ny: int, i: nat): (r: Mundo)
    requires NoMapa(w.mapa, nx, ny) && i < |w.moedas|
    ensures r.botoes == w.botoes && r.ultimoVisitado == w.ultimoVisitado && MesmaForma(w.mapa, r.mapa)
    ensures r.chInimigoBotao == w.chInimigoBotao && r.derrotas == w.derrotas
  {
    var n := w.numMoedas + 1;
    w.(moedas := w.moedas[..i] + w.moedas[i + 1..],
       mapa := Escrever(w.mapa, nx, ny, Vazio),
       numMoedas := n,
       statusMsg := MsgMoedas(n),
       chInimigoMoeda := Difundido(w.chInimigoMoeda),
       vitorias := Vitorias(w.vitorias, n))
  }

  /** The win hook runs when the count of collected coins reaches five. */
  function Vitorias(v: nat, n: nat): nat {
    if n == 5 then v + 1 else v
  }

  /** Coin pickup: only when the destination holds a coin glyph and a coin record sits there. */
  function Coletar(w: Mundo, nx: int, ny: int): (r: Mundo)
    requires NoMapa(w.mapa, nx, ny)
    ensures r.botoes == w.botoes && r.ultimoVisitado == w.ultimoVisitado && MesmaForma(w.mapa, r.mapa)
    ensures r.chInimigoBotao == w.chInimigoBotao && r.derrotas == w.derrotas
  {
    if w.mapa[ny][nx] != Moeda then w
    else match Indice(LugaresMoedas(w.moedas), Pos(nx, ny))
      case None => w
      case Some(i) => Recolher(w, nx, ny, i)
  }

  /** Stepping onto an enemy runs the loss hook; the move is not stopped. */
  function Colidir(w: Mundo, nx: int, ny: int): (r: Mundo)
    requires NoMapa(w.mapa, nx, ny)
    ensures r == w.(derrotas := r.derrotas)
  {
    if w.mapa[ny][nx] == Inimigo then w.(derrotas := w.derrotas + 1) else w
  }

  /**
    The three-cell rotation: the vacated cell gets the re-resolved memory,
    the memory takes the destination's content, and the destination gets
    what stood at the source. The writes happen in that order, so when
    source and destination coincide the second read sees the first write.
  */
  function Rotacionar(w: Mundo, x: int, y: int, nx: int, ny: int): Mundo
    requires PodeMover(w, x, y, nx, ny)
  {
    var elemento := w.mapa[y][x];
    var uv := ResolverMoeda(ResolverBotao(w.ultimoVisitado, w.botoes), w.moedas, x, y);
    var m1 := Escrever(w.mapa, x, y, uv);
    w.(mapa := Escrever(m1, nx, ny, elemento), ultimoVisitado := m1[ny][nx], posX := nx, posY := ny)
  }

  /** `jogoMoverPersonagem(jogo, x, y, dx, dy)`. */
  function Mover(w: Mundo, x: int, y: int, dx: int, dy: int): Mundo
    requires PodeMover(w, x, y, x + dx, y + dy)
  {
    var nx, ny := x + dx, y + dy;
    Rotacionar(Colidir(Coletar(Notificar(w, nx, ny), nx, ny), nx, ny), x, y, nx, ny)
  }

  /** Every button's cell exists. */
  predicate BotoesNoMapa(m: Grade, bs: seq<BotaoStruct>) {
    forall k :: 0 <= k < |bs| ==> NoMapa(m, bs[k].x, bs[k].y)
  }

  /** No two buttons share a cell. */
  predicate BotoesDistintos(bs: seq<BotaoStruct>) {
    forall i, j :: 0 <= i < j < |bs| ==> !(bs[i].x == bs[j].x && bs[i].y == bs[j].y)
  }

  /** The "Botao" case: each button's cell, in list order, gets the glyph of its flag. */
  function PintarBotoes(m: Grade, bs: seq<BotaoStruct>): (r: Grade)
    requires BotoesNoMapa(m, bs)
    ensures MesmaForma(m, r)
    decreases |bs|
  {
    if |bs| == 0 then m
    else
      var b := bs[|bs| - 1];
      Escrever(PintarBotoes(m, bs[..|bs| - 1]), b.x, b.y, Glifo(b.ligado))
  }

  /** The update can be applied without indexing outside the board or the button list. */
  predicate Aplicavel(w: Mundo, u: MapaUpdate) {
    match u.tipo
    case UpPersonagem => PodeMover(w, u.fx, u.fy, u.tx, u.ty)
    case UpMoeda => NoMapa(w.mapa, u.fx, u.fy) && NoMapa(w.mapa, u.tx, u.ty)
    case UpBotao => BotoesNoMapa(w.mapa, w.botoes)
    case UpInimigo =>
      NoMapa(w.mapa, u.fx, u.fy) && NoMapa(w.mapa, u.tx, u.ty) && (EhBotao(u.ultimoVisitado) ==> |w.botoes| > 0)
    case UpPerdeu => true
  }

  /** One `case` of the coordinator loop in `Jogo.Run`. */
  function Aplicar(w: Mundo, u: MapaUpdate): Mundo
    requires Aplicavel(w, u)
  {
    match u.tipo
    case UpPersonagem => Mover(w, u.fx, u.fy, u.tx - u.fx, u.ty - u.fy)
    case UpMoeda => w.(mapa := Escrever(Escrever(w.mapa, u.fx, u.fy, Vazio), u.tx, u.ty, Moeda))
    case UpBotao => w.(mapa := PintarBotoes(w.mapa, w.botoes))
    case UpInimigo =>
      var uv := ResolverBotao(u.ultimoVisitado, w.botoes);
      w.(mapa := Escrever(Escrever(w.mapa, u.fx, u.fy, uv), u.tx, u.ty, Inimigo))
    case UpPerdeu => w.(derrotas := w.derrotas + 1)
  }

  /**
    The coordinator applying a queue of updates one at a time; `None` when
    some update would index outside the board (a panic in the source).
  */
  function Executar(w: Mundo, ups: seq<MapaUpdate>): Option<Mundo>
    decreases |ups|
  {
    if |ups| == 0 then Some(w)
    else if !Aplicavel(w, ups[0]) then None
    else Executar(Aplicar(w, ups[0]), ups[1..])
  }

  lemma ExecutarUm(w: Mundo, u: MapaUpdate)
    requires Aplicavel(w, u)
    ensures Executar(w, [u]) == Some(Aplicar(w, u))
  {
    assert [u][1..] == [];
  }

  lemma ExecutarDois(w: Mundo, u: MapaUpdate, v: MapaUpdate)
    requires Aplicavel(w, u) && Aplicavel(Aplicar(w, u), v)
    ensures Executar(w, [u, v]) == Some(Aplicar(Aplicar(w, u), v))
  {
    assert [u, v][1..] == [v];
    ExecutarUm(Aplicar(w, u), v);
  }

  /** The records `BotaoController` creates for the scanned positions: disengaged buttons. */
  function BotoesIniciais(ps: seq<Pos>): seq<BotaoStruct> {
    seq(|ps|, k requires 0 <= k < |ps| => BotaoStruct(ps[k].x, ps[k].y, false))
  }

  /** The records `MoedaController` creates for the scanned positions. */
  function MoedasIniciais(ps: seq<Pos>): seq<MoedaStruct> {
    seq(|ps|, k requires 0 <= k < |ps| => MoedaStruct(ps[k].x, ps[k].y))
  }

  /** The records `InimigoController` creates: patrolling, covering an empty cell. */
  function InimigosIniciais(ps: seq<Pos>): seq<InimigoStruct> {
    seq(|ps|, k requires 0 <= k < |ps| => InimigoStruct(ps[k].x, ps[k].y, Vazio, Patrulha))
  }

  /** One empty single-slot mailbox per enemy. */
  function CaixasVazias(n: nat): seq<bool> {
    seq(n, _ => false)
  }

  /**
    The buttons the setup scan creates are exactly the disengaged-button
    cells of the board, each once, all disengaged: so every later repaint
    shows each button's flag at its own cell.
  */
  lemma BotoesDaVarredura(m: Grade)
    ensures var bs := BotoesIniciais(Posicoes(m, BotaoDesligado));
            && BotoesNoMapa(m, bs)
            && BotoesDistintos(bs)
            && (forall k :: 0 <= k < |bs| ==> !bs[k].ligado && m[bs[k].y][bs[k].x] == BotaoDesligado)
            && (forall y, x :: NoMapa(m, x, y) && m[y][x] == BotaoDesligado ==> Indice(LugaresBotoes(bs), Pos(x, y)).Some?)
  {
    var ps := Posicoes(m, BotaoDesligado);
    var bs := BotoesIniciais(ps);
    PosicoesOrdenadas(m, BotaoDesligado);
    forall y, x | NoMapa(m, x, y) && m[y][x] == BotaoDesligado
      ensures Indice(LugaresBotoes(bs), Pos(x, y)).Some?
    {
      PosicoesCompleta(m, BotaoDesligado, Pos(x, y));
      var k :| 0 <= k < |ps| && ps[k] == Pos(x, y);
      assert bs[k].x == x && bs[k].y == y;
    }
  }

  /** `ServiceBotoes`: every button's flag flips. */
  function Alternados(bs: seq<BotaoStruct>): seq<BotaoStruct> {
    seq(|bs|, k requires 0 <= k < |bs| => bs[k].(ligado := !bs[k].ligado))
  }

  /**
    One wake-up of `ServiceMoeda` for coin `k`, with the random cell
    `(num2, num1)` as a parameter: when that cell is empty the coin proposes
    a relocation and records its new position; otherwise nothing happens.
  */
  function RelocacaoMoeda(w: Mundo, k: nat, num1: int, num2: int): (Mundo, seq<MapaUpdate>)
    requires k < |w.moedas| && NoMapa(w.mapa, num2, num1)
  {
    if w.mapa[num1][num2] == Vazio then
      var m := w.moedas[k];
      (w.(moedas := w.moedas[k := MoedaStruct(num2, num1)]), [MapaUpdate(UpMoeda, m.x, m.y, num2, num1, Vazio)])
    else (w, [])
  }

  // ---------------------------------------------------------------------
  // Properties of the character move
  // ---------------------------------------------------------------------

  /**
    Re-resolution of the remembered cell: a button follows the first
    button's current flag; a coin becomes empty exactly when the list is
    non-empty and holds no record at the vacated cell; anything else is kept.
  */
  lemma Reresolucao(uv: Elemento, bs: seq<BotaoStruct>, ms: seq<MoedaStruct>, x: int, y: int)
    requires EhBotao(uv) ==> |bs| > 0
    ensures var r := ResolverMoeda(ResolverBotao(uv, bs), ms, x, y);
            && (EhBotao(uv) ==> r == (if bs[0].ligado then BotaoLigado else BotaoDesligado))
            && (uv == Moeda ==> (r == Vazio <==> |ms| > 0 && forall k :: 0 <= k < |ms| ==> !(ms[k].x == x && ms[k].y == y)))
            && (uv == Moeda ==> r == Vazio || r == Moeda)
            && (!EhBotao(uv) && uv != Moeda ==> r == uv)
  {
  }

  /**
    The rotation: apart from the two cells involved, the board is untouched;
    the destination receives what stood at the source, the source receives
    the re-resolved memory (re-resolved against the coin list after any
    pickup), the memory becomes what the destination held (empty after a
    pickup), and the character's position becomes the destination.
  */
  lemma {:induction false} MoverRotacao(w: Mundo, x: int, y: int, dx: int, dy: int)
    requires PodeMover(w, x, y, x + dx, y + dy)
    requires dx != 0 || dy != 0
    ensures var w' := Mover(w, x, y, dx, dy);
            var nx, ny := x + dx, y + dy;
            && IgualExceto(w.mapa, w'.mapa, {Pos(x, y), Pos(nx, ny)})
            && w'.mapa[ny][nx] == w.mapa[y][x]
            && w'.mapa[y][x] == ResolverMoeda(ResolverBotao(w.ultimoVisitado, w.botoes), w'.moedas, x, y)
            && w'.ultimoVisitado == (if Coleta(w, nx, ny) then Vazio else w.mapa[ny][nx])
            && w'.posX == nx && w'.posY == ny
            && w'.botoes == w.botoes && w'.inimigos == w.inimigos
  {
    var nx, ny := x + dx, y + dy;
    var w1 := Notificar(w, nx, ny);
    var w2 := Coletar(w1, nx, ny);
    var w3 := Colidir(w2, nx, ny);
    assert IgualExceto(w.mapa, w3.mapa, {Pos(nx, ny)});
    assert w3.mapa[ny][nx] == (if Coleta(w, nx, ny) then Vazio else w.mapa[ny][nx]);
    assert w3.mapa[y][x] == w.mapa[y][x];
    var uv := ResolverMoeda(ResolverBotao(w3.ultimoVisitado, w3.botoes), w3.moedas, x, y);
    var m1 := Escrever(w3.mapa, x, y, uv);
    assert m1[ny][nx] == w3.mapa[ny][nx];
  }

  /**
    Coin pickup happens exactly when the destination shows a coin and a
    record sits there: that record (the first one there) leaves the list and
    the others keep their order, the count grows by one, the status line
    reports it, every enemy is offered "start chasing", and the win hook
    runs exactly when the new count is five. Without a pickup none of these
    change.
  */
  lemma MoverColeta(w: Mundo, x: int, y: int, dx: int, dy: int)
    requires PodeMover(w, x, y, x + dx, y + dy)
    ensures var w' := Mover(w, x, y, dx, dy);
            var nx, ny := x + dx, y + dy;
            if Coleta(w, nx, ny) then
              var i := Indice(LugaresMoedas(w.moedas), Pos(nx, ny)).value;
              && w'.moedas == w.moedas[..i] + w.moedas[i + 1..]
              && w'.numMoedas == w.numMoedas + 1
              && w'.statusMsg == MsgMoedas(w.numMoedas + 1)
              && w'.chInimigoMoeda == Difundido(w.chInimigoMoeda)
              && w'.vitorias == w.vitorias + (if w.numMoedas + 1 == 5 then 1 else 0)
            else
              && w'.moedas == w.moedas
              && w'.numMoedas == w.numMoedas
              && w'.statusMsg == w.statusMsg
              && w'.chInimigoMoeda == w.chInimigoMoeda
              && w'.vitorias == w.vitorias
  {
  }

  /**
    The "stop chasing" broadcast goes out exactly when the first button
    recorded at the destination is engaged; the loss hook runs exactly when
    the destination holds an enemy.
  */
  lemma MoverSinais(w: Mundo, x: int, y: int, dx: int, dy: int)
    requires PodeMover(w, x, y, x + dx, y + dy)
    ensures var w' := Mover(w, x, y, dx, dy);
            var nx, ny := x + dx, y + dy;
            && w'.chInimigoBotao ==
                 (match Indice(LugaresBotoes(w.botoes), Pos(nx, ny))
                  case Some(i) => if w.botoes[i].ligado then Difundido(w.chInimigoBotao) else w.chInimigoBotao
                  case None => w.chInimigoBotao)
            && w'.derrotas == w.derrotas + (if w.mapa[ny][nx] == Inimigo then 1 else 0)
  {
  }

  // ---------------------------------------------------------------------
  // Properties of the coordinator updates
  // ---------------------------------------------------------------------

  /** A coin relocation empties the old cell and shows the coin at the new one; nothing else changes. */
  lemma AplicarMoeda(w: Mundo, u: MapaUpdate)
    requires u.tipo == UpMoeda && Aplicavel(w, u)
    ensures var w' := Aplicar(w, u);
            && w' == w.(mapa := w'.mapa)
            && IgualExceto(w.mapa, w'.mapa, {Pos(u.fx, u.fy), Pos(u.tx, u.ty)})
            && w'.mapa[u.ty][u.tx] == Moeda
            && (Pos(u.fx, u.fy) != Pos(u.tx, u.ty) ==> w'.mapa[u.fy][u.fx] == Vazio)
  {
  }

  /**
    An enemy update writes the carried cell, re-resolved if it is a button,
    at the source and an enemy at the destination; nothing else changes.
  */
  lemma AplicarInimigo(w: Mundo, u: MapaUpdate)
    requires u.tipo == UpInimigo && Aplicavel(w, u)
    ensures var w' := Aplicar(w, u);
            && w' == w.(mapa := w'.mapa)
            && IgualExceto(w.mapa, w'.mapa, {Pos(u.fx, u.fy), Pos(u.tx, u.ty)})
            && w'.mapa[u.ty][u.tx] == Inimigo
            && (Pos(u.fx, u.fy) != Pos(u.tx, u.ty) ==>
                  w'.mapa[u.fy][u.fx] == (if EhBotao(u.ultimoVisitado) then Glifo(w.botoes[0].ligado) else u.ultimoVisitado))
  {
  }

  /** A loss update writes no cell: it only runs the loss hook. */
  lemma AplicarPerdeu(w: Mundo, u: MapaUpdate)
    requires u.tipo == UpPerdeu
    ensures Aplicar(w, u) == w.(derrotas := w.derrotas + 1)
  {
  }

  /** No button of `bs` is recorded at `(x, y)`. */
  predicate ForaDosBotoes(bs: seq<BotaoStruct>, x: int, y: int) {
    forall k :: 0 <= k < |bs| ==> !(bs[k].x == x && bs[k].y == y)
  }

  /**
    Repainting the buttons (at distinct cells) shows each button's current
    flag at its cell and leaves every other cell as it was.
  */
  lemma {:induction false} PintarBotoesEfeito(m: Grade, bs: seq<BotaoStruct>)
    requires BotoesNoMapa(m, bs) && BotoesDistintos(bs)
    ensures MesmaForma(m, PintarBotoes(m, bs))
    ensures forall y, x :: NoMapa(m, x, y) && ForaDosBotoes(bs, x, y) ==> PintarBotoes(m, bs)[y][x] == m[y][x]
    ensures forall k :: 0 <= k < |bs| ==> PintarBotoes(m, bs)[bs[k].y][bs[k].x] == Glifo(bs[k].ligado)
    decreases |bs|
  {
    if |bs| > 0 {
      var n := |bs| - 1;
      var b, ini := bs[n], bs[..n];
      assert forall k :: 0 <= k < n ==> ini[k] == bs[k];
      PintarBotoesEfeito(m, ini);
      var r0 := PintarBotoes(m, ini);
      var r := PintarBotoes(m, bs);
      assert r == Escrever(r0, b.x, b.y, Glifo(b.ligado));
      forall y, x | NoMapa(m, x, y) && ForaDosBotoes(bs, x, y)
        ensures r[y][x] == m[y][x]
      {
        assert ForaDosBotoes(ini, x, y);
        assert Pos(x, y) != Pos(b.x, b.y);
      }
      forall k | 0 <= k < |bs|
        ensures r[bs[k].y][bs[k].x] == Glifo(bs[k].ligado)
      {
        if k < n {
          assert Pos(bs[k].x, bs[k].y) != Pos(b.x, b.y);
          assert r0[ini[k].y][ini[k].x] == Glifo(ini[k].ligado);
        }
      }
    }
  }

  /** Toggling twice restores every flag; positions never move. */
  lemma AlternadosInvolucao(bs: seq<BotaoStruct>)
    ensures |Alternados(bs)| == |bs|
    ensures forall k :: 0 <= k < |bs| ==>
              Alternados(bs)[k].x == bs[k].x && Alternados(bs)[k].y == bs[k].y &&
              Alternados(bs)[k].ligado == !bs[k].ligado
    ensures Alternados(Alternados(bs)) == bs
  {
  }

  /**
    A toggle followed by the repaint it proposes: with buttons at distinct
    cells of the board, every button's cell shows the opposite of the flag it
    had before, and no other cell changes.
  */
  lemma AlternarEPintar(w: Mundo)
    requires BotoesNoMapa(w.mapa, w.botoes) && BotoesDistintos(w.botoes)
    ensures var w1 := w.(botoes := Alternados(w.botoes));
            var u := MapaUpdate(UpBotao, 0, 0, 0, 0, Vazio);
            && Executar(w1, [u]).Some?
            && var w' := Executar(w1, [u]).value;
            && w' == w1.(mapa := w'.mapa)
            && MesmaForma(w.mapa, w'.mapa)
            && (forall y, x :: NoMapa(w.mapa, x, y) && ForaDosBotoes(w.botoes, x, y) ==> w'.mapa[y][x] == w.mapa[y][x])
            && forall k :: 0 <= k < |w.botoes| ==> w'.mapa[w.botoes[k].y][w.botoes[k].x] == Glifo(!w.botoes[k].ligado)
  {
    var bs := Alternados(w.botoes);
    var w1 := w.(botoes := bs);
    var u := MapaUpdate(UpBotao, 0, 0, 0, 0, Vazio);
    AlternadosInvolucao(w.botoes);
    assert Aplicavel(w1, u);
    ExecutarUm(w1, u);
    PintarBotoesEfeito(w.mapa, bs);
    forall y, x | NoMapa(w.mapa, x, y) && ForaDosBotoes(w.botoes, x, y)
      ensures ForaDosBotoes(bs, x, y)
    {
    }
  }

  /**
    A coin relocation, then its update applied by the coordinator: when the
    drawn cell is empty the record points at it, the board shows the coin
    there and an empty cell where the coin was, and nothing else changes;
    otherwise there is no update and no change.
  */
  lemma RelocacaoAplicada(w: Mundo, k: nat, num1: int, num2: int)
    requires k < |w.moedas| && NoMapa(w.mapa, num2, num1)
    requires NoMapa(w.mapa, w.moedas[k].x, w.moedas[k].y)
    ensures var (w1, ups) := RelocacaoMoeda(w, k, num1, num2);
            && Executar(w1, ups).Some?
            && var w' := Executar(w1, ups).value;
            if w.mapa[num1][num2] == Vazio then
              var m := w.moedas[k];
              && w'.moedas == w.moedas[k := MoedaStruct(num2, num1)]
              && IgualExceto(w.mapa, w'.mapa, {Pos(m.x, m.y), Pos(num2, num1)})
              && NoMapa(w'.mapa, num2, num1) && NoMapa(w'.mapa, m.x, m.y)
              && w'.mapa[num1][num2] == Moeda
              && (Pos(m.x, m.y) != Pos(num2, num1) ==> w'.mapa[m.y][m.x] == Vazio)
              && w' == w.(moedas := w'.moedas, mapa := w'.mapa)
            else ups == [] && w' == w
  {
    var (w1, ups) := RelocacaoMoeda(w, k, num1, num2);
    if w.mapa[num1][num2] == Vazio {
      var u := ups[0];
      assert ups == [u];
      AplicarMoeda(w1, u);
      ExecutarUm(w1, u);
    }
  }

  /**
    The count of collected coins never decreases and grows by at most one
    per update, and the win hook runs once exactly when the count crosses
    from below five to five.
  */
  lemma AplicarContagem(w: Mundo, u: MapaUpdate)
    requires Aplicavel(w, u)
    ensures var w' := Aplicar(w, u);
            && (w'.numMoedas == w.numMoedas || w'.numMoedas == w.numMoedas + 1)
            && w'.vitorias == w.vitorias + (if w.numMoedas < 5 <= w'.numMoedas then 1 else 0)
  {
    if u.tipo == UpPersonagem {
      MoverColeta(w, u.fx, u.fy, u.tx - u.fx, u.ty - u.fy);
    }
  }

  /**
    Over any queue of updates the coordinator applies, the coin count never
    decreases and the win hook runs at most once: exactly once if the count
    went from below five to five or more, never otherwise.
  */
  lemma {:induction false} VitoriaUmaVez(w: Mundo, ups: seq<MapaUpdate>)
    requires Executar(w, ups).Some?
    ensures var w' := Executar(w, ups).value;
            && w'.numMoedas >= w.numMoedas
            && w'.vitorias == w.vitorias + (if w.numMoedas < 5 <= w'.numMoedas then 1 else 0)
    decreases |ups|
  {
    if |ups| > 0 {
      AplicarContagem(w, ups[0]);
      VitoriaUmaVez(Aplicar(w, ups[0]), ups[1..]);
    }
  }

  /** Every update keeps the board's shape: rows and their lengths never change. */
  lemma AplicarForma(w: Mundo, u: MapaUpdate)
    requires Aplicavel(w, u)
    ensures MesmaForma(w.mapa, Aplicar(w, u).mapa)
  {
  }

  /** The update neither overwrites a wall nor carries one. */
  predicate SemParede(w: Mundo, u: MapaUpdate)
    requires Aplicavel(w, u)
  {
    match u.tipo
    case UpPersonagem =>
      w.mapa[u.fy][u.fx] != Parede && w.mapa[u.ty][u.tx] != Parede
    case UpMoeda => w.mapa[u.fy][u.fx] != Parede && w.mapa[u.ty][u.tx] != Parede
    case UpBotao => forall k :: 0 <= k < |w.botoes| ==> w.mapa[w.botoes[k].y][w.botoes[k].x] != Parede
    case UpInimigo =>
      w.mapa[u.fy][u.fx] != Parede && w.mapa[u.ty][u.tx] != Parede && u.ultimoVisitado != Parede
    case UpPerdeu => true
  }

  predicate MesmasParedes(a: Grade, b: Grade) {
    MesmaForma(a, b) && forall y, x :: 0 <= y < |a| && 0 <= x < |a[y]| ==> (a[y][x] == Parede <==> b[y][x] == Parede)
  }

  lemma {:induction false} PintarBotoesSemParede(m: Grade, bs: seq<BotaoStruct>)
    requires BotoesNoMapa(m, bs)
    requires forall k :: 0 <= k < |bs| ==> m[bs[k].y][bs[k].x] != Parede
    ensures MesmasParedes(m, PintarBotoes(m, bs))
    decreases |bs|
  {
    if |bs| > 0 {
      var n := |bs| - 1;
      assert forall k :: 0 <= k < n ==> bs[..n][k] == bs[k];
      PintarBotoesSemParede(m, bs[..n]);
    }
  }

  /** Two boards that differ only at cells holding no wall on either side have the same walls. */
  lemma MesmasParedesExceto(a: Grade, b: Grade, ps: set<Pos>)
    requires IgualExceto(a, b, ps)
    requires forall p :: p in ps && NoMapa(a, p.x, p.y) ==> a[p.y][p.x] != Parede && b[p.y][p.x] != Parede
    ensures MesmasParedes(a, b)
  {
    forall y, x | 0 <= y < |a| && 0 <= x < |a[y]|
      ensures a[y][x] == Parede <==> b[y][x] == Parede
    {
      if Pos(x, y) in ps {
        assert NoMapa(a, Pos(x, y).x, Pos(x, y).y);
      }
    }
  }

  lemma ParedesDuasCelulas(m: Grade, x1: int, y1: int, e1: Elemento, x2: int, y2: int, e2: Elemento)
    requires NoMapa(m, x1, y1) && NoMapa(m, x2, y2)
    requires m[y1][x1] != Parede && m[y2][x2] != Parede && e1 != Parede && e2 != Parede
    ensures MesmasParedes(m, Escrever(Escrever(m, x1, y1, e1), x2, y2, e2))
  {
    MesmasParedesExceto(m, Escrever(Escrever(m, x1, y1, e1), x2, y2, e2), {Pos(x1, y1), Pos(x2, y2)});
  }

  lemma MesmasParedesTransitiva(a: Grade, b: Grade, c: Grade)
    requires MesmasParedes(a, b) && MesmasParedes(b, c)
    ensures MesmasParedes(a, c)
  {
  }

  /** The pickup writes only the destination cell, and only an empty cell. */
  lemma ColetarMapa(w: Mundo, nx: int, ny: int)
    requires NoMapa(w.mapa, nx, ny)
    ensures var r := Coletar(w, nx, ny);
            IgualExceto(w.mapa, r.mapa, {Pos(nx, ny)}) && (r.mapa[ny][nx] == w.mapa[ny][nx] || r.mapa[ny][nx] == Vazio)
  {
  }

  lemma ParedesMover(w: Mundo, x: int, y: int, nx: int, ny: int)
    requires PodeMover(w, x, y, nx, ny)
    requires w.mapa[y][x] != Parede && w.mapa[ny][nx] != Parede && w.ultimoVisitado != Parede
    ensures MesmasParedes(w.mapa, Mover(w, x, y, nx - x, ny - y).mapa)
    ensures Mover(w, x, y, nx - x, ny - y).ultimoVisitado != Parede
  {
    var w3 := Colidir(Coletar(Notificar(w, nx, ny), nx, ny), nx, ny);
    ParedesEtapas(w, x, y, nx, ny);
    ParedesRotacao(w3, x, y, nx, ny);
    assert Mover(w, x, y, nx - x, ny - y) == Rotacionar(w3, x, y, nx, ny);
    MesmasParedesTransitiva(w.mapa, w3.mapa, Rotacionar(w3, x, y, nx, ny).mapa);
  }

  /** The button, coin and enemy checks of the move keep the walls and touch only the destination. */
  lemma ParedesEtapas(w: Mundo, x: int, y: int, nx: int, ny: int)
    requires PodeMover(w, x, y, nx, ny)
    requires w.mapa[y][x] != Parede && w.mapa[ny][nx] != Parede && w.ultimoVisitado != Parede
    ensures var w3 := Colidir(Coletar(Notificar(w, nx, ny), nx, ny), nx, ny);
            && PodeMover(w3, x, y, nx, ny)
            && MesmasParedes(w.mapa, w3.mapa)
            && w3.mapa[y][x] != Parede && w3.mapa[ny][nx] != Parede && w3.ultimoVisitado != Parede
  {
    var w1 := Notificar(w, nx, ny);
    var w2 := Coletar(w1, nx, ny);
    ColetarMapa(w1, nx, ny);
    MesmasParedesExceto(w.mapa, w2.mapa, {Pos(nx, ny)});
  }

  /** The three-cell rotation writes no wall when neither cell nor the memory is one. */
  lemma ParedesRotacao(w: Mundo, x: int, y: int, nx: int, ny: int)
    requires PodeMover(w, x, y, nx, ny)
    requires w.mapa[y][x] != Parede && w.mapa[ny][nx] != Parede && w.ultimoVisitado != Parede
    ensures MesmasParedes(w.mapa, Rotacionar(w, x, y, nx, ny).mapa)
    ensures Rotacionar(w, x, y, nx, ny).ultimoVisitado != Parede
  {
    var uv := ResolverMoeda(ResolverBotao(w.ultimoVisitado, w.botoes), w.moedas, x, y);
    ParedesDuasCelulas(w.mapa, x, y, uv, nx, ny, w.mapa[y][x]);
  }

  lemma ParedesPersonagem(w: Mundo, fx: int, fy: int, tx: int, ty: int, uv: Elemento)
    requires PodeMover(w, fx, fy, tx, ty)
    requires w.mapa[fy][fx] != Parede && w.mapa[ty][tx] != Parede && w.ultimoVisitado != Parede
    ensures var u := MapaUpdate(UpPersonagem, fx, fy, tx, ty, uv);
            MesmasParedes(w.mapa, Aplicar(w, u).mapa) && Aplicar(w, u).ultimoVisitado != Parede
  {
    ParedesMover(w, fx, fy, tx, ty);
    AplicarMover(w, fx, fy, tx, ty, uv);
  }

  /** The character update replays `jogoMoverPersonagem` with the offsets it carries. */
  lemma AplicarMover(w: Mundo, fx: int, fy: int, tx: int, ty: int, uv: Elemento)
    requires PodeMover(w, fx, fy, tx, ty)
    ensures Aplicar(w, MapaUpdate(UpPersonagem, fx, fy, tx, ty, uv)) == Mover(w, fx, fy, tx - fx, ty - fy)
  {
  }

  lemma ParedesMoedaInimigo(w: Mundo, u: MapaUpdate)
    requires (u.tipo == UpMoeda || u.tipo == UpInimigo) && Aplicavel(w, u) && SemParede(w, u)
    ensures MesmasParedes(w.mapa, Aplicar(w, u).mapa)
    ensures Aplicar(w, u).ultimoVisitado == w.ultimoVisitado
  {
    if u.tipo == UpMoeda {
      ParedesDuasCelulas(w.mapa, u.fx, u.fy, Vazio, u.tx, u.ty, Moeda);
    } else {
      ParedesDuasCelulas(w.mapa, u.fx, u.fy, ResolverBotao(u.ultimoVisitado, w.botoes), u.tx, u.ty, Inimigo);
    }
  }

  /**
    Walls stay where they are: an update that neither targets a wall nor
    carries one leaves every wall in place and creates none, and a
    character memory that is not a wall never becomes one.
  */
  lemma ParedesPreservadas(w: Mundo, u: MapaUpdate)
    requires Aplicavel(w, u) && SemParede(w, u) && w.ultimoVisitado != Parede
    ensures MesmasParedes(w.mapa, Aplicar(w, u).mapa)
    ensures Aplicar(w, u).ultimoVisitado != Parede
  {
    match u.tipo
    case UpPersonagem =>
      ParedesPersonagem(w, u.fx, u.fy, u.tx, u.ty, u.ultimoVisitado);
    case UpMoeda =>
      ParedesMoedaInimigo(w, u);
    case UpInimigo =>
      ParedesMoedaInimigo(w, u);
    case UpBotao =>
      PintarBotoesSemParede(w.mapa, w.botoes);
    case UpPerdeu =>
  }
}
