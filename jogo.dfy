/**
  The game state `Jogo` updated in place, as the coordinator and the agents
  do it step by step. Each method is proved to produce the state the
  matching function of module `Regras` (or `Inimigos`, `Carga`) describes.
*/
module JogoImpl {
  import opened Opcoes
  import opened Elementos
  import opened Mapas
  import opened Entidades
  import Regras
  import Carga
  import Inimigos

  /**
    The `for ... range` search with `break` over the records' cells, as the
    move runs it over `botoes` and over `moedas`: the first index at `p`.
  */
  method Localizar(ps: seq<Pos>, p: Pos) returns (r: Option<nat>)
    ensures r == Regras.Indice(ps, p)
  {
    var i := 0;
    while i < |ps|
      invariant 0 <= i <= |ps|
      invariant forall k :: 0 <= k < i ==> ps[k] != p
    {
      if ps[i] == p {
        return Some(i);
      }
      i := i + 1;
    }
    return None;
  }

  /**
    The stale-coin loop: counts the records before the first one at
    `(x, y)` and reports "stale" when the count reaches the list's length.
    Stale exactly when the list is non-empty and no record is at `(x, y)`.
  */
  method MoedaObsoleta(ms: seq<MoedaStruct>, x: int, y: int) returns (obsoleta: bool)
    ensures obsoleta <==> |ms| > 0 && forall k :: 0 <= k < |ms| ==> !(ms[k].x == x && ms[k].y == y)
  {
    obsoleta := false;
    var num := 0;
    var i := 0;
    while i < |ms|
      invariant 0 <= i <= |ms| && num == i
      invariant forall k :: 0 <= k < i ==> !(ms[k].x == x && ms[k].y == y)
      invariant obsoleta <==> 0 < i == |ms|
    {
      if ms[i].x == x && ms[i].y == y {
        break;
      }
      num := num + 1;
      if num == |ms| {
        obsoleta := true;
      }
      i := i + 1;
    }
  }

  /**
    The broadcast loop: a non-blocking `select { case ch <- true: default: }`
    on each single-slot mailbox; an empty slot takes the value, a full one
    drops it.
  */
  method Difundir(ch: seq<bool>) returns (r: seq<bool>)
    ensures |r| == |ch| && forall k :: 0 <= k < |r| ==> r[k]
    ensures r == Regras.Difundido(ch)
  {
    r := ch;
    var i := 0;
    while i < |r|
      invariant 0 <= i <= |r| == |ch|
      invariant forall k :: 0 <= k < i ==> r[k]
    {
      if !r[i] {
        r := r[i := true];
      }
      i := i + 1;
    }
  }

  /**
    The inner loop of `jogoCarregarMapa` over one line: a cell per rune, and
    the byte offset of the last ☺ (the column the loader stores), if any.
  */
  method CarregarLinha(linha: string) returns (celulas: seq<Elemento>, spawn: Option<nat>)
    ensures celulas == Carga.Linha(linha)
    ensures match Carga.UltimoIndice(linha, Carga.RunaSpawn)
            case Some(j) => spawn == Some(Carga.Deslocamento(linha, j))
            case None => spawn == None
  {
    celulas, spawn := [], None;
    var i, x := 0, 0;
    while i < |linha|
      invariant 0 <= i <= |linha|
      invariant x == Carga.Deslocamento(linha, i)
      invariant |celulas| == i && forall k :: 0 <= k < i ==> celulas[k] == DoSimbolo(linha[k])
      invariant match Carga.UltimoIndice(linha[..i], Carga.RunaSpawn)
                case Some(j) => spawn == Some(Carga.Deslocamento(linha, j))
                case None => spawn == None
    {
      var ch := linha[i];
      assert linha[..i + 1][..i] == linha[..i];
      if ch == Carga.RunaSpawn {
        spawn := Some(x);
      }
      celulas := celulas + [DoSimbolo(ch)];
      x := x + Carga.Utf8Len(ch);
      i := i + 1;
    }
    assert linha[..i] == linha;
  }

  class Jogo {
    var mapa: Grade
    var posX: int
    var posY: int
    var ultimoVisitado: Elemento
    var statusMsg: string
    var numMoedas: nat
    var botoes: seq<BotaoStruct>
    /** The global `moedas` list. */
    var moedas: seq<MoedaStruct>
    /** The global `Inimigos` list. */
    var inimigos: seq<InimigoStruct>
    /** `chInimigoBotao[k]`: whether enemy k's button mailbox holds a value. */
    var chInimigoBotao: seq<bool>
    /** `chInimigoMoeda[k]`: whether enemy k's coin mailbox holds a value. */
    var chInimigoMoeda: seq<bool>
    /** Calls of the win hook `interfaceGanhou`. */
    var vitorias: nat
    /** Calls of the loss hook `interfacePerdeu`. */
    var derrotas: nat

    function Estado(): Regras.Mundo
      reads this
    {
      Regras.Mundo(mapa, posX, posY, ultimoVisitado, statusMsg, numMoedas, botoes, moedas,
                   inimigos, chInimigoBotao, chInimigoMoeda, vitorias, derrotas)
    }

    /** `jogoNovo`: an empty board, the memory set to an empty cell, no coins collected. */
    constructor ()
      ensures Estado() == Regras.MundoNovo
    {
      mapa, posX, posY, ultimoVisitado, statusMsg, numMoedas := [], 0, 0, Vazio, "", 0;
      botoes, moedas, inimigos, chInimigoBotao, chInimigoMoeda := [], [], [], [], [];
      vitorias, derrotas := 0, 0;
    }

    /**
      `jogoCarregarMapa` after the file is opened: appends one row per line
      and records the position of the last ☺ (column = byte offset of the
      rune, row = line index).
    */
    method CarregarMapa(linhas: seq<string>)
      modifies this
      ensures mapa == old(mapa) + Carga.Linhas(linhas)
      ensures match Carga.Spawn(linhas)
              case Some(p) => posX == p.x && posY == p.y
              case None => posX == old(posX) && posY == old(posY)
      ensures Estado() == old(Estado()).(mapa := mapa, posX := posX, posY := posY)
    {
      var y := 0;
      while y < |linhas|
        invariant 0 <= y <= |linhas|
        invariant mapa == old(mapa) + Carga.Linhas(linhas[..y])
        invariant match Carga.Spawn(linhas[..y])
                  case Some(p) => posX == p.x && posY == p.y
                  case None => posX == old(posX) && posY == old(posY)
        invariant Estado() == old(Estado()).(mapa := mapa, posX := posX, posY := posY)
      {
        var linhaElems, spawn := CarregarLinha(linhas[y]);
        if spawn.Some? {
          posX, posY := spawn.value, y;
        }
        mapa := mapa + [linhaElems];
        assert linhas[..y + 1][..y] == linhas[..y];
        assert Carga.Linhas(linhas[..y + 1]) == Carga.Linhas(linhas[..y]) + [Carga.Linha(linhas[y])];
        y := y + 1;
      }
      assert linhas[..y] == linhas;
    }

    /** `BotaoController`'s scan: a disengaged button record per ○ cell, in row-major order. */
    method BotaoController()
      modifies this
      ensures Estado() == old(Estado()).(botoes := old(botoes) + Regras.BotoesIniciais(Posicoes(old(mapa), BotaoDesligado)))
    {
      var ps := Varrer(mapa, BotaoDesligado);
      botoes := botoes + Regras.BotoesIniciais(ps);
    }

    /** `MoedaController`'s scan: a coin record per $ cell, in row-major order. */
    method MoedaController()
      modifies this
      ensures Estado() == old(Estado()).(moedas := old(moedas) + Regras.MoedasIniciais(Posicoes(old(mapa), Moeda)))
    {
      var ps := Varrer(mapa, Moeda);
      moedas := moedas + Regras.MoedasIniciais(ps);
    }

    /**
      `InimigoController`'s scan: a patrolling enemy covering an empty cell
      per ☠ cell, in row-major order, each with two empty mailboxes.
    */
    method InimigoController()
      modifies this
      ensures var ps := Posicoes(old(mapa), Inimigo);
              Estado() == old(Estado()).(inimigos := old(inimigos) + Regras.InimigosIniciais(ps),
                                         chInimigoBotao := old(chInimigoBotao) + Regras.CaixasVazias(|ps|),
                                         chInimigoMoeda := old(chInimigoMoeda) + Regras.CaixasVazias(|ps|))
    {
      var ps := Varrer(mapa, Inimigo);
      inimigos := inimigos + Regras.InimigosIniciais(ps);
      chInimigoBotao := chInimigoBotao + Regras.CaixasVazias(|ps|);
      chInimigoMoeda := chInimigoMoeda + Regras.CaixasVazias(|ps|);
    }

    /** `jogoMoverPersonagem(jogo, x, y, dx, dy)`. */
    method MoverPersonagem(x: int, y: int, dx: int, dy: int)
      requires Regras.PodeMover(Estado(), x, y, x + dx, y + dy)
      modifies this
      ensures Estado() == Regras.Mover(old(Estado()), x, y, dx, dy)
    {
      var nx, ny := x + dx, y + dy;
      NotificarBotao(nx, ny);
      ColetarMoeda(nx, ny);
      ColidirInimigo(nx, ny);
      Rotacionar(x, y, nx, ny);
    }

    /** The button check of the move: an engaged button at the destination is broadcast. */
    method NotificarBotao(nx: int, ny: int)
      modifies this
      ensures Estado() == Regras.Notificar(old(Estado()), nx, ny)
    {
      var b := Localizar(Regras.LugaresBotoes(botoes), Pos(nx, ny));
      if b.Some? && botoes[b.value].ligado {
        chInimigoBotao := Difundir(chInimigoBotao);
      }
    }

    /** The coin check of the move: the `range moedas` search, then the pickup of the record found. */
    method ColetarMoeda(nx: int, ny: int)
      requires NoMapa(mapa, nx, ny)
      modifies this
      ensures Estado() == Regras.Coletar(old(Estado()), nx, ny)
    {
      if mapa[ny][nx] == Moeda {
        var k := Localizar(Regras.LugaresMoedas(moedas), Pos(nx, ny));
        if k.Some? {
          Recolher(nx, ny, k.value);
        }
      }
    }

    /** The body of the search on a match: removes record `i` and runs the pickup effects. */
    method Recolher(nx: int, ny: int, i: nat)
      requires NoMapa(mapa, nx, ny) && i < |moedas| && moedas[i].x == nx && moedas[i].y == ny
      modifies this
      ensures Estado() == Regras.Recolher(old(Estado()), nx, ny, i)
    {
      var m := moedas[i];
      moedas := moedas[..i] + moedas[i + 1..];
      mapa := Escrever(mapa, m.x, m.y, Vazio);
      numMoedas := numMoedas + 1;
      statusMsg := Regras.MsgMoedas(numMoedas);
      chInimigoMoeda := Difundir(chInimigoMoeda);
      vitorias := Regras.Vitorias(vitorias, numMoedas);
    }

    /** The enemy check of the move: the loss hook runs, the move goes on. */
    method ColidirInimigo(nx: int, ny: int)
      requires NoMapa(mapa, nx, ny)
      modifies this
      ensures Estado() == Regras.Colidir(old(Estado()), nx, ny)
    {
      if mapa[ny][nx] == Inimigo {
        derrotas := derrotas + 1;
      }
    }

    /** The three-cell rotation that ends the move. */
    method Rotacionar(x: int, y: int, nx: int, ny: int)
      requires Regras.PodeMover(Estado(), x, y, nx, ny)
      modifies this
      ensures Estado() == Regras.Rotacionar(old(Estado()), x, y, nx, ny)
    {
      var elemento := mapa[y][x];
      ResolverMemoria(x, y);
      mapa := Escrever(mapa, x, y, ultimoVisitado);
      ultimoVisitado := mapa[ny][nx];
      mapa := Escrever(mapa, nx, ny, elemento);
      posX, posY := nx, ny;
    }

    /**
      Before the vacated cell is written: a remembered button is re-read
      from the first button, and a remembered coin whose record has left
      `(x, y)` becomes empty.
    */
    method ResolverMemoria(x: int, y: int)
      requires EhBotao(ultimoVisitado) ==> |botoes| > 0
      modifies this
      ensures Estado() == old(Estado()).(ultimoVisitado := ultimoVisitado)
      ensures ultimoVisitado == Regras.ResolverMoeda(Regras.ResolverBotao(old(ultimoVisitado), botoes), moedas, x, y)
    {
      if EhBotao(ultimoVisitado) {
        ultimoVisitado := if botoes[0].ligado then BotaoLigado else BotaoDesligado;
      }
      if ultimoVisitado == Moeda {
        var obsoleta := MoedaObsoleta(moedas, x, y);
        if obsoleta {
          ultimoVisitado := Vazio;
        }
      }
    }

    /** One `case` of the coordinator loop `Run`: applies one update to the board. */
    method Aplicar(u: MapaUpdate)
      requires Regras.Aplicavel(Estado(), u)
      modifies this
      ensures Estado() == Regras.Aplicar(old(Estado()), u)
    {
      match u.tipo
      case UpPersonagem =>
        MoverPersonagemPara(u.fx, u.fy, u.tx, u.ty, u.ultimoVisitado);
      case UpMoeda =>
        MoverMoeda(u);
      case UpBotao =>
        PintarBotoes();
      case UpInimigo =>
        MoverInimigo(u);
      case UpPerdeu =>
        derrotas := derrotas + 1;
    }

    /** The "Personagem" case: the character move from the update's source by its offset. */
    method MoverPersonagemPara(fx: int, fy: int, tx: int, ty: int, uv: Elemento)
      requires Regras.PodeMover(Estado(), fx, fy, tx, ty)
      modifies this
      ensures Estado() == Regras.Aplicar(old(Estado()), MapaUpdate(UpPersonagem, fx, fy, tx, ty, uv))
    {
      Regras.AplicarMover(Estado(), fx, fy, tx, ty, uv);
      MoverPersonagem(fx, fy, tx - fx, ty - fy);
    }

    /** The "Moeda" case: the old cell is emptied, the new one gets the coin. */
    method MoverMoeda(u: MapaUpdate)
      requires u.tipo == UpMoeda && Regras.Aplicavel(Estado(), u)
      modifies this
      ensures Estado() == Regras.Aplicar(old(Estado()), u)
    {
      mapa := Escrever(mapa, u.fx, u.fy, Vazio);
      mapa := Escrever(mapa, u.tx, u.ty, Moeda);
    }

    /** The "Botao" case: each button's cell, in list order, gets the glyph of its flag. */
    method PintarBotoes()
      requires Regras.BotoesNoMapa(mapa, botoes)
      modifies this
      ensures Estado() == old(Estado()).(mapa := Regras.PintarBotoes(old(mapa), old(botoes)))
    {
      var i := 0;
      while i < |botoes|
        invariant 0 <= i <= |botoes|
        invariant Estado() == old(Estado()).(mapa := mapa)
        invariant Regras.BotoesNoMapa(old(mapa), botoes[..i])
        invariant mapa == Regras.PintarBotoes(old(mapa), botoes[..i])
      {
        var botao := botoes[i];
        assert botoes[..i + 1][..i] == botoes[..i];
        if botao.ligado {
          mapa := Escrever(mapa, botao.x, botao.y, BotaoLigado);
        } else {
          mapa := Escrever(mapa, botao.x, botao.y, BotaoDesligado);
        }
        i := i + 1;
      }
      assert botoes[..i] == botoes;
    }

    /** The "Inimigo" case: the source gets the carried cell (a button re-resolved), the destination the enemy. */
    method MoverInimigo(u: MapaUpdate)
      requires u.tipo == UpInimigo && Regras.Aplicavel(Estado(), u)
      modifies this
      ensures Estado() == Regras.Aplicar(old(Estado()), u)
    {
      var uv := u.ultimoVisitado;
      if EhBotao(uv) {
        uv := if botoes[0].ligado then BotaoLigado else BotaoDesligado;
      }
      mapa := Escrever(mapa, u.fx, u.fy, uv);
      mapa := Escrever(mapa, u.tx, u.ty, Inimigo);
    }

    /** The coordinator loop `Run` over a queue of updates, applied strictly one at a time. */
    method Run(ups: seq<MapaUpdate>)
      requires Regras.Executar(Estado(), ups).Some?
      modifies this
      ensures Estado() == Regras.Executar(old(Estado()), ups).value
    {
      var i := 0;
      while i < |ups|
        invariant 0 <= i <= |ups|
        invariant Regras.Executar(Estado(), ups[i..]) == Regras.Executar(old(Estado()), ups)
      {
        assert ups[i..][1..] == ups[i + 1..];
        Aplicar(ups[i]);
        i := i + 1;
      }
    }

    /** One period of `ServiceBotoes`: flips every button's flag, then proposes a repaint. */
    method AlternarBotoes() returns (u: MapaUpdate)
      modifies this
      ensures Estado() == old(Estado()).(botoes := Regras.Alternados(old(botoes)))
      ensures u.tipo == UpBotao
    {
      var i := 0;
      while i < |botoes|
        invariant 0 <= i <= |botoes| == |old(botoes)|
        invariant forall k :: 0 <= k < i ==> botoes[k] == old(botoes)[k].(ligado := !old(botoes)[k].ligado)
        invariant forall k :: i <= k < |botoes| ==> botoes[k] == old(botoes)[k]
        invariant Estado() == old(Estado()).(botoes := botoes)
      {
        botoes := botoes[i := botoes[i].(ligado := !botoes[i].ligado)];
        i := i + 1;
      }
      u := MapaUpdate(UpBotao, 0, 0, 0, 0, Vazio);
    }

    /**
      One wake-up of `ServiceMoeda` for coin `k`, the random cell
      `(num2, num1)` given: relocates the coin when that cell is empty.
    */
    method RelocarMoeda(k: nat, num1: int, num2: int) returns (ups: seq<MapaUpdate>)
      requires k < |moedas| && NoMapa(mapa, num2, num1)
      modifies this
      ensures (Estado(), ups) == Regras.RelocacaoMoeda(old(Estado()), k, num1, num2)
    {
      ups := [];
      if mapa[num1][num2] == Vazio {
        var m := moedas[k];
        ups := [MapaUpdate(UpMoeda, m.x, m.y, num2, num1, Vazio)];
        moedas := moedas[k := MoedaStruct(num2, num1)];
      }
    }

    /**
      One tick of `ServiceInimigo` for enemy `k`: the target comes from the
      chase selection, or from the patrol draw `n` the retry loop accepted.
    */
    method InimigoTick(k: nat, n: int) returns (ups: seq<MapaUpdate>)
      requires k < |inimigos| && 0 <= n < 4
      requires Inimigos.Alvo(inimigos[k], mapa, posX, posY, n).Some?
      modifies this
      ensures |inimigos| == |old(inimigos)|
      ensures var e := old(inimigos)[k];
              var p := Inimigos.Alvo(e, old(mapa), old(posX), old(posY), n).value;
              && (p == Pos(e.x, e.y) || NoMapa(old(mapa), p.x, p.y))
              && (inimigos[k], ups) == Inimigos.Passo(e, old(mapa), old(posX), old(posY), p)
              && Estado() == old(Estado()).(inimigos := old(inimigos)[k := inimigos[k]])
    {
      var i := inimigos[k];
      Inimigos.AlvoLegal(i, mapa, posX, posY, n);
      var alvo := Inimigos.Alvo(i, mapa, posX, posY, n).value;
      var nx, ny := alvo.x, alvo.y;
      ups := [];
      if nx != i.x || ny != i.y {
        if posX == nx && posY == ny {
          ups := [MapaUpdate(UpPerdeu, 0, 0, 0, 0, Vazio)];
        }
        i := i.(ultimoVisitado := mapa[ny][nx]);
        ups := ups + [MapaUpdate(UpInimigo, i.x, i.y, nx, ny, i.ultimoVisitado)];
        i := i.(x := nx, y := ny);
        inimigos := inimigos[k := i];
      }
    }

    /** Enemy `k` takes the `true` waiting in its button mailbox: back to patrol. */
    method ReceberBotao(k: nat)
      requires k < |inimigos| && k < |chInimigoBotao| && chInimigoBotao[k]
      modifies this
      ensures Estado() == old(Estado()).(
                chInimigoBotao := old(chInimigoBotao)[k := false],
                inimigos := old(inimigos)[k := old(inimigos)[k].(estado := Inimigos.Receber(old(inimigos)[k].estado, Inimigos.SinalBotao(true)))],
                statusMsg := Inimigos.MensagemSinal(Inimigos.SinalBotao(true)).value)
    {
      chInimigoBotao := chInimigoBotao[k := false];
      inimigos := inimigos[k := inimigos[k].(estado := Patrulha)];
      statusMsg := "Inimigos pararam de perseguir devido ao botao!";
    }

    /** Enemy `k` takes the value waiting in its coin mailbox: chase. */
    method ReceberMoeda(k: nat)
      requires k < |inimigos| && k < |chInimigoMoeda| && chInimigoMoeda[k]
      modifies this
      ensures Estado() == old(Estado()).(
                chInimigoMoeda := old(chInimigoMoeda)[k := false],
                inimigos := old(inimigos)[k := old(inimigos)[k].(estado := Inimigos.Receber(old(inimigos)[k].estado, Inimigos.SinalMoeda))],
                statusMsg := Inimigos.MensagemSinal(Inimigos.SinalMoeda).value)
    {
      chInimigoMoeda := chInimigoMoeda[k := false];
      inimigos := inimigos[k := inimigos[k].(estado := Perseguicao)];
      statusMsg := "Moeda coletada! Inimigos iniciaram perseguicao!";
    }
  }
}
