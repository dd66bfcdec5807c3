# fppd-jogo: the world-update rules of the game, in Dafny

The game is a terminal maze. A character (☺) walks a board of walls (▤),
bushes (♣), coins ($), enemies (☠) and buttons (○/●). Every change to the
board goes through one coordinator loop (`Jogo.Run`), which applies the
updates the agents propose, one at a time:

- the character's moves;
- coin relocations;
- the periodic button toggle;
- enemy steps;
- the loss signal.

This project models that sequential core of `jogo.go`:

- the cells and move legality;
- the character move with its coin pickup, enemy collision and three-cell
  rotation through the remembered cell `UltimoVisitado`;
- each case of the coordinator;
- the enemies' chase and patrol step selection, their reaction to the
  button and coin signals, and the updates a tick sends;
- the button toggle and the coin relocation;
- the row-major setup scans;
- the line-to-row mapping of the map loader, whose spawn column is the byte
  offset Go's `range` reports.

Layout:

- `elementos.dfy`: the cell kinds (`Elementos`), an `Option` type
  (`Opcoes`), and decimal formatting for the status line (`Texto`).
- `mapas.dfy`: the board as `seq<seq<Elemento>>` (rows may differ in
  length), `PodeMoverPara`, single-cell writes, and the row-major scan
  `Varrer` with its specification `Posicoes`.
- `carga.dfy`: the loader's rune switch and the spawn position.
- `regras.dfy`: the records (`Entidades`) and, in `Regras`, the whole world
  as a value `Mundo`. Each operation is a function of the state before,
  with the properties proved as lemmas.
- `inimigos.dfy`: the enemy agent's step (`Inimigos`).
- `jogo.dfy`: the class `Jogo`, whose fields are updated in place by
  methods with loops. Each method is proved to produce exactly the state
  the matching `Regras`, `Inimigos` or `Carga` function describes (the
  loader `CarregarMapa`/`CarregarLinha` against `Carga.Linhas` and
  `Carga.Spawn`).
- `achados.dfy`: the two discrepancies listed under Findings, each with a
  counterexample and a corrected definition.

Modelling choices:

- Each enemy mailbox (`chBotao`, `chMoeda`, a buffered channel of
  capacity 1) is a flag telling whether its slot is full. The non-blocking
  send fills an empty slot and drops the value on a full one.
- The win and loss hooks `interfaceGanhou` and `interfacePerdeu` are
  counters of their calls (`vitorias`, `derrotas`).
- The random draws (the patrol direction, the coin's new cell) are
  parameters.

Where the game's apparent intent and the code differ, the model follows
the code:

- Stepping onto an enemy runs the loss hook, but the move still happens.
- The ☺ glyph is never written into the board: the loader stores an empty
  cell at the spawn. So "exactly one character cell" does not hold.
- A bush or a button can change position, through the enemy update (see
  Findings).
- The update kind `tipo` is a string in the source. The model has the five
  kinds its senders use; any other string matches no case and changes
  nothing.
- `NumMoedas` is modelled as a `nat`: it only ever grows from 0.

## Model

| member | source | states |
|---|---|---|
| Elementos.Tangivel | jogo.go:66-73 | a cell blocks movement exactly when it is a wall |
| Elementos.SimbolosDistintos | jogo.go:66-73 | the eight constants have pairwise distinct symbols, so comparing symbols compares kinds |
| Elementos.DoSimbolo | jogo.go:145-162 | the five recognised runes give their own kind; every other rune, ☺ and ● included, gives an empty cell; the result is never the character or a lit button |
| Texto.NatParaTexto | jogo.go:218 | `%d` prints at least one decimal digit, with no leading zero except for 0 |
| Texto.ValorDeNatParaTexto | jogo.go:218 | reading back the printed digits of the coin count gives the count |
| Mapas.PodeMoverPara | jogo.go:173-191 | legal exactly when the row index is inside the board, the column is inside that row's own length, and the cell is not a wall |
| Mapas.SoParedeBloqueia | jogo.go:173-191 | among in-bounds cells, exactly a wall is refused |
| Mapas.Escrever | jogo.go:260-262 | a cell write changes that cell to the value written and no other cell, and keeps the board's shape |
| Mapas.PosicoesCompleta | jogo.go:268-275 | the scan finds a position if and only if the cell there holds the scanned kind |
| Mapas.PosicoesOrdenadas | jogo.go:268-275 | the scan lists positions in strictly increasing row-major order, so without repeats |
| Mapas.Varrer | jogo.go:268-275 | the nested row/column loop collects exactly the positions of the scanned kind, in row-major order |
| Carga.Utf8Len | jogo.go:144 | each rune takes 1 to 4 bytes, and exactly 1 when it is ASCII |
| Carga.Deslocamento | jogo.go:144 | the byte offset of rune i lies between i and 4i |
| Carga.DeslocamentoAscii | jogo.go:144 | with only ASCII runes before it, a rune's byte offset equals its index |
| Carga.DeslocamentoNaoAscii | jogo.go:144 | a non-ASCII rune before it pushes a rune's byte offset past its index |
| Carga.UltimoIndice | jogo.go:155-156 | the index of the last occurrence of a rune in a line, or none when absent |
| Carga.Spawn | jogo.go:141-164 | the recorded spawn is the last ☺ in row-major order, with column = its byte offset and row = its line; with no ☺, nothing is recorded |
| Carga.LinhasCelulas | jogo.go:141-164 | the board has one row per line and one cell per rune of that line; each rune gives the cell at the same row and rune index; the spawn rune's cell is empty; a cell is empty exactly when its rune is not recognised |
| Regras.Indice | jogo.go:197-233 | over the button records' cells and over the coin records' cells alike: the first record at a cell, or none exactly when no record is there |
| Regras.Notificar | jogo.go:197-209 | the button check changes only the button mailboxes |
| Regras.Coletar | jogo.go:211-234 | the pickup keeps the buttons, the memory, the button mailboxes, the loss count and the board's shape |
| Regras.Recolher | jogo.go:214-230 | removing a found coin record keeps the buttons, the memory, the button mailboxes, the loss count and the board's shape |
| Regras.ColetarMapa | jogo.go:211-234 | the pickup changes no cell but the destination, and that one only to empty |
| Regras.Colidir | jogo.go:236-238 | the collision check changes only the loss count |
| Regras.Reresolucao | jogo.go:240-259 | a remembered button is rewritten from the first button's flag; a remembered coin becomes empty exactly when the list is non-empty and has no record at the vacated cell; other cells are kept |
| Regras.MoverRotacao | jogo.go:240-263 | a real move changes only the source and destination cells: the destination gets the source's content, the source the re-resolved memory; the memory becomes the destination's content (empty after a pickup); the position becomes the destination |
| Regras.MoverColeta | jogo.go:211-234 | a pickup happens exactly when the destination shows a coin with a record there: that record leaves the list in order, the count grows by one, the status line reports it, every enemy is signalled, the win hook runs exactly at five; otherwise none of these change |
| Regras.MoverSinais | jogo.go:197-238 | the stop-chasing broadcast goes out exactly when the first button at the destination is engaged; the loss hook runs exactly when the destination holds an enemy |
| Regras.PintarBotoes | jogo.go:92-99 | the button repaint keeps the board's shape |
| Regras.AplicarMoeda | jogo.go:87-89 | a coin update empties the old cell, shows the coin at the new one, and changes nothing else |
| Regras.AplicarInimigo | jogo.go:101-111 | an enemy update writes the carried cell (a button re-resolved from the first button's flag) at the source and the enemy at the destination, and changes nothing else |
| Regras.AplicarPerdeu | jogo.go:113-114 | a loss update writes no cell and runs the loss hook once |
| Regras.PintarBotoesEfeito | jogo.go:92-99 | with buttons at distinct cells, each button's cell shows its own flag and no other cell changes |
| Regras.ExecutarUm | jogo.go:81-116 | a one-update queue is applied as that update |
| Regras.ExecutarDois | jogo.go:81-116 | a two-update queue is applied in order |
| Regras.BotoesDaVarredura | jogo.go:267-275 | the scanned buttons sit exactly at the ○ cells, one per cell, all disengaged |
| Regras.AlternadosInvolucao | jogo.go:287-289 | the toggle flips every flag and moves no button; toggling twice restores the list |
| Regras.AlternarEPintar | jogo.go:284-293 | a toggle followed by its repaint shows at each button's cell the opposite of its previous flag, and changes no other cell |
| Regras.RelocacaoAplicada | jogo.go:318-326 | when the drawn cell is empty, the record moves there and, once applied, the board shows the coin there and an empty old cell; otherwise there is no update and no change |
| Regras.AplicarContagem | jogo.go:211-234 | per update, the coin count stays or grows by one, and the win hook runs exactly when it reaches five from below |
| Regras.VitoriaUmaVez | jogo.go:217-230 | over any queue of updates, the count never decreases and the win hook runs at most once: exactly when the count crosses five |
| Regras.AplicarForma | jogo.go:83-115 | no update changes the number of rows or any row's length |
| Regras.PintarBotoesSemParede | jogo.go:92-99 | repainting buttons that stand on no wall neither removes nor creates a wall |
| Regras.MesmasParedesExceto | jogo.go:83-115 | boards differing only at non-wall cells have the same walls |
| Regras.ParedesDuasCelulas | jogo.go:88-89 | two writes of non-walls over non-walls keep every wall |
| Regras.ParedesMover | jogo.go:240-263 | a move between non-wall cells with a non-wall memory keeps every wall, and the memory never becomes a wall |
| Regras.ParedesEtapas | jogo.go:197-238 | the button, coin and enemy checks keep every wall and leave both cells of the move and the memory free of walls |
| Regras.ParedesRotacao | jogo.go:240-263 | the three-cell rotation between non-wall cells with a non-wall memory keeps every wall, and the new memory is not a wall |
| Regras.ParedesPersonagem | jogo.go:84-85 | a character update between non-wall cells with a non-wall memory keeps every wall, and the memory never becomes a wall |
| Regras.ParedesMoedaInimigo | jogo.go:87-111 | a coin or enemy update that neither targets nor carries a wall keeps every wall and leaves the memory alone |
| Regras.ParedesPreservadas | jogo.go:83-115 | an update that neither targets nor carries a wall leaves every wall in place and creates none |
| Inimigos.UltimoSinalPrevalece | jogo.go:355-365 | over any sequence of received signals, the last one other than a `false` from the button mailbox decides the state (a coin signal chase, a button `true` patrol); with none, the starting state is kept |
| Inimigos.ReceberIdempotente | jogo.go:358-365 | receiving the same signal twice has the effect of receiving it once |
| Inimigos.Perseguir | jogo.go:372-405 | the chase target is one step on the x axis, one step on the y axis, or the enemy's own cell; a target that moves is legal |
| Inimigos.PerseguirAproxima | jogo.go:372-405 | a chase step either stays or comes exactly one cell closer to the character (Manhattan distance) |
| Inimigos.PerseguirPrimario | jogo.go:389-397 | when the first-tried step (horizontal exactly when the horizontal gap is strictly larger) is legal and the enemy is not on the character, it is taken and the distance drops by one |
| Inimigos.PerseguirParado | jogo.go:389-404 | the enemy stays only when every step that brings it closer is refused |
| Inimigos.Patrulhar | jogo.go:409-425 | a draw yields a legal neighbour one cell away, or none when the drawn neighbour is refused and the loop draws again |
| Inimigos.PatrulhaTermina | jogo.go:409-425 | some draw succeeds if and only if some neighbour is legal; an enemy walled in on all four sides draws forever |
| Inimigos.AlvoLegal | jogo.go:367-425 | a tick's target is the enemy's own cell or a legal cell one step away |
| Inimigos.PassoAplicado | jogo.go:428-446 | a tick's updates, applied by the coordinator: the loss hook runs exactly when the enemy steps onto the character; the destination shows the enemy; the source gets the destination's former content (a button re-resolved); no other cell changes; a tick that does not move changes nothing |
| JogoImpl.Localizar | jogo.go:197-233 | the `for … break` search, over the buttons and over the coins alike, returns the first record at the cell, as `Regras.Indice` |
| JogoImpl.MoedaObsoleta | jogo.go:248-259 | the counting loop reports stale exactly when the list is non-empty and has no record at the cell |
| JogoImpl.Difundir | jogo.go:200-205 | after the non-blocking broadcast every mailbox slot is full |
| JogoImpl.CarregarLinha | jogo.go:144-163 | one line gives one cell per rune, plus the byte offset of its last ☺, if any |
| JogoImpl.Jogo.constructor | jogo.go:120-129 | a new game has an empty board, an empty-cell memory and no coins collected |
| JogoImpl.Jogo.CarregarMapa | jogo.go:141-164 | rows are appended per line, and the position is the last ☺'s (byte offset, line) or unchanged; nothing else changes |
| JogoImpl.Jogo.BotaoController | jogo.go:267-275 | a disengaged button record is appended per ○ cell, in row-major order |
| JogoImpl.Jogo.MoedaController | jogo.go:299-309 | a coin record is appended per $ cell, in row-major order |
| JogoImpl.Jogo.InimigoController | jogo.go:333-352 | a patrolling enemy covering an empty cell, with two empty mailboxes, is appended per ☠ cell, in row-major order |
| JogoImpl.Jogo.MoverPersonagem | jogo.go:194-264 | the in-place move produces exactly the state `Regras.Mover` describes |
| JogoImpl.Jogo.NotificarBotao | jogo.go:197-209 | the button check in place equals `Regras.Notificar` |
| JogoImpl.Jogo.ColetarMoeda | jogo.go:211-234 | the pickup in place equals `Regras.Coletar` |
| JogoImpl.Jogo.Recolher | jogo.go:213-231 | removing the found record and running the pickup effects in place equals `Regras.Recolher` |
| JogoImpl.Jogo.ColidirInimigo | jogo.go:236-238 | the collision check in place equals `Regras.Colidir` |
| JogoImpl.Jogo.Rotacionar | jogo.go:240-263 | the rotation in place equals `Regras.Rotacionar` |
| JogoImpl.Jogo.ResolverMemoria | jogo.go:241-258 | the memory is re-read from the first button if it is a button, and becomes empty if it is a coin whose record has left the vacated cell; nothing else changes |
| JogoImpl.Jogo.Aplicar | jogo.go:83-115 | one coordinator case in place equals `Regras.Aplicar` |
| JogoImpl.Jogo.MoverPersonagemPara | jogo.go:84-85 | the "Personagem" case moves by the update's offset |
| JogoImpl.Jogo.MoverMoeda | jogo.go:87-89 | the "Moeda" case in place |
| JogoImpl.Jogo.PintarBotoes | jogo.go:92-99 | the repaint loop in place equals `Regras.PintarBotoes` over all buttons |
| JogoImpl.Jogo.MoverInimigo | jogo.go:101-111 | the "Inimigo" case in place |
| JogoImpl.Jogo.Run | jogo.go:81-116 | the loop over a queue of updates equals `Regras.Executar` |
| JogoImpl.Jogo.AlternarBotoes | jogo.go:284-293 | every flag flips, nothing else changes, and a repaint update is proposed |
| JogoImpl.Jogo.RelocarMoeda | jogo.go:318-326 | the relocation in place and its update equal `Regras.RelocacaoMoeda` |
| JogoImpl.Jogo.InimigoTick | jogo.go:367-446 | the tick updates only enemy k, as `Inimigos.Passo` describes for the target the chase or the accepted patrol draw selects |
| JogoImpl.Jogo.ReceberBotao | jogo.go:358-362 | taking the `true` from the button mailbox empties that slot, sets patrol and sets the status line |
| JogoImpl.Jogo.ReceberMoeda | jogo.go:363-365 | taking the coin signal empties that slot, sets chase and sets the status line |
| Achados.SpawnForaDoMapa | jogo.go:146-156 | for the line "▤☺", the recorded spawn column is 3, outside the two-cell row |
| Achados.SpawnRuna | jogo.go:146-156 | corrected spawn: the last ☺ in row-major order, with its rune index as the column |
| Achados.SpawnRunaNoMapa | jogo.go:141-164 | the corrected spawn is a cell of the loaded board, and that cell is empty |
| Achados.SpawnMesmaRuna | jogo.go:146-156 | the recorded and the corrected spawn pick the same rune and differ only in how its column is counted |
| Achados.SpawnCorretoSeAscii | jogo.go:146-156 | the recorded column is the intended one exactly when every earlier rune of the line is ASCII; otherwise it lies to the right |
| Achados.InimigoArrastaTerreno | jogo.go:436-442 | as written, two patrol steps right over [☠, ♣, empty] leave [♣, empty, ☠]: the bush is dragged one cell left |
| Achados.PassoCorrigidoAplicado | jogo.go:428-446 | corrected tick: the source gets the cell the enemy covered, the enemy remembers the destination's content, and nothing else changes |
| Achados.Terreno | jogo.go:436-442 | lifting the enemy off the board restores its covered cell and changes nothing else |
| Achados.PassoCorrigidoPreservaTerreno | jogo.go:428-446 | with the correction, one enemy's step leaves the terrain as it was: the board after, with the enemy lifted off its new cell, equals the board before, with the enemy lifted off its old cell; a covered button comes back in the buttons' current colour, any other covered cell unchanged |
| Achados.InimigoCorrigidoNaoArrasta | jogo.go:436-442 | with the correction, the same two steps leave [empty, ♣, ☠] |

## Left out

- Goroutines, timers and scheduling are not modelled: `go` spawns, `time.Sleep`, `time.After`, the `select` that picks between a mailbox and the timer, and the interleaving of the agents. Each agent's step is a separate operation, and the coordinator applies updates strictly one at a time.
- The agents' unsynchronized reads of `PosX`, `PosY` and the board are not modelled: each step reads the state it is given.
- The map channel `chMapa` is a queue of updates given to `Jogo.Run`. The source's `Run` loops forever and redraws after each case; the model processes a finite queue and draws nothing.
- The coin stop channel (`m.stop <- true` in the pickup, `case <-m.stop` in `ServiceMoeda`) is not modelled. The send blocks until the coin goroutine receives it; the model treats the coin's goroutine as gone once its record leaves the list.
- Randomness is not modelled: `rand.Intn` for the patrol direction, the relocation cell and the relocation delay are parameters or omitted.
- Inimigos.Patrulhar: models one draw of the unbounded patrol retry loop. `None` means "draw again". The loop's termination is characterised by `Inimigos.PatrulhaTermina`, not proved for a random sequence.
- Rendering is not modelled: `interfaceDesenharJogo`, colours, keyboard input and `personagemExecutarAcao` live in files that are not part of this model. `interfaceGanhou` and `interfacePerdeu` are counted calls.
- File I/O of `jogoCarregarMapa` (`os.Open`, `bufio.Scanner`, its error returns) is not modelled. A line is the sequence of runes `range` yields; invalid UTF-8 (decoded as U+FFFD) is not modelled.
- `math.Abs(float64(…))` in the chase is integer absolute value: exact for any board that fits in memory.
- The `encerrar` field is not modelled: nothing in the core reads it.
- main.go (process wiring, argument defaults, the keyboard loop) is not part of this model.
- JogoImpl.Jogo.RelocarMoeda: requires the drawn cell to be on the board, which `rand.Intn` over the board's and the row's lengths guarantees. An empty board or row, where `rand.Intn` panics, is not modelled.
- Regras.Aplicar: an update that would index outside the board or read `botoes[0]` with no buttons panics in the source. The model makes such an update not applicable, so `Regras.Executar` returns `None`.
- The class `Jogo` follows the source as written. The corrected spawn and enemy step under Findings are separate definitions with their own proofs; the class does not call them.

## Findings

| source | as written | input that shows it | evidently intended | confidence | as-written member | corrected member |
|---|---|---|---|---|---|---|
| jogo.go:146-156 | the spawn column is the byte offset `range` reports for ☺ | the line "▤☺": column 3 is recorded, but the row has two cells (the wall takes three bytes) | the rune index, column 1, which is the spawn's own empty cell | not executed | Achados.SpawnForaDoMapa | Achados.SpawnRunaNoMapa |
| jogo.go:436-442, 110 | the enemy update carries the content of the destination cell, and the coordinator writes it at the source | row [☠, ♣, empty], with the enemy covering an empty cell and patrolling right twice: the board becomes [♣, empty, ☠] | the source gets back the cell the enemy covered, and the destination's content becomes its new memory: [empty, ♣, ☠] | not executed | Achados.InimigoArrastaTerreno | Achados.PassoCorrigidoPreservaTerreno |
