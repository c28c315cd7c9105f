/**
 * The encounter state machine of the game hook (src/hooks/useJuegoPesca.js).
 *
 * `Sesion` is the value of every piece of state the hook keeps: its React
 * states and the refs `tiempoInicioLuchaRef` and `resistenciaPezRef`, plus
 * the pending timers. Each action and each timer callback is a transition
 * function on `Sesion`; the class `JuegoPesca` holds the same state in
 * fields, and its methods change them step by step and are proved to end in
 * the state the transition function gives.
 *
 * Timers are not clocked: any pending timer may fire next, and firing one is
 * a step method given the index of that timer. Every `Math.random()` draw and
 * every `Date.now()` reading is a parameter.
 */
module Juego {
  import opened Opciones
  import opened Constantes
  import opened Colecciones
  import opened Peces
  import opened Calculos

  /** A pending timer, with the values its callback's closure captured. */
  datatype Temporizador =
    | DescensoLanzamiento(profundidadActual: int)  // the 50 ms cast interval and its local depth
    | Pique(espera: real)                           // the bite timeout and its delay in ms
    | CicloLucha(pez: InstanciaPez)                 // the fight interval and the fish it was started for
    | OcultarInfo                                   // the timeout after a capture
    | ReinicioTrasPerdida                           // the 2000 ms timeout after a loss

  /** The lure's position on screen, in percent (`posicionSenuelo`). */
  datatype Posicion = Posicion(x: real, y: real)

  /** The hook's state. */
  datatype Sesion = Sesion(
    estadoJuego: Estado,
    pezActual: Option<InstanciaPez>,
    tension: real,
    profundidad: int,
    tiempoLucha: real,
    posicionSenuelo: Posicion,
    puntuacion: int,
    nivel: int,
    experiencia: int,
    pezesCapturados: seq<Captura>,
    mostrandoInfoPez: bool,
    ultimaCaptura: Option<Captura>,
    temporizadores: seq<Temporizador>,
    tiempoInicioLucha: int,
    resistenciaPez: real)

  /** The initial `useState`/`useRef` values. */
  const SesionInicial := Sesion(Esperando, None, 0.0, 0, 0.0, Posicion(50.0, 20.0), 0, 1, 0, [], false, None, [], 0, 0.0)

  function MaxReal(a: real, b: real): real
  {
    if a >= b then a else b
  }

  /** The timers without the one at index `i`: it was cleared or it fired. */
  function Quitar(ts: seq<Temporizador>, i: nat): (r: seq<Temporizador>)
    requires i < |ts|
    ensures |r| == |ts| - 1
    ensures forall j :: 0 <= j < |r| ==> r[j] == (if j < i then ts[j] else ts[j + 1])
    ensures multiset(r) == multiset(ts) - multiset{ts[i]}
    ensures forall x :: x in r ==> x in ts
  {
    assert ts == ts[..i] + [ts[i]] + ts[i + 1..];
    ts[..i] + ts[i + 1..]
  }

  // Progress bookkeeping

  /** The sum of `puntosObtenidos` over the history. */
  function SumaPuntos(h: seq<Captura>): int
  {
    if h == [] then 0 else SumaPuntos(h[..|h| - 1]) + h[|h| - 1].puntosObtenidos
  }

  /** The sum of `experienciaObtenida` over the history. */
  function SumaExperiencia(h: seq<Captura>): int
  {
    if h == [] then 0 else SumaExperiencia(h[..|h| - 1]) + h[|h| - 1].experienciaObtenida
  }

  /** The experience spent on reaching level `nivel` from level 1: `nivel * 100` per level passed. */
  function ExperienciaConsumida(nivel: int): int
    requires nivel >= 1
  {
    if nivel == 1 then 0 else ExperienciaConsumida(nivel - 1) + (nivel - 1) * ExperienciaPorNivel
  }

  /** Reaching level n costs 50·n·(n − 1) experience in all. */
  lemma {:induction false} ExperienciaConsumidaCerrada(nivel: int)
    requires nivel >= 1
    ensures ExperienciaConsumida(nivel) == 50 * nivel * (nivel - 1)
    decreases nivel
  {
    if nivel > 1 {
      ExperienciaConsumidaCerrada(nivel - 1);
      assert 50 * nivel * (nivel - 1) == 50 * (nivel - 1) * (nivel - 2) + (nivel - 1) * 100;
    }
  }

  /**
   * The level rule of `capturarPez`: with the new total at or above
   * `nivel * 100`, one level is gained and the remainder kept. Experience is
   * conserved: what is held plus what was spent on levels stays the same.
   */
  function SubirNivel(nivel: int, nuevaExp: int): (r: (int, int))
    requires nivel >= 1
    ensures r.0 == nivel || r.0 == nivel + 1
    ensures r.0 == nivel + 1 <==> nuevaExp >= nivel * ExperienciaPorNivel
    ensures r.1 + ExperienciaConsumida(r.0) == nuevaExp + ExperienciaConsumida(nivel)
    ensures nuevaExp >= 0 ==> r.1 >= 0
  {
    var expRequeridaParaNivel := nivel * ExperienciaPorNivel;
    if nuevaExp >= expRequeridaParaNivel then (nivel + 1, nuevaExp - expRequeridaParaNivel)
    else (nivel, nuevaExp)
  }

  /** The tension after a struggle: raised by `fuerza * (2 + roll * 2)`, capped at TENSION_MAXIMA. */
  function TensionTrasForcejeo(tension: real, fuerza: real, roll: real): (r: real)
    requires EnUnidad(roll)
    ensures r <= TensionMaxima
    ensures fuerza >= 0.0 ==> r >= tension || r == TensionMaxima
    ensures r >= TensionMaxima <==> tension + fuerza * (IncrementoTensionBase + roll * 2.0) >= TensionMaxima
  {
    var incrementoTension := fuerza * (IncrementoTensionBase + roll * 2.0);
    assert fuerza >= 0.0 ==> incrementoTension >= 0.0;
    MinReal(tension + incrementoTension, TensionMaxima)
  }

  /** The bite delay: `roll * (1500 - 500) + 500`, in [500, 1500) ms. */
  function TiempoEspera(roll: real): (w: real)
    requires EnUnidad(roll)
    ensures TiempoEsperaMinimo <= w < TiempoEsperaMaximo
  {
    roll * (TiempoEsperaMaximo - TiempoEsperaMinimo) + TiempoEsperaMinimo
  }

  /** The lure height for a depth: `20 + (profundidad / 100) * 60`. */
  function AlturaSenuelo(profundidad: int): (y: real)
    ensures 0 <= profundidad <= ProfundidadMaxima ==> 20.0 <= y <= 80.0
  {
    20.0 + (profundidad as real / 100.0) * 60.0
  }

  // The invariant

  predicate TemporizadorValido(t: Temporizador)
  {
    match t
    case DescensoLanzamiento(d) => 0 <= d < ProfundidadMaxima && d % VelocidadHundimiento == 0
    case CicloLucha(pez) => pez.fuerza >= 0.0 && pez.datos.dificultad >= 0
    case _ => true
  }

  /**
   * What every reachable state satisfies: tension, depth and lure within
   * their bounds; the score is the sum of the points in the history; the
   * experience in the history is what is held plus what levels consumed;
   * every pending timer is well-formed.
   */
  predicate Valida(s: Sesion)
  {
    && 0.0 <= s.tension <= TensionMaxima
    && 0 <= s.profundidad <= ProfundidadMaxima
    && s.posicionSenuelo.x == 50.0 && 20.0 <= s.posicionSenuelo.y <= 80.0
    && s.nivel >= 1 && s.experiencia >= 0
    && s.puntuacion == SumaPuntos(s.pezesCapturados)
    && SumaExperiencia(s.pezesCapturados) == s.experiencia + ExperienciaConsumida(s.nivel)
    && forall t :: t in s.temporizadores ==> TemporizadorValido(t)
  }

  lemma SesionInicialValida()
    ensures Valida(SesionInicial)
  {
  }

  // Transitions

  /** reiniciarJuego: clears every timer and the encounter; score, level, experience and history stay. */
  function Reiniciada(s: Sesion): Sesion
  {
    s.(estadoJuego := Esperando, pezActual := None, tension := 0.0, profundidad := 0, tiempoLucha := 0.0,
       posicionSenuelo := Posicion(50.0, 20.0), temporizadores := [], tiempoInicioLucha := 0, resistenciaPez := 0.0)
  }

  /** lanzarSenuelo: only from ESPERANDO; starts the cast with tension and depth 0 and the descent interval. */
  function TrasLanzar(s: Sesion): Sesion
  {
    if s.estadoJuego != Esperando then s
    else s.(estadoJuego := Lanzando, tension := 0.0, profundidad := 0,
            temporizadores := s.temporizadores + [DescensoLanzamiento(0)])
  }

  /**
   * One tick of the cast interval at index `i`: the lure sinks by
   * VELOCIDAD_HUNDIMIENTO; at PROFUNDIDAD_MAXIMA the interval stops, the phase
   * becomes PESCANDO (whatever it was) and the bite timeout is set.
   */
  function TrasDescenso(s: Sesion, i: nat, rollEspera: real): Sesion
    requires i < |s.temporizadores| && s.temporizadores[i].DescensoLanzamiento?
    requires EnUnidad(rollEspera)
  {
    var profundidadActual := s.temporizadores[i].profundidadActual + VelocidadHundimiento;
    var s1 := s.(profundidad := profundidadActual, posicionSenuelo := s.posicionSenuelo.(y := AlturaSenuelo(profundidadActual)));
    if profundidadActual >= ProfundidadMaxima then
      s1.(estadoJuego := Pescando,
          temporizadores := Quitar(s.temporizadores, i) + [Pique(TiempoEspera(rollEspera))])
    else
      s1.(temporizadores := s.temporizadores[i := DescensoLanzamiento(profundidadActual)])
  }

  /**
   * iniciarLucha: hooks a fish drawn for the current level, enters LUCHANDO,
   * restarts the fight clock at `ahora`, loads the fish's stamina and starts
   * the fight interval.
   */
  function IniciarLucha(s: Sesion, t: TiradasPez, sello: nat, ahora: int): Sesion
    requires TiradasPezValidas(t)
  {
    var pez := GenerarInstanciaPez(EspecieSorteada(Catalogo, s.nivel, t.rareza, t.seleccion), t.instancia, sello, ahora);
    s.(pezActual := Some(pez), estadoJuego := Luchando, tiempoLucha := 0.0, tiempoInicioLucha := ahora,
       resistenciaPez := pez.resistencia, temporizadores := s.temporizadores + [CicloLucha(pez)])
  }

  /** The bite timeout at index `i` fires: a fight starts only if the phase is still PESCANDO. */
  function TrasPique(s: Sesion, i: nat, t: TiradasPez, sello: nat, ahora: int): Sesion
    requires i < |s.temporizadores| && s.temporizadores[i].Pique?
    requires TiradasPezValidas(t)
  {
    var s1 := s.(temporizadores := Quitar(s.temporizadores, i));
    if s.estadoJuego == Pescando then IniciarLucha(s1, t, sello, ahora) else s1
  }

  /** perderPez: PERDIDO, with the restart timeout pending. */
  function Perdida(s: Sesion): Sesion
  {
    s.(estadoJuego := Perdido, temporizadores := s.temporizadores + [ReinicioTrasPerdida])
  }

  /**
   * capturarPez: CAPTURADO; the points and experience of the catch are added,
   * one level may be gained, the catch is appended to the history and shown,
   * and the timeout that hides it is set. The current level is the one used.
   */
  function TrasCaptura(s: Sesion, pez: InstanciaPez, tiempoLuchaFinal: real, ahora: int): Sesion
    requires s.nivel >= 1
  {
    var puntosGanados := CalcularPuntosPorCaptura(pez, tiempoLuchaFinal, s.nivel);
    var experienciaGanada := CalcularExperienciaPorCaptura(pez, tiempoLuchaFinal);
    Recompensada(s, Captura(pez, ahora, tiempoLuchaFinal, puntosGanados, experienciaGanada))
  }

  /** The state change of capturarPez once the catch's record `c` is known. */
  function Recompensada(s: Sesion, c: Captura): Sesion
    requires s.nivel >= 1
  {
    var nivelYExperiencia := SubirNivel(s.nivel, s.experiencia + c.experienciaObtenida);
    s.(estadoJuego := Capturado,
       puntuacion := s.puntuacion + c.puntosObtenidos,
       nivel := nivelYExperiencia.0,
       experiencia := nivelYExperiencia.1,
       pezesCapturados := s.pezesCapturados + [c],
       ultimaCaptura := Some(c),
       mostrandoInfoPez := true,
       temporizadores := s.temporizadores + [OcultarInfo])
  }

  /** The fight clock in seconds: `(Date.now() - tiempoInicioLuchaRef.current) / 1000`. */
  function TiempoTranscurrido(s: Sesion, ahora: int): real
  {
    (ahora - s.tiempoInicioLucha) as real / 1000.0
  }

  /** Whether a fight tick breaks the line: the fish struggles and the tension reaches TENSION_MAXIMA. */
  predicate SeRompe(s: Sesion, i: nat, rollLucha: real, rollIncremento: real)
    requires i < |s.temporizadores| && s.temporizadores[i].CicloLucha?
    requires EnUnidad(rollIncremento)
  {
    rollLucha < ProbabilidadLucha
    && TensionTrasForcejeo(s.tension, s.temporizadores[i].pez.fuerza, rollIncremento) >= TensionMaxima
  }

  /**
   * The first half of a fight tick: the clock; then, if the fish struggles,
   * the tension, and at TENSION_MAXIMA the interval at index `i` stops and
   * the fish is lost.
   */
  function Forcejeo(s: Sesion, i: nat, ahora: int, rollLucha: real, rollIncremento: real): Sesion
    requires i < |s.temporizadores| && s.temporizadores[i].CicloLucha?
    requires EnUnidad(rollIncremento)
  {
    var pez := s.temporizadores[i].pez;
    var tension := if rollLucha < ProbabilidadLucha then TensionTrasForcejeo(s.tension, pez.fuerza, rollIncremento)
                   else s.tension;
    var s1 := s.(tiempoLucha := TiempoTranscurrido(s, ahora), tension := tension);
    if SeRompe(s, i, rollLucha, rollIncremento) then Perdida(s1.(temporizadores := Quitar(s.temporizadores, i)))
    else s1
  }

  /**
   * The second half of a fight tick: the fish tires, and at stamina 0 or
   * less the interval at index `i` stops (unless the first half already
   * stopped it, `detenido`) and the fish `pez` is captured.
   */
  function Cansancio(s: Sesion, i: nat, pez: InstanciaPez, detenido: bool, t: real, ahora: int): Sesion
    requires !detenido ==> i < |s.temporizadores|
    requires s.nivel >= 1
  {
    var s1 := s.(resistenciaPez := s.resistenciaPez - FactorCansancio);
    if s1.resistenciaPez > 0.0 then s1
    else if detenido then TrasCaptura(s1, pez, t, ahora)
    else TrasCaptura(s1.(temporizadores := Quitar(s1.temporizadores, i)), pez, t, ahora)
  }

  /**
   * One tick of the fight interval at index `i`, in the written order. The
   * phase is never consulted. A tick that breaks the line and exhausts the
   * fish ends in CAPTURADO, with both the restart and the hide timeouts
   * pending.
   */
  function TrasTickLucha(s: Sesion, i: nat, ahora: int, rollLucha: real, rollIncremento: real): Sesion
    requires i < |s.temporizadores| && s.temporizadores[i].CicloLucha?
    requires EnUnidad(rollIncremento)
    requires s.nivel >= 1
  {
    Cansancio(Forcejeo(s, i, ahora, rollLucha, rollIncremento), i, s.temporizadores[i].pez,
              SeRompe(s, i, rollLucha, rollIncremento), TiempoTranscurrido(s, ahora), ahora)
  }

  /** The timeout after a capture fires: the info panel is hidden and the encounter restarts. */
  function TrasOcultarInfo(s: Sesion): Sesion
  {
    Reiniciada(s.(mostrandoInfoPez := false))
  }

  /** recogerSedal: in LUCHANDO eases tension, raises depth and lure; in PESCANDO restarts; otherwise nothing. */
  function TrasRecoger(s: Sesion): Sesion
  {
    if s.estadoJuego == Luchando then
      s.(tension := MaxReal(s.tension - ReduccionTensionRecoger, 0.0),
         profundidad := Max(s.profundidad - VelocidadRecogida, 0),
         posicionSenuelo := s.posicionSenuelo.(y := MaxReal(s.posicionSenuelo.y - 2.0, 20.0)))
    else if s.estadoJuego == Pescando then Reiniciada(s)
    else s
  }

  /** soltarSedal: only in LUCHANDO with tension at least 50; eases tension, lets out depth and lure. */
  function TrasSoltar(s: Sesion): Sesion
  {
    if s.estadoJuego == Luchando && s.tension >= 50.0 then
      s.(tension := MaxReal(s.tension - ReduccionTensionSoltar, 0.0),
         profundidad := if s.profundidad + 10 <= ProfundidadMaxima then s.profundidad + 10 else ProfundidadMaxima,
         posicionSenuelo := s.posicionSenuelo.(y := MinReal(s.posicionSenuelo.y + 3.0, 80.0)))
    else s
  }

  /** alternarPausa: PAUSA resumes to ESPERANDO; CAPTURADO and PERDIDO stay; any other phase pauses. */
  function TrasPausa(s: Sesion): Sesion
  {
    if s.estadoJuego == Pausa then s.(estadoJuego := Esperando)
    else if s.estadoJuego != Capturado && s.estadoJuego != Perdido then s.(estadoJuego := Pausa)
    else s
  }

  // Derived flags

  predicate TensionCriticaEn(s: Sesion) { s.tension >= TensionCritica }
  predicate PuedeRecogerEn(s: Sesion) { s.estadoJuego == Luchando || s.estadoJuego == Pescando }
  predicate PuedeSoltarEn(s: Sesion) { s.estadoJuego == Luchando && s.tension >= 50.0 }
  predicate PuedeLanzarEn(s: Sesion) { s.estadoJuego == Esperando }

  /** Each enabled-flag says exactly when its action does something; recoger can only act when enabled. */
  lemma BanderasSegunAcciones(s: Sesion)
    ensures PuedeLanzarEn(s) <==> TrasLanzar(s) != s
    ensures PuedeSoltarEn(s) <==> TrasSoltar(s) != s
    ensures !PuedeRecogerEn(s) ==> TrasRecoger(s) == s
    ensures TensionCriticaEn(s) ==> ObtenerColorTension(s.tension) == Alta
  {
    if PuedeSoltarEn(s) {
      assert TrasSoltar(s).tension < s.tension;
    }
    if PuedeLanzarEn(s) {
      assert TrasLanzar(s).estadoJuego != s.estadoJuego;
    }
  }

  /** obtenerColorTension: low under UMBRAL_TENSION_MEDIA, high from UMBRAL_TENSION_ALTA, medium between. */
  function ObtenerColorTension(tensionActual: real): (c: ColorTension)
    ensures c == Baja <==> tensionActual < UmbralTensionMedia
    ensures c == Alta <==> tensionActual >= UmbralTensionAlta
  {
    if tensionActual < UmbralTensionMedia then Baja
    else if tensionActual < UmbralTensionAlta then Media
    else Alta
  }

  function RangoColor(c: ColorTension): nat
  {
    match c
    case Baja => 0
    case Media => 1
    case Alta => 2
  }

  /** More tension never shows a calmer colour. */
  lemma ColorMonotono(t1: real, t2: real)
    requires t1 <= t2
    ensures RangoColor(ObtenerColorTension(t1)) <= RangoColor(ObtenerColorTension(t2))
  {
  }

  // Properties of the transitions

  lemma {:induction false} SumasAgregan(h: seq<Captura>, c: Captura)
    ensures SumaPuntos(h + [c]) == SumaPuntos(h) + c.puntosObtenidos
    ensures SumaExperiencia(h + [c]) == SumaExperiencia(h) + c.experienciaObtenida
  {
    assert (h + [c])[..|h|] == h;
  }

  /**
   * On a capture the score grows by exactly the points of the catch and the
   * history by exactly one entry holding them; the level rises by one exactly
   * when the new total reaches `nivel * 100`, keeping the remainder.
   */
  lemma CapturaRecompensa(s: Sesion, pez: InstanciaPez, t: real, ahora: int)
    requires s.nivel >= 1
    ensures var r := TrasCaptura(s, pez, t, ahora);
            var puntos := CalcularPuntosPorCaptura(pez, t, s.nivel);
            var ganada := CalcularExperienciaPorCaptura(pez, t);
            && r.estadoJuego == Capturado
            && r.puntuacion == s.puntuacion + puntos
            && r.pezesCapturados == s.pezesCapturados + [Captura(pez, ahora, t, puntos, ganada)]
            && (s.experiencia + ganada >= s.nivel * 100 ==>
                  r.nivel == s.nivel + 1 && r.experiencia == s.experiencia + ganada - s.nivel * 100)
            && (s.experiencia + ganada < s.nivel * 100 ==>
                  r.nivel == s.nivel && r.experiencia == s.experiencia + ganada)
  {
  }

  /** Applying a catch record that earns no negative experience keeps the invariant. */
  lemma RecompensaPreserva(s: Sesion, c: Captura)
    requires Valida(s)
    requires c.experienciaObtenida >= 0
    ensures Valida(Recompensada(s, c))
  {
    SumasAgregan(s.pezesCapturados, c);
    var r := Recompensada(s, c);
    assert r.puntuacion == SumaPuntos(r.pezesCapturados);
    assert SumaExperiencia(r.pezesCapturados) == r.experiencia + ExperienciaConsumida(r.nivel);
    assert forall x :: x in r.temporizadores ==> x in s.temporizadores || x == OcultarInfo;
  }

  /** A capture keeps the invariant, provided the catch earns no negative experience. */
  lemma CapturaPreserva(s: Sesion, pez: InstanciaPez, t: real, ahora: int)
    requires Valida(s)
    requires CalcularExperienciaPorCaptura(pez, t) >= 0
    ensures Valida(TrasCaptura(s, pez, t, ahora))
  {
    var puntos := CalcularPuntosPorCaptura(pez, t, s.nivel);
    var ganada := CalcularExperienciaPorCaptura(pez, t);
    RecompensaPreserva(s, Captura(pez, ahora, t, puntos, ganada));
  }

  lemma ReinicioPreserva(s: Sesion)
    requires Valida(s)
    ensures Valida(Reiniciada(s)) && Valida(TrasOcultarInfo(s))
  {
  }

  lemma LanzarPreserva(s: Sesion)
    requires Valida(s)
    ensures Valida(TrasLanzar(s))
  {
  }

  /** The cast descends in even steps to exactly PROFUNDIDAD_MAXIMA, and switches to PESCANDO on reaching it. */
  lemma DescensoPreserva(s: Sesion, i: nat, rollEspera: real)
    requires Valida(s)
    requires i < |s.temporizadores| && s.temporizadores[i].DescensoLanzamiento?
    requires EnUnidad(rollEspera)
    ensures var r := TrasDescenso(s, i, rollEspera);
            && Valida(r)
            && r.profundidad == s.temporizadores[i].profundidadActual + VelocidadHundimiento
            && (r.profundidad == ProfundidadMaxima ==> r.estadoJuego == Pescando)
            && (r.profundidad < ProfundidadMaxima ==> r.estadoJuego == s.estadoJuego)
  {
    var d := s.temporizadores[i].profundidadActual;
    assert s.temporizadores[i] in s.temporizadores;
    assert TemporizadorValido(s.temporizadores[i]);
    assert d + VelocidadHundimiento <= ProfundidadMaxima;
    var r := TrasDescenso(s, i, rollEspera);
    if d + VelocidadHundimiento < ProfundidadMaxima {
      forall x | x in r.temporizadores ensures TemporizadorValido(x) {
        var k :| 0 <= k < |r.temporizadores| && r.temporizadores[k] == x;
        if k != i {
          assert x == s.temporizadores[k];
          assert x in s.temporizadores;
        }
      }
    }
  }

  /** The drawn fish is well-formed: the catalog's difficulties are at least 1, so its force is at least 0.5. */
  lemma PezDelJuegoBienFormado(nivel: int, t: TiradasPez, sello: nat, ahora: int)
    requires TiradasPezValidas(t)
    ensures var e := EspecieSorteada(Catalogo, nivel, t.rareza, t.seleccion);
            var pez := GenerarInstanciaPez(e, t.instancia, sello, ahora);
            && 1 <= pez.datos.dificultad <= 10
            && pez.fuerza >= 0.5
  {
    var e := EspecieSorteada(Catalogo, nivel, t.rareza, t.seleccion);
    CatalogoBienFormado();
    assert EspecieBienFormada(e);
  }

  lemma PiquePreserva(s: Sesion, i: nat, t: TiradasPez, sello: nat, ahora: int)
    requires Valida(s)
    requires i < |s.temporizadores| && s.temporizadores[i].Pique?
    requires TiradasPezValidas(t)
    ensures Valida(TrasPique(s, i, t, sello, ahora))
  {
    PezDelJuegoBienFormado(s.nivel, t, sello, ahora);
  }

  /** A bite that fires outside PESCANDO only drops its timer. */
  lemma PiqueFueraDePesca(s: Sesion, i: nat, t: TiradasPez, sello: nat, ahora: int)
    requires i < |s.temporizadores| && s.temporizadores[i].Pique?
    requires TiradasPezValidas(t)
    requires s.estadoJuego != Pescando
    ensures TrasPique(s, i, t, sello, ahora) == s.(temporizadores := Quitar(s.temporizadores, i))
  {
  }

  lemma ForcejeoPreserva(s: Sesion, i: nat, ahora: int, rollLucha: real, rollIncremento: real)
    requires Valida(s)
    requires i < |s.temporizadores| && s.temporizadores[i].CicloLucha?
    requires EnUnidad(rollIncremento)
    ensures Valida(Forcejeo(s, i, ahora, rollLucha, rollIncremento))
  {
    assert s.temporizadores[i] in s.temporizadores;
  }

  /** The second half of a tick keeps the invariant when the fish was well-formed and the clock not negative. */
  lemma CansancioPreserva(s: Sesion, i: nat, pez: InstanciaPez, detenido: bool, t: real, ahora: int)
    requires Valida(s)
    requires !detenido ==> i < |s.temporizadores|
    requires pez.datos.dificultad >= 0 && t >= 0.0
    ensures Valida(Cansancio(s, i, pez, detenido, t, ahora))
  {
    assert ExperienciaSinRareza(pez, t) >= 0;
    var s1 := s.(resistenciaPez := s.resistenciaPez - FactorCansancio);
    if s1.resistenciaPez <= 0.0 {
      if detenido {
        CapturaPreserva(s1, pez, t, ahora);
      } else {
        CapturaPreserva(s1.(temporizadores := Quitar(s1.temporizadores, i)), pez, t, ahora);
      }
    }
  }

  /**
   * A fight tick keeps the invariant when the clock has not gone back: the
   * tension stays within [0, 100], and every catch earns non-negative
   * experience.
   */
  lemma TickPreserva(s: Sesion, i: nat, ahora: int, rollLucha: real, rollIncremento: real)
    requires Valida(s)
    requires i < |s.temporizadores| && s.temporizadores[i].CicloLucha?
    requires EnUnidad(rollIncremento)
    requires ahora >= s.tiempoInicioLucha
    ensures Valida(TrasTickLucha(s, i, ahora, rollLucha, rollIncremento))
  {
    var pez := s.temporizadores[i].pez;
    assert s.temporizadores[i] in s.temporizadores;
    ForcejeoPreserva(s, i, ahora, rollLucha, rollIncremento);
    CansancioPreserva(Forcejeo(s, i, ahora, rollLucha, rollIncremento), i, pez,
                      SeRompe(s, i, rollLucha, rollIncremento), TiempoTranscurrido(s, ahora), ahora);
  }

  /**
   * Every tick wears the fish down by FACTOR_CANSANCIO and leaves the
   * tension within [0, TENSION_MAXIMA]; a struggle that reaches the maximum
   * loses the fish at exactly TENSION_MAXIMA unless the same tick exhausts
   * it, and an exhausted fish is captured.
   */
  lemma TickTension(s: Sesion, i: nat, ahora: int, rollLucha: real, rollIncremento: real)
    requires Valida(s)
    requires i < |s.temporizadores| && s.temporizadores[i].CicloLucha?
    requires EnUnidad(rollIncremento)
    ensures var r := TrasTickLucha(s, i, ahora, rollLucha, rollIncremento);
            && 0.0 <= r.tension <= TensionMaxima
            && r.resistenciaPez == s.resistenciaPez - FactorCansancio
            && (SeRompe(s, i, rollLucha, rollIncremento) && s.resistenciaPez - FactorCansancio > 0.0 ==>
                  r.estadoJuego == Perdido && r.tension == TensionMaxima)
            && (s.resistenciaPez - FactorCansancio <= 0.0 ==> r.estadoJuego == Capturado)
  {
    assert s.temporizadores[i] in s.temporizadores;
  }

  /** The fight goes on while paused: a tick in PAUSA still wears the fish down and can capture it. */
  lemma LuchaSigueEnPausa(s: Sesion, i: nat, ahora: int, rollLucha: real, rollIncremento: real)
    requires i < |s.temporizadores| && s.temporizadores[i].CicloLucha?
    requires EnUnidad(rollIncremento)
    requires s.nivel >= 1
    requires s.estadoJuego == Pausa && rollLucha >= ProbabilidadLucha
    ensures var r := TrasTickLucha(s, i, ahora, rollLucha, rollIncremento);
            && r.resistenciaPez == s.resistenciaPez - FactorCansancio
            && r.estadoJuego == (if r.resistenciaPez <= 0.0 then Capturado else Pausa)
  {
  }

  /**
   * A tick that both breaks the line and exhausts the fish: the capture's
   * phase wins, the catch is rewarded, and both the restart and the hide
   * timeouts are pending, the restart first.
   */
  lemma TickRoturaYCaptura(s: Sesion, i: nat, ahora: int, rollLucha: real, rollIncremento: real)
    requires i < |s.temporizadores| && s.temporizadores[i].CicloLucha?
    requires EnUnidad(rollIncremento)
    requires s.nivel >= 1
    requires rollLucha < ProbabilidadLucha
    requires s.tension + s.temporizadores[i].pez.fuerza * (IncrementoTensionBase + rollIncremento * 2.0) >= TensionMaxima
    requires s.resistenciaPez - FactorCansancio <= 0.0
    ensures var r := TrasTickLucha(s, i, ahora, rollLucha, rollIncremento);
            && r.estadoJuego == Capturado
            && r.tension == TensionMaxima
            && |r.pezesCapturados| == |s.pezesCapturados| + 1
            && r.temporizadores == Quitar(s.temporizadores, i) + [ReinicioTrasPerdida, OcultarInfo]
  {
  }

  lemma RecogerPreserva(s: Sesion)
    requires Valida(s)
    ensures Valida(TrasRecoger(s)) && Valida(TrasSoltar(s)) && Valida(TrasPausa(s))
  {
  }

  /** Reeling in while fighting lowers tension by 15, depth by 5 and the lure by 2, never below 0, 0 and 20. */
  lemma RecogerEnLucha(s: Sesion)
    requires s.estadoJuego == Luchando
    ensures var r := TrasRecoger(s);
            && r.tension == (if s.tension >= 15.0 then s.tension - 15.0 else 0.0)
            && r.profundidad == (if s.profundidad >= 5 then s.profundidad - 5 else 0)
            && r.posicionSenuelo.y == (if s.posicionSenuelo.y >= 22.0 then s.posicionSenuelo.y - 2.0 else 20.0)
            && r.estadoJuego == Luchando && r.temporizadores == s.temporizadores
  {
  }

  /** Pausing and resuming does not return to the phase left: a paused cast, wait or fight resumes as ESPERANDO. */
  lemma PausaNoRestaura(s: Sesion)
    requires s.estadoJuego in {Esperando, Lanzando, Pescando, Luchando}
    ensures TrasPausa(s).estadoJuego == Pausa
    ensures TrasPausa(TrasPausa(s)) == s.(estadoJuego := Esperando)
  {
  }

  /** Restarting twice is restarting once. */
  lemma ReinicioIdempotente(s: Sesion)
    ensures Reiniciada(Reiniciada(s)) == Reiniciada(s)
  {
  }

  // The capture panel

  /**
   * The records the capture panel shows, as the game screen asks for them:
   * the catch on display against the whole history. The panel computes them
   * only while a catch is shown and the history is not empty.
   */
  function RecordsDelPanel(s: Sesion): Option<Records>
  {
    if s.mostrandoInfoPez && s.ultimaCaptura.Some? && s.pezesCapturados != [] then
      Some(VerificarRecords(s.ultimaCaptura.value, s.pezesCapturados))
    else None
  }

  /**
   * Right after any capture, the first of a session included, the panel
   * reports no record at all: the history it is given already ends with
   * the catch it compares.
   */
  lemma PanelSinRecords(s: Sesion, c: Captura)
    requires s.nivel >= 1
    ensures RecordsDelPanel(Recompensada(s, c)) == Some(Records(false, false, false, false))
  {
    var r := Recompensada(s, c);
    assert r.pezesCapturados[|r.pezesCapturados| - 1] == c;
    RecordsConCapturaIncluida(c, r.pezesCapturados);
  }

  /** The intended panel: the catch on display against the catches before it, by species. */
  function RecordsDelPanelPorEspecie(s: Sesion): Option<Records>
  {
    if s.mostrandoInfoPez && s.ultimaCaptura.Some? && s.pezesCapturados != [] then
      Some(VerificarRecordsPorEspecie(s.ultimaCaptura.value, s.pezesCapturados[..|s.pezesCapturados| - 1]))
    else None
  }

  /**
   * Right after a capture, the intended panel compares the catch with the
   * history as it was before it; the first catch of a session is the first
   * of its species and a record in every category.
   */
  lemma PanelPorEspecieComparaConAnteriores(s: Sesion, c: Captura)
    requires s.nivel >= 1
    ensures RecordsDelPanelPorEspecie(Recompensada(s, c)) == Some(VerificarRecordsPorEspecie(c, s.pezesCapturados))
    ensures s.pezesCapturados == [] ==>
              RecordsDelPanelPorEspecie(Recompensada(s, c)) == Some(Records(true, true, true, true))
  {
    var r := Recompensada(s, c);
    assert r.pezesCapturados[..|r.pezesCapturados| - 1] == s.pezesCapturados;
  }

  // obtenerEstadisticas

  /** `pezMasGrande` of obtenerEstadisticas: `reduce` from `null`, replacing the kept entry by a strictly heavier one (`null` weighs 0). */
  function PezMasGrandeDesdeNulo(h: seq<Captura>): (r: Option<Captura>)
    ensures r.Some? <==> exists c :: c in h && c.pez.pesoActual > 0
    ensures r.Some? ==> r.value in h && r.value.pez.pesoActual > 0
    ensures r.Some? ==> forall c :: c in h ==> c.pez.pesoActual <= r.value.pez.pesoActual
    ensures r.Some? ==> exists k :: 0 <= k < |h| && h[k] == r.value &&
                          forall j :: 0 <= j < k ==> h[j].pez.pesoActual < r.value.pez.pesoActual
  {
    if h == [] then None
    else
      var p := h[..|h| - 1];
      var c := h[|h| - 1];
      assert h == p + [c];
      var mayor := PezMasGrandeDesdeNulo(p);
      var pesoMayor := if mayor.Some? then mayor.value.pez.pesoActual else 0;
      if c.pez.pesoActual > pesoMayor then Some(c) else mayor
  }

  /** The summary obtenerEstadisticas returns; weights and times in tenths. */
  datatype EstadisticasJugador = EstadisticasJugador(
    totalPeces: nat,
    pesoTotal: int,
    pezMasGrande: Option<Captura>,
    especiesCapturadas: nat,
    tiempoTotalLucha: int,
    promedioTiempoLucha: int)

  /** The state of the game hook, updated in place by its actions and timer callbacks. */
  class JuegoPesca {
    var estadoJuego: Estado
    var pezActual: Option<InstanciaPez>
    var tension: real
    var profundidad: int
    var tiempoLucha: real
    var posicionSenuelo: Posicion
    var puntuacion: int
    var nivel: int
    var experiencia: int
    var pezesCapturados: seq<Captura>
    var mostrandoInfoPez: bool
    var ultimaCaptura: Option<Captura>
    var temporizadores: seq<Temporizador>
    var tiempoInicioLucha: int
    var resistenciaPez: real

    function Vista(): Sesion
      reads this
    {
      Sesion(estadoJuego, pezActual, tension, profundidad, tiempoLucha, posicionSenuelo, puntuacion, nivel,
             experiencia, pezesCapturados, mostrandoInfoPez, ultimaCaptura, temporizadores, tiempoInicioLucha,
             resistenciaPez)
    }

    ghost predicate Valid()
      reads this
    {
      Valida(Vista())
    }

    constructor ()
      ensures Vista() == SesionInicial && Valid()
    {
      estadoJuego, pezActual, tension, profundidad, tiempoLucha := Esperando, None, 0.0, 0, 0.0;
      posicionSenuelo := Posicion(50.0, 20.0);
      puntuacion, nivel, experiencia, pezesCapturados := 0, 1, 0, [];
      mostrandoInfoPez, ultimaCaptura := false, None;
      temporizadores, tiempoInicioLucha, resistenciaPez := [], 0, 0.0;
    }

    /** reiniciarJuego: callable in any state, and it keeps the invariant when it held. */
    method ReiniciarJuego()
      modifies this
      ensures Vista() == Reiniciada(old(Vista()))
      ensures old(Valid()) ==> Valid()
    {
      if Valid() {
        ReinicioPreserva(Vista());
      }
      AbandonarEncuentro();
      RecolocarSenuelo();
    }

    /** The first half of reiniciarJuego: the timers are cleared and the encounter is dropped. */
    method AbandonarEncuentro()
      modifies this
      ensures Vista() == old(Vista()).(estadoJuego := Esperando, pezActual := None, temporizadores := [],
                                      tiempoInicioLucha := 0, resistenciaPez := 0.0)
    {
      temporizadores, estadoJuego, pezActual, tiempoInicioLucha, resistenciaPez := [], Esperando, None, 0, 0.0;
    }

    /** The second half of reiniciarJuego: tension, depth, fight clock and lure are back at their start values. */
    method RecolocarSenuelo()
      modifies this
      ensures Vista() == old(Vista()).(tension := 0.0, profundidad := 0, tiempoLucha := 0.0,
                                      posicionSenuelo := Posicion(50.0, 20.0))
    {
      tension, profundidad, tiempoLucha, posicionSenuelo := 0.0, 0, 0.0, Posicion(50.0, 20.0);
    }

    method LanzarSenuelo()
      requires Valid()
      modifies this
      ensures Vista() == TrasLanzar(old(Vista())) && Valid()
    {
      LanzarPreserva(Vista());
      if estadoJuego != Esperando {
        return;
      }
      estadoJuego := Lanzando;
      tension := 0.0;
      profundidad := 0;
      temporizadores := temporizadores + [DescensoLanzamiento(0)];
    }

    /** The cast interval at index `i` ticks. */
    method PasoDescenso(i: nat, rollEspera: real)
      requires Valid()
      requires i < |temporizadores| && temporizadores[i].DescensoLanzamiento?
      requires EnUnidad(rollEspera)
      modifies this
      ensures Vista() == TrasDescenso(old(Vista()), i, rollEspera) && Valid()
    {
      DescensoPreserva(Vista(), i, rollEspera);
      var profundidadActual := temporizadores[i].profundidadActual + VelocidadHundimiento;
      profundidad := profundidadActual;
      posicionSenuelo := posicionSenuelo.(y := AlturaSenuelo(profundidadActual));
      if profundidadActual >= ProfundidadMaxima {
        estadoJuego := Pescando;
        var tiempoEspera := TiempoEspera(rollEspera);
        temporizadores := Quitar(temporizadores, i) + [Pique(tiempoEspera)];
      } else {
        temporizadores := temporizadores[i := DescensoLanzamiento(profundidadActual)];
      }
    }

    /** The bite timeout at index `i` fires. */
    method DisparoPique(i: nat, t: TiradasPez, sello: nat, ahora: int)
      requires Valid()
      requires i < |temporizadores| && temporizadores[i].Pique?
      requires TiradasPezValidas(t)
      modifies this
      ensures Vista() == TrasPique(old(Vista()), i, t, sello, ahora) && Valid()
    {
      PiquePreserva(Vista(), i, t, sello, ahora);
      temporizadores := Quitar(temporizadores, i);
      if estadoJuego == Pescando {
        IniciarLuchaAhora(t, sello, ahora);
      }
    }

    /** iniciarLucha. */
    method IniciarLuchaAhora(t: TiradasPez, sello: nat, ahora: int)
      requires TiradasPezValidas(t)
      modifies this
      ensures Vista() == IniciarLucha(old(Vista()), t, sello, ahora)
    {
      var pez := ObtenerPezAleatorio(Catalogo, nivel, t, sello, ahora);
      pezActual := Some(pez);
      estadoJuego := Luchando;
      tiempoLucha := 0.0;
      tiempoInicioLucha := ahora;
      resistenciaPez := pez.resistencia;
      temporizadores := temporizadores + [CicloLucha(pez)];
    }

    /** perderPez. */
    method PerderPez()
      modifies this
      ensures Vista() == Perdida(old(Vista()))
    {
      estadoJuego := Perdido;
      temporizadores := temporizadores + [ReinicioTrasPerdida];
    }

    /** capturarPez. */
    method CapturarPez(pez: InstanciaPez, tiempoLuchaFinal: real, ahora: int)
      requires nivel >= 1
      modifies this
      ensures Vista() == TrasCaptura(old(Vista()), pez, tiempoLuchaFinal, ahora)
    {
      var puntosGanados := CalcularPuntosPorCaptura(pez, tiempoLuchaFinal, nivel);
      var experienciaGanada := CalcularExperienciaPorCaptura(pez, tiempoLuchaFinal);
      var pezCapturado := Captura(pez, ahora, tiempoLuchaFinal, puntosGanados, experienciaGanada);
      Recompensar(pezCapturado);
    }

    /** The state updates of capturarPez for the catch record `pezCapturado`. */
    method Recompensar(pezCapturado: Captura)
      requires nivel >= 1
      modifies this
      ensures Vista() == Recompensada(old(Vista()), pezCapturado)
    {
      estadoJuego := Capturado;
      SumarProgreso(pezCapturado.puntosObtenidos, pezCapturado.experienciaObtenida);
      pezesCapturados, ultimaCaptura := pezesCapturados + [pezCapturado], Some(pezCapturado);
      mostrandoInfoPez, temporizadores := true, temporizadores + [OcultarInfo];
    }

    /** The score, experience and level updates of capturarPez. */
    method SumarProgreso(puntosGanados: int, experienciaGanada: int)
      requires nivel >= 1
      modifies this`puntuacion, this`nivel, this`experiencia
      ensures puntuacion == old(puntuacion) + puntosGanados
      ensures (nivel, experiencia) == SubirNivel(old(nivel), old(experiencia) + experienciaGanada)
    {
      puntuacion := puntuacion + puntosGanados;
      var nuevaExp := experiencia + experienciaGanada;
      var expRequeridaParaNivel := nivel * ExperienciaPorNivel;
      if nuevaExp >= expRequeridaParaNivel {
        nivel := nivel + 1;
        experiencia := nuevaExp - expRequeridaParaNivel;
      } else {
        experiencia := nuevaExp;
      }
    }

    /** One tick of the fight interval at index `i`. */
    method TickLucha(i: nat, ahora: int, rollLucha: real, rollIncremento: real)
      requires Valid()
      requires i < |temporizadores| && temporizadores[i].CicloLucha?
      requires EnUnidad(rollIncremento)
      requires ahora >= tiempoInicioLucha
      modifies this
      ensures Vista() == TrasTickLucha(old(Vista()), i, ahora, rollLucha, rollIncremento) && Valid()
    {
      TickPreserva(Vista(), i, ahora, rollLucha, rollIncremento);
      var pez := temporizadores[i].pez;
      var tiempoTranscurrido := (ahora - tiempoInicioLucha) as real / 1000.0;
      var detenido := Forcejear(i, ahora, rollLucha, rollIncremento);
      CansarPez(i, pez, detenido, tiempoTranscurrido, ahora);
    }

    /** The first half of a fight tick; `detenido` says whether the interval was stopped. */
    method Forcejear(i: nat, ahora: int, rollLucha: real, rollIncremento: real) returns (detenido: bool)
      requires i < |temporizadores| && temporizadores[i].CicloLucha?
      requires EnUnidad(rollIncremento)
      modifies this
      ensures detenido == SeRompe(old(Vista()), i, rollLucha, rollIncremento)
      ensures Vista() == Forcejeo(old(Vista()), i, ahora, rollLucha, rollIncremento)
    {
      var pez := temporizadores[i].pez;
      tiempoLucha := (ahora - tiempoInicioLucha) as real / 1000.0;
      detenido := false;
      if rollLucha < ProbabilidadLucha {
        tension := TensionTrasForcejeo(tension, pez.fuerza, rollIncremento);
        if tension >= TensionMaxima {
          detenido := true;
          temporizadores := Quitar(temporizadores, i);
          PerderPez();
        }
      }
    }

    /** The second half of a fight tick. */
    method CansarPez(i: nat, pez: InstanciaPez, detenido: bool, tiempoTranscurrido: real, ahora: int)
      requires !detenido ==> i < |temporizadores|
      requires nivel >= 1
      modifies this
      ensures Vista() == Cansancio(old(Vista()), i, pez, detenido, tiempoTranscurrido, ahora)
    {
      resistenciaPez := resistenciaPez - FactorCansancio;
      if resistenciaPez <= 0.0 {
        if !detenido {
          temporizadores := Quitar(temporizadores, i);
        }
        CapturarPez(pez, tiempoTranscurrido, ahora);
      }
    }

    /** The timeout at index `i` after a capture fires. */
    method DisparoOcultarInfo(i: nat)
      requires Valid()
      requires i < |temporizadores| && temporizadores[i] == OcultarInfo
      modifies this
      ensures Vista() == TrasOcultarInfo(old(Vista())) && Valid()
    {
      ReinicioPreserva(Vista());
      mostrandoInfoPez := false;
      ReiniciarJuego();
    }

    /** The timeout at index `i` after a loss fires. */
    method DisparoReinicio(i: nat)
      requires Valid()
      requires i < |temporizadores| && temporizadores[i] == ReinicioTrasPerdida
      modifies this
      ensures Vista() == Reiniciada(old(Vista())) && Valid()
    {
      ReinicioPreserva(Vista());
      ReiniciarJuego();
    }

    method RecogerSedal()
      requires Valid()
      modifies this
      ensures Vista() == TrasRecoger(old(Vista())) && Valid()
    {
      RecogerPreserva(Vista());
      if estadoJuego == Luchando {
        tension := MaxReal(tension - ReduccionTensionRecoger, 0.0);
        profundidad := Max(profundidad - VelocidadRecogida, 0);
        posicionSenuelo := posicionSenuelo.(y := MaxReal(posicionSenuelo.y - 2.0, 20.0));
      } else if estadoJuego == Pescando {
        ReiniciarJuego();
      }
    }

    method SoltarSedal()
      requires Valid()
      modifies this
      ensures Vista() == TrasSoltar(old(Vista())) && Valid()
    {
      RecogerPreserva(Vista());
      if estadoJuego == Luchando && tension >= 50.0 {
        tension := MaxReal(tension - ReduccionTensionSoltar, 0.0);
        profundidad := if profundidad + 10 <= ProfundidadMaxima then profundidad + 10 else ProfundidadMaxima;
        posicionSenuelo := posicionSenuelo.(y := MinReal(posicionSenuelo.y + 3.0, 80.0));
      }
    }

    method AlternarPausa()
      requires Valid()
      modifies this
      ensures Vista() == TrasPausa(old(Vista())) && Valid()
    {
      RecogerPreserva(Vista());
      if estadoJuego == Pausa {
        estadoJuego := Esperando;
      } else if estadoJuego != Capturado && estadoJuego != Perdido {
        estadoJuego := Pausa;
      }
    }

    /**
     * obtenerEstadisticas: counts, totals rounded to tenths, the heaviest
     * catch and the number of distinct ids; the average is 0 with no catches.
     */
    function ObtenerEstadisticas(): (r: EstadisticasJugador)
      reads this
      ensures r.totalPeces == |pezesCapturados|
      ensures r.pesoTotal == SumaPesos(pezesCapturados)
      ensures r.especiesCapturadas == |SinRepetidos(Ids(pezesCapturados))|
      ensures r.pezMasGrande == PezMasGrandeDesdeNulo(pezesCapturados)
      ensures r.tiempoTotalLucha == Decimas(TiempoTotal(pezesCapturados))
      ensures r.promedioTiempoLucha ==
                if pezesCapturados == [] then 0 else Decimas(TiempoTotal(pezesCapturados) / |pezesCapturados| as real)
    {
      var totalPeces := |pezesCapturados|;
      var pesoTotal := SumaPesosKg(pezesCapturados);
      SumaPesosKgEnDecimas(pezesCapturados);
      DecimasExactas(SumaPesos(pezesCapturados));
      var tiempoTotalLucha := TiempoTotal(pezesCapturados);
      EstadisticasJugador(
        totalPeces,
        Decimas(pesoTotal),
        PezMasGrandeDesdeNulo(pezesCapturados),
        |SinRepetidos(Ids(pezesCapturados))|,
        Decimas(tiempoTotalLucha),
        if totalPeces > 0 then Decimas(tiempoTotalLucha / totalPeces as real) else 0)
    }
  }
}
