/**
 * Scoring, progression and record arithmetic (src/herramientas/calculosPesca.js).
 *
 * Every formula is floor-based; `Math.floor` is `.Floor` on exact reals.
 * Weights are in tenths of a kilogram, so `pez.pesoActual` of the source is
 * `PesoKg(pez)` here. The `Math.random()` draws of the resistance and force
 * formulas are parameters in [0, 1).
 */
module Calculos {
  import opened Opciones
  import opened Constantes
  import opened Colecciones
  import opened Peces

  /**
   * A history entry: the rolled fish spread into a new object with the
   * capture date, the fight time in seconds and the rewards it earned.
   */
  datatype Captura = Captura(
    pez: InstanciaPez,
    fechaCaptura: int,
    tiempoLucha: real,
    puntosObtenidos: int,
    experienciaObtenida: int)

  function IdDe(c: Captura): IdPez
  {
    c.pez.datos.id
  }

  function PesoDe(c: Captura): int
  {
    c.pez.pesoActual
  }

  /** `Math.max(a, b)` on integers. */
  function Max(a: int, b: int): int
  {
    if a >= b then a else b
  }

  // calcularPuntosPorCaptura

  /** The rarity multiplier a lookup in CONFIGURACION_RAREZA applies; an unknown label leaves the points as they are. */
  function MultiplicadorPuntos(r: Rareza): (m: real)
    ensures m >= 1.0
    ensures r.OtraRareza? ==> m == 1.0
  {
    match ConfigRareza(r)
    case Some(c) => c.multiplicadorPuntos
    case None => 1.0
  }

  /** `puntosBase` after the rarity bonus: never below the species' own points when those are non-negative. */
  function PuntosBase(pez: InstanciaPez): (r: real)
    ensures pez.datos.puntos >= 0 ==> r >= pez.datos.puntos as real
  {
    var puntos := pez.datos.puntos as real;
    var m := MultiplicadorPuntos(pez.datos.rareza);
    if puntos >= 0.0 then
      AlMenosElMismo(puntos, m);
      puntos * m
    else
      puntos * m
  }

  /** `1 + (nivelJugador - 1) * 0.1`. */
  function MultiplicadorNivelPuntos(nivelJugador: int): real
  {
    1.0 + (nivelJugador - 1) as real * 0.1
  }

  /** `bonusTiempo`: `Math.floor(tiempoLucha * 0.1 * puntosBase)`, never negative for a non-negative time and points. */
  function BonusTiempo(pez: InstanciaPez, tiempoLucha: real): (r: int)
    ensures tiempoLucha >= 0.0 && pez.datos.puntos >= 0 ==> r >= 0
  {
    var puntosBase := PuntosBase(pez);
    var x := tiempoLucha * MultiplicadorTiempoLucha * puntosBase;
    if tiempoLucha >= 0.0 && pez.datos.puntos >= 0 then
      ProductoNoNegativo(tiempoLucha, MultiplicadorTiempoLucha);
      ProductoNoNegativo(tiempoLucha * MultiplicadorTiempoLucha, puntosBase);
      x.Floor
    else
      x.Floor
  }

  /** `bonusPeso`: with the weight held in tenths of a kilogram nothing is lost to the floor, so it is the weight in tenths. */
  function BonusPeso(pez: InstanciaPez): (r: int)
    ensures r == pez.pesoActual
  {
    assert PesoKg(pez) * MultiplicadorPeso == pez.pesoActual as real;
    (PesoKg(pez) * MultiplicadorPeso).Floor
  }

  /** `bonusLongitud`: exactly twice the length. */
  function BonusLongitud(pez: InstanciaPez): (r: int)
    ensures r == 2 * pez.longitudActual
  {
    assert pez.longitudActual as real * MultiplicadorLongitud == (2 * pez.longitudActual) as real;
    (pez.longitudActual as real * MultiplicadorLongitud).Floor
  }

  /** `puntosBase + bonusTiempo + bonusPeso + bonusLongitud`, non-negative for non-negative inputs. */
  function SumaBonificada(pez: InstanciaPez, tiempoLucha: real): (r: real)
    ensures tiempoLucha >= 0.0 && pez.datos.puntos >= 0 && pez.pesoActual >= 0 && pez.longitudActual >= 0 ==> r >= 0.0
  {
    PuntosBase(pez) + BonusTiempo(pez, tiempoLucha) as real + BonusPeso(pez) as real + BonusLongitud(pez) as real
  }

  /** `puntosFinales`: the bonused sum scaled by the level multiplier, floored. */
  function PuntosFinales(pez: InstanciaPez, tiempoLucha: real, nivelJugador: int): int
  {
    (SumaBonificada(pez, tiempoLucha) * MultiplicadorNivelPuntos(nivelJugador)).Floor
  }

  /** calcularPuntosPorCaptura: never less than the species' own points. */
  function CalcularPuntosPorCaptura(pez: InstanciaPez, tiempoLucha: real, nivelJugador: int): (r: int)
    ensures r >= pez.datos.puntos
    ensures r >= PuntosFinales(pez, tiempoLucha, nivelJugador)
    ensures r == pez.datos.puntos || r == PuntosFinales(pez, tiempoLucha, nivelJugador)
  {
    Max(PuntosFinales(pez, tiempoLucha, nivelJugador), pez.datos.puntos)
  }

  /**
   * A common fish caught instantly by a level-1 player earns its points plus
   * its weight in tenths plus twice its length.
   */
  lemma PuntosComunNivelUno(pez: InstanciaPez)
    requires pez.datos.rareza == Comun
    requires pez.pesoActual >= 0 && pez.longitudActual >= 0
    ensures CalcularPuntosPorCaptura(pez, 0.0, 1) == pez.datos.puntos + pez.pesoActual + 2 * pez.longitudActual
  {
    assert PuntosBase(pez) == pez.datos.puntos as real;
    assert BonusTiempo(pez, 0.0) == 0;
    var suma := pez.datos.puntos + pez.pesoActual + 2 * pez.longitudActual;
    assert SumaBonificada(pez, 0.0) == suma as real;
    assert PuntosFinales(pez, 0.0, 1) == (suma as real * 1.0).Floor;
  }

  /** With non-negative inputs, a higher level never earns fewer points for the same catch. */
  lemma PuntosSegunNivel(pez: InstanciaPez, tiempoLucha: real, n1: int, n2: int)
    requires n1 <= n2
    requires tiempoLucha >= 0.0 && pez.datos.puntos >= 0 && pez.pesoActual >= 0 && pez.longitudActual >= 0
    ensures CalcularPuntosPorCaptura(pez, tiempoLucha, n1) <= CalcularPuntosPorCaptura(pez, tiempoLucha, n2)
  {
    PuntosFinalesSegunNivel(pez, tiempoLucha, n1, n2);
  }

  lemma PuntosFinalesSegunNivel(pez: InstanciaPez, tiempoLucha: real, n1: int, n2: int)
    requires n1 <= n2
    requires tiempoLucha >= 0.0 && pez.datos.puntos >= 0 && pez.pesoActual >= 0 && pez.longitudActual >= 0
    ensures PuntosFinales(pez, tiempoLucha, n1) <= PuntosFinales(pez, tiempoLucha, n2)
  {
    PisoSegunFactor(SumaBonificada(pez, tiempoLucha), MultiplicadorNivelPuntos(n1), MultiplicadorNivelPuntos(n2));
  }

  /** Scaling a non-negative amount by a factor of at least one does not shrink it. */
  lemma AlMenosElMismo(a: real, m: real)
    requires a >= 0.0 && m >= 1.0
    ensures a * m >= a
  {
    assert a * m - a == a * (m - 1.0);
    ProductoNoNegativo(a, m - 1.0);
  }

  lemma ProductoNoNegativo(a: real, b: real)
    requires a >= 0.0 && b >= 0.0
    ensures a * b >= 0.0
  {
  }

  /** Flooring `s * m` for a non-negative `s` is monotone in `m`. */
  lemma PisoSegunFactor(s: real, m1: real, m2: real)
    requires s >= 0.0 && m1 <= m2
    ensures (s * m1).Floor <= (s * m2).Floor
  {
    assert s * m2 - s * m1 == s * (m2 - m1);
    ProductoNoNegativo(s, m2 - m1);
  }

  // calcularExperienciaPorCaptura

  /** The function's own rarity table; an unknown label counts as 1. */
  function MultiplicadorExperiencia(r: Rareza): real
  {
    match r
    case Comun => 1.0
    case Raro => 1.5
    case Epico => 2.5
    case Legendario => 4.0
    case OtraRareza(_) => 1.0
  }

  /** The experience before the rarity multiplier: base, difficulty bonus and whole seconds of fight. */
  function ExperienciaSinRareza(pez: InstanciaPez, tiempoLucha: real): int
  {
    ExperienciaBaseCaptura + pez.datos.dificultad * BonusExperienciaDificultad
    + (tiempoLucha * BonusExperienciaTiempo).Floor
  }

  /** calcularExperienciaPorCaptura: at least the unmultiplied experience when that is not negative. */
  function CalcularExperienciaPorCaptura(pez: InstanciaPez, tiempoLucha: real): (r: int)
    ensures ExperienciaSinRareza(pez, tiempoLucha) >= 0 ==> r >= ExperienciaSinRareza(pez, tiempoLucha)
  {
    var base := ExperienciaSinRareza(pez, tiempoLucha);
    var m := MultiplicadorExperiencia(pez.datos.rareza);
    assert base >= 0 ==> base as real * m >= base as real;
    (base as real * m).Floor
  }

  /** The same catch at another tier. */
  function ConRareza(pez: InstanciaPez, r: Rareza): InstanciaPez
  {
    pez.(datos := pez.datos.(rareza := r))
  }

  /**
   * For the same catch, experience grows with the tier: a common fish earns
   * exactly the unmultiplied amount, a legendary one four times that, and an
   * unknown tier counts as common.
   */
  lemma ExperienciaSegunRareza(pez: InstanciaPez, tiempoLucha: real, etiqueta: string)
    requires ExperienciaSinRareza(pez, tiempoLucha) >= 0
    ensures var base := ExperienciaSinRareza(pez, tiempoLucha);
            && CalcularExperienciaPorCaptura(ConRareza(pez, Comun), tiempoLucha) == base
            && CalcularExperienciaPorCaptura(ConRareza(pez, Comun), tiempoLucha)
               <= CalcularExperienciaPorCaptura(ConRareza(pez, Raro), tiempoLucha)
            && CalcularExperienciaPorCaptura(ConRareza(pez, Raro), tiempoLucha)
               <= CalcularExperienciaPorCaptura(ConRareza(pez, Epico), tiempoLucha)
            && CalcularExperienciaPorCaptura(ConRareza(pez, Epico), tiempoLucha)
               <= CalcularExperienciaPorCaptura(ConRareza(pez, Legendario), tiempoLucha)
            && CalcularExperienciaPorCaptura(ConRareza(pez, Legendario), tiempoLucha) == 4 * base
            && CalcularExperienciaPorCaptura(ConRareza(pez, OtraRareza(etiqueta)), tiempoLucha) == base
  {
    var base := ExperienciaSinRareza(pez, tiempoLucha);
    assert ExperienciaSinRareza(ConRareza(pez, Comun), tiempoLucha) == base;
    assert ExperienciaSinRareza(ConRareza(pez, Raro), tiempoLucha) == base;
    assert ExperienciaSinRareza(ConRareza(pez, Epico), tiempoLucha) == base;
    assert ExperienciaSinRareza(ConRareza(pez, Legendario), tiempoLucha) == base;
    assert ExperienciaSinRareza(ConRareza(pez, OtraRareza(etiqueta)), tiempoLucha) == base;
    assert base as real * 4.0 == (4 * base) as real;
  }

  // calcularExperienciaRequerida

  /** `Math.pow(b, e)` for an integer exponent; a negative one gives the reciprocal power. */
  function Potencia(b: real, e: int): real
    requires b > 0.0
    decreases if e < 0 then -e else e
  {
    if e == 0 then 1.0
    else if e > 0 then b * Potencia(b, e - 1)
    else Potencia(b, e + 1) / b
  }

  lemma {:induction false} PotenciaAlMenosUno(b: real, e: int)
    requires b >= 1.0
    ensures e >= 0 ==> Potencia(b, e) >= 1.0
    decreases if e < 0 then 0 else e
  {
    if e > 0 {
      PotenciaAlMenosUno(b, e - 1);
      assert b * Potencia(b, e - 1) >= Potencia(b, e - 1);
    }
  }

  /** calcularExperienciaRequerida: `floor(100 * 1.2^(nivel - 1))`. */
  function CalcularExperienciaRequerida(nivelActual: int): (r: int)
    ensures nivelActual >= 1 ==> r >= ExperienciaPorNivel
  {
    PotenciaAlMenosUno(MultiplicadorNivel, nivelActual - 1);
    (ExperienciaPorNivel as real * Potencia(MultiplicadorNivel, nivelActual - 1)).Floor
  }

  /** Reaching level 2 takes 100 points, and from level 1 on every level needs strictly more than the one before. */
  lemma ExperienciaRequeridaCrece(nivelActual: int)
    requires nivelActual >= 1
    ensures CalcularExperienciaRequerida(1) == 100
    ensures CalcularExperienciaRequerida(nivelActual) < CalcularExperienciaRequerida(nivelActual + 1)
  {
    var p := Potencia(MultiplicadorNivel, nivelActual - 1);
    PotenciaAlMenosUno(MultiplicadorNivel, nivelActual - 1);
    assert Potencia(MultiplicadorNivel, nivelActual) == 1.2 * p;
    assert 100.0 * (1.2 * p) >= 100.0 * p + 20.0;
  }

  /**
   * The curve is not the threshold the game applies on a capture
   * (`nivel * 100`): for level 2 the curve asks 120 where the game asks 200.
   */
  lemma CurvaNoEsUmbralDelJuego()
    ensures CalcularExperienciaRequerida(2) == 120
    ensures 2 * ExperienciaPorNivel == 200
  {
    assert Potencia(MultiplicadorNivel, 1) == 1.2;
  }

  // calcularResistenciaPez

  /** The behaviour table; an unknown behaviour counts as 1.0. */
  function FactorComportamiento(c: Comportamiento): (f: real)
    ensures 0.7 <= f <= 1.4
    ensures c.OtroComportamiento? ==> f == 1.0
  {
    match c
    case Pasivo => 0.7
    case Activo => 1.0
    case Agresivo => 1.3
    case Territorial => 1.1
    case Nocturno => 1.2
    case Rapido => 1.4
    case Esquivo => 0.9
    case OtroComportamiento(_) => 1.0
  }

  /** `(dificultad * 8 + pesoActual * 2) * multiplicador`, before the random variation. */
  function ResistenciaSinVariacion(pez: InstanciaPez): real
  {
    (pez.datos.dificultad as real * 8.0 + PesoKg(pez) * 2.0) * FactorComportamiento(pez.datos.comportamiento)
  }

  /**
   * calcularResistenciaPez: the base scaled by a variation `0.8 + roll * 0.4`
   * in [0.8, 1.2), floored.
   */
  function CalcularResistenciaPez(pez: InstanciaPez, roll: real): (r: int)
    requires EnUnidad(roll)
    ensures var x := ResistenciaSinVariacion(pez);
            x >= 0.0 ==> (x * 0.8).Floor <= r <= (x * 1.2).Floor
  {
    Variada(ResistenciaSinVariacion(pez), roll)
  }

  /** `Math.floor(x * (0.8 + roll * 0.4))`. */
  function Variada(x: real, roll: real): (r: int)
    requires EnUnidad(roll)
    ensures x >= 0.0 ==> (x * 0.8).Floor <= r <= (x * 1.2).Floor
  {
    var y := x * (0.8 + roll * 0.4);
    if x >= 0.0 then
      VariacionAcotada(x, roll, 0.8, 0.4);
      PisoEntre(x * 0.8, y, x * 1.2);
      y.Floor
    else
      y.Floor
  }

  /** Flooring keeps the order of reals. */
  lemma PisoEntre(a: real, y: real, b: real)
    requires a <= y <= b
    ensures a.Floor <= y.Floor <= b.Floor
  {
  }

  /** Scaling a non-negative `x` by `lo + roll * ancho` with `roll` in [0, 1) stays between `x * lo` and `x * (lo + ancho)`. */
  lemma VariacionAcotada(x: real, roll: real, lo: real, ancho: real)
    requires EnUnidad(roll) && ancho >= 0.0
    ensures x >= 0.0 ==> x * lo <= x * (lo + roll * ancho) <= x * (lo + ancho)
  {
    if x >= 0.0 {
      ProductoUnidad(roll, x * ancho);
      assert x * (lo + roll * ancho) == x * lo + roll * (x * ancho);
      assert x * (lo + ancho) == x * lo + x * ancho;
    }
  }

  // calcularFuerzaPez

  /**
   * calcularFuerzaPez: `max(0.5, (dificultad * 0.5 + sqrt(peso) * 0.3) * v)`
   * with `v = 0.7 + roll * 0.6` in [0.7, 1.3). The square root is given as
   * `raiz`.
   */
  function CalcularFuerzaPez(pez: InstanciaPez, raiz: real, roll: real): (r: real)
    requires raiz >= 0.0 && raiz * raiz == PesoKg(pez)
    requires EnUnidad(roll)
    ensures r >= 0.5
    ensures var base := pez.datos.dificultad as real * 0.5 + raiz * 0.3;
            base >= 0.0 ==> base * 0.7 <= r || r == 0.5
    ensures var base := pez.datos.dificultad as real * 0.5 + raiz * 0.3;
            base >= 0.0 ==> r <= 0.5 || r < base * 1.3
  {
    var base := pez.datos.dificultad as real * 0.5 + raiz * 0.3;
    var variacion := 0.7 + roll * 0.6;
    ProductoUnidad(roll, base * 0.6);
    assert base * variacion == base * 0.7 + roll * (base * 0.6);
    var f := base * variacion;
    if f > 0.5 then f else 0.5
  }

  // calcularProbabilidadPique

  /** `horaDelDia`; `OtraHora` stands for any other value, `undefined` included. */
  datatype HoraDelDia = Amanecer | Manana | Mediodia | Tarde | Atardecer | Noche | OtraHora(etiqueta: string)

  /** `climaActual`; `OtroClima` stands for any other value. */
  datatype Clima = Soleado | Nublado | Lluvia | Tormenta | OtroClima(etiqueta: string)

  /** The fields of `parametros`; `tipoCarnada` is `None` when absent. */
  datatype ParametrosPique = ParametrosPique(
    profundidad: real,
    tiempoEspera: real,
    nivelJugador: int,
    tipoCarnada: Option<string>,
    horaDelDia: HoraDelDia,
    climaActual: Clima)

  function FactorHora(h: HoraDelDia): (f: real)
    ensures f > 0.0
    ensures h.OtraHora? ==> f == 1.0
  {
    match h
    case Amanecer => 1.2
    case Manana => 0.9
    case Mediodia => 0.7
    case Tarde => 1.0
    case Atardecer => 1.3
    case Noche => 1.1
    case OtraHora(_) => 1.0
  }

  function FactorClima(c: Clima): (f: real)
    ensures f > 0.0
    ensures c.OtroClima? ==> f == 1.0
  {
    match c
    case Soleado => 0.9
    case Nublado => 1.1
    case Lluvia => 1.2
    case Tormenta => 0.6
    case OtroClima(_) => 1.0
  }

  /** A bait string is truthy when present and not empty. */
  predicate HayCarnada(c: Option<string>)
  {
    c.Some? && c.value != ""
  }

  function MinReal(a: real, b: real): real
  {
    if a <= b then a else b
  }

  /** The additive part of the bite probability: base, depth zone, waiting, level and bait bonuses. */
  function SumaPique(p: ParametrosPique): real
  {
    0.3
    + (if 50.0 <= p.profundidad <= 80.0 then 0.2 else 0.0)
    + MinReal(p.tiempoEspera / 10000.0, 0.3)
    + MinReal(p.nivelJugador as real * 0.02, 0.2)
    + (if HayCarnada(p.tipoCarnada) then 0.1 else 0.0)
  }

  /** The probability before clamping: the sum scaled by the hour and weather factors. */
  function PiqueSinAcotar(p: ParametrosPique): real
  {
    SumaPique(p) * FactorHora(p.horaDelDia) * FactorClima(p.climaActual)
  }

  /** calcularProbabilidadPique: clamped into [0.1, 0.8]. */
  function CalcularProbabilidadPique(p: ParametrosPique): (r: real)
    ensures 0.1 <= r <= 0.8
    ensures 0.1 <= PiqueSinAcotar(p) <= 0.8 ==> r == PiqueSinAcotar(p)
  {
    Acotar(PiqueSinAcotar(p))
  }

  /** `Math.min(Math.max(b, 0.1), 0.8)`. */
  function Acotar(b: real): (r: real)
    ensures 0.1 <= r <= 0.8
    ensures 0.1 <= b <= 0.8 ==> r == b
  {
    var acotadoAbajo := if b >= 0.1 then b else 0.1;
    MinReal(acotadoAbajo, 0.8)
  }

  lemma AcotarMonotono(a: real, b: real)
    requires a <= b
    ensures Acotar(a) <= Acotar(b)
  {
  }

  /** Scaling by a positive factor keeps order. */
  lemma EscalaPositiva(a: real, b: real, f: real)
    requires a <= b && f > 0.0
    ensures a * f <= b * f
  {
    assert b * f - a * f == (b - a) * f;
  }

  /** The additive part never falls when the wait lengthens or the level rises, everything else equal. */
  lemma SumaPiqueMonotona(p: ParametrosPique, q: ParametrosPique)
    requires p.tiempoEspera <= q.tiempoEspera && p.nivelJugador <= q.nivelJugador
    requires p.profundidad == q.profundidad && p.tipoCarnada == q.tipoCarnada
    ensures SumaPique(p) <= SumaPique(q)
  {
  }

  /** Waiting longer or having a higher level never lowers the bite probability. */
  lemma PiqueSegunEsperaYNivel(p: ParametrosPique, q: ParametrosPique)
    requires p.tiempoEspera <= q.tiempoEspera && p.nivelJugador <= q.nivelJugador
    requires p.profundidad == q.profundidad && p.tipoCarnada == q.tipoCarnada
    requires p.horaDelDia == q.horaDelDia && p.climaActual == q.climaActual
    ensures CalcularProbabilidadPique(p) <= CalcularProbabilidadPique(q)
  {
    SumaPiqueMonotona(p, q);
    var h := FactorHora(p.horaDelDia);
    var c := FactorClima(p.climaActual);
    EscalaPositiva(SumaPique(p), SumaPique(q), h);
    EscalaPositiva(SumaPique(p) * h, SumaPique(q) * h, c);
    assert PiqueSinAcotar(p) <= PiqueSinAcotar(q);
    AcotarMonotono(PiqueSinAcotar(p), PiqueSinAcotar(q));
  }

  // calcularValorPez

  function MultiplicadorValor(r: Rareza): real
  {
    match r
    case Comun => 1.0
    case Raro => 2.0
    case Epico => 4.0
    case Legendario => 8.0
    case OtraRareza(_) => 1.0
  }

  /** `puntos * 0.5 + pesoActual * 10`: half the points plus the weight in tenths. */
  function ValorBase(pez: InstanciaPez): real
  {
    pez.datos.puntos as real * 0.5 + PesoKg(pez) * 10.0
  }

  /** calcularValorPez: the base times the tier multiplier, floored. */
  function CalcularValorPez(pez: InstanciaPez): (r: int)
    ensures ValorBase(pez) >= 0.0 ==> r >= 0
  {
    (ValorBase(pez) * MultiplicadorValor(pez.datos.rareza)).Floor
  }

  /**
   * Every tier above común exactly doubles the coin value of the one below it;
   * común loses at most the half coin that a raro doubles away.
   */
  lemma ValorSegunRareza(pez: InstanciaPez, etiqueta: string)
    ensures var comun := CalcularValorPez(ConRareza(pez, Comun));
            var raro := CalcularValorPez(ConRareza(pez, Raro));
            && (raro == 2 * comun || raro == 2 * comun + 1)
            && CalcularValorPez(ConRareza(pez, Epico)) == 2 * raro
            && CalcularValorPez(ConRareza(pez, Legendario)) == 2 * CalcularValorPez(ConRareza(pez, Epico))
            && CalcularValorPez(ConRareza(pez, OtraRareza(etiqueta))) == comun
  {
    var n := pez.datos.puntos + 2 * pez.pesoActual;
    assert ValorBase(pez) * 2.0 == n as real;
    assert ValorBase(ConRareza(pez, Comun)) == ValorBase(pez);
    assert ValorBase(ConRareza(pez, Raro)) == ValorBase(pez);
    assert ValorBase(ConRareza(pez, Epico)) == ValorBase(pez);
    assert ValorBase(ConRareza(pez, Legendario)) == ValorBase(pez);
    assert ValorBase(ConRareza(pez, OtraRareza(etiqueta))) == ValorBase(pez);
    assert ValorBase(pez) * 4.0 == (2 * n) as real;
    assert ValorBase(pez) * 8.0 == (4 * n) as real;
    assert CalcularValorPez(ConRareza(pez, Raro)) == n;
    assert CalcularValorPez(ConRareza(pez, Comun)) == (n as real / 2.0).Floor;
  }

  // verificarRecords

  /** The record flags `verificarRecords` returns. */
  datatype Records = Records(primerEspecie: bool, mayorPeso: bool, mayorLongitud: bool, menorTiempoLucha: bool)

  /**
   * verificarRecords as written: the earlier entries "of the same species"
   * are those whose `id` equals the new entry's `id`.
   */
  function VerificarRecords(actual: Captura, historial: seq<Captura>): (r: Records)
    ensures r.primerEspecie <==> forall p :: p in historial ==> IdDe(p) != IdDe(actual)
    ensures r.primerEspecie ==> r.mayorPeso && r.mayorLongitud && r.menorTiempoLucha
    ensures !r.primerEspecie ==>
              && (r.mayorPeso <==>
                    forall p :: p in historial && IdDe(p) == IdDe(actual) ==> actual.pez.pesoActual > p.pez.pesoActual)
              && (r.mayorLongitud <==>
                    forall p :: p in historial && IdDe(p) == IdDe(actual) ==> actual.pez.longitudActual > p.pez.longitudActual)
              && (r.menorTiempoLucha <==>
                    forall p :: p in historial && IdDe(p) == IdDe(actual) ==> actual.tiempoLucha < p.tiempoLucha)
  {
    RecordsEntre(actual, Filtrar(historial, (p: Captura) => IdDe(p) == IdDe(actual)))
  }

  /** The flags against a list of earlier entries already narrowed to one species. */
  function RecordsEntre(actual: Captura, pezesDeEspecie: seq<Captura>): (r: Records)
    ensures r.primerEspecie <==> pezesDeEspecie == []
    ensures r.primerEspecie ==> r.mayorPeso && r.mayorLongitud && r.menorTiempoLucha
    ensures !r.primerEspecie ==>
              && (r.mayorPeso <==> forall p :: p in pezesDeEspecie ==> actual.pez.pesoActual > p.pez.pesoActual)
              && (r.mayorLongitud <==> forall p :: p in pezesDeEspecie ==> actual.pez.longitudActual > p.pez.longitudActual)
              && (r.menorTiempoLucha <==> forall p :: p in pezesDeEspecie ==> actual.tiempoLucha < p.tiempoLucha)
  {
    if |pezesDeEspecie| == 0 then Records(true, true, true, true)
    else
      var pesoMaximo := MaximoDe(pezesDeEspecie, (p: Captura) => p.pez.pesoActual);
      var longitudMaxima := MaximoDe(pezesDeEspecie, (p: Captura) => p.pez.longitudActual);
      var menorTiempo := MinimoDe(pezesDeEspecie, (p: Captura) => p.tiempoLucha);
      Records(
        false,
        actual.pez.pesoActual > pesoMaximo,
        actual.pez.longitudActual > longitudMaxima,
        actual.tiempoLucha < menorTiempo)
  }

  /**
   * The intended check: entries of the same species are those whose id
   * starts with the same catalog key. `historial` holds the earlier catches,
   * without `actual` itself.
   */
  function VerificarRecordsPorEspecie(actual: Captura, historial: seq<Captura>): (r: Records)
    ensures r.primerEspecie <==> forall p :: p in historial ==> ClaveDe(IdDe(p)) != ClaveDe(IdDe(actual))
    ensures r.primerEspecie ==> r.mayorPeso && r.mayorLongitud && r.menorTiempoLucha
    ensures !r.primerEspecie ==>
              && (r.mayorPeso <==>
                    forall p :: p in historial && ClaveDe(IdDe(p)) == ClaveDe(IdDe(actual)) ==>
                      actual.pez.pesoActual > p.pez.pesoActual)
              && (r.mayorLongitud <==>
                    forall p :: p in historial && ClaveDe(IdDe(p)) == ClaveDe(IdDe(actual)) ==>
                      actual.pez.longitudActual > p.pez.longitudActual)
              && (r.menorTiempoLucha <==>
                    forall p :: p in historial && ClaveDe(IdDe(p)) == ClaveDe(IdDe(actual)) ==>
                      actual.tiempoLucha < p.tiempoLucha)
  {
    RecordsEntre(actual, Filtrar(historial, (p: Captura) => ClaveDe(IdDe(p)) == ClaveDe(IdDe(actual))))
  }

  /**
   * A history that already holds the catch itself: both ways of comparing
   * find it among the entries of its species, and no catch strictly beats
   * itself, so every flag is false.
   */
  lemma RecordsConCapturaIncluida(actual: Captura, historial: seq<Captura>)
    requires actual in historial
    ensures VerificarRecords(actual, historial) == Records(false, false, false, false)
    ensures VerificarRecordsPorEspecie(actual, historial) == Records(false, false, false, false)
  {
    var r := VerificarRecords(actual, historial);
    var q := VerificarRecordsPorEspecie(actual, historial);
    assert !r.primerEspecie && !q.primerEspecie;
    assert !(actual.pez.pesoActual > actual.pez.pesoActual);
    assert !(actual.pez.longitudActual > actual.pez.longitudActual);
    assert !(actual.tiempoLucha < actual.tiempoLucha);
  }

  /** A capture of a rolled instance of `e`. */
  function CapturaDe(e: Especie, t: TiradasInstancia, sello: nat, ahora: int, tiempoLucha: real): Captura
    requires TiradasInstanciaValidas(t)
  {
    Captura(GenerarInstanciaPez(e, t, sello, ahora), ahora, tiempoLucha, 0, 0)
  }

  /**
   * Two bocachicos caught one after the other: as written the second is still
   * reported as the first of its species, because each instance has its own id;
   * with the intended comparison it is not.
   */
  lemma SegundoBocachicoNoEsPrimero()
    ensures var t := TiradasInstancia(0.5, 0.5, 0.5, 0.5);
            var primero := CapturaDe(Catalogo[0], t, 1, 1000, 3.0);
            var segundo := CapturaDe(Catalogo[0], t, 2, 2000, 3.0);
            && VerificarRecords(segundo, [primero]).primerEspecie
            && !VerificarRecordsPorEspecie(segundo, [primero]).primerEspecie
  {
    var t := TiradasInstancia(0.5, 0.5, 0.5, 0.5);
    var primero := CapturaDe(Catalogo[0], t, 1, 1000, 3.0);
    var segundo := CapturaDe(Catalogo[0], t, 2, 2000, 3.0);
    assert IdDe(primero) == IdInstancia(Catalogo[0].id, 1);
    assert IdDe(segundo) == IdInstancia(Catalogo[0].id, 2);
  }

  /** Instances rolled with different stamps never share an id, so as written a history of distinct rolls has no earlier entry of the same "species". */
  lemma InstanciasDistintas(e1: Especie, e2: Especie, t1: TiradasInstancia, t2: TiradasInstancia,
                            s1: nat, s2: nat, a1: int, a2: int)
    requires TiradasInstanciaValidas(t1) && TiradasInstanciaValidas(t2)
    requires s1 != s2
    ensures GenerarInstanciaPez(e1, t1, s1, a1).datos.id != GenerarInstanciaPez(e2, t2, s2, a2).datos.id
  {
  }

  // calcularEstadisticasCompletas

  /** The summary `calcularEstadisticasCompletas` returns; weights and averages in tenths. */
  datatype Estadisticas = Estadisticas(
    totalCapturas: nat,
    pesoTotal: int,
    promedioTiempoLucha: int,
    especiesUnicas: nat,
    pezMasGrande: Option<Captura>,
    pezMasPequeno: Option<Captura>,
    especiesMasCapturada: Option<IdPez>,
    rarezaDistribucion: map<Rareza, nat>,
    promedioTamano: Option<int>)

  /** The ids of the entries, in order. */
  function Ids(capturas: seq<Captura>): (r: seq<IdPez>)
    ensures |r| == |capturas| && forall k :: 0 <= k < |r| ==> r[k] == IdDe(capturas[k])
  {
    seq(|capturas|, k requires 0 <= k < |capturas| => IdDe(capturas[k]))
  }

  /** The tiers of the entries, in order. */
  function Rarezas(capturas: seq<Captura>): (r: seq<Rareza>)
    ensures |r| == |capturas| && forall k :: 0 <= k < |r| ==> r[k] == capturas[k].pez.datos.rareza
  {
    seq(|capturas|, k requires 0 <= k < |capturas| => capturas[k].pez.datos.rareza)
  }

  /** The catalog keys of the entries, in order: the species each catch belongs to. */
  function Claves(capturas: seq<Captura>): seq<ClaveEspecie>
  {
    seq(|capturas|, k requires 0 <= k < |capturas| => ClaveDe(IdDe(capturas[k])))
  }

  /** The total weight of the entries, in tenths. */
  function SumaPesos(capturas: seq<Captura>): int
  {
    if capturas == [] then 0 else SumaPesos(capturas[..|capturas| - 1]) + capturas[|capturas| - 1].pez.pesoActual
  }

  /** `reduce((sum, pez) => sum + pez.pesoActual, 0)` in kilograms. */
  function SumaPesosKg(capturas: seq<Captura>): real
  {
    if capturas == [] then 0.0 else SumaPesosKg(capturas[..|capturas| - 1]) + PesoKg(capturas[|capturas| - 1].pez)
  }

  /** The total fight time of the entries, in seconds. */
  function TiempoTotal(capturas: seq<Captura>): real
  {
    if capturas == [] then 0.0 else TiempoTotal(capturas[..|capturas| - 1]) + capturas[|capturas| - 1].tiempoLucha
  }

  /** The sum in kilograms is the sum in tenths, divided by ten. */
  lemma {:induction false} SumaPesosKgEnDecimas(capturas: seq<Captura>)
    ensures SumaPesosKg(capturas) == SumaPesos(capturas) as real / 10.0
  {
    if capturas != [] {
      SumaPesosKgEnDecimas(capturas[..|capturas| - 1]);
    }
  }

  /** Rounding an exact number of tenths to one decimal gives it back. */
  lemma DecimasExactas(n: int)
    ensures Decimas(n as real / 10.0) == n
  {
    assert (n as real / 10.0) * 10.0 + 0.5 == n as real + 0.5;
  }

  /** The summary of an empty history. */
  const EstadisticasVacias := Estadisticas(0, 0, 0, 0, None, None, None, map[], None)

  /**
   * calcularEstadisticasCompletas: counts, totals, extremes and the species
   * and tier tallies the source builds with `forEach`. Ties for the most
   * caught species go to the later one in order of first capture.
   */
  method CalcularEstadisticasCompletas(capturas: seq<Captura>) returns (e: Estadisticas)
    ensures capturas == [] ==> e == EstadisticasVacias
    ensures capturas != [] ==>
              && e.totalCapturas == |capturas|
              && e.pesoTotal == SumaPesos(capturas)
              && e.promedioTiempoLucha == Decimas(TiempoTotal(capturas) / |capturas| as real)
              && e.especiesUnicas == |SinRepetidos(Ids(capturas))|
              && e.promedioTamano == Some(Decimas(SumaPesosKg(capturas) / |capturas| as real))
              && e.pezMasGrande == Some(capturas[PrimerMaximo(capturas, PesoDe)])
              && e.pezMasPequeno == Some(capturas[PrimerMinimo(capturas, PesoDe)])
              && e.rarezaDistribucion == Contar(Rarezas(capturas))
              && e.especiesMasCapturada == Some(MasFrecuente(Ids(capturas)))
    ensures e.especiesMasCapturada.Some? ==>
              var ids := Ids(capturas);
              e.especiesMasCapturada.value in ids
              && forall x :: x in ids ==> multiset(ids)[x] <= multiset(ids)[e.especiesMasCapturada.value]
    ensures SumaSobre(SinRepetidos(Rarezas(capturas)), e.rarezaDistribucion) == e.totalCapturas
  {
    if |capturas| == 0 {
      return EstadisticasVacias;
    }
    var totalCapturas := |capturas|;
    var pesoTotal := SumaPesosKg(capturas);
    var tiempoTotalLucha := TiempoTotal(capturas);
    var ids := Ids(capturas);
    var especiesUnicas := |SinRepetidos(ids)|;
    var pezMasGrande := capturas[PrimerMaximo(capturas, PesoDe)];
    var pezMasPequeno := capturas[PrimerMinimo(capturas, PesoDe)];

    var conteoEspecies, claves := ContarEnOrden(ids);
    var especiesMasCapturada := claves[UltimoMasContado(claves, conteoEspecies)];
    var rarezas := Rarezas(capturas);
    var rarezaDistribucion, _ := ContarEnOrden(rarezas);
    ConteosSumanLongitud(rarezas);

    SumaPesosKgEnDecimas(capturas);
    DecimasExactas(SumaPesos(capturas));
    e := Estadisticas(
      totalCapturas,
      Decimas(pesoTotal),
      Decimas(tiempoTotalLucha / totalCapturas as real),
      especiesUnicas,
      Some(pezMasGrande),
      Some(pezMasPequeno),
      Some(especiesMasCapturada),
      rarezaDistribucion,
      Some(Decimas(pesoTotal / totalCapturas as real)));
  }

  /**
   * Keying the statistics on the instance id, as written: in a history of
   * rolled instances with pairwise different stamps, every catch counts as a
   * species of its own (`especiesUnicas` and the hook's `especiesCapturadas`
   * equal the number of catches), and the "most caught" one is just the last
   * catch.
   */
  lemma EspeciesPorInstancia(capturas: seq<Captura>)
    requires forall k :: 0 <= k < |capturas| ==> IdDe(capturas[k]).IdInstancia?
    requires forall j, k :: 0 <= j < k < |capturas| ==> IdDe(capturas[j]).sello != IdDe(capturas[k]).sello
    ensures |SinRepetidos(Ids(capturas))| == |capturas|
    ensures capturas != [] ==> MasFrecuente(Ids(capturas)) == IdDe(capturas[|capturas| - 1])
  {
    var ids := Ids(capturas);
    assert Distintos(ids) by {
      forall j, k | 0 <= j < k < |ids| ensures ids[j] != ids[k] {
        assert IdDe(capturas[j]).sello != IdDe(capturas[k]).sello;
      }
    }
    SinRepetidosDeDistintos(ids);
    if capturas != [] {
      MasFrecuenteDeDistintos(ids);
    }
  }

  /**
   * The intended statistics key on the species: catches of one species,
   * however many and whatever their stamps, count as one species, and that
   * species is the most caught.
   */
  lemma EspeciesPorClave(capturas: seq<Captura>)
    requires capturas != []
    requires forall k :: 0 <= k < |capturas| ==> ClaveDe(IdDe(capturas[k])) == ClaveDe(IdDe(capturas[0]))
    ensures SinRepetidos(Claves(capturas)) == [ClaveDe(IdDe(capturas[0]))]
    ensures MasFrecuente(Claves(capturas)) == ClaveDe(IdDe(capturas[0]))
  {
    var claves := Claves(capturas);
    SinRepetidosConstante(claves, ClaveDe(IdDe(capturas[0])));
    assert MasFrecuente(claves) in claves;
  }

  /** Two bocachicos count as two species when keyed on the id, as written, and as one when keyed on the species. */
  lemma DosBocachicosUnaEspecie()
    ensures var t := TiradasInstancia(0.5, 0.5, 0.5, 0.5);
            var primero := CapturaDe(Catalogo[0], t, 1, 1000, 3.0);
            var segundo := CapturaDe(Catalogo[0], t, 2, 2000, 3.0);
            && |SinRepetidos(Ids([primero, segundo]))| == 2
            && |SinRepetidos(Claves([primero, segundo]))| == 1
  {
    var t := TiradasInstancia(0.5, 0.5, 0.5, 0.5);
    var primero := CapturaDe(Catalogo[0], t, 1, 1000, 3.0);
    var segundo := CapturaDe(Catalogo[0], t, 2, 2000, 3.0);
    var h := [primero, segundo];
    assert IdDe(primero) == IdInstancia(Catalogo[0].id, 1);
    assert IdDe(segundo) == IdInstancia(Catalogo[0].id, 2);
    EspeciesPorInstancia(h);
    EspeciesPorClave(h);
  }

  /** The heaviest entry a summary reports is one of the entries and weighs at least as much as each of them. */
  lemma PezMasGrandeEsMaximo(capturas: seq<Captura>)
    requires capturas != []
    ensures var k := PrimerMaximo(capturas, PesoDe);
            && capturas[k] in capturas
            && (forall c :: c in capturas ==> c.pez.pesoActual <= capturas[k].pez.pesoActual)
            && (forall j :: 0 <= j < k ==> capturas[j].pez.pesoActual < capturas[k].pez.pesoActual)
  {
    var k := PrimerMaximo(capturas, PesoDe);
    forall c | c in capturas ensures c.pez.pesoActual <= capturas[k].pez.pesoActual {
      var j :| 0 <= j < |capturas| && capturas[j] == c;
      assert PesoDe(capturas[j]) <= PesoDe(capturas[k]);
    }
  }
}
