/**
 * Game phases and the numeric tuning of the fishing engine
 * (src/data/constantesJuego.js). Only the tables that the engine reads are
 * modelled; sound paths, scenarios, baits, achievements, difficulty levels,
 * breakpoints and storage keys carry no behaviour here.
 */
module Constantes {
  import opened Opciones

  /** ESTADOS_JUEGO: the seven phases of one encounter. */
  datatype Estado = Esperando | Lanzando | Pescando | Luchando | Capturado | Perdido | Pausa

  /** The string value each phase has in the source. */
  function ValorEstado(e: Estado): string
  {
    match e
    case Esperando => "esperando"
    case Lanzando => "lanzando"
    case Pescando => "pescando"
    case Luchando => "luchando"
    case Capturado => "capturado"
    case Perdido => "perdido"
    case Pausa => "pausa"
  }

  /** The phase values are pairwise distinct, so comparing strings compares phases. */
  lemma ValoresEstadoDistintos(a: Estado, b: Estado)
    ensures ValorEstado(a) == ValorEstado(b) <==> a == b
  {
  }

  /** Rarity tiers. `OtraRareza` stands for any label other than the four tiers. */
  datatype Rareza = Comun | Raro | Epico | Legendario | OtraRareza(etiqueta: string)

  /** The four tiers in the order in which the source's object literals list them. */
  const OrdenRareza: seq<Rareza> := [Comun, Raro, Epico, Legendario]

  // CONFIGURACION_PESCA: line tension
  const TensionMaxima: real := 100.0
  const TensionCritica: real := 85.0
  const ReduccionTensionRecoger: real := 15.0
  const ReduccionTensionSoltar: real := 25.0
  const IncrementoTensionBase: real := 2.0

  // CONFIGURACION_PESCA: depth
  const ProfundidadMaxima: int := 100
  const VelocidadHundimiento: int := 2
  const VelocidadRecogida: int := 5

  // CONFIGURACION_PESCA: timing, in milliseconds
  const TiempoLanzamiento: int := 500
  const TiempoEsperaMinimo: real := 500.0
  const TiempoEsperaMaximo: real := 1500.0

  // CONFIGURACION_PESCA: the fight
  const ResistenciaBasePez: int := 150
  const FactorCansancio: real := 0.15
  const ProbabilidadLucha: real := 0.3

  // CONFIGURACION_EXPERIENCIA
  const ExperienciaPorNivel: int := 100
  const MultiplicadorNivel: real := 1.2
  const ExperienciaBaseCaptura: int := 10
  const BonusExperienciaTiempo: real := 1.0
  const BonusExperienciaDificultad: int := 5

  // CONFIGURACION_PUNTUACION
  const MultiplicadorTiempoLucha: real := 0.1
  const MultiplicadorPeso: real := 10.0
  const MultiplicadorLongitud: real := 2.0
  const BonusPrimeraCaptura: int := 500
  const BonusRachaCapturas: int := 50

  // CONFIGURACION_UI, in milliseconds and tension units
  const TiempoMostrarInfoPez: int := 5000
  const TiempoMensajeEstado: int := 2000
  const IntervaloActualizacion: int := 100
  const UmbralTensionMedia: real := 30.0
  const UmbralTensionAlta: real := 60.0

  /** COLORES_TENSION: the three colours of the tension gauge. */
  datatype ColorTension = Baja | Media | Alta

  function CodigoColor(c: ColorTension): string
  {
    match c
    case Baja => "#4CAF50"
    case Media => "#FF9800"
    case Alta => "#F44336"
  }

  /** One entry of CONFIGURACION_RAREZA (the display colour is left out). */
  datatype ConfigDeRareza = ConfigDeRareza(probabilidad: real, multiplicadorPuntos: real)

  /** CONFIGURACION_RAREZA looked up by tier; an unknown label has no entry. */
  function ConfigRareza(r: Rareza): Option<ConfigDeRareza>
  {
    match r
    case Comun => Some(ConfigDeRareza(0.6, 1.0))
    case Raro => Some(ConfigDeRareza(0.25, 1.5))
    case Epico => Some(ConfigDeRareza(0.12, 2.5))
    case Legendario => Some(ConfigDeRareza(0.03, 5.0))
    case OtraRareza(_) => None
  }

  /** Exactly the four tiers have a configuration entry. */
  lemma ConfigRarezaDefinida(r: Rareza)
    ensures ConfigRareza(r).Some? <==> r in OrdenRareza
  {
  }

  /** The base tier probabilities form a distribution. */
  lemma ProbabilidadesBaseSumanUno()
    ensures ConfigRareza(Comun).value.probabilidad + ConfigRareza(Raro).value.probabilidad
            + ConfigRareza(Epico).value.probabilidad + ConfigRareza(Legendario).value.probabilidad == 1.0
  {
  }

  /** Rarer tiers multiply points strictly more. */
  lemma MultiplicadoresPuntosCrecientes()
    ensures 1.0 == ConfigRareza(Comun).value.multiplicadorPuntos
    ensures ConfigRareza(Comun).value.multiplicadorPuntos < ConfigRareza(Raro).value.multiplicadorPuntos
    ensures ConfigRareza(Raro).value.multiplicadorPuntos < ConfigRareza(Epico).value.multiplicadorPuntos
    ensures ConfigRareza(Epico).value.multiplicadorPuntos < ConfigRareza(Legendario).value.multiplicadorPuntos
  {
  }

  /** The gauge thresholds, the critical level and the breaking point are ordered. */
  lemma UmbralesTensionOrdenados()
    ensures 0.0 < UmbralTensionMedia < UmbralTensionAlta < TensionCritica < TensionMaxima
  {
  }

  /** The bite delay is drawn from a non-empty interval. */
  lemma EsperaNoVacia()
    ensures 0.0 < TiempoEsperaMinimo <= TiempoEsperaMaximo
  {
  }

  /** The sink speed divides the maximum depth: the descent lands exactly on it after 50 steps. */
  lemma DescensoExacto()
    ensures VelocidadHundimiento > 0
    ensures ProfundidadMaxima % VelocidadHundimiento == 0
    ensures ProfundidadMaxima / VelocidadHundimiento == 50
  {
  }

  /** Giving slack relieves more tension than reeling in. */
  lemma SoltarAliviaMasQueRecoger()
    ensures 0.0 < ReduccionTensionRecoger < ReduccionTensionSoltar
  {
  }

  /** The level growth factor exceeds one, so the experience curve grows. */
  lemma CurvaExperienciaCrece()
    ensures MultiplicadorNivel > 1.0
  {
  }
}
