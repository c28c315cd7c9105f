# River Legend fishing engine in Dafny

This project models the fishing-encounter engine of River Legend, a browser fishing game set on Colombian rivers. The model covers four parts:

- **Tuning tables** (`constantes.dfy`, module `Constantes`). These are the seven game phases of `ESTADOS_JUEGO` and the numbers in `CONFIGURACION_PESCA`, `CONFIGURACION_EXPERIENCIA`, `CONFIGURACION_PUNTUACION`, `CONFIGURACION_UI` and `CONFIGURACION_RAREZA`.
- **Fish catalog and sampler** (`peces.dfy`, module `Peces`). This covers:
  - the ten species of `PECES_COLOMBIANOS`;
  - the rarity filter;
  - the level-adjusted rarity draw, written as a method with the source's loop and its running sum;
  - rolling an instance of a species: weight, length, stamina, force and a fresh id.
- **Scoring and statistics formulas** (`calculos.dfy`, module `Calculos`). This covers:
  - points, experience and the experience curve;
  - resistance, force, bite probability and coin value;
  - personal records;
  - statistics over a capture history. This part is a method, with the two counting loops the source builds with `forEach`.
- **The game hook** (`juego.dfy`, module `Juego`). A `Sesion` value holds the state of one play session. A pure transition function on `Sesion` describes each action and each timer callback. The class `JuegoPesca` holds the same state in fields and updates them step by step. Every method is proved to reach the state its transition function gives, or the state update its `ensures` spells out (`AbandonarEncuentro`, `RecolocarSenuelo`, `SumarProgreso`). The action and timer-callback methods (`LanzarSenuelo`, `PasoDescenso`, `DisparoPique`, `TickLucha`, `DisparoOcultarInfo`, `DisparoReinicio`, `RecogerSedal`, `SoltarSedal`, `AlternarPausa`) also require and keep the invariant `Valida`. `ReiniciarJuego` can be called in any state and keeps `Valida` when it held. The helper steps of those methods (`IniciarLuchaAhora`, `PerderPez`, `CapturarPez`, `Recompensar`, `SumarProgreso`, `Forcejear`, `CansarPez`, `AbandonarEncuentro`, `RecolocarSenuelo`) are proved against their transition functions only; the lemmas beside them carry the invariant. `Valida` requires:
  - tension in [0, 100], depth in [0, 100] and the lure height in [20, 80];
  - level at least 1 and experience at least 0;
  - the score equal to the points summed over the history;
  - the experience in the history equal to the experience held plus 50·n·(n−1) spent on reaching level n;
  - every pending timer well-formed.

Two more files hold helpers:

- `colecciones.dfy` (module `Colecciones`) holds JavaScript array idioms as generic functions: `filter`, `[...new Set]`, tallies built with `forEach`, and the `reduce` forms that pick an extreme.
- `opciones.dfy` (module `Opciones`) holds the `Option` type used for `null`.

How the model represents the source:

- **Weights** are integers in tenths of a kilogram. Each rolled weight is rounded with `toFixed(1)`, so every weight is an exact multiple of 0.1 kg.
- **Random draws and the clock.** Every `Math.random()` draw is a parameter in [0, 1). Every `Date.now()` reading is the parameter `ahora` in milliseconds.
- **Fish ids** are abstract. A species id is `IdEspecie(clave)`. A rolled instance gets the fresh id `IdInstancia(base, sello)`, where `sello` stands for the timestamp and random suffix of the source's id string.
- **Timers** are the list `temporizadores` of pending callbacks. Each element stores the values its callback's closure captured. Any pending timer may fire next. Firing a timer is a method given the timer's index.
- **Unknown labels.** Where the source falls back on a default for an unrecognised string (`|| 1`, `|| 1.0`), the enumerations carry an extra case for it, such as `OtraRareza(etiqueta)`.

## Model

| member | source | states |
|---|---|---|
| Constantes.ValoresEstadoDistintos | src/data/constantesJuego.js:7-15 | Two phases have equal string values exactly when they are the same phase. |
| Constantes.ConfigRarezaDefinida | src/data/constantesJuego.js:179-200 | Exactly the four tiers have a rarity configuration entry. |
| Constantes.ProbabilidadesBaseSumanUno | src/data/constantesJuego.js:179-200 | The base tier probabilities 0.6, 0.25, 0.12 and 0.03 sum to 1. |
| Constantes.MultiplicadoresPuntosCrecientes | src/data/constantesJuego.js:179-200 | The point multipliers strictly increase from común (1) to legendario (5). |
| Constantes.UmbralesTensionOrdenados | src/data/constantesJuego.js:20-80 | 0 < UMBRAL_TENSION_MEDIA < UMBRAL_TENSION_ALTA < TENSION_CRITICA < TENSION_MAXIMA. |
| Constantes.EsperaNoVacia | src/data/constantesJuego.js:33-34 | The bite delay range [500, 1500] is non-empty. |
| Constantes.DescensoExacto | src/data/constantesJuego.js:27-28 | The sink speed divides PROFUNDIDAD_MAXIMA, so the descent reaches it exactly after 50 steps. |
| Constantes.SoltarAliviaMasQueRecoger | src/data/constantesJuego.js:22-23 | Giving slack relieves more tension (25) than reeling in (15). |
| Constantes.CurvaExperienciaCrece | src/data/constantesJuego.js:49-50 | The experience curve has a growth factor above 1. |
| Colecciones.Filtrar | src/data/datosPeces.js:219-221 | `filter` keeps exactly the elements that satisfy the predicate, never adds any, and is empty exactly when none qualifies. |
| Colecciones.FiltrarCuenta | src/data/datosPeces.js:219-221 | `filter` keeps every occurrence of an element that satisfies the predicate and drops every occurrence of one that does not. |
| Colecciones.FiltrarConcatena | src/data/datosPeces.js:219-221 | `filter` keeps the order: filtering `a + b` gives the kept elements of `a` followed by those of `b`. |
| Colecciones.FiltrarTodos | src/data/datosPeces.js:219-221 | Filtering a list whose every element qualifies returns the same list. |
| Colecciones.SinRepetidosElementos | src/herramientas/calculosPesca.js:255 | `[...new Set(xs)]` holds the same elements as `xs`, with no repeats. |
| Colecciones.ContarCuenta | src/herramientas/calculosPesca.js:266-269 | The tally has a key for exactly the elements that occur, and each key maps to its number of occurrences. |
| Colecciones.ContarEnOrden | src/herramientas/calculosPesca.js:266-278 | The `forEach` loop builds exactly the tally `Contar` and lists its keys in insertion order (`SinRepetidos`). |
| Colecciones.ConteosSumanLongitud | src/herramientas/calculosPesca.js:275-278 | The counts of the distinct elements sum to the length of the list. |
| Colecciones.MaximoDe | src/herramientas/calculosPesca.js:220-221 | `Math.max(...)` is attained by some element and bounds every element from above. |
| Colecciones.MinimoDe | src/herramientas/calculosPesca.js:222 | `Math.min(...)` is attained by some element and bounds every element from below. |
| Colecciones.PrimerMaximo | src/herramientas/calculosPesca.js:257-259 | The `reduce` that keeps strictly heavier entries ends on the first entry of maximal weight. |
| Colecciones.PrimerMinimo | src/herramientas/calculosPesca.js:261-263 | The `reduce` that keeps strictly lighter entries ends on the first entry of minimal weight. |
| Colecciones.UltimoMasContado | src/herramientas/calculosPesca.js:271-272 | The `reduce` over the tally's entries ends on a key of maximal count, and every later key counts strictly less. |
| Colecciones.SinRepetidosDeDistintos | src/herramientas/calculosPesca.js:255 | `[...new Set(xs)]` of a list without repeats is the list itself. |
| Colecciones.SinRepetidosConstante | src/herramientas/calculosPesca.js:255 | `[...new Set(xs)]` of a non-empty list of one repeated element is that single element. |
| Colecciones.UnaVezCadaUno | src/herramientas/calculosPesca.js:266-269 | In a list without repeats, every element occurs exactly once. |
| Colecciones.MasFrecuenteDeDistintos | src/herramientas/calculosPesca.js:265-272 | In a list without repeats, the most frequent element is the last one. |
| Colecciones.MasFrecuente | src/herramientas/calculosPesca.js:265-272 | The most caught id occurs in the list, and no id occurs more often. |
| Peces.CatalogoBienFormado | src/data/datosPeces.js:6-216 | The catalog has 10 species with distinct ids. Each has min weight < max weight, min length < max length, difficulty 1..10, non-negative points and one of the four tiers. |
| Peces.ObtenerPecesPorRareza | src/data/datosPeces.js:219-221 | The result holds exactly the catalog entries of the given tier. |
| Peces.EnSuTier | src/data/datosPeces.js:219-221 | Every catalog entry is in its own tier's bucket. |
| Peces.RarezasNoVacias | src/data/datosPeces.js:6-221 | Each of the four tier buckets is non-empty, and the bucket for any other label is empty. |
| Peces.OtraRarezaVacia | src/data/datosPeces.js:219-221 | An unknown rarity label selects no fish. |
| Peces.SinTierSinPeces | src/data/datosPeces.js:219-221 | In any catalog whose entries all have one of the four tiers, a label outside those tiers selects nothing. |
| Peces.Indice | src/data/datosPeces.js:249 | `Math.floor(Math.random() * n)` is a valid index into a non-empty list. |
| Peces.PisoEnRango | src/data/datosPeces.js:267-270 | The floored length roll lies in [minimo, maximo). |
| Peces.DecimasEnRango | src/data/datosPeces.js:262-265 | The weight roll rounded to one decimal stays within [minimo, maximo]. |
| Peces.GenerarInstanciaPez | src/data/datosPeces.js:261-281 | Rolling an instance has these properties: (1) every species field is kept except the id, which becomes fresh and derived from the species id; (2) weight is in [peso.minimo, peso.maximo]; (3) length is in [longitud.minimo, longitud.maximo); (4) stamina is in [8·d, 8·d + 25); (5) force is in [0.5, d + 0.5); (6) the creation time is the clock reading. |
| Peces.ProbabilidadesBaseCoinciden | src/data/datosPeces.js:229-234 | The sampler's local probability table agrees with CONFIGURACION_RAREZA. |
| Peces.ProbabilidadesSegunNivel | src/data/datosPeces.js:226-239 | A higher level never lowers a tier's adjusted probability, and from level 10 on the probabilities stop changing. |
| Peces.PecesDeRareza | src/data/datosPeces.js:219-221 | The tier filter on any catalog keeps exactly that tier's entries. |
| Peces.PrimerTierDesdeEncuentra | src/data/datosPeces.js:241-253 | The tier loop finds a tier exactly when some remaining tier accepts the roll. |
| Peces.PrimerTierDesdeEsElPrimero | src/data/datosPeces.js:241-253 | The tier the loop finds accepts the roll, and no earlier remaining tier does. |
| Peces.TierElegidoEsElPrimero | src/data/datosPeces.js:224-253 | The chosen tier is the first one, in the order común, raro, épico, legendario, whose running sum reaches the roll and whose bucket is non-empty. A tier is chosen exactly when one qualifies. |
| Peces.PrimerTierNoVacio | src/data/datosPeces.js:247-251 | A chosen tier is one of the four, and its bucket is non-empty. |
| Peces.SiempreHayTier | src/data/datosPeces.js:224-253 | From level 0 on, the probabilities sum to at least 1. So if the legendary bucket is non-empty, some tier takes every roll in [0, 1). |
| Peces.SorteoNuncaUsaRespaldo | src/data/datosPeces.js:241-257 | With the real catalog, the uniform fallback is never reached at level 0 or higher. |
| Peces.EspecieSorteada | src/data/datosPeces.js:224-257 | The drawn species comes from the catalog, and it has the chosen tier whenever a tier was chosen. |
| Peces.ObtenerPezAleatorio | src/data/datosPeces.js:224-258 | The method adjusts the probabilities in place, accumulates the running sum in its loop, and returns exactly the instance rolled from the species `EspecieSorteada` picks. |
| Calculos.MultiplicadorPuntos | src/herramientas/calculosPesca.js:22-26 | The rarity point multiplier is at least 1, and 1 for an unknown tier. |
| Calculos.CalcularPuntosPorCaptura | src/herramientas/calculosPesca.js:19-43 | The points for a catch are never below the species' own points. They equal either those points or the floored bonus formula. |
| Calculos.PuntosBase | src/herramientas/calculosPesca.js:20-26 | The rarity bonus never takes a non-negative base below the species' own points. |
| Calculos.BonusTiempo | src/herramientas/calculosPesca.js:29 | The fight-time bonus is never negative for a non-negative time and non-negative points. |
| Calculos.BonusPeso | src/herramientas/calculosPesca.js:32 | With weights in tenths, the weight bonus is exactly the weight in tenths: the floor loses nothing. |
| Calculos.BonusLongitud | src/herramientas/calculosPesca.js:35 | The length bonus is exactly twice the length. |
| Calculos.SumaBonificada | src/herramientas/calculosPesca.js:20-40 | The bonused sum is non-negative when the time, points, weight and length are. |
| Calculos.PuntosComunNivelUno | src/herramientas/calculosPesca.js:19-43 | At level 1, with no fight time, a común fish scores puntos + weight in tenths + 2·length. |
| Calculos.PuntosFinalesSegunNivel | src/herramientas/calculosPesca.js:37-40 | For non-negative inputs, `puntosFinales` never falls as the level rises. |
| Calculos.PuntosSegunNivel | src/herramientas/calculosPesca.js:37-42 | For non-negative inputs, a higher level never gives fewer points. |
| Calculos.CalcularExperienciaPorCaptura | src/herramientas/calculosPesca.js:51-71 | The experience gained is at least the unmultiplied 10 + 5·difficulty + ⌊t⌋ whenever that is non-negative. |
| Calculos.ExperienciaSegunRareza | src/herramientas/calculosPesca.js:60-70 | Común gains the base, the tiers gain non-decreasing amounts, legendario gains 4·base, and an unknown tier gains the base. |
| Calculos.PotenciaAlMenosUno | src/herramientas/calculosPesca.js:81 | A base of at least 1 raised to a non-negative power is at least 1. |
| Calculos.CalcularExperienciaRequerida | src/herramientas/calculosPesca.js:78-83 | From level 1 on, the required experience is at least 100. |
| Calculos.ExperienciaRequeridaCrece | src/herramientas/calculosPesca.js:78-83 | The requirement is 100 at level 1 and strictly increases with the level. |
| Calculos.CurvaNoEsUmbralDelJuego | src/herramientas/calculosPesca.js:78-83 | The curve asks 120 at level 2, while the game's threshold there is 200: the hook does not use the curve. |
| Calculos.FactorComportamiento | src/herramientas/calculosPesca.js:93-103 | The behaviour factor lies in [0.7, 1.4], and is 1.0 for an unknown behaviour. |
| Calculos.CalcularResistenciaPez | src/herramientas/calculosPesca.js:90-107 | For a non-negative base, resistance lies between ⌊0.8·x⌋ and ⌊1.2·x⌋, where x = (8d + 2w)·factor. |
| Calculos.CalcularFuerzaPez | src/herramientas/calculosPesca.js:114-120 | Force is at least 0.5. Above 0.5, it lies between 0.7 and 1.3 times the base d/2 + 0.3·√w. |
| Calculos.FactorHora | src/herramientas/calculosPesca.js:158-168 | The time-of-day factor is positive, and 1.0 for an unknown time of day. |
| Calculos.FactorClima | src/herramientas/calculosPesca.js:170-178 | The weather factor is positive, and 1.0 for unknown weather. |
| Calculos.CalcularProbabilidadPique | src/herramientas/calculosPesca.js:127-181 | The bite probability is always in [0.1, 0.8], and equals the unclamped value when that is already in range. |
| Calculos.SumaPiqueMonotona | src/herramientas/calculosPesca.js:137-156 | The additive part never drops when the wait or the level grows. |
| Calculos.PiqueSegunEsperaYNivel | src/herramientas/calculosPesca.js:127-181 | With the other factors fixed, waiting longer or having a higher level never lowers the bite probability. |
| Calculos.CalcularValorPez | src/herramientas/calculosPesca.js:188-201 | The coin value is non-negative whenever its base is. |
| Calculos.ValorSegunRareza | src/herramientas/calculosPesca.js:188-201 | Raro is worth twice común (up to one coin of flooring), épico twice raro, legendario twice épico, and an unknown tier the same as común. |
| Calculos.VerificarRecords | src/herramientas/calculosPesca.js:209-230 | As written, records compare against earlier entries with an equal `id`. `primerEspecie` holds exactly when there is none, and then every flag is set. Otherwise each flag holds exactly when the new catch strictly beats every such entry. |
| Calculos.RecordsEntre | src/herramientas/calculosPesca.js:212-229 | The record flags computed from a list of same-species entries, with both directions of each comparison. |
| Calculos.VerificarRecordsPorEspecie | src/herramientas/calculosPesca.js:209-230 | The same contract comparing by species, the catalog key behind the id, as the names `pezesDeEspecie` and `primerEspecie` intend. Like the original, it expects the history of the earlier catches, without the one being checked. |
| Calculos.SegundoBocachicoNoEsPrimero | src/herramientas/calculosPesca.js:209-213 | Given a history of earlier catches holding one bocachico, a second bocachico is reported as a first of its species as written, and is not reported so when comparing by species. |
| Calculos.RecordsConCapturaIncluida | src/herramientas/calculosPesca.js:209-230 | When the history already holds the catch being checked, both the as-written and the by-species check report every flag false. |
| Calculos.InstanciasDistintas | src/data/datosPeces.js:279 | Instances rolled with different stamps always have different ids. |
| Calculos.EspeciesPorInstancia | src/herramientas/calculosPesca.js:255-272 | Over catches whose instance ids have pairwise different stamps, the count of distinct ids equals the number of catches, and the most caught id is the last catch's. |
| Calculos.EspeciesPorClave | src/herramientas/calculosPesca.js:255-272 | Keyed on the species instead, catches of one species count as a single species, and that species is the most caught. |
| Calculos.DosBocachicosUnaEspecie | src/herramientas/calculosPesca.js:255 | Two rolled bocachicos count as two species when keyed on the id and as one when keyed on the species. |
| Calculos.SumaPesosKgEnDecimas | src/herramientas/calculosPesca.js:252 | The kilogram sum equals the sum in tenths divided by 10. |
| Calculos.DecimasExactas | src/herramientas/calculosPesca.js:282 | `toFixed(1)` of an exact tenth gives back that tenth. |
| Calculos.CalcularEstadisticasCompletas | src/herramientas/calculosPesca.js:237-291 | An empty history gives the all-zero, all-null summary. Otherwise: (1) the total is the length; (2) the weight total is exact; (3) `especiesUnicas` counts the distinct ids; (4) the heaviest and lightest entries are the first extremal ones; (5) the rarity tally counts every tier and its counts sum to the total; (6) the most caught id is a most frequent one. |
| Calculos.PezMasGrandeEsMaximo | src/herramientas/calculosPesca.js:257-259 | `pezMasGrande` weighs at least as much as every entry and strictly more than every entry before it. |
| Juego.Quitar | src/hooks/useJuegoPesca.js:47-58 | Timers are kept in a list. A timer that fires or is cleared leaves it: the timers before it keep their places, the ones after it move up by one, and the multiset of timers loses exactly that one. |
| Juego.ExperienciaConsumidaCerrada | src/hooks/useJuegoPesca.js:184-195 | Climbing from level 1 to n with the `nivel*100` rule spends 50·n·(n−1) experience. |
| Juego.SubirNivel | src/hooks/useJuegoPesca.js:184-195 | One level is gained exactly when the new total reaches `nivel*100`, and the remainder is kept. The experience held plus the experience spent on levels is conserved. |
| Juego.TensionTrasForcejeo | src/hooks/useJuegoPesca.js:141-155 | A struggle raises tension and never takes it above TENSION_MAXIMA. It reaches the maximum exactly when tension + fuerza·(2 + 2·roll) does. |
| Juego.TiempoEspera | src/hooks/useJuegoPesca.js:104-107 | The bite delay lies in [500, 1500) ms. |
| Juego.AlturaSenuelo | src/hooks/useJuegoPesca.js:94-97 | The lure height for depths 0..100 lies in [20, 80]. |
| Juego.SesionInicialValida | src/hooks/useJuegoPesca.js:13-36 | The initial state satisfies the invariant. |
| Juego.BanderasSegunAcciones | src/hooks/useJuegoPesca.js:336-339 | `puedeLanzar` and `puedeSoltar` hold exactly when their actions change the state. Reeling in changes nothing when `puedeRecoger` is false. Critical tension shows the high colour. |
| Juego.ObtenerColorTension | src/hooks/useJuegoPesca.js:72-79 | The gauge is low exactly below 30, high exactly from 60, and medium otherwise. |
| Juego.ColorMonotono | src/hooks/useJuegoPesca.js:72-79 | More tension never shows a calmer colour. |
| Juego.SumasAgregan | src/hooks/useJuegoPesca.js:182-205 | Appending a record adds its points and experience to the history's sums. |
| Juego.CapturaRecompensa | src/hooks/useJuegoPesca.js:176-207 | A capture sets CAPTURADO. The score grows by exactly the catch's points, and the history by exactly one record holding them. The level rises by one with the remainder kept exactly when experience + gain ≥ `nivel*100`; otherwise experience just accumulates. |
| Juego.RecompensaPreserva | src/hooks/useJuegoPesca.js:176-220 | Applying a catch with non-negative experience keeps the invariant. |
| Juego.CapturaPreserva | src/hooks/useJuegoPesca.js:176-220 | A capture keeps the invariant when the catch's experience is non-negative. |
| Juego.ReinicioPreserva | src/hooks/useJuegoPesca.js:214-217 | Restarting, including hiding the info panel after a capture, keeps the invariant. |
| Juego.LanzarPreserva | src/hooks/useJuegoPesca.js:82-88 | Casting keeps the invariant. |
| Juego.DescensoPreserva | src/hooks/useJuegoPesca.js:91-103 | A descent tick keeps the invariant and sinks exactly VELOCIDAD_HUNDIMIENTO. At PROFUNDIDAD_MAXIMA the phase becomes PESCANDO; below it the phase is unchanged. |
| Juego.PezDelJuegoBienFormado | src/hooks/useJuegoPesca.js:125-131 | A fish hooked from the catalog has difficulty 1..10 and force at least 0.5. |
| Juego.PiquePreserva | src/hooks/useJuegoPesca.js:110-118 | The bite timeout keeps the invariant. |
| Juego.PiqueFueraDePesca | src/hooks/useJuegoPesca.js:110-118 | Outside PESCANDO, the bite only drops its own timer and changes nothing else. |
| Juego.ForcejeoPreserva | src/hooks/useJuegoPesca.js:136-164 | The struggle half of a fight tick keeps the invariant. |
| Juego.CansancioPreserva | src/hooks/useJuegoPesca.js:165-171 | The fatigue half of a fight tick keeps the invariant when the fight time is non-negative. |
| Juego.TickPreserva | src/hooks/useJuegoPesca.js:136-172 | A fight tick keeps the invariant while the clock does not run backwards. So tension never leaves [0, 100], and every catch adds non-negative experience. |
| Juego.TickTension | src/hooks/useJuegoPesca.js:141-171 | Every tick lowers stamina by exactly FACTOR_CANSANCIO and leaves tension in [0, TENSION_MAXIMA]. A struggle that reaches the maximum while the fish still has stamina ends in PERDIDO with tension exactly TENSION_MAXIMA. Stamina at 0 or below always ends in CAPTURADO. |
| Juego.LuchaSigueEnPausa | src/hooks/useJuegoPesca.js:136-172 | The fight interval keeps running in PAUSA: stamina drops by FACTOR_CANSANCIO, and the fish can be captured while paused. |
| Juego.TickRoturaYCaptura | src/hooks/useJuegoPesca.js:149-171 | A tick that both breaks the line and exhausts the fish ends in CAPTURADO with tension 100 and one more record. Both the restart timeout and the hide timeout are pending, in that order. |
| Juego.RecogerPreserva | src/hooks/useJuegoPesca.js:233-281 | Reeling in, giving slack and pausing keep the invariant. |
| Juego.RecogerEnLucha | src/hooks/useJuegoPesca.js:233-240 | While fighting, reeling in sets tension to max(t−15, 0), depth to max(d−5, 0) and lure height to max(y−2, 20). The phase and the timers stay. |
| Juego.PausaNoRestaura | src/hooks/useJuegoPesca.js:275-281 | Pausing from ESPERANDO, LANZANDO, PESCANDO or LUCHANDO gives PAUSA, and resuming gives ESPERANDO, not the phase that was left. |
| Juego.ReinicioIdempotente | src/hooks/useJuegoPesca.js:260-272 | Restarting twice is the same as restarting once. |
| Juego.PanelSinRecords | src/componentes/FishingGame/FishingGame.jsx:204-210 | As the game screen calls `verificarRecords` right after any capture, the first included, it reports every flag false. |
| Juego.PanelPorEspecieComparaConAnteriores | src/componentes/FishingGame/componentes/InfoPez/InfoPez.jsx:29-34 | The intended panel compares the shown catch with the history before it, so the first catch of a session is the first of its species and a record in every category. |
| Juego.PezMasGrandeDesdeNulo | src/hooks/useJuegoPesca.js:287-288 | The `reduce` from `null` finds a fish exactly when some catch weighs more than 0. That fish is in the history and weighs at least as much as every catch. Among equally heavy catches it is the first, because only a strictly heavier catch replaces the kept one. |
| Juego.JuegoPesca.constructor | src/hooks/useJuegoPesca.js:13-36 | The initial state satisfies the invariant. It is ESPERANDO with no fish, zero tension, depth and score, level 1, the lure at (50, 20), no history and no timers. |
| Juego.JuegoPesca.ReiniciarJuego | src/hooks/useJuegoPesca.js:260-272 | From any phase, reaches `Reiniciada`: ESPERANDO, no fish, no pending timers, tension, depth and fight time 0, and lure at (50, 20). Score, level, experience, history, last catch and the info flag are kept. The invariant is kept when it held. |
| Juego.JuegoPesca.AbandonarEncuentro | src/hooks/useJuegoPesca.js:261-271 | The timers are cleared, the phase is ESPERANDO, no fish is held and the fight refs are 0; nothing else changes. |
| Juego.JuegoPesca.RecolocarSenuelo | src/hooks/useJuegoPesca.js:265-268 | Tension, depth and fight time are 0 and the lure is at (50, 20); nothing else changes. |
| Juego.JuegoPesca.LanzarSenuelo | src/hooks/useJuegoPesca.js:82-122 | Does nothing unless the phase is ESPERANDO. Otherwise sets LANZANDO with tension and depth 0, and starts the descent interval at depth 0. |
| Juego.JuegoPesca.PasoDescenso | src/hooks/useJuegoPesca.js:91-119 | A descent tick, proved against `TrasDescenso`: it sinks the lure. At the bottom it stops its interval, sets PESCANDO and sets a bite timeout of 500..1500 ms. |
| Juego.JuegoPesca.DisparoPique | src/hooks/useJuegoPesca.js:110-118 | The bite timeout, proved against `TrasPique`: it starts a fight only if the phase is still PESCANDO. |
| Juego.JuegoPesca.IniciarLuchaAhora | src/hooks/useJuegoPesca.js:125-136 | Starting a fight hooks the fish the sampler draws for the current level. It sets LUCHANDO, restarts the fight clock, loads the fish's stamina and starts the fight interval. |
| Juego.JuegoPesca.PerderPez | src/hooks/useJuegoPesca.js:223-230 | Losing the fish sets PERDIDO and sets the restart timeout. |
| Juego.JuegoPesca.CapturarPez | src/hooks/useJuegoPesca.js:176-220 | Capturing the fish computes its points and experience at the current level and reaches `TrasCaptura`. |
| Juego.JuegoPesca.Recompensar | src/hooks/useJuegoPesca.js:177-217 | Applying the catch record: CAPTURADO; score, level and experience updated; the record appended and shown; the hide timeout set. |
| Juego.JuegoPesca.SumarProgreso | src/hooks/useJuegoPesca.js:183-195 | Only the score, level and experience change. The score grows by the points, and level and experience follow `SubirNivel`. |
| Juego.JuegoPesca.TickLucha | src/hooks/useJuegoPesca.js:136-172 | A fight tick, proved against `TrasTickLucha`, keeps the invariant. |
| Juego.JuegoPesca.Forcejear | src/hooks/useJuegoPesca.js:137-164 | The clock and the struggle. The returned flag says exactly whether the line broke and the interval stopped. |
| Juego.JuegoPesca.CansarPez | src/hooks/useJuegoPesca.js:165-171 | Fatigue, and the capture once stamina reaches 0. |
| Juego.JuegoPesca.DisparoOcultarInfo | src/hooks/useJuegoPesca.js:214-217 | The timeout after a capture hides the info panel and restarts, keeping the invariant. |
| Juego.JuegoPesca.DisparoReinicio | src/hooks/useJuegoPesca.js:227-229 | The timeout after a loss restarts, keeping the invariant. |
| Juego.JuegoPesca.RecogerSedal | src/hooks/useJuegoPesca.js:233-245 | Proved against `TrasRecoger`: while fighting it eases tension, lifts the lure and reduces depth; while waiting for a bite it restarts; otherwise nothing changes. |
| Juego.JuegoPesca.SoltarSedal | src/hooks/useJuegoPesca.js:248-257 | Acts only in LUCHANDO with tension at least 50. It sets tension to max(t−25, 0), depth to min(d+10, 100) and lure height to min(y+3, 80). |
| Juego.JuegoPesca.AlternarPausa | src/hooks/useJuegoPesca.js:275-281 | PAUSA goes to ESPERANDO, CAPTURADO and PERDIDO stay, and every other phase goes to PAUSA. |
| Juego.JuegoPesca.ObtenerEstadisticas | src/hooks/useJuegoPesca.js:284-301 | The hook's summary: (1) the count; (2) the weight total in exact tenths; (3) the heaviest catch from `PezMasGrandeDesdeNulo`; (4) the number of distinct ids; (5) the fight-time total and average rounded to tenths, with the average 0 when there are no catches. |

## Left out

- **Presentation.** Rendering and animation are not modelled: `animacionPez`, the status message and its timers (`mostrarMensaje`, `mensajeEstado`), and the display fields of the species (names, habitat, colours, images, seasons, baits). The tables the engine never reads are also left out: sounds, scenarios, baits, achievements, difficulty levels, breakpoints and storage keys.
- **Timers and the clock.** Real time is not modelled. Any pending timer may fire next, so the model admits more orders than 50 ms and 100 ms intervals would produce. `Date.now()` is the parameter `ahora`.
- **JuegoPesca.TickLucha** requires that the clock has not gone backwards since the fight began (`ahora >= tiempoInicioLucha`). Without that, the fight time could be negative, and so could the experience gained.
- **React semantics.** The model runs each callback's state updates in the written order, synchronously. It does not model these:
  - batching;
  - the deferred run of the `setTension` updater, whose side effects the model performs at once;
  - stale closures. `capturarPez` and the bite timeout read the current level and phase rather than the ones their closures captured.
- **The bite timeout and the phase.** The model checks the phase when the timeout fires. The source reads it through the `setEstadoJuego` updater.
- **Both outcomes in one tick.** A tick that both breaks the line and exhausts the fish runs the loss and then the capture. It ends in CAPTURADO with both timeouts pending (`TickRoturaYCaptura`), because `perderPez` at src/hooks/useJuegoPesca.js:149-152 does not stop the stamina step at lines 165-171 of the same tick.
- **Floating point.** Reals are exact, with no IEEE-754 rounding. `toFixed(1)` becomes rounding half up to tenths (`Decimas`), and results become integers in tenths instead of strings.
- **Fish ids.** The base-36 id string is an abstract `IdInstancia(base, sello)`. Distinct stamps give distinct ids.
- **Peces.ObtenerPezAleatorio** takes the catalog as a parameter; the hook passes `Catalogo`. Its contract holds for any non-empty catalog.
- **Calculos.CalcularFuerzaPez** takes `√pesoActual` as a parameter constrained by `raiz * raiz == pesoKg`, because there is no square root on reals. A negative weight, for which `Math.sqrt` gives NaN, is not modelled.
- **Calculos.CalcularResistenciaPez, Calculos.CalcularFuerzaPez, Calculos.CalcularProbabilidadPique and Calculos.CalcularValorPez** are modelled and proved, but nothing in the hook calls them. The hook uses the rolled `resistencia` and `fuerza` of `generarInstanciaPez`.
- **Calculos.CalcularExperienciaPorCaptura** bounds its result from below, given a non-negative base, rather than stating the whole formula. `ExperienciaSegunRareza` pins the común and legendario values exactly.
- **The capture panel.** Of the game screen and its info panel, only the call to `verificarRecords` is modelled (`RecordsDelPanel`). The screen passes the whole history, which already ends with the catch shown, so the `id` filter always finds that catch itself.
- **The level-up threshold.** The hook levels up at `nivel*100`, not at `calcularExperienciaRequerida`. The model follows the hook (`CurvaNoEsUmbralDelJuego`).

## Findings

| source | as written | input that shows it | evidently intended | confidence | as-written member | corrected member |
|---|---|---|---|---|---|---|
| src/herramientas/calculosPesca.js:209-213 | `verificarRecords` selects earlier catches "of the same species" by `p.id === pezActual.id`. But every rolled instance gets a fresh id (src/data/datosPeces.js:279), so no earlier catch ever matches. The statistics key on the same id and inherit the defect: `especiesUnicas` (src/herramientas/calculosPesca.js:255), the tally behind `especieMasCapturada` (lines 266-272) and the hook's `especiesCapturadas` (src/hooks/useJuegoPesca.js:290) count every catch as a species of its own, and the most caught one is just the last catch (`EspeciesPorInstancia`). Keyed on the species, catches of one species count once (`EspeciesPorClave`). | Called with a history of earlier catches that holds one bocachico, a second bocachico rolled with a different stamp is reported as `primerEspecie` and as a record in every category. | Compare the species, the catalog key the instance id is derived from. | high; not executed | Calculos.VerificarRecords, Calculos.SegundoBocachicoNoEsPrimero, Calculos.EspeciesPorInstancia, Calculos.DosBocachicosUnaEspecie | Calculos.VerificarRecordsPorEspecie, Calculos.EspeciesPorClave |
| src/componentes/FishingGame/FishingGame.jsx:204-210 | The game screen passes `historialPeces={pezesCapturados}`, and InfoPez calls `verificarRecords(pez, historialPeces)` (src/componentes/FishingGame/componentes/InfoPez/InfoPez.jsx:29-34). After `capturarPez`, that history already ends with the catch shown. | The first catch of a session, with history `[c]`: the catch finds itself, and no flag is set, not even `primerEspecie`. The same happens after every later catch. | Compare the catch with the catches before it, by species. | high; not executed | Juego.RecordsDelPanel, Juego.PanelSinRecords | Juego.RecordsDelPanelPorEspecie, Juego.PanelPorEspecieComparaConAnteriores |
