/**
 * The fish catalog and the weighted sampler (src/data/datosPeces.js).
 *
 * Weights are kept in tenths of a kilogram, because an instance's weight is
 * rounded to one decimal. Every `Math.random()` draw is a parameter in [0, 1);
 * the clock reading `Date.now()` is the parameter `ahora`, and the random
 * suffix of an instance id is the abstract stamp `sello`.
 */
module Peces {
  import opened Opciones
  import opened Constantes
  import opened Colecciones

  /** `comportamiento`; `OtroComportamiento` stands for any other label. */
  datatype Comportamiento =
    | Pasivo | Activo | Agresivo | Territorial | Nocturno | Rapido | Esquivo
    | OtroComportamiento(etiqueta: string)

  /** The keys of PECES_COLOMBIANOS, in declaration order. */
  datatype ClaveEspecie =
    | Bocachico | Arapaima | Bagre | Sabalo | Sabaleta | Nicuro | Corroncho | Azulejo | Pavon | Mojarra

  /** The key as the source writes it. */
  function TextoClave(k: ClaveEspecie): string
  {
    match k
    case Bocachico => "bocachico"
    case Arapaima => "arapaima"
    case Bagre => "bagre"
    case Sabalo => "sabalo"
    case Sabaleta => "sabaleta"
    case Nicuro => "nicuro"
    case Corroncho => "corroncho"
    case Azulejo => "azulejo"
    case Pavon => "pavon"
    case Mojarra => "mojarra"
  }

  /** `nombre`, `nombreCientifico` and `familia` of each species: display text, kept apart from the numbers. */
  function Nombres(k: ClaveEspecie): (string, string, string)
  {
    match k
    case Bocachico => ("Bocachico", "Prochilodus magdalenae", "Prochilodontidae")
    case Arapaima => ("Arapaima", "Arapaima gigas", "Arapaimidae")
    case Bagre => ("Bagre Rayado", "Pseudoplatystoma fasciatum", "Pimelodidae")
    case Sabalo => ("Sábalo", "Brycon moorei", "Bryconidae")
    case Sabaleta => ("Sabaleta", "Brycon henni", "Bryconidae")
    case Nicuro => ("Nicuro", "Pimelodus grosskopfii", "Pimelodidae")
    case Corroncho => ("Corroncho", "Chaetostoma fischeri", "Loricariidae")
    case Azulejo => ("Azulejo", "Crenicichla lugubris", "Cichlidae")
    case Pavon => ("Pavón", "Cichla orinocensis", "Cichlidae")
    case Mojarra => ("Mojarra Amarilla", "Caquetaia kraussii", "Cichlidae")
  }

  /**
   * A fish id: a catalog key such as 'bocachico', or the id an instance is
   * given, `${base}_${Date.now()}_${random}`, whose time-and-random suffix is
   * abstracted to `sello`.
   */
  datatype IdPez = IdEspecie(clave: ClaveEspecie) | IdInstancia(base: IdPez, sello: nat)

  /** The catalog key an id starts with. */
  function ClaveDe(id: IdPez): ClaveEspecie
  {
    match id
    case IdEspecie(k) => k
    case IdInstancia(b, _) => ClaveDe(b)
  }

  /**
   * A catalog entry, without its display text. Weights are in tenths of a
   * kilogram and lengths in centimetres.
   */
  datatype Especie = Especie(
    id: IdPez,
    pesoMinimo: int,
    pesoMaximo: int,
    longitudMinima: int,
    longitudMaxima: int,
    dificultad: int,
    rareza: Rareza,
    puntos: int,
    comportamiento: Comportamiento)

  /**
   * A rolled fish: the species fields (with a fresh id) plus the rolled weight
   * in tenths of a kilogram, length in centimetres, stamina, struggle force and
   * the creation time.
   */
  datatype InstanciaPez = InstanciaPez(
    datos: Especie,
    pesoActual: int,
    longitudActual: int,
    resistencia: real,
    fuerza: real,
    tiempoCaptura: int)

  /** The weight of an instance in kilograms, as the source stores it. */
  function PesoKg(p: InstanciaPez): real
  {
    p.pesoActual as real / 10.0
  }

  /** PECES_COLOMBIANOS, in the order of its keys. */
  const Catalogo: seq<Especie> := [
    Especie(IdEspecie(Bocachico), 8, 25, 25, 45, 2, Comun, 150, Activo),
    Especie(IdEspecie(Arapaima), 150, 1200, 120, 250, 9, Legendario, 2500, Territorial),
    Especie(IdEspecie(Bagre), 30, 250, 60, 140, 6, Raro, 900, Nocturno),
    Especie(IdEspecie(Sabalo), 12, 50, 30, 70, 4, Comun, 400, Rapido),
    Especie(IdEspecie(Sabaleta), 5, 20, 20, 40, 3, Comun, 250, Esquivo),
    Especie(IdEspecie(Nicuro), 8, 40, 25, 60, 3, Comun, 300, Territorial),
    Especie(IdEspecie(Corroncho), 3, 10, 15, 30, 1, Comun, 150, Pasivo),
    Especie(IdEspecie(Azulejo), 4, 15, 18, 35, 2, Comun, 200, Agresivo),
    Especie(IdEspecie(Pavon), 20, 120, 40, 90, 7, Epico, 1500, Agresivo),
    Especie(IdEspecie(Mojarra), 6, 25, 22, 45, 2, Comun, 280, Territorial)
  ]

  /** What every catalog entry satisfies. */
  ghost predicate EspecieBienFormada(e: Especie)
  {
    && e.id.IdEspecie?
    && 0 < e.pesoMinimo < e.pesoMaximo
    && 0 < e.longitudMinima < e.longitudMaxima
    && 1 <= e.dificultad <= 10
    && e.rareza in OrdenRareza
    && e.puntos > 0
  }

  /** Every entry has ordered, positive ranges, a difficulty in 1..10, one of the four tiers, and its own key. */
  lemma CatalogoBienFormado()
    ensures |Catalogo| == 10
    ensures forall e :: e in Catalogo ==> EspecieBienFormada(e)
    ensures forall i, j :: 0 <= i < j < |Catalogo| ==> Catalogo[i].id != Catalogo[j].id
  {
  }

  /** obtenerPecesPorRareza: the catalog entries of one tier, in catalog order. */
  function ObtenerPecesPorRareza(rareza: Rareza): (r: seq<Especie>)
    ensures forall e :: e in r <==> e in Catalogo && e.rareza == rareza
  {
    PecesDeRareza(Catalogo, rareza)
  }

  /** Each catalog entry is in the bucket of its own tier. */
  lemma EnSuTier(i: nat)
    requires i < |Catalogo|
    ensures Catalogo[i] in ObtenerPecesPorRareza(Catalogo[i].rareza)
  {
  }

  /** A label other than the four tiers selects no fish. */
  lemma OtraRarezaVacia(etiqueta: string)
    ensures ObtenerPecesPorRareza(OtraRareza(etiqueta)) == []
  {
    CatalogoBienFormado();
    SinTierSinPeces(Catalogo, OtraRareza(etiqueta));
  }

  lemma SinTierSinPeces(catalogo: seq<Especie>, rareza: Rareza)
    requires forall e :: e in catalogo ==> e.rareza in OrdenRareza
    requires rareza !in OrdenRareza
    ensures PecesDeRareza(catalogo, rareza) == []
  {
  }

  /** No tier is empty, and an unknown label selects no fish. */
  lemma RarezasNoVacias()
    ensures |ObtenerPecesPorRareza(Comun)| > 0
    ensures |ObtenerPecesPorRareza(Raro)| > 0
    ensures |ObtenerPecesPorRareza(Epico)| > 0
    ensures |ObtenerPecesPorRareza(Legendario)| > 0
    ensures forall etiqueta :: ObtenerPecesPorRareza(OtraRareza(etiqueta)) == []
  {
    EnSuTier(0);
    EnSuTier(2);
    EnSuTier(8);
    EnSuTier(1);
    forall etiqueta ensures ObtenerPecesPorRareza(OtraRareza(etiqueta)) == [] {
      OtraRarezaVacia(etiqueta);
    }
  }

  /** A value `Math.random()` can return. */
  predicate EnUnidad(x: real)
  {
    0.0 <= x < 1.0
  }

  /** The four draws `generarInstanciaPez` makes, in source order. */
  datatype TiradasInstancia = TiradasInstancia(peso: real, longitud: real, resistencia: real, fuerza: real)

  predicate TiradasInstanciaValidas(t: TiradasInstancia)
  {
    EnUnidad(t.peso) && EnUnidad(t.longitud) && EnUnidad(t.resistencia) && EnUnidad(t.fuerza)
  }

  /** The draws `obtenerPezAleatorio` makes: the tier roll, the species pick, then the instance's. */
  datatype TiradasPez = TiradasPez(rareza: real, seleccion: real, instancia: TiradasInstancia)

  predicate TiradasPezValidas(t: TiradasPez)
  {
    EnUnidad(t.rareza) && EnUnidad(t.seleccion) && TiradasInstanciaValidas(t.instancia)
  }

  lemma ProductoUnidad(r: real, d: real)
    requires EnUnidad(r)
    ensures d >= 0.0 ==> 0.0 <= r * d <= d
    ensures d > 0.0 ==> r * d < d
  {
    if d >= 0.0 {
      assert (1.0 - r) * d >= 0.0;
    }
    if d > 0.0 {
      assert (1.0 - r) * d > 0.0;
    }
  }

  /** `Math.floor(r * n)`: the index a uniform pick among `n` items lands on. */
  function Indice(r: real, n: nat): (k: int)
    requires EnUnidad(r)
    ensures n > 0 ==> 0 <= k < n
  {
    ProductoUnidad(r, n as real);
    (r * n as real).Floor
  }

  /** `(x).toFixed(1)` read back as a number, in tenths: the nearest tenth, halves rounded up. */
  function Decimas(x: real): int
  {
    (x * 10.0 + 0.5).Floor
  }

  /** `Math.floor(r * (maximo - minimo) + minimo)` lies in [minimo, maximo). */
  lemma PisoEnRango(r: real, minimo: int, maximo: int)
    requires EnUnidad(r)
    ensures minimo < maximo ==>
              minimo <= (r * (maximo - minimo) as real + minimo as real).Floor < maximo
  {
    if minimo < maximo {
      var d := (maximo - minimo) as real;
      ProductoUnidad(r, d);
      var y := r * d + minimo as real;
      assert minimo as real <= y < maximo as real;
    }
  }

  /** The weight roll, rounded to tenths, stays within [minimo, maximo] tenths. */
  lemma DecimasEnRango(r: real, minimo: int, maximo: int)
    requires EnUnidad(r)
    ensures minimo <= maximo ==>
              var a := minimo as real / 10.0;
              minimo <= Decimas(r * (maximo as real / 10.0 - a) + a) <= maximo
  {
    if minimo <= maximo {
      var a := minimo as real / 10.0;
      var d := maximo as real / 10.0 - a;
      ProductoUnidad(r, d);
      var x := (r * d + a) * 10.0 + 0.5;
      assert x == r * d * 10.0 + minimo as real + 0.5;
      assert d * 10.0 == (maximo - minimo) as real;
      assert 0.0 <= r * d * 10.0 <= (maximo - minimo) as real;
      assert minimo as real + 0.5 <= x <= maximo as real + 0.5;
    }
  }

  /**
   * generarInstanciaPez: rolls weight, length, stamina and force within the
   * species' ranges and gives the instance a fresh id derived from the
   * species id.
   */
  function GenerarInstanciaPez(datos: Especie, t: TiradasInstancia, sello: nat, ahora: int): (p: InstanciaPez)
    requires TiradasInstanciaValidas(t)
    ensures p.datos == datos.(id := IdInstancia(datos.id, sello))
    ensures datos.pesoMinimo <= datos.pesoMaximo ==> datos.pesoMinimo <= p.pesoActual <= datos.pesoMaximo
    ensures datos.longitudMinima < datos.longitudMaxima ==>
              datos.longitudMinima <= p.longitudActual < datos.longitudMaxima
    ensures 8.0 * datos.dificultad as real <= p.resistencia < 8.0 * datos.dificultad as real + 25.0
    ensures datos.dificultad >= 0 ==> 0.5 <= p.fuerza
    ensures datos.dificultad > 0 ==> p.fuerza < datos.dificultad as real + 0.5
    ensures p.tiempoCaptura == ahora
  {
    var minimo := datos.pesoMinimo as real / 10.0;
    var maximo := datos.pesoMaximo as real / 10.0;
    DecimasEnRango(t.peso, datos.pesoMinimo, datos.pesoMaximo);
    var pesoActual := Decimas(t.peso * (maximo - minimo) + minimo);
    var longitudActual := (t.longitud * (datos.longitudMaxima - datos.longitudMinima) as real
                           + datos.longitudMinima as real).Floor;
    PisoEnRango(t.longitud, datos.longitudMinima, datos.longitudMaxima);
    ProductoUnidad(t.fuerza, datos.dificultad as real);
    InstanciaPez(
      datos.(id := IdInstancia(datos.id, sello)),
      pesoActual,
      longitudActual,
      datos.dificultad as real * 8.0 + t.resistencia * 25.0,
      t.fuerza * datos.dificultad as real + 0.5,
      ahora)
  }

  // The sampler

  /** `Math.min(nivelJugador / 10, 1)`. */
  function FactorNivel(nivelJugador: int): real
  {
    var f := nivelJugador as real / 10.0;
    if f < 1.0 then f else 1.0
  }

  /** The sampler's own copy of the base tier probabilities, in tier order. */
  const ProbabilidadesBase: seq<real> := [0.6, 0.25, 0.12, 0.03]

  /** The local table agrees with CONFIGURACION_RAREZA. */
  lemma ProbabilidadesBaseCoinciden()
    ensures |ProbabilidadesBase| == |OrdenRareza|
    ensures forall k :: 0 <= k < 4 ==> ProbabilidadesBase[k] == ConfigRareza(OrdenRareza[k]).value.probabilidad
  {
  }

  /** The tier probabilities after the level adjustment. */
  function ProbabilidadesAjustadas(nivelJugador: int): (p: seq<real>)
    ensures |p| == 4
  {
    var f := FactorNivel(nivelJugador);
    [0.6, 0.25 + f * 0.1, 0.12 + f * 0.05, 0.03 + f * 0.02]
  }

  /** A higher level never lowers a tier's probability, and from level 10 on nothing changes. */
  lemma ProbabilidadesSegunNivel(n1: int, n2: int)
    requires n1 <= n2
    ensures forall k :: 0 <= k < 4 ==> ProbabilidadesAjustadas(n1)[k] <= ProbabilidadesAjustadas(n2)[k]
    ensures 10 <= n1 ==> ProbabilidadesAjustadas(n1) == ProbabilidadesAjustadas(n2)
  {
  }

  /** The sum of the first `k` probabilities. */
  function SumaPrefijo(p: seq<real>, k: nat): real
    requires k <= |p|
  {
    if k == 0 then 0.0 else SumaPrefijo(p, k - 1) + p[k - 1]
  }

  /** The entries of one tier of a catalog, in catalog order. */
  function PecesDeRareza(catalogo: seq<Especie>, rareza: Rareza): (r: seq<Especie>)
    ensures forall e :: e in r <==> e in catalogo && e.rareza == rareza
  {
    Filtrar(catalogo, (e: Especie) => e.rareza == rareza)
  }

  /**
   * The loop over the tiers from index `k` on, `acumulado` being the running
   * sum so far: a tier is taken when the roll is within the running sum and
   * its bucket of `catalogo` is not empty.
   */
  function PrimerTierDesde(catalogo: seq<Especie>, p: seq<real>, roll: real, k: nat, acumulado: real): Option<Rareza>
    requires |p| == 4 && k <= 4
    decreases 4 - k
  {
    if k == 4 then None
    else
      var a := acumulado + p[k];
      if roll <= a && |PecesDeRareza(catalogo, OrdenRareza[k])| > 0 then Some(OrdenRareza[k])
      else PrimerTierDesde(catalogo, p, roll, k + 1, a)
  }

  /** The tier the sampler settles on for `catalogo`, if any. */
  function TierElegido(catalogo: seq<Especie>, nivelJugador: int, roll: real): Option<Rareza>
  {
    PrimerTierDesde(catalogo, ProbabilidadesAjustadas(nivelJugador), roll, 0, 0.0)
  }

  /** Tier `k` accepts the roll under probabilities `p`: the roll is within the running sum up to `k`, and the bucket is not empty. */
  ghost predicate AceptaCon(catalogo: seq<Especie>, p: seq<real>, roll: real, k: nat)
    requires |p| == 4 && k < 4
  {
    roll <= SumaPrefijo(p, k + 1) && |PecesDeRareza(catalogo, OrdenRareza[k])| > 0
  }

  /** Tier `k` accepts the roll at level `nivelJugador`. */
  ghost predicate Acepta(catalogo: seq<Especie>, nivelJugador: int, roll: real, k: nat)
    requires k < 4
  {
    AceptaCon(catalogo, ProbabilidadesAjustadas(nivelJugador), roll, k)
  }

  /** The loop from tier `k` finds a tier exactly when some tier from `k` on accepts. */
  lemma {:induction false} PrimerTierDesdeEncuentra(catalogo: seq<Especie>, p: seq<real>, roll: real, k: nat)
    requires |p| == 4 && k <= 4
    ensures PrimerTierDesde(catalogo, p, roll, k, SumaPrefijo(p, k)).Some? <==>
              exists j :: k <= j < 4 && AceptaCon(catalogo, p, roll, j)
    decreases 4 - k
  {
    if k < 4 {
      assert SumaPrefijo(p, k + 1) == SumaPrefijo(p, k) + p[k];
      PrimerTierDesdeEncuentra(catalogo, p, roll, k + 1);
      if AceptaCon(catalogo, p, roll, k) {
        assert PrimerTierDesde(catalogo, p, roll, k, SumaPrefijo(p, k)) == Some(OrdenRareza[k]);
      } else {
        assert PrimerTierDesde(catalogo, p, roll, k, SumaPrefijo(p, k))
            == PrimerTierDesde(catalogo, p, roll, k + 1, SumaPrefijo(p, k + 1));
      }
    }
  }

  /** What the loop from tier `k` finds is a tier that accepts, and no earlier tier from `k` on does. */
  lemma {:induction false} PrimerTierDesdeEsElPrimero(catalogo: seq<Especie>, p: seq<real>, roll: real, k: nat)
    requires |p| == 4 && k <= 4
    ensures var r := PrimerTierDesde(catalogo, p, roll, k, SumaPrefijo(p, k));
            forall j :: k <= j < 4 && r == Some(OrdenRareza[j]) ==>
              AceptaCon(catalogo, p, roll, j) && forall i :: k <= i < j ==> !AceptaCon(catalogo, p, roll, i)
    decreases 4 - k
  {
    if k < 4 {
      assert SumaPrefijo(p, k + 1) == SumaPrefijo(p, k) + p[k];
      PrimerTierDesdeEsElPrimero(catalogo, p, roll, k + 1);
    }
  }

  /**
   * The sampler chooses the first tier, in the order común, raro, épico,
   * legendario, that accepts the roll; it chooses none only when no tier does.
   */
  lemma TierElegidoEsElPrimero(catalogo: seq<Especie>, nivelJugador: int, roll: real)
    ensures TierElegido(catalogo, nivelJugador, roll).Some? <==>
              exists j :: 0 <= j < 4 && Acepta(catalogo, nivelJugador, roll, j)
    ensures forall j :: 0 <= j < 4 && TierElegido(catalogo, nivelJugador, roll) == Some(OrdenRareza[j]) ==>
              Acepta(catalogo, nivelJugador, roll, j) && forall i :: 0 <= i < j ==> !Acepta(catalogo, nivelJugador, roll, i)
  {
    var p := ProbabilidadesAjustadas(nivelJugador);
    PrimerTierDesdeEncuentra(catalogo, p, roll, 0);
    PrimerTierDesdeEsElPrimero(catalogo, p, roll, 0);
    assert forall j :: 0 <= j < 4 ==> (Acepta(catalogo, nivelJugador, roll, j) <==> AceptaCon(catalogo, p, roll, j));
  }

  /** A chosen tier has a fish in it, and anything chosen is one of the four tiers. */
  lemma PrimerTierNoVacio(catalogo: seq<Especie>, nivelJugador: int, roll: real)
    ensures var r := TierElegido(catalogo, nivelJugador, roll);
            r.Some? ==> r.value in OrdenRareza && |PecesDeRareza(catalogo, r.value)| > 0
  {
    TierElegidoEsElPrimero(catalogo, nivelJugador, roll);
  }

  /**
   * If the legendary bucket is not empty and the player's level is 0 or more,
   * the probabilities add up to at least one, so some tier always takes the roll.
   */
  lemma {:induction false} SiempreHayTier(catalogo: seq<Especie>, nivelJugador: int, roll: real)
    requires |PecesDeRareza(catalogo, Legendario)| > 0
    requires nivelJugador >= 0 && EnUnidad(roll)
    ensures TierElegido(catalogo, nivelJugador, roll).Some?
  {
    var p := ProbabilidadesAjustadas(nivelJugador);
    assert SumaPrefijo(p, 1) == 0.6;
    assert SumaPrefijo(p, 2) == 0.6 + p[1];
    assert SumaPrefijo(p, 3) == 0.6 + p[1] + p[2];
    assert SumaPrefijo(p, 4) == 0.6 + p[1] + p[2] + p[3];
    assert Acepta(catalogo, nivelJugador, roll, 3);
    TierElegidoEsElPrimero(catalogo, nivelJugador, roll);
  }

  /**
   * The species the sampler picks from `catalogo`: uniformly within the chosen
   * tier, or uniformly among all species as a fallback.
   */
  function EspecieSorteada(catalogo: seq<Especie>, nivelJugador: int, roll: real, seleccion: real): (e: Especie)
    requires |catalogo| > 0 && EnUnidad(seleccion)
    ensures e in catalogo
    ensures TierElegido(catalogo, nivelJugador, roll).Some? ==> e.rareza == TierElegido(catalogo, nivelJugador, roll).value
  {
    PrimerTierNoVacio(catalogo, nivelJugador, roll);
    match TierElegido(catalogo, nivelJugador, roll)
    case Some(r) =>
      var peces := PecesDeRareza(catalogo, r);
      peces[Indice(seleccion, |peces|)]
    case None => catalogo[Indice(seleccion, |catalogo|)]
  }

  /** For the game's catalog the fallback is never taken: every player of level 0 or more gets a tier. */
  lemma SorteoNuncaUsaRespaldo(nivelJugador: int, roll: real)
    requires nivelJugador >= 0 && EnUnidad(roll)
    ensures TierElegido(Catalogo, nivelJugador, roll).Some?
  {
    RarezasNoVacias();
    SiempreHayTier(Catalogo, nivelJugador, roll);
  }

  /**
   * obtenerPezAleatorio: adjusts the tier probabilities by level, walks the
   * tiers accumulating probability, and rolls an instance of a species picked
   * in the first tier that takes the roll; otherwise of any species. The game
   * passes `Catalogo`.
   */
  method ObtenerPezAleatorio(catalogo: seq<Especie>, nivelJugador: int, t: TiradasPez, sello: nat, ahora: int)
    returns (pez: InstanciaPez)
    requires |catalogo| > 0 && TiradasPezValidas(t)
    ensures pez == GenerarInstanciaPez(EspecieSorteada(catalogo, nivelJugador, t.rareza, t.seleccion), t.instancia, sello, ahora)
  {
    var factorNivel := FactorNivel(nivelJugador);
    var probabilidades := ProbabilidadesBase;
    probabilidades := probabilidades[1 := probabilidades[1] + factorNivel * 0.1];
    probabilidades := probabilidades[2 := probabilidades[2] + factorNivel * 0.05];
    probabilidades := probabilidades[3 := probabilidades[3] + factorNivel * 0.02];
    assert probabilidades == ProbabilidadesAjustadas(nivelJugador);
    var numeroAleatorio := t.rareza;
    var acumulado := 0.0;
    var k := 0;
    while k < 4
      invariant 0 <= k <= 4
      invariant PrimerTierDesde(catalogo, probabilidades, numeroAleatorio, k, acumulado)
                == TierElegido(catalogo, nivelJugador, numeroAleatorio)
    {
      acumulado := acumulado + probabilidades[k];
      if numeroAleatorio <= acumulado {
        var pecesTipo := PecesDeRareza(catalogo, OrdenRareza[k]);
        if |pecesTipo| > 0 {
          var pezSeleccionado := pecesTipo[Indice(t.seleccion, |pecesTipo|)];
          pez := GenerarInstanciaPez(pezSeleccionado, t.instancia, sello, ahora);
          return;
        }
      }
      k := k + 1;
    }
    pez := GenerarInstanciaPez(catalogo[Indice(t.seleccion, |catalogo|)], t.instancia, sello, ahora);
  }
}
