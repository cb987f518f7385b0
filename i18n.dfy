/**
 * The localized seed catalog: six products whose texts depend on the
 * language and whose ids, prices, categories, stock and images do not.
 */
module I18n {
  import opened Types
  import opened Seqs

  /** The translation helper `t`: the Spanish text for Es, the French for Fr, the English otherwise. */
  function Pick<T>(lang: Language, en: T, es: T, fr: T): T
  {
    var isEs := lang == Es;
    var isFr := lang == Fr;
    if isEs then es else if isFr then fr else en
  }

  /** `getLocalizedProducts(lang)`: the default catalog in the given language. */
  function LocalizedProducts(lang: Language): (r: seq<Product>)
    ensures |r| == 6
  {
    seq(6, i requires 0 <= i < 6 => SeedProduct(lang, i))
  }

  /** Element `i` of the catalog array. */
  function SeedProduct(lang: Language, i: nat): Product
    requires i < 6
  {
    match i
    case 0 => AuroraChronograph(lang)
    case 1 => MidnightDiver(lang)
    case 2 => SolarePendant(lang)
    case 3 => EclipseCuff(lang)
    case 4 => Heritage1960(lang)
    case 5 => CelestialRing(lang)
  }

  /** Seed product w1, a watch. */
  function AuroraChronograph(lang: Language): Product
  {
    Product(
      "w1",
      Pick(lang, "The Aurora Chronograph", "Cronógrafo Aurora", "Le Chronographe Aurora"),
      12500,
      [ Unsplash("1524592094714-0f0654e20314", "1999"),
        Unsplash("1548171915-e79a380a2a4b", "1000"),
        Unsplash("1614164185128-e4899fb60368", "1000") ],
      Watches,
      5,
      Pick(lang,
        "A masterpiece of engineering featuring a moonphase complication and 18k gold " +
        "casing. The Aurora Chronograph represents the pinnacle of our watchmaking expertise.",
        "Una obra maestra de la ingeniería con complicación de fase lunar y caja de oro de 18 " +
        "quilates. El Cronógrafo Aurora representa la cúspide de nuestra experiencia relojera.",
        "Un chef-d'œuvre d'ingénierie doté d'une complication phase de lune et d'un boîtier en or " +
        "18 carats. Le Chronographe Aurora représente le summum de notre savoir-faire horloger."),
      Pick(lang,
        ["18k Gold", "Sapphire Crystal", "Automatic Movement", "Water Resistant 50m", "Moonphase Complication"],
        ["Oro 18k", "Cristal de Zafiro", "Movimiento Automático", "Resistencia 50m", "Fase Lunar"],
        ["Or 18k", "Verre Saphir", "Mouvement Automatique", "Résistance 50m", "Phase de Lune"]))
  }

  /** Seed product w2, a watch. */
  function MidnightDiver(lang: Language): Product
  {
    Product(
      "w2",
      Pick(lang, "Midnight Diver", "Buzo de Medianoche", "Plongeur de Minuit"),
      8900,
      [ Unsplash("1522312346375-d1a52e2b99b3", "1894"),
        Unsplash("1539874754764-5a96559165b0", "1000") ],
      Watches,
      8,
      Pick(lang,
        "Built for the depths, designed for the boardroom. The Midnight Diver " +
        "features a robust ceramic bezel and our signature luminescent dial.",
        "Construido para las profundidades, diseñado para la sala de juntas. El Buzo de Medianoche " +
        "cuenta con un robusto bisel de cerámica y nuestra esfera luminiscente exclusiva.",
        "Conçu pour les profondeurs, dessiné pour la salle de réunion. Le Plongeur de Minuit " +
        "dispose d'une lunette en céramique robuste et de notre cadran luminescent signature."),
      Pick(lang,
        ["Titanium", "Ceramic Bezel", "300m Water Resistance", "Luminescent Dial"],
        ["Titanio", "Bisel Cerámico", "300m Resistencia", "Esfera Luminiscente"],
        ["Titane", "Lunette Céramique", "Résistance 300m", "Cadran Luminescent"]))
  }

  /** Seed product j1, a piece of jewelry. */
  function SolarePendant(lang: Language): Product
  {
    Product(
      "j1",
      Pick(lang, "Solare Diamond Pendant", "Colgante Diamante Solare", "Pendentif Diamant Solare"),
      4500,
      [ Unsplash("1599643478518-17488fbbcd75", "1887"),
        Unsplash("1515562141207-7a88fb7ce338", "1000") ],
      Jewelry,
      3,
      Pick(lang,
        "A radiant sunburst design encrusted with VVS diamonds set " +
        "in platinum. This pendant captures the essence of light.",
        "Un diseño radiante de rayos de sol con incrustaciones de diamantes " +
        "VVS engastados en platino. Este colgante captura la esencia de la luz.",
        "Un design rayonnant incrusté de diamants VVS sertis dans " +
        "du platine. Ce pendentif capture l'essence de la lumière."),
      Pick(lang,
        ["Platinum", "VVS Diamonds", "18\" Chain", "Handcrafted"],
        ["Platino", "Diamantes VVS", "Cadena 18\"", "Hecho a Mano"],
        ["Platine", "Diamants VVS", "Chaîne 18\"", "Fait Main"]))
  }

  /** Seed product j2, a piece of jewelry. */
  function EclipseCuff(lang: Language): Product
  {
    Product(
      "j2",
      Pick(lang, "Eclipse Gold Cuff", "Brazalete Eclipse Oro", "Manchette Eclipse Or"),
      3200,
      [ Unsplash("1611591437281-460bfbe1220a", "2070") ],
      Jewelry,
      12,
      Pick(lang,
        "Modern minimalism meets ancient luxury. This hammered 24k gold " +
        "finish cuff is designed to make a statement without saying a word.",
        "El minimalismo moderno se encuentra con el lujo antiguo. Este brazalete con " +
        "acabado de oro de 24k martillado está diseñado para destacar sin decir una palabra.",
        "Le minimalisme moderne rencontre le luxe ancien. Cette manchette en " +
        "finition or 24k martelé est conçue pour faire sensation sans dire un mot."),
      Pick(lang,
        ["24k Gold Overlay", "Adjustable Fit", "Hammered Finish", "Unisex"],
        ["Baño Oro 24k", "Ajustable", "Acabado Martillado", "Unisex"],
        ["Plaqué Or 24k", "Ajustable", "Finition Martelée", "Unisexe"]))
  }

  /** Seed product w3, a watch. */
  function Heritage1960(lang: Language): Product
  {
    Product(
      "w3",
      Pick(lang, "Heritage 1960", "Herencia 1960", "Héritage 1960"),
      15000,
      [ Unsplash("1523170335258-f5ed11844a49", "2080") ],
      Watches,
      2,
      Pick(lang,
        "A limited edition reissue of our classic pilot watch from the golden age of aviation.",
        "Una reedición de edición limitada de nuestro clásico " +
        "reloj de piloto de la época dorada de la aviación.",
        "Une réédition en édition limitée de notre montre " +
        "d'aviateur classique de l'âge d'or de l'aviation."),
      Pick(lang,
        ["Leather Strap", "Vintage Dial", "Manual Wind", "Limited Edition"],
        ["Correa Piel", "Esfera Vintage", "Cuerda Manual", "Edición Limitada"],
        ["Bracelet Cuir", "Cadran Vintage", "Remontage Manuel", "Édition Limitée"]))
  }

  /** Seed product j3, a piece of jewelry. */
  function CelestialRing(lang: Language): Product
  {
    Product(
      "j3",
      Pick(lang, "Celestial Ring", "Anillo Celestial", "Bague Céleste"),
      6700,
      [ Unsplash("1605100804763-247f67b3557e", "2070") ],
      Jewelry,
      4,
      Pick(lang,
        "A deep blue sapphire center stone surrounded by a halo of pave diamonds, set in 18k white gold.",
        "Un zafiro azul profundo central rodeado por un halo " +
        "de diamantes pavé, engastado en oro blanco de 18k.",
        "Un saphir bleu profond central entouré d'un halo " +
        "de diamants pavés, serti sur de l'or blanc 18k."),
      Pick(lang,
        ["Blue Sapphire", "White Gold", "Pave Setting", "Conflict-Free"],
        ["Zafiro Azul", "Oro Blanco", "Engaste Pavé", "Sin Conflictos"],
        ["Saphir Bleu", "Or Blanc", "Serti Pavé", "Sans Conflit"]))
  }

  /** The ids of the seed catalog, in order. */
  const SeedIdList: seq<string> := ["w1", "w2", "j1", "j2", "w3", "j3"]

  /** The first two letters of each seed title, per language. */
  function TitleKeys(lang: Language): seq<string>
  {
    Pick(lang,
      ["Th", "Mi", "So", "Ec", "He", "Ce"],
      ["Cr", "Bu", "Co", "Br", "He", "An"],
      ["Le", "Pl", "Pe", "Ma", "Hé", "Ba"])
  }

  /** `p` and `q` are one seed entry in two languages: only the texts may differ. */
  predicate SameSeed(p: Product, q: Product)
  {
    p.id == q.id && p.price == q.price && p.category == q.category && p.stock == q.stock
    && p.images == q.images && |p.features| == |q.features|
  }

  /** A seed entry has an image and a positive price and stock. */
  predicate WellFormedSeed(p: Product)
  {
    |p.images| >= 1 && p.price > 0 && p.stock > 0
  }

  /**
   * What holds of entry `i` of the catalog, `p` in language `a` and `q` in
   * language `b`: its id, the first two letters of its title, and that only
   * the texts differ between the languages.
   */
  predicate SeedFacts(a: Language, b: Language, p: Product, q: Product, i: nat)
    requires i < 6
  {
    p.id == SeedIdList[i] && |p.title| >= 2 && p.title[..2] == TitleKeys(a)[i]
    && SameSeed(p, q) && WellFormedSeed(p)
  }

  /** The entry facts, one seed product at a time. */
  lemma AuroraChronographEntry(a: Language, b: Language)
    ensures AuroraChronograph(a).id == SeedIdList[0]
    ensures |AuroraChronograph(a).title| >= 2 && AuroraChronograph(a).title[..2] == TitleKeys(a)[0]
    ensures SameSeed(AuroraChronograph(a), AuroraChronograph(b)) && WellFormedSeed(AuroraChronograph(a))
  {
  }

  lemma MidnightDiverEntry(a: Language, b: Language)
    ensures MidnightDiver(a).id == SeedIdList[1]
    ensures |MidnightDiver(a).title| >= 2 && MidnightDiver(a).title[..2] == TitleKeys(a)[1]
    ensures SameSeed(MidnightDiver(a), MidnightDiver(b)) && WellFormedSeed(MidnightDiver(a))
  {
  }

  lemma SolarePendantEntry(a: Language, b: Language)
    ensures SolarePendant(a).id == SeedIdList[2]
    ensures |SolarePendant(a).title| >= 2 && SolarePendant(a).title[..2] == TitleKeys(a)[2]
    ensures SameSeed(SolarePendant(a), SolarePendant(b)) && WellFormedSeed(SolarePendant(a))
  {
  }

  lemma EclipseCuffEntry(a: Language, b: Language)
    ensures EclipseCuff(a).id == SeedIdList[3]
    ensures |EclipseCuff(a).title| >= 2 && EclipseCuff(a).title[..2] == TitleKeys(a)[3]
    ensures SameSeed(EclipseCuff(a), EclipseCuff(b)) && WellFormedSeed(EclipseCuff(a))
  {
  }

  lemma Heritage1960Entry(a: Language, b: Language)
    ensures Heritage1960(a).id == SeedIdList[4]
    ensures |Heritage1960(a).title| >= 2 && Heritage1960(a).title[..2] == TitleKeys(a)[4]
    ensures SameSeed(Heritage1960(a), Heritage1960(b)) && WellFormedSeed(Heritage1960(a))
  {
  }

  lemma CelestialRingEntry(a: Language, b: Language)
    ensures CelestialRing(a).id == SeedIdList[5]
    ensures |CelestialRing(a).title| >= 2 && CelestialRing(a).title[..2] == TitleKeys(a)[5]
    ensures SameSeed(CelestialRing(a), CelestialRing(b)) && WellFormedSeed(CelestialRing(a))
  {
  }

  /** The same facts, read through the catalog's index. */
  lemma AuroraChronographAt(a: Language, b: Language, i: nat)
    requires i == 0
    ensures SeedFacts(a, b, SeedProduct(a, i), SeedProduct(b, i), i)
  {
    AuroraChronographEntry(a, b);
  }

  lemma MidnightDiverAt(a: Language, b: Language, i: nat)
    requires i == 1
    ensures SeedFacts(a, b, SeedProduct(a, i), SeedProduct(b, i), i)
  {
    MidnightDiverEntry(a, b);
  }

  lemma SolarePendantAt(a: Language, b: Language, i: nat)
    requires i == 2
    ensures SeedFacts(a, b, SeedProduct(a, i), SeedProduct(b, i), i)
  {
    SolarePendantEntry(a, b);
  }

  lemma EclipseCuffAt(a: Language, b: Language, i: nat)
    requires i == 3
    ensures SeedFacts(a, b, SeedProduct(a, i), SeedProduct(b, i), i)
  {
    EclipseCuffEntry(a, b);
  }

  lemma Heritage1960At(a: Language, b: Language, i: nat)
    requires i == 4
    ensures SeedFacts(a, b, SeedProduct(a, i), SeedProduct(b, i), i)
  {
    Heritage1960Entry(a, b);
  }

  lemma CelestialRingAt(a: Language, b: Language, i: nat)
    requires i == 5
    ensures SeedFacts(a, b, SeedProduct(a, i), SeedProduct(b, i), i)
  {
    CelestialRingEntry(a, b);
  }

  /**
   * Entry `i` of the seed catalog has the same id, price, category, stock, images
   * and number of features in every language, and is well formed.
   */
  lemma SeedEntry(a: Language, b: Language, i: nat)
    requires i < 6
    ensures SeedFacts(a, b, SeedProduct(a, i), SeedProduct(b, i), i)
  {
    match i
    case 0 => AuroraChronographAt(a, b, i);
    case 1 => MidnightDiverAt(a, b, i);
    case 2 => SolarePendantAt(a, b, i);
    case 3 => EclipseCuffAt(a, b, i);
    case 4 => Heritage1960At(a, b, i);
    case 5 => CelestialRingAt(a, b, i);
  }

  lemma SeedIdListDistinct()
    ensures NoDups(SeedIdList)
  {
  }

  /** In every language the seed catalog is the six products w1, w2, j1, j2, w3, j3, in that order. */
  lemma SeedIds(lang: Language)
    ensures Ids(LocalizedProducts(lang)) == SeedIdList
    ensures NoDups(Ids(LocalizedProducts(lang)))
  {
    var ids := Ids(LocalizedProducts(lang));
    forall i | 0 <= i < 6 ensures ids[i] == SeedIdList[i] {
      SeedEntry(lang, lang, i);
    }
    assert ids == SeedIdList;
    SeedIdListDistinct();
  }

  /**
   * Switching the language changes only texts: ids, prices, categories, stock
   * and images agree position by position, and so does the number of features.
   */
  lemma SeedLanguageIndependent(a: Language, b: Language)
    ensures |LocalizedProducts(a)| == |LocalizedProducts(b)| == 6
    ensures forall i :: 0 <= i < 6 ==> SameSeed(LocalizedProducts(a)[i], LocalizedProducts(b)[i])
  {
    forall i | 0 <= i < 6 ensures SameSeed(LocalizedProducts(a)[i], LocalizedProducts(b)[i]) {
      SeedEntry(a, b, i);
    }
  }

  /** Every seed product has an image, a positive price and a positive stock. */
  lemma SeedWellFormed(lang: Language)
    ensures forall i :: 0 <= i < |LocalizedProducts(lang)| ==> WellFormedSeed(LocalizedProducts(lang)[i])
  {
    forall i | 0 <= i < 6 ensures WellFormedSeed(LocalizedProducts(lang)[i]) {
      SeedEntry(lang, lang, i);
    }
  }

  lemma TitleKeysDistinct(lang: Language)
    ensures NoDups(TitleKeys(lang))
  {
  }

  /** The six titles differ pairwise in each language: a title names one product. */
  lemma SeedTitlesDistinct(lang: Language)
    ensures NoDups(Titles(LocalizedProducts(lang)))
  {
    var ts := Titles(LocalizedProducts(lang));
    var keys := TitleKeys(lang);
    TitleKeysDistinct(lang);
    forall i, j | 0 <= i < j < 6 ensures ts[i] != ts[j] {
      SeedEntry(lang, lang, i);
      SeedEntry(lang, lang, j);
      assert ts[i][..2] == keys[i] && ts[j][..2] == keys[j];
    }
  }
}
