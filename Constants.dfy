/** The translation catalogs and the rule that picks one for a market
    code (constants.ts). */
module Constants {

  import opened Types
  import Config

  /** The category names in English, in navigation order. */
  const MasterVerticalsEn: seq<string> := [
    "Parts & Accessories",
    "Home & Garden",
    "Lifestyle",
    "Business, Office & Industrial",
    "Electronics",
    "Fashion",
    "Toys & Games",
    "Health & Beauty",
    "Sporting Goods",
    "Collectables",
    "Media"
  ]

  /** The German catalog. */
  const TranslationsDe: UiTranslations := UiTranslations(
    welcomeTitle := "Willkommen bei eAMS Marketpulse",
    welcomeIntro := "Dieses Tool bietet Echtzeit-Marktanalysen und strategische Einblicke für eBay-Verticals.",
    welcomeInstruction := "Bitte wählen Sie links eine Kategorie aus, um zu beginnen.",
    loadingMessage := "Lade aktuelle Einblicke für",
    errorMessage := "Ein Fehler ist aufgetreten",
    reportTitleSuffix := "Marktbericht",
    lastUpdated := "Zuletzt aktualisiert",
    copyButton := "Bericht kopieren",
    copiedButton := "Kopiert!",
    updateButton := "Bericht aktualisieren",
    downloadButton := "PDF herunterladen",
    sourcesTitle := "Quellen",
    footerText := "Bereitgestellt von",
    verticals := [
      "Teile & Zubehör",
      "Haus & Garten",
      "Lifestyle",
      "Business & Industrie",
      "Elektronik",
      "Mode",
      "Spielzeug & Spiele",
      "Health & Beauty",
      "Sport",
      "Sammeln & Seltenes",
      "Medien"
    ],
    sectionExecutiveSummary := "Management Summary",
    sectionMarketHealth := "Aktuelle Marktlage & Trends",
    sectionBuyerInfluencers := "Wichtige Einflussfaktoren für Käufer",
    sectionKeyTakeaways := "Wichtige Erkenntnisse & Handlungsempfehlungen",
    sectionKeywords := "Top-Keywords für eBay-Angebote",
    sectionCurrentQuarter := "Aktuelles Quartal",
    sectionLookAhead := "Ausblick auf",
    subHeadingIncrease := "Erwarteter Anstieg der Nachfrage",
    subHeadingDecrease := "Erwarteter Rückgang der Nachfrage"
  )

  /** The French catalog. */
  const TranslationsFr: UiTranslations := UiTranslations(
    welcomeTitle := "Bienvenue sur eAMS Marketpulse",
    welcomeIntro := "Cet outil fournit une analyse de marché en temps réel et des informations exploitables pour les catégories eBay.",
    welcomeInstruction := "Pour commencer, veuillez sélectionner une catégorie dans le menu de gauche.",
    loadingMessage := "Chargement des analyses pour",
    errorMessage := "Une erreur est survenue",
    reportTitleSuffix := "Rapport de Marché",
    lastUpdated := "Dernière mise à jour",
    copyButton := "Copier le rapport",
    copiedButton := "Copié !",
    updateButton := "Mettre à jour",
    downloadButton := "Télécharger PDF",
    sourcesTitle := "Sources",
    footerText := "Propulsé par",
    verticals := [
      "Pièces & Accessoires",
      "Maison & Jardin",
      "Art de vivre",
      "PME, Artisans & Agriculteurs",
      "High-Tech",
      "Mode",
      "Jeux & Jouets",
      "Beauté, Bien-être & Parfums",
      "Sports & Vacances",
      "Collections",
      "Médias"
    ],
    sectionExecutiveSummary := "Synthèse",
    sectionMarketHealth := "Santé Actuelle du Marché & Tendances",
    sectionBuyerInfluencers := "Facteurs Clés d'Influence des Acheteurs",
    sectionKeyTakeaways := "Points Clés & Conseils Pratiques",
    sectionKeywords := "Mots-clés Principaux pour les Annonces eBay",
    sectionCurrentQuarter := "Trimestre Actuel",
    sectionLookAhead := "Perspectives pour",
    subHeadingIncrease := "Hausse de la demande prévue",
    subHeadingDecrease := "Baisse de la demande prévue"
  )

  /** The Italian catalog. */
  const TranslationsIt: UiTranslations := UiTranslations(
    welcomeTitle := "Benvenuto in eAMS Marketpulse",
    welcomeIntro := "Questo strumento fornisce analisi di mercato in tempo reale e approfondimenti strategici per le categorie eBay.",
    welcomeInstruction := "Per iniziare, seleziona una categoria dal menu a sinistra.",
    loadingMessage := "Caricamento approfondimenti per",
    errorMessage := "Si è verificato un errore",
    reportTitleSuffix := "Rapporto di Mercato",
    lastUpdated := "Ultimo aggiornamento",
    copyButton := "Copia rapporto",
    copiedButton := "Copiato!",
    updateButton := "Aggiorna rapporto",
    downloadButton := "Scarica PDF",
    sourcesTitle := "Fonti",
    footerText := "Offerto da",
    verticals := [
      "Ricambi e Accessori",
      "Casa e Giardino",
      "Lifestyle",
      "Commercio, Ufficio e Industria",
      "Elettronica",
      "Moda",
      "Giocattoli e Modellismo",
      "Bellezza e Salute",
      "Sport e Viaggi",
      "Collezionismo",
      "Film e DVD"
    ],
    sectionExecutiveSummary := "Sintesi",
    sectionMarketHealth := "Salute Attuale del Mercato e Tendenze",
    sectionBuyerInfluencers := "Fattori Chiave di Influenza sugli Acquirenti",
    sectionKeyTakeaways := "Punti Chiave e Consigli Pratici",
    sectionKeywords := "Parole Chiave Principali per le Inserzioni eBay",
    sectionCurrentQuarter := "Trimestre Attuale",
    sectionLookAhead := "Prospettive per",
    subHeadingIncrease := "Aumento della domanda previsto",
    subHeadingDecrease := "Calo della domanda previsto"
  )

  /** The Spanish catalog. */
  const TranslationsEs: UiTranslations := UiTranslations(
    welcomeTitle := "Bienvenido a eAMS Marketpulse",
    welcomeIntro := "Esta herramienta proporciona análisis de mercado en tiempo real e información estratégica para las categorías de eBay.",
    welcomeInstruction := "Para comenzar, seleccione una categoría en el menú de la izquierda.",
    loadingMessage := "Cargando información para",
    errorMessage := "Ocurrió un error",
    reportTitleSuffix := "Informe de Mercado",
    lastUpdated := "Última actualización",
    copyButton := "Copiar informe",
    copiedButton := "¡Copiado!",
    updateButton := "Actualizar informe",
    downloadButton := "Descargar PDF",
    sourcesTitle := "Fuentes",
    footerText := "Impulsado por",
    verticals := [
      "Motor: piezas y accesorios",
      "Casa y Jardín",
      "Estilo de vida",
      "Equipamiento y maquinaria",
      "Electrónica",
      "Moda",
      "Juguetes y juegos",
      "Belleza y Salud",
      "Deportes",
      "Coleccionismo",
      "Cine, DVD y Películas"
    ],
    sectionExecutiveSummary := "Resumen Ejecutivo",
    sectionMarketHealth := "Salud del Mercado y Tendencias",
    sectionBuyerInfluencers := "Factores Clave de Influencia en el Comprador",
    sectionKeyTakeaways := "Puntos Clave y Consejos Prácticos",
    sectionKeywords := "Palabras Clave Principales para Anuncios de eBay",
    sectionCurrentQuarter := "Trimestre Actual",
    sectionLookAhead := "Perspectivas para",
    subHeadingIncrease := "Se espera un aumento en la demanda",
    subHeadingDecrease := "Se espera una caída en la demanda"
  )

  /** The Dutch catalog. */
  const TranslationsNl: UiTranslations := UiTranslations(
    welcomeTitle := "Welkom bij eAMS Marketpulse",
    welcomeIntro := "Deze tool biedt realtime marktanalyses en strategische inzichten voor eBay-categorieën.",
    welcomeInstruction := "Selecteer een categorie in het menu links om te beginnen.",
    loadingMessage := "Inzichten ophalen voor",
    errorMessage := "Er is een fout opgetreden",
    reportTitleSuffix := "Marktrapport",
    lastUpdated := "Laatst bijgewerkt",
    copyButton := "Rapport kopiëren",
    copiedButton := "Gekopieerd!",
    updateButton := "Rapport bijwerken",
    downloadButton := "PDF downloaden",
    sourcesTitle := "Bronnen",
    footerText := "Mogelijk gemaakt door",
    verticals := [
      "Auto-onderdelen en accessoires",
      "Tuin en terras",
      "Lifestyle",
      "Professionele uitrusting",
      "Elektronica",
      "Kleding en accessoires",
      "Speelgoed en spellen",
      "Mooi en gezond",
      "Sport en vakantie",
      "Verzamelen",
      "Films en dvd's"
    ],
    sectionExecutiveSummary := "Management Samenvatting",
    sectionMarketHealth := "Huidige Marktsituatie & Trends",
    sectionBuyerInfluencers := "Belangrijkste Invloedsfactoren voor Kopers",
    sectionKeyTakeaways := "Belangrijkste Inzichten & Advies",
    sectionKeywords := "Top Zoekwoorden voor eBay-advertenties",
    sectionCurrentQuarter := "Huidig Kwartaal",
    sectionLookAhead := "Vooruitblik op",
    subHeadingIncrease := "Verwachte stijging van de vraag",
    subHeadingDecrease := "Verwachte daling van de vraag"
  )

  /** The Polish catalog. */
  const TranslationsPl: UiTranslations := UiTranslations(
    welcomeTitle := "Witamy w eAMS Marketpulse",
    welcomeIntro := "To narzędzie zapewnia analizy rynku w czasie rzeczywistym i strategiczne wskazówki dla kategorii eBay.",
    welcomeInstruction := "Aby rozpocząć, wybierz kategorię z menu po lewej stronie.",
    loadingMessage := "Pobieranie danych dla",
    errorMessage := "Wystąpił błąd",
    reportTitleSuffix := "Raport Rynkowy",
    lastUpdated := "Ostatnia aktualizacja",
    copyButton := "Kopiuj raport",
    copiedButton := "Skopiowano!",
    updateButton := "Aktualizuj raport",
    downloadButton := "Pobierz PDF",
    sourcesTitle := "Źródła",
    footerText := "Wspierane przez",
    verticals := [
      "Motoryzacja: Części i akcesoria",
      "Dom i Ogród",
      "Styl życia",
      "Firma i Przemysł",
      "Elektronika",
      "Moda",
      "Zabawki",
      "Uroda i Zdrowie",
      "Sport i Turystyka",
      "Kolekcje",
      "Filmy i DVD"
    ],
    sectionExecutiveSummary := "Podsumowanie Wykonawcze",
    sectionMarketHealth := "Kondycja Rynku i Trendy",
    sectionBuyerInfluencers := "Kluczowe Czynniki Wpływające na Kupujących",
    sectionKeyTakeaways := "Kluczowe Wnioski i Porady",
    sectionKeywords := "Najlepsze Słowa Kluczowe dla Ofert eBay",
    sectionCurrentQuarter := "Obecny Kwartał",
    sectionLookAhead := "Perspektywy na",
    subHeadingIncrease := "Oczekiwany wzrost popytu",
    subHeadingDecrease := "Oczekiwany spadek popytu"
  )

  /** The default English catalog. */
  const TranslationsEn: UiTranslations := UiTranslations(
    welcomeTitle := "Welcome to eAMS Marketpulse",
    welcomeIntro := "This tool provides real-time market analysis and actionable insights for eBay verticals.",
    welcomeInstruction := "To get started, please select a vertical from the menu on the left.",
    loadingMessage := "Fetching latest insights for",
    errorMessage := "An Error Occurred",
    reportTitleSuffix := "Market Report",
    lastUpdated := "Last updated",
    copyButton := "Copy Report",
    copiedButton := "Copied!",
    updateButton := "Update Report",
    downloadButton := "Download PDF",
    sourcesTitle := "Sources",
    footerText := "Powered by",
    verticals := MasterVerticalsEn,
    sectionExecutiveSummary := "Executive Summary",
    sectionMarketHealth := "Current Market Health & Trends",
    sectionBuyerInfluencers := "Key Buyer Influencers",
    sectionKeyTakeaways := "Key Takeaways & Actionable Advice",
    sectionKeywords := "Top Keywords for eBay Listings",
    sectionCurrentQuarter := "Current Quarter",
    sectionLookAhead := "Look Ahead to",
    subHeadingIncrease := "Expected to increase in demand",
    subHeadingDecrease := "Expected to drop in demand"
  )

  /** All catalogs, one per language. */
  const Catalogs: seq<UiTranslations> :=
    [TranslationsDe, TranslationsFr, TranslationsIt, TranslationsEs, TranslationsNl, TranslationsPl, TranslationsEn]

  /** The catalog for a market code: several codes share a language's
      catalog, and every code without its own rule, known or not, gets the
      English one. Total; never fails. */
  function GetTranslations(code: string): (t: UiTranslations)
    ensures t in Catalogs
    ensures |t.verticals| == |MasterVerticalsEn| == 11
  {
    match code
    case "DE" | "AT" | "CH" => TranslationsDe
    case "FR" | "BE-FR" | "CA-FR" => TranslationsFr
    case "IT" => TranslationsIt
    case "ES" => TranslationsEs
    case "NL" | "BE-NL" => TranslationsNl
    case "PL" => TranslationsPl
    case _ => TranslationsEn
  }

  /** Which codes resolve to which catalog, in both directions. */
  lemma CatalogResolution(code: string)
    ensures GetTranslations(code) == TranslationsDe <==> code in {"DE", "AT", "CH"}
    ensures GetTranslations(code) == TranslationsFr <==> code in {"FR", "BE-FR", "CA-FR"}
    ensures GetTranslations(code) == TranslationsIt <==> code == "IT"
    ensures GetTranslations(code) == TranslationsEs <==> code == "ES"
    ensures GetTranslations(code) == TranslationsNl <==> code in {"NL", "BE-NL"}
    ensures GetTranslations(code) == TranslationsPl <==> code == "PL"
    ensures GetTranslations(code) == TranslationsEn <==>
              code !in {"DE", "AT", "CH", "FR", "BE-FR", "CA-FR", "IT", "ES", "NL", "BE-NL", "PL"}
  {
  }

  /** Every catalog lists eleven categories; the English one is the master list. */
  lemma CatalogsListElevenVerticals()
    ensures forall t :: t in Catalogs ==> |t.verticals| == 11
    ensures TranslationsEn.verticals == MasterVerticalsEn
  {
  }

  /** For every registry entry, the catalog its code resolves to is the one
      of the language the entry declares. */
  lemma MarketLanguageMatchesCatalog(i: nat)
    requires i < |Config.Markets|
    ensures var m := Config.Markets[i];
            var t := GetTranslations(m.code);
            && (m.language == "English" <==> t == TranslationsEn)
            && (m.language == "German" <==> t == TranslationsDe)
            && (m.language == "French" <==> t == TranslationsFr)
            && (m.language == "Italian" <==> t == TranslationsIt)
            && (m.language == "Spanish" <==> t == TranslationsEs)
            && (m.language == "Dutch" <==> t == TranslationsNl)
            && (m.language == "Polish" <==> t == TranslationsPl)
  {
    CatalogsDistinct();
    var m := Config.Markets[i];
    CatalogResolution(m.code);
  }

  /** The seven catalogs are different values (their welcome titles differ). */
  lemma CatalogsDistinct()
    ensures forall a, b :: 0 <= a < b < |Catalogs| ==> Catalogs[a] != Catalogs[b]
  {
    forall a, b | 0 <= a < b < |Catalogs| ensures Catalogs[a] != Catalogs[b] {
      assert Catalogs[a].welcomeTitle != Catalogs[b].welcomeTitle;
    }
  }
}
