/** The fixed board -> topic -> keywords catalog that interprets structured
    interest selections. */
module Tags {
  import opened Text

  type Topics = map<string, seq<string>>

  function Math(): Topics {
      map[
      "algebra" := ["equations", "inequalities", "polynomials", "factorization",
                    "linear", "quadratic", "systems of equations"],
      "geometry" := ["triangles", "circles", "angles", "area", "volume",
                     "proofs", "euclidean", "similarity", "congruence"],
      "trigonometry" := ["sine", "cosine", "tangent", "identities", "unit circle",
                         "radians", "triangles"],
      "calculus" := ["limits", "derivatives", "integrals", "series",
                     "differential equations", "optimization"],
      "statistics" := ["probability", "distributions", "hypothesis testing",
                       "regression", "bayes", "data analysis"],
      "number theory" := ["primes", "modular arithmetic", "gcd", "diophantine"]
    ]
  }

  function Science(): Topics {
      map[
      "physics" := ["mechanics", "kinematics", "dynamics", "thermodynamics",
                    "electricity", "magnetism", "optics", "quantum"],
      "chemistry" := ["atoms", "molecules", "reactions", "stoichiometry",
                      "periodic table", "organic", "inorganic"],
      "biology" := ["cells", "genetics", "evolution", "anatomy", "physiology",
                    "ecology", "microbiology"],
      "computer science" := ["algorithms", "data structures", "complexity", "networks",
                             "operating systems", "databases"],
      "ai" := ["machine learning", "neural networks", "deep learning",
               "nlp", "computer vision", "reinforcement learning", "transformers"],
      "astronomy" := ["planets", "stars", "galaxies", "cosmology", "telescopes"],
      "earth science" := ["geology", "meteorology", "oceanography", "climate"]
    ]
  }

  function English(): Topics {
      map[
      "grammar" := ["parts of speech", "tenses", "punctuation", "clauses",
                    "prepositions", "articles", "subject-verb agreement"],
      "vocabulary" := ["synonyms", "antonyms", "idioms", "phrasal verbs", "collocations"],
      "writing" := ["essays", "argumentative", "narrative", "descriptive",
                    "thesis", "outline", "editing", "style"],
      "literature" := ["poetry", "drama", "novels", "short stories",
                       "literary devices", "analysis"],
      "pronunciation" := ["phonetics", "stress", "intonation", "accent"],
      "reading comprehension" := ["skimming", "scanning", "inference", "main idea"]
    ]
  }

  function Sports(): Topics {
      map[
      "football" := ["tactics", "training", "highlights", "premier league",
                     "world cup", "skills"],
      "basketball" := ["nba", "drills", "shooting", "defense", "highlights"],
      "tennis" := ["forehand", "backhand", "serve", "strategy", "grand slam"],
      "fitness" := ["workout", "cardio", "strength", "yoga", "pilates"]
    ]
  }

  function Arts(): Topics {
      map[
      "dance" := ["ballet", "hip hop", "contemporary", "salsa", "k-pop"],
      "music" := ["theory", "guitar", "piano", "singing", "production"],
      "painting" := ["watercolor", "acrylic", "oil", "drawing", "perspective"]
    ]
  }

  function Technology(): Topics {
      map[
      "programming" := ["python", "javascript", "java", "c++", "web", "backend",
                        "frontend", "api", "testing"],
      "data science" := ["pandas", "numpy", "matplotlib", "statistics", "ml"],
      "cloud" := ["aws", "gcp", "azure", "docker", "kubernetes", "terraform"],
      "cybersecurity" := ["network", "encryption", "pentesting", "malware", "security"]
    ]
  }

  function Business(): Topics {
      map[
      "finance" := ["investing", "stocks", "options", "budgeting", "valuation"],
      "marketing" := ["seo", "content", "social media", "brand", "ads"],
      "entrepreneurship" := ["startup", "mvp", "fundraising", "product", "growth"]
    ]
  }

  function Life(): Topics {
      map[
      "health" := ["nutrition", "sleep", "mental health", "meditation", "mindfulness"],
      "productivity" := ["time management", "focus", "habits", "study techniques"]
    ]
  }

  /** `VIDEO_TAG_CATALOG` */
  const Catalog: map<string, Topics> := map[
    "math" := Math(),
    "science" := Science(),
    "english" := English(),
    "sports" := Sports(),
    "arts" := Arts(),
    "technology" := Technology(),
    "business" := Business(),
    "life" := Life()
  ]

  /** A board's topics are looked up by their lower-cased names, so the
      catalog only works if its keys are lower-case, and each topic must
      carry keywords. */
  predicate WellFormedBoard(topics: Topics) {
    topics.Keys != {} && forall t :: t in topics ==> IsLower(t) && |topics[t]| > 0
  }

  lemma CatalogWellFormed()
    ensures forall b :: b in Catalog ==> IsLower(b)
    ensures forall b :: b in Catalog ==> WellFormedBoard(Catalog[b])
  {
    BoardNamesLower();
    forall b | b in Catalog ensures WellFormedBoard(Catalog[b]) {
      BoardWellFormed(b);
    }
  }

  lemma BoardNamesLower()
    ensures forall b :: b in Catalog ==> IsLower(b)
  {
    forall b | b in Catalog ensures IsLower(b) {
      BoardNames(b);
      BoardNameLower(b);
    }
  }

  lemma BoardNameLower(b: string)
    requires b == "math" || b == "science" || b == "english" || b == "sports" || b == "arts" || b == "technology" || b == "business" || b == "life"
    ensures IsLower(b)
  {
    assert IsLower("math") && IsLower("science") && IsLower("english") && IsLower("sports");
    assert IsLower("arts") && IsLower("technology") && IsLower("business") && IsLower("life");
  }

  lemma BoardWellFormed(b: string)
    requires b in Catalog
    ensures WellFormedBoard(Catalog[b])
  {
    BoardNames(b);
    if b == "math" {
      CatalogMath();
    } else if b == "science" {
      CatalogScience();
    } else if b == "english" {
      CatalogEnglish();
    } else if b == "sports" {
      CatalogSports();
    } else if b == "arts" {
      CatalogArts();
    } else if b == "technology" {
      CatalogTechnology();
    } else if b == "business" {
      CatalogBusiness();
    } else if b == "life" {
      CatalogLife();
    }
  }

  lemma BoardNames(b: string)
    requires b in Catalog
    ensures b == "math" || b == "science" || b == "english" || b == "sports" || b == "arts" || b == "technology" || b == "business" || b == "life"
  {
  }

  lemma CatalogMath()
    ensures WellFormedBoard(Catalog["math"])
  {
    MathWellFormed();
    assert Catalog["math"] == Math();
  }

  lemma CatalogScience()
    ensures WellFormedBoard(Catalog["science"])
  {
    ScienceWellFormed();
    assert Catalog["science"] == Science();
  }

  lemma CatalogEnglish()
    ensures WellFormedBoard(Catalog["english"])
  {
    EnglishWellFormed();
    assert Catalog["english"] == English();
  }

  lemma CatalogSports()
    ensures WellFormedBoard(Catalog["sports"])
  {
    SportsWellFormed();
    assert Catalog["sports"] == Sports();
  }

  lemma CatalogArts()
    ensures WellFormedBoard(Catalog["arts"])
  {
    ArtsWellFormed();
    assert Catalog["arts"] == Arts();
  }

  lemma CatalogTechnology()
    ensures WellFormedBoard(Catalog["technology"])
  {
    TechnologyWellFormed();
    assert Catalog["technology"] == Technology();
  }

  lemma CatalogBusiness()
    ensures WellFormedBoard(Catalog["business"])
  {
    BusinessWellFormed();
    assert Catalog["business"] == Business();
  }

  lemma CatalogLife()
    ensures WellFormedBoard(Catalog["life"])
  {
    LifeWellFormed();
    assert Catalog["life"] == Life();
  }

  lemma MathWellFormed()
    ensures WellFormedBoard(Math())
  {
    assert "algebra" in Math();
    forall t | t in Math() ensures IsLower(t) && |Math()[t]| > 0 {
    }
  }

  lemma ScienceWellFormed()
    ensures WellFormedBoard(Science())
  {
    assert "physics" in Science();
    forall t | t in Science() ensures IsLower(t) && |Science()[t]| > 0 {
    }
  }

  lemma EnglishWellFormed()
    ensures WellFormedBoard(English())
  {
    assert "grammar" in English();
    forall t | t in English() ensures IsLower(t) && |English()[t]| > 0 {
    }
  }

  lemma SportsWellFormed()
    ensures WellFormedBoard(Sports())
  {
    assert "football" in Sports();
    forall t | t in Sports() ensures IsLower(t) && |Sports()[t]| > 0 {
    }
  }

  lemma ArtsWellFormed()
    ensures WellFormedBoard(Arts())
  {
    assert "dance" in Arts();
    forall t | t in Arts() ensures IsLower(t) && |Arts()[t]| > 0 {
    }
  }

  lemma TechnologyWellFormed()
    ensures WellFormedBoard(Technology())
  {
    assert "programming" in Technology();
    forall t | t in Technology() ensures IsLower(t) && |Technology()[t]| > 0 {
    }
  }

  lemma BusinessWellFormed()
    ensures WellFormedBoard(Business())
  {
    assert "finance" in Business();
    forall t | t in Business() ensures IsLower(t) && |Business()[t]| > 0 {
    }
  }

  lemma LifeWellFormed()
    ensures WellFormedBoard(Life())
  {
    assert "health" in Life();
    forall t | t in Life() ensures IsLower(t) && |Life()[t]| > 0 {
    }
  }

  /** Keywords are shared between topics, so the tokens a selection emits
      need de-duplicating downstream. */
  lemma KeywordsOverlap()
    ensures "triangles" in Catalog["math"]["geometry"] && "triangles" in Catalog["math"]["trigonometry"]
    ensures "highlights" in Catalog["sports"]["football"] && "highlights" in Catalog["sports"]["basketball"]
  {
    assert Catalog["math"] == Math() && Catalog["sports"] == Sports();
    assert "triangles" in Math()["geometry"] && "triangles" in Math()["trigonometry"];
    assert "highlights" in Sports()["football"] && "highlights" in Sports()["basketball"];
  }

  /** Some topic names and keywords hold a space, and so are not single
      tokens for the whitespace split. */
  lemma SomeKeywordsHaveSpaces()
    ensures "systems of equations" in Catalog["math"]["algebra"]
    ensures "unit circle" in Catalog["math"]["trigonometry"]
    ensures "number theory" in Catalog["math"]
    ensures !NoSpace("systems of equations") && !NoSpace("number theory")
  {
    assert Catalog["math"] == Math();
    assert "systems of equations" in Math()["algebra"] && "unit circle" in Math()["trigonometry"];
    SpacedNames();
  }

  lemma SpacedNames()
    ensures !NoSpace("systems of equations") && !NoSpace("number theory")
  {
    assert IsSpace("number theory"[6]);
    assert IsSpace("systems of equations"[7]);
  }
}
