/**
 * The language hook (src/hooks/useLanguage.tsx): the Arabic and French
 * translation tables, the lookup `t` with its fallback to the key, the text
 * direction, and the language saved in the browser's `language` entry.
 *
 * The saved entry is one cell, `None` when nothing is stored. Writing the
 * `dir` and `lang` attributes of the document is left out.
 */
module I18n {
  import opened Opt
  import Strings

  /** One `'key': 'text'` line of a translation object. */
  type Entry = (string, string)

  const ArEntriesPart1: seq<Entry> := [
    ("announcement.welcome", "مرحبا بكم التوصيل متوفر"),
    ("announcement.wilayas", "ولاية والدفع عند الاستلام"),
    ("nav.home", "الرئيسية"),
    ("nav.catalog", "الكتالوج"),
    ("nav.contact", "اتصل بنا"),
    ("nav.search", "بحث..."),
    ("nav.logout", "خروج"),
    ("nav.login", "تسجيل الدخول"),
    ("nav.dashboard", "لوحة التحكم"),
    ("hero.badge", "تشكيلة جديدة 2026"),
    ("hero.title", "Beauty Universe - عالم الجمال في الجزائر"),
    ("hero.description", "بيع وتوزيع معدات ومنتجات ومواد الحلاقة والتجميل ومستحضرات التجميل. توصيل لـ 58 ولاية."),
    ("hero.cta", "اكتشفي الآن"),
    ("categories.label", "فئاتنا"),
    ("categories.title", "اكتشفي عالم الجمال")
  ]

  const ArEntriesPart2: seq<Entry> := [
    ("categories.barber", "حلاقة"),
    ("categories.beauty", "تجميل"),
    ("categories.cosmetics", "مستحضرات تجميل"),
    ("bestsellers.label", "المفضلة"),
    ("bestsellers.title", "الأكثر مبيعاً حالياً"),
    ("bestsellers.viewAll", "عرض الكل"),
    ("trust.delivery.title", "توصيل 69 ولاية"),
    ("trust.delivery.description", "شحن سريع والدفع عند الاستلام."),
    ("trust.exchange.title", "استبدال خلال 7 أيام"),
    ("trust.exchange.description", "إمكانية الاستبدال خلال 7 أيام مع رسوم الإرجاع."),
    ("trust.payment.title", "الدفع عند الاستلام"),
    ("trust.payment.description", "لا يوجد دفع عبر الإنترنت، كل شيء يتم عند التسليم."),
    ("reviews.title", "آراء العملاء"),
    ("reviews.subtitle", "ماذا يقول عملاؤنا عنا"),
    ("reviews.verified", "عميل موثق")
  ]

  const ArEntriesPart3: seq<Entry> := [
    ("footer.description", "بيع وتوزيع معدات ومنتجات ومواد الحلاقة والتجميل ومستحضرات التجميل."),
    ("footer.quickLinks", "روابط سريعة"),
    ("footer.aboutUs", "من نحن"),
    ("footer.contactUs", "تواصل معنا"),
    ("footer.copyright", "© 2026 Beauty Universe. جميع الحقوق محفوظة."),
    ("auth.login", "تسجيل الدخول"),
    ("auth.signup", "إنشاء حساب"),
    ("auth.email", "البريد الإلكتروني"),
    ("auth.password", "كلمة المرور"),
    ("auth.welcome", "مرحباً بك"),
    ("auth.welcomeBack", "مرحباً بعودتك"),
    ("products.title", "كتالوج المنتجات"),
    ("products.subtitle", "اكتشف مجموعتنا الواسعة من معدات الصالون ومستحضرات التجميل الاحترافية"),
    ("products.search", "ابحث عن منتج..."),
    ("products.filters", "الفلاتر")
  ]

  const ArEntriesPart4: seq<Entry> := [
    ("products.categories", "الفئات"),
    ("products.priceRange", "نطاق السعر"),
    ("products.from", "من"),
    ("products.to", "إلى"),
    ("products.quickFilters", "فلاتر سريعة"),
    ("products.newProducts", "منتجات جديدة"),
    ("products.specialOffers", "عروض خاصة"),
    ("products.topRated", "الأعلى تقييماً"),
    ("products.noResults", "لا توجد منتجات مطابقة لبحثك"),
    ("products.resetFilters", "إعادة تعيين الفلاتر"),
    ("products.sortBy", "ترتيب حسب"),
    ("products.sortDefault", "الترتيب الافتراضي"),
    ("products.sortPriceAsc", "السعر: من الأقل للأعلى"),
    ("products.sortPriceDesc", "السعر: من الأعلى للأقل"),
    ("products.sortRating", "التقييم")
  ]

  const ArEntriesPart5: seq<Entry> := [
    ("products.sortNewest", "الأحدث"),
    ("products.product", "منتج"),
    ("product.new", "جديد"),
    ("product.addToCart", "أضف للسلة"),
    ("product.currency", "دج"),
    ("product.notFound", "المنتج غير موجود"),
    ("product.backToCatalog", "العودة للكتالوج"),
    ("product.outOf5", "من 5"),
    ("product.description", "منتج عالي الجودة من Beauty Universe. مصمم لتلبية احتياجات صالونات التجميل الاحترافية. يتميز بالمتانة والأداء الممتاز مع ضمان لمدة سنة كاملة."),
    ("product.freeDelivery", "توصيل مجاني"),
    ("product.freeDeliveryDesc", "للطلبات +50,000 دج"),
    ("product.warranty", "ضمان سنة"),
    ("product.warrantyDesc", "ضمان الجودة"),
    ("product.easyReturn", "إرجاع سهل"),
    ("product.easyReturnDesc", "خلال 14 يوم")
  ]

  const ArEntriesPart6: seq<Entry> := [
    ("product.specifications", "المواصفات"),
    ("product.brand", "العلامة التجارية"),
    ("product.category", "الفئة"),
    ("product.productNumber", "رقم المنتج"),
    ("product.condition", "الحالة"),
    ("product.conditionNew", "جديد"),
    ("product.warrantyLabel", "الضمان"),
    ("product.warrantyValue", "سنة واحدة"),
    ("product.availability", "التوفر"),
    ("product.inStock", "متوفر في المخزون"),
    ("product.relatedProducts", "منتجات ذات صلة"),
    ("product.viewAll", "عرض الكل")
  ]

  const ArEntries: seq<Entry> :=
    ArEntriesPart1 + ArEntriesPart2 + ArEntriesPart3 + ArEntriesPart4 + ArEntriesPart5 + ArEntriesPart6

  const FrEntriesPart1: seq<Entry> := [
    ("announcement.welcome", "Bienvenue ! Livraison disponible dans"),
    ("announcement.wilayas", "wilayas avec paiement à la livraison"),
    ("nav.home", "Accueil"),
    ("nav.catalog", "Catalogue"),
    ("nav.contact", "Contact"),
    ("nav.search", "Rechercher..."),
    ("nav.logout", "Déconnexion"),
    ("nav.login", "Connexion"),
    ("nav.dashboard", "Tableau de bord"),
    ("hero.badge", "Nouvelle Collection 2026"),
    ("hero.title", "Beauty Universe - L'univers de la beauté en Algérie"),
    ("hero.description", "Vente et distribution d'équipements, produits et matériels de coiffure, d'esthétique et de cosmétiques. Livraison dans 58 wilayas."),
    ("hero.cta", "Découvrir maintenant"),
    ("categories.label", "Nos Catégories"),
    ("categories.title", "Découvrez l'univers de la beauté")
  ]

  const FrEntriesPart2: seq<Entry> := [
    ("categories.barber", "Coiffure"),
    ("categories.beauty", "Esthétique"),
    ("categories.cosmetics", "Cosmétiques"),
    ("bestsellers.label", "Favoris"),
    ("bestsellers.title", "Meilleures ventes actuelles"),
    ("bestsellers.viewAll", "Voir tout"),
    ("trust.delivery.title", "Livraison 69 wilayas"),
    ("trust.delivery.description", "Expédition rapide et paiement à la livraison."),
    ("trust.exchange.title", "Échange sous 7 jours"),
    ("trust.exchange.description", "Possibilité d'échange sous 7 jours avec frais de retour."),
    ("trust.payment.title", "Paiement à la livraison"),
    ("trust.payment.description", "Pas de paiement en ligne, tout se fait à la livraison."),
    ("reviews.title", "Avis Clients"),
    ("reviews.subtitle", "Ce que nos clients disent de nous"),
    ("reviews.verified", "Client vérifié")
  ]

  const FrEntriesPart3: seq<Entry> := [
    ("footer.description", "Vente et distribution d'équipements, produits et matériels de coiffure, d'esthétique et de cosmétiques."),
    ("footer.quickLinks", "Liens rapides"),
    ("footer.aboutUs", "À propos"),
    ("footer.contactUs", "Contactez-nous"),
    ("footer.copyright", "© 2026 Beauty Universe. Tous droits réservés."),
    ("auth.login", "Connexion"),
    ("auth.signup", "Créer un compte"),
    ("auth.email", "Email"),
    ("auth.password", "Mot de passe"),
    ("auth.welcome", "Bienvenue"),
    ("auth.welcomeBack", "Bon retour"),
    ("products.title", "Catalogue de Produits"),
    ("products.subtitle", "Découvrez notre large gamme d'équipements de salon et de cosmétiques professionnels"),
    ("products.search", "Rechercher un produit..."),
    ("products.filters", "Filtres")
  ]

  const FrEntriesPart4: seq<Entry> := [
    ("products.categories", "Catégories"),
    ("products.priceRange", "Fourchette de prix"),
    ("products.from", "De"),
    ("products.to", "À"),
    ("products.quickFilters", "Filtres rapides"),
    ("products.newProducts", "Nouveaux produits"),
    ("products.specialOffers", "Offres spéciales"),
    ("products.topRated", "Les mieux notés"),
    ("products.noResults", "Aucun produit ne correspond à votre recherche"),
    ("products.resetFilters", "Réinitialiser les filtres"),
    ("products.sortBy", "Trier par"),
    ("products.sortDefault", "Tri par défaut"),
    ("products.sortPriceAsc", "Prix : croissant"),
    ("products.sortPriceDesc", "Prix : décroissant"),
    ("products.sortRating", "Note")
  ]

  const FrEntriesPart5: seq<Entry> := [
    ("products.sortNewest", "Plus récent"),
    ("products.product", "produit"),
    ("product.new", "Nouveau"),
    ("product.addToCart", "Ajouter au panier"),
    ("product.currency", "DA"),
    ("product.notFound", "Produit non trouvé"),
    ("product.backToCatalog", "Retour au catalogue"),
    ("product.outOf5", "sur 5"),
    ("product.description", "Produit de haute qualité de Beauty Universe. Conçu pour répondre aux besoins des salons de beauté professionnels. Se distingue par sa durabilité et ses excellentes performances avec une garantie d'un an."),
    ("product.freeDelivery", "Livraison gratuite"),
    ("product.freeDeliveryDesc", "Pour commandes +50 000 DA"),
    ("product.warranty", "Garantie 1 an"),
    ("product.warrantyDesc", "Garantie qualité"),
    ("product.easyReturn", "Retour facile"),
    ("product.easyReturnDesc", "Sous 14 jours")
  ]

  const FrEntriesPart6: seq<Entry> := [
    ("product.specifications", "Spécifications"),
    ("product.brand", "Marque"),
    ("product.category", "Catégorie"),
    ("product.productNumber", "Numéro de produit"),
    ("product.condition", "État"),
    ("product.conditionNew", "Neuf"),
    ("product.warrantyLabel", "Garantie"),
    ("product.warrantyValue", "Un an"),
    ("product.availability", "Disponibilité"),
    ("product.inStock", "En stock"),
    ("product.relatedProducts", "Produits similaires"),
    ("product.viewAll", "Voir tout")
  ]

  const FrEntries: seq<Entry> :=
    FrEntriesPart1 + FrEntriesPart2 + FrEntriesPart3 + FrEntriesPart4 + FrEntriesPart5 + FrEntriesPart6

  /** The keys of an entry list, in order. */
  function KeysOf(entries: seq<Entry>): (r: seq<string>)
    ensures |r| == |entries|
    ensures forall i :: 0 <= i < |entries| ==> r[i] == entries[i].0
  {
    seq(|entries|, i requires 0 <= i < |entries| => entries[i].0)
  }

  /** An object literal: every listed key is present, and a later line overrides an earlier one. */
  function TableOf(entries: seq<Entry>): (m: map<string, string>)
    ensures forall k :: k in m <==> k in KeysOf(entries)
    ensures |entries| > 0 ==> m[entries[|entries| - 1].0] == entries[|entries| - 1].1
    ensures forall k :: k in m ==> exists i :: 0 <= i < |entries| && entries[i] == (k, m[k])
  {
    if |entries| == 0 then map[]
    else
      var init := entries[..|entries| - 1];
      var last := entries[|entries| - 1];
      assert forall i :: 0 <= i < |init| ==> init[i] == entries[i];
      assert KeysOf(entries) == KeysOf(init) + [last.0];
      TableOf(init)[last.0 := last.1]
  }

  /** A key's last line in the literal is the one whose text the object holds. */
  lemma {:induction false} LastLineWins(entries: seq<Entry>, i: nat)
    requires i < |entries|
    requires forall j :: i < j < |entries| ==> entries[j].0 != entries[i].0
    ensures entries[i].0 in TableOf(entries) && TableOf(entries)[entries[i].0] == entries[i].1
    decreases |entries|
  {
    if i < |entries| - 1 {
      var init := entries[..|entries| - 1];
      assert init[i] == entries[i];
      assert forall j :: i < j < |init| ==> init[j] == entries[j];
      LastLineWins(init, i);
      assert entries[|entries| - 1].0 != entries[i].0;
    }
  }

  /** The `ar` and `fr` objects of `translations`. */
  const ArTable: map<string, string> := TableOf(ArEntries)
  const FrTable: map<string, string> := TableOf(FrEntries)

  datatype Language = Ar | Fr

  /** The language's code, as saved and as set on the document. */
  function Code(l: Language): string {
    match l
    case Ar => "ar"
    case Fr => "fr"
  }

  function Table(l: Language): map<string, string> {
    match l
    case Ar => ArTable
    case Fr => FrTable
  }

  // ---------------------------------------------------------------------
  // The two tables
  // ---------------------------------------------------------------------

  lemma {:induction false} KeysOfAppend(a: seq<Entry>, b: seq<Entry>)
    ensures KeysOf(a + b) == KeysOf(a) + KeysOf(b)
  {
  }

  lemma Part1HasSameKeys()
    ensures KeysOf(ArEntriesPart1) == KeysOf(FrEntriesPart1)
  {
  }

  lemma Part2HasSameKeys()
    ensures KeysOf(ArEntriesPart2) == KeysOf(FrEntriesPart2)
  {
  }

  lemma Part3HasSameKeys()
    ensures KeysOf(ArEntriesPart3) == KeysOf(FrEntriesPart3)
  {
  }

  lemma Part4HasSameKeys()
    ensures KeysOf(ArEntriesPart4) == KeysOf(FrEntriesPart4)
  {
  }

  lemma Part5HasSameKeys()
    ensures KeysOf(ArEntriesPart5) == KeysOf(FrEntriesPart5)
  {
  }

  lemma Part6HasSameKeys()
    ensures KeysOf(ArEntriesPart6) == KeysOf(FrEntriesPart6)
  {
  }

  /** Both languages list the same keys in the same order, so the tables have the same key set. */
  lemma SameKeys()
    ensures KeysOf(ArEntries) == KeysOf(FrEntries)
    ensures ArTable.Keys == FrTable.Keys
  {
    Part1HasSameKeys();
    Part2HasSameKeys();
    Part3HasSameKeys();
    Part4HasSameKeys();
    Part5HasSameKeys();
    Part6HasSameKeys();
    KeysOfAppend(ArEntriesPart1, ArEntriesPart2);
    KeysOfAppend(ArEntriesPart1 + ArEntriesPart2, ArEntriesPart3);
    KeysOfAppend(ArEntriesPart1 + ArEntriesPart2 + ArEntriesPart3, ArEntriesPart4);
    KeysOfAppend(ArEntriesPart1 + ArEntriesPart2 + ArEntriesPart3 + ArEntriesPart4, ArEntriesPart5);
    KeysOfAppend(ArEntriesPart1 + ArEntriesPart2 + ArEntriesPart3 + ArEntriesPart4 + ArEntriesPart5, ArEntriesPart6);
    KeysOfAppend(FrEntriesPart1, FrEntriesPart2);
    KeysOfAppend(FrEntriesPart1 + FrEntriesPart2, FrEntriesPart3);
    KeysOfAppend(FrEntriesPart1 + FrEntriesPart2 + FrEntriesPart3, FrEntriesPart4);
    KeysOfAppend(FrEntriesPart1 + FrEntriesPart2 + FrEntriesPart3 + FrEntriesPart4, FrEntriesPart5);
    KeysOfAppend(FrEntriesPart1 + FrEntriesPart2 + FrEntriesPart3 + FrEntriesPart4 + FrEntriesPart5, FrEntriesPart6);
  }

  /** `k` does not start with `cart.`, checked character by character. */
  predicate NotCartKey(k: string) {
    |k| < 5 || k[0] != 'c' || k[1] != 'a' || k[2] != 'r' || k[3] != 't' || k[4] != '.'
  }

  lemma NotCartKeyMeans(k: string)
    ensures NotCartKey(k) <==> !Strings.StartsWith(k, "cart.")
  {
    if |k| >= 5 && !NotCartKey(k) {
      assert k[..5] == "cart.";
    }
  }

  /** No line of a translation object has an empty text, nor a key in the `cart.` namespace. */
  predicate PlainEntries(entries: seq<Entry>) {
    forall i :: 0 <= i < |entries| ==> entries[i].1 != "" && NotCartKey(entries[i].0)
  }

  lemma ArPart1IsPlain()
    ensures PlainEntries(ArEntriesPart1)
  {
  }

  lemma ArPart2IsPlain()
    ensures PlainEntries(ArEntriesPart2)
  {
  }

  lemma ArPart3IsPlain()
    ensures PlainEntries(ArEntriesPart3)
  {
  }

  lemma ArPart4IsPlain()
    ensures PlainEntries(ArEntriesPart4)
  {
  }

  lemma ArPart5IsPlain()
    ensures PlainEntries(ArEntriesPart5)
  {
  }

  lemma ArPart6IsPlain()
    ensures PlainEntries(ArEntriesPart6)
  {
  }

  lemma FrPart1IsPlain()
    ensures PlainEntries(FrEntriesPart1)
  {
  }

  lemma FrPart2IsPlain()
    ensures PlainEntries(FrEntriesPart2)
  {
  }

  lemma FrPart3IsPlain()
    ensures PlainEntries(FrEntriesPart3)
  {
  }

  lemma FrPart4IsPlain()
    ensures PlainEntries(FrEntriesPart4)
  {
  }

  lemma FrPart5IsPlain()
    ensures PlainEntries(FrEntriesPart5)
  {
  }

  lemma FrPart6IsPlain()
    ensures PlainEntries(FrEntriesPart6)
  {
  }

  lemma TablesArePlain()
    ensures PlainEntries(ArEntries) && PlainEntries(FrEntries)
  {
    ArPart1IsPlain();
    ArPart2IsPlain();
    ArPart3IsPlain();
    ArPart4IsPlain();
    ArPart5IsPlain();
    ArPart6IsPlain();
    FrPart1IsPlain();
    FrPart2IsPlain();
    FrPart3IsPlain();
    FrPart4IsPlain();
    FrPart5IsPlain();
    FrPart6IsPlain();
    PlainAppend(ArEntriesPart1, ArEntriesPart2);
    PlainAppend(ArEntriesPart1 + ArEntriesPart2, ArEntriesPart3);
    PlainAppend(ArEntriesPart1 + ArEntriesPart2 + ArEntriesPart3, ArEntriesPart4);
    PlainAppend(ArEntriesPart1 + ArEntriesPart2 + ArEntriesPart3 + ArEntriesPart4, ArEntriesPart5);
    PlainAppend(ArEntriesPart1 + ArEntriesPart2 + ArEntriesPart3 + ArEntriesPart4 + ArEntriesPart5, ArEntriesPart6);
    PlainAppend(FrEntriesPart1, FrEntriesPart2);
    PlainAppend(FrEntriesPart1 + FrEntriesPart2, FrEntriesPart3);
    PlainAppend(FrEntriesPart1 + FrEntriesPart2 + FrEntriesPart3, FrEntriesPart4);
    PlainAppend(FrEntriesPart1 + FrEntriesPart2 + FrEntriesPart3 + FrEntriesPart4, FrEntriesPart5);
    PlainAppend(FrEntriesPart1 + FrEntriesPart2 + FrEntriesPart3 + FrEntriesPart4 + FrEntriesPart5, FrEntriesPart6);
  }

  lemma PlainAppend(a: seq<Entry>, b: seq<Entry>)
    requires PlainEntries(a) && PlainEntries(b)
    ensures PlainEntries(a + b)
  {
    forall i | 0 <= i < |a + b|
      ensures (a + b)[i].1 != "" && NotCartKey((a + b)[i].0)
    {
      if i >= |a| {
        assert (a + b)[i] == b[i - |a|];
      }
    }
  }

  /** A table built from plain entries has no empty text and no `cart.` key. */
  lemma PlainTable(e: seq<Entry>)
    requires PlainEntries(e)
    ensures forall k :: k in TableOf(e) ==> TableOf(e)[k] != ""
    ensures forall k :: Strings.StartsWith(k, "cart.") ==> k !in TableOf(e)
  {
    var m := TableOf(e);
    forall k | k in m ensures m[k] != "" {
      var i :| 0 <= i < |e| && e[i] == (k, m[k]);
    }
    forall k | Strings.StartsWith(k, "cart.") ensures k !in m {
      NotCartKeyMeans(k);
    }
  }

  /** Every text in either table is non-empty, and no key starts with `cart.`. */
  lemma TableValues(l: Language)
    ensures forall k :: k in Table(l) ==> Table(l)[k] != ""
    ensures forall k :: Strings.StartsWith(k, "cart.") ==> k !in Table(l)
  {
    TablesArePlain();
    if l == Ar {
      PlainTable(ArEntries);
    } else {
      PlainTable(FrEntries);
    }
  }

  // ---------------------------------------------------------------------
  // Lookup and direction
  // ---------------------------------------------------------------------

  /** `t`: the language's text for the key, or the key itself when there is none or it is empty. */
  function T(l: Language, key: string): (r: string)
    ensures key in Table(l) && Table(l)[key] != "" ==> r == Table(l)[key]
    ensures key !in Table(l) || Table(l)[key] == "" ==> r == key
  {
    if key in Table(l) && Table(l)[key] != "" then Table(l)[key] else key
  }

  /**
   * A key of the tables is always translated, in both languages; any other
   * key, the whole `cart.` namespace among them, comes back verbatim.
   */
  lemma LookupFacts(key: string)
    ensures key in ArTable <==> key in FrTable
    ensures key in ArTable ==> T(Ar, key) == ArTable[key] && T(Fr, key) == FrTable[key]
    ensures key !in ArTable ==> T(Ar, key) == key && T(Fr, key) == key
    ensures Strings.StartsWith(key, "cart.") ==> T(Ar, key) == key && T(Fr, key) == key
  {
    SameKeys();
    LookupIn(Ar, key);
    LookupIn(Fr, key);
  }

  /** In one language: a key of the table gets its text, any other key, `cart.` ones included, itself. */
  lemma LookupIn(l: Language, key: string)
    ensures key in Table(l) ==> T(l, key) == Table(l)[key]
    ensures key !in Table(l) ==> T(l, key) == key
    ensures Strings.StartsWith(key, "cart.") ==> T(l, key) == key
  {
    TableValues(l);
  }

  /** The cart drawer's keys (`cart.title` and the rest of the namespace) are never translated. */
  lemma CartKeysUntranslated(l: Language, key: string)
    requires Strings.StartsWith(key, "cart.")
    ensures T(l, key) == key
  {
    LookupIn(l, key);
  }

  datatype Direction = Rtl | Ltr

  /** `dir`: right-to-left for the code `ar`, left-to-right for anything else. */
  function Dir(code: string): (r: Direction)
    ensures r == Rtl <==> code == "ar"
  {
    if code == "ar" then Rtl else Ltr
  }

  // ---------------------------------------------------------------------
  // The saved language
  // ---------------------------------------------------------------------

  /** The hook's state: the current language and the saved `language` entry. */
  datatype LanguageState = LanguageState(language: Language, saved: Option<string>)

  /** The language a saved entry selects: French for `fr`, Arabic for anything else. */
  function InitialLanguage(saved: Option<string>): (r: Language)
    ensures r == Fr <==> saved == Some("fr")
  {
    if saved == Some("fr") then Fr else Ar
  }

  /** The state on start-up. */
  function Init(saved: Option<string>): (r: LanguageState)
    ensures r.saved == saved
    ensures saved.None? || saved == Some("") || saved == Some("ar") ==> r.language == Ar
    ensures saved == Some("fr") ==> r.language == Fr
  {
    LanguageState(InitialLanguage(saved), saved)
  }

  /** `setLanguage`: the language changes and is saved. */
  function SetLanguage(s: LanguageState, l: Language): (r: LanguageState)
    ensures r.language == l
    // the saved entry is the language's own code, which selects it again
    ensures r.saved == Some(Code(l))
    ensures r.saved.Some? && InitialLanguage(r.saved) == l
  {
    LanguageState(l, Some(Code(l)))
  }

  /** A start-up after `setLanguage(l)` restores `l`. */
  lemma SetLanguageRestores(s: LanguageState, l: Language)
    ensures Init(SetLanguage(s, l).saved).language == l
    ensures Init(SetLanguage(s, l).saved) == SetLanguage(s, l)
  {
  }

  // ---------------------------------------------------------------------
  // As written: the saved entry is used unchecked
  // ---------------------------------------------------------------------

  /** The language code the hook starts with: the saved entry if non-empty, else `ar`. */
  function InitialCodeAsWritten(saved: Option<string>): (r: string)
    ensures TruthyString(saved) ==> r == saved.value
    ensures !TruthyString(saved) ==> r == "ar"
  {
    if TruthyString(saved) then saved.value else "ar"
  }

  /** `t` under an unchecked code: `None` where `translations[code]` is undefined and the lookup throws. */
  function TAsWritten(code: string, key: string): (r: Option<string>)
    ensures r.None? <==> code != "ar" && code != "fr"
    ensures code == "ar" ==> r == Some(T(Ar, key))
    ensures code == "fr" ==> r == Some(T(Fr, key))
  {
    if code == "ar" then Some(T(Ar, key))
    else if code == "fr" then Some(T(Fr, key))
    else None
  }

  /** A saved entry other than `ar` or `fr` makes every lookup throw. */
  lemma UnknownSavedLanguageThrows(key: string)
    ensures TAsWritten(InitialCodeAsWritten(Some("en")), key).None?
  {
  }

  /**
   * The corrected start-up agrees with the code as written on every entry the
   * hook itself can save, and on no entry does its lookup throw.
   */
  lemma InitialLanguageAgrees(saved: Option<string>, key: string)
    ensures saved.None? || saved.value in {"", "ar", "fr"} ==>
              Code(InitialLanguage(saved)) == InitialCodeAsWritten(saved)
    ensures TAsWritten(Code(InitialLanguage(saved)), key) == Some(T(InitialLanguage(saved), key))
    ensures Dir(Code(InitialLanguage(saved))) == Rtl <==> InitialLanguage(saved) == Ar
  {
  }
}
