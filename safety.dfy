/** src/components/safety/SafetyTips.tsx: the tips of the selected language,
    the tab list (one tab per disaster type, in first-occurrence order) and
    the tips shown under each tab. */
module SafetyTips {
  import opened Types
  import opened Seqs

  /** Tip texts. */
  const EqTip1Title := "Drop, Cover, and Hold On"
  const EqTip2Title :=
    "Stay Away from Glass, "
    + "Windows, Outside Doors "
    + "and Walls"
  const FlTip1Title := "Move to Higher Ground"
  const FlTip2Title := "Avoid Contact with Floodwater"
  const HuTip1Title := "Prepare a Disaster Supply Kit"
  const HuTip2Title := "Secure Your Home"
  const ToTip1Title := "Find Safe Shelter Immediately"
  const WfTip1Title := "Create Defensible Space"
  const TsTip1Title := "Evacuate to Higher Ground"
  const EqTip1EsTitle := "Agacharse, Cubrirse y Sujetarse"
  const FlTip1EsTitle := "Diríjase a un Lugar Más Alto"
  const HuTip1EsTitle :=
    "Prepare un Kit de "
    + "Suministros para "
    + "Desastres"
  const EqTip1Content :=
    "DROP to the ground; "
    + "take COVER by getting "
    + "under a sturdy table or "
    + "other piece of "
    + "furniture; HOLD ON "
    + "until the shaking "
    + "stops. If there isn't a "
    + "table or desk near you, "
    + "cover your face and "
    + "head with your arms and "
    + "crouch in an inside "
    + "corner of the building."
  const EqTip2Content :=
    "These items may shatter "
    + "and cause injury. DO "
    + "NOT run outside while "
    + "the ground is still "
    + "shaking. Most "
    + "earthquake-related "
    + "casualties result from "
    + "collapsing walls, "
    + "flying glass, and "
    + "falling objects."
  const FlTip1Content :=
    "If you are in a "
    + "flood-prone area or are "
    + "camping in a low-lying "
    + "area, get to higher "
    + "ground immediately. Do "
    + "not drive through "
    + "flooded areas or "
    + "attempt to cross "
    + "flowing streams."
  const FlTip2Content :=
    "Floodwater may be "
    + "contaminated with oil, "
    + "gasoline, or raw "
    + "sewage. It may also be "
    + "electrically charged "
    + "from underground or "
    + "downed power lines."
  const HuTip1Content :=
    "Include items like "
    + "water, food, "
    + "battery-powered or hand "
    + "crank radio, "
    + "flashlight, first aid "
    + "kit, extra batteries, "
    + "cell phone with "
    + "chargers and a backup "
    + "battery."
  const HuTip2Content :=
    "Cover all windows with "
    + "hurricane shutters or "
    + "5/8\" marine plywood. "
    + "Tape does NOT prevent "
    + "windows from breaking. "
    + "Trim trees and shrubs "
    + "around your home to "
    + "minimize risk of broken "
    + "branches and debris."
  const ToTip1Content :=
    "Go to a pre-designated "
    + "shelter area such as a "
    + "safe room, basement, "
    + "storm cellar, or the "
    + "lowest building level. "
    + "If there is no "
    + "basement, go to the "
    + "center of an interior "
    + "room on the lowest "
    + "level away from "
    + "corners, windows, "
    + "doors, and outside "
    + "walls."
  const WfTip1Content :=
    "Clear debris, "
    + "vegetation, and other "
    + "flammable materials "
    + "within 30 feet of your "
    + "house. Keep your "
    + "gutters clean and roof "
    + "clear of leaves and "
    + "branches."
  const TsTip1Content :=
    "If you feel a strong "
    + "earthquake near the "
    + "coast, or receive an "
    + "official tsunami "
    + "warning, immediately "
    + "move to higher ground "
    + "or inland away from "
    + "water. Wait for "
    + "official \"all clear\" "
    + "before returning."
  const EqTip1EsContent :=
    "AGÁCHESE al suelo; "
    + "CÚBRASE debajo de una "
    + "mesa resistente u otro "
    + "mueble; SUJÉTESE hasta "
    + "que el temblor se "
    + "detenga. Si no hay una "
    + "mesa cerca, cúbrase la "
    + "cara y la cabeza con "
    + "los brazos y agáchese "
    + "en una esquina interior "
    + "del edificio."
  const FlTip1EsContent :=
    "Si está en una zona "
    + "propensa a "
    + "inundaciones, vaya "
    + "inmediatamente a un "
    + "lugar más alto. No "
    + "conduzca a través de "
    + "áreas inundadas ni "
    + "intente cruzar arroyos "
    + "con corriente."
  const HuTip1EsContent :=
    "Incluya artículos como "
    + "agua, alimentos, radio "
    + "a pilas o de manivela, "
    + "linterna, botiquín de "
    + "primeros auxilios, "
    + "pilas adicionales, "
    + "teléfono móvil con "
    + "cargadores y batería de "
    + "respaldo."

  /** `mockSafetyTips`: the English list. */
  function MockSafetyTips(): seq<SafetyTip> {
    [ SafetyTip("tip-eq-1", Earthquake, EqTip1Title, EqTip1Content, "en"),
      SafetyTip("tip-eq-2", Earthquake, EqTip2Title, EqTip2Content, "en"),
      SafetyTip("tip-fl-1", Flood, FlTip1Title, FlTip1Content, "en"),
      SafetyTip("tip-fl-2", Flood, FlTip2Title, FlTip2Content, "en"),
      SafetyTip("tip-hu-1", Hurricane, HuTip1Title, HuTip1Content, "en"),
      SafetyTip("tip-hu-2", Hurricane, HuTip2Title, HuTip2Content, "en"),
      SafetyTip("tip-to-1", Tornado, ToTip1Title, ToTip1Content, "en"),
      SafetyTip("tip-ot-1", Wildfire, WfTip1Title, WfTip1Content, "en"),
      SafetyTip("tip-ot-2", Tsunami, TsTip1Title, TsTip1Content, "en") ]
  }

  /** `spanishTips`. */
  function SpanishTips(): seq<SafetyTip> {
    [ SafetyTip("tip-eq-1-es", Earthquake, EqTip1EsTitle, EqTip1EsContent, "es"),
      SafetyTip("tip-fl-1-es", Flood, FlTip1EsTitle, FlTip1EsContent, "es"),
      SafetyTip("tip-hu-1-es", Hurricane, HuTip1EsTitle, HuTip1EsContent, "es") ]
  }

  /** The test `tip.language === language`. */
  function LanguageIs(language: string): SafetyTip -> bool {
    (tip: SafetyTip) => tip.language == language
  }

  /** Both lists, English first. */
  function Catalogue(): seq<SafetyTip> {
    MockSafetyTips() + SpanishTips()
  }

  /** `allTips`: the catalogue filtered by the selected language. */
  function AllTips(language: string): (r: seq<SafetyTip>)
    ensures forall tip :: tip in r <==> tip in Catalogue() && tip.language == language
    ensures IsSubseq(r, Catalogue())
    ensures forall tip :: tip in r ==> multiset(r)[tip] == multiset(Catalogue())[tip]
  {
    FilterCounts(Catalogue(), LanguageIs(language));
    Filter(Catalogue(), LanguageIs(language))
  }

  /** The English tips of the selected language come before the Spanish ones. */
  lemma AllTipsListOrder(language: string)
    ensures AllTips(language) == Filter(MockSafetyTips(), LanguageIs(language)) + Filter(SpanishTips(), LanguageIs(language))
  {
    FilterConcat(MockSafetyTips(), SpanishTips(), LanguageIs(language));
  }

  /** When one list is wholly in another language and the other wholly in the
      selected one, the selection is the second list. */
  lemma SecondListSelected(first: seq<SafetyTip>, second: seq<SafetyTip>, language: string)
    requires forall tip :: tip in first ==> tip.language != language
    requires forall tip :: tip in second ==> tip.language == language
    ensures Filter(first + second, LanguageIs(language)) == second
  {
    FilterConcat(first, second, LanguageIs(language));
    FilterRejectsAll(first, LanguageIs(language));
    FilterKeepsAll(second, LanguageIs(language));
  }

  /** The mirror case: the selection is the first list. */
  lemma FirstListSelected(first: seq<SafetyTip>, second: seq<SafetyTip>, language: string)
    requires forall tip :: tip in first ==> tip.language == language
    requires forall tip :: tip in second ==> tip.language != language
    ensures Filter(first + second, LanguageIs(language)) == first
  {
    FilterConcat(first, second, LanguageIs(language));
    FilterKeepsAll(first, LanguageIs(language));
    FilterRejectsAll(second, LanguageIs(language));
  }

  /** Every tip of the English list is in English. */
  lemma EnglishListLanguage()
    ensures forall tip :: tip in MockSafetyTips() ==> tip.language == "en"
  {
  }

  /** Every tip of the Spanish list is in Spanish. */
  lemma SpanishListLanguage()
    ensures forall tip :: tip in SpanishTips() ==> tip.language == "es"
  {
  }

  /** In Spanish only the Spanish list is shown. */
  lemma SpanishTipsOnly(language: string)
    requires language == "es"
    ensures AllTips(language) == SpanishTips()
  {
    EnglishListLanguage();
    SpanishListLanguage();
    SecondListSelected(MockSafetyTips(), SpanishTips(), language);
  }

  /** In English only the English list is shown. */
  lemma EnglishTipsOnly(language: string)
    requires language == "en"
    ensures AllTips(language) == MockSafetyTips()
  {
    EnglishListLanguage();
    SpanishListLanguage();
    FirstListSelected(MockSafetyTips(), SpanishTips(), language);
  }

  /** `tips.map(tip => tip.disasterType)`. */
  function TypesOf(tips: seq<SafetyTip>): (r: seq<DisasterType>)
    ensures |r| == |tips|
    ensures forall i :: 0 <= i < |tips| ==> r[i] == tips[i].disasterType
  {
    if tips == [] then [] else [tips[0].disasterType] + TypesOf(tips[1..])
  }

  /** `disasterTypes`: one tab per type present, in first-occurrence order. */
  function DisasterTypes(tips: seq<SafetyTip>): (r: seq<DisasterType>)
    ensures NoDuplicates(r)
    ensures forall t :: t in r <==> t in TypesOf(tips)
    ensures forall t :: t in r <==> exists tip :: tip in tips && tip.disasterType == t
    ensures forall i, j :: 0 <= i < j < |r| ==> FirstIndex(TypesOf(tips), r[i]) < FirstIndex(TypesOf(tips), r[j])
  {
    var types := TypesOf(tips);
    forall t | t in types ensures exists tip :: tip in tips && tip.disasterType == t {
      var i :| 0 <= i < |types| && types[i] == t;
      assert tips[i] in tips;
    }
    forall tip | tip in tips ensures tip.disasterType in types {
      var i :| 0 <= i < |tips| && tips[i] == tip;
      assert types[i] == tip.disasterType;
    }
    Distinct(types)
  }

  /** The test `tip.disasterType === type`. */
  function TypeIs(t: DisasterType): SafetyTip -> bool {
    (tip: SafetyTip) => tip.disasterType == t
  }

  /** The tips shown under the tab of type `t`. */
  function TipsOfType(tips: seq<SafetyTip>, t: DisasterType): (r: seq<SafetyTip>)
    ensures IsSubseq(r, tips)
    ensures forall tip :: tip in r <==> tip in tips && tip.disasterType == t
    ensures forall tip :: tip in r ==> multiset(r)[tip] == multiset(tips)[tip]
  {
    FilterCounts(tips, TypeIs(t));
    Filter(tips, TypeIs(t))
  }

  /** Every tab has at least one tip, so the "No safety tips available"
      branch is never rendered. */
  lemma EveryTabHasTips(language: string, t: DisasterType)
    requires t in DisasterTypes(AllTips(language))
    ensures |TipsOfType(AllTips(language), t)| > 0
  {
    var tip :| tip in AllTips(language) && tip.disasterType == t;
    assert tip in TipsOfType(AllTips(language), t);
  }

  /** When no type repeats, there is one tab per tip, in list order. */
  lemma TabsInListOrder(tips: seq<SafetyTip>)
    requires NoDuplicates(TypesOf(tips))
    ensures DisasterTypes(tips) == TypesOf(tips)
  {
    DistinctOfNoDuplicates(TypesOf(tips));
  }

  /** The types of the Spanish list, in order. */
  lemma SpanishListTypes()
    ensures TypesOf(SpanishTips()) == [Earthquake, Flood, Hurricane]
  {
    var es := SpanishTips();
    assert es[1..][1..][1..] == [];
  }

  lemma SpanishTabsOfList()
    ensures DisasterTypes(SpanishTips()) == [Earthquake, Flood, Hurricane]
  {
    SpanishListTypes();
    TabsInListOrder(SpanishTips());
  }

  /** The Spanish tabs. */
  lemma SpanishTabs(language: string)
    requires language == "es"
    ensures DisasterTypes(AllTips(language)) == [Earthquake, Flood, Hurricane]
  {
    SpanishTipsOnly(language);
    SpanishTabsOfList();
  }

  /** The default tab is not checked against the tab list: in Spanish only
      earthquake, flood and hurricane have tabs, although any type, such as
      "tornado", can be passed as the default. */
  lemma DefaultTabMayBeMissing(language: string, defaultType: DisasterType)
    requires language == "es"
    requires defaultType != Earthquake && defaultType != Flood && defaultType != Hurricane
    ensures defaultType !in DisasterTypes(AllTips(language))
  {
    SpanishTabs(language);
    NotInThree(DisasterTypes(AllTips(language)), defaultType);
  }

  lemma NotInThree(tabs: seq<DisasterType>, t: DisasterType)
    requires tabs == [Earthquake, Flood, Hurricane]
    requires t != Earthquake && t != Flood && t != Hurricane
    ensures t !in tabs
  {
  }
}
