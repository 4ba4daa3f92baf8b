/**
 * The memory taxonomy and the record schema: the fixed list of categories,
 * their default importance and decay rate, record construction, the loose
 * category matcher and record validation.
 */
module Schema {
  import opened Wrappers
  import opened Strings

  // The category names.
  const BOSS_PROFILE := "Boss Profile"
  const PERSONALITY_TRAITS := "Personality & Traits"
  const GOALS_ASPIRATIONS := "Goals & Aspirations"
  const HABITS_ROUTINES := "Habits & Routines"
  const SKILLS_EXPERTISE := "Skills & Expertise"
  const FRIENDS_CONTACTS := "Friends & Contacts"
  const FAMILY_MEMBERS := "Family Members"
  const BUSINESS_ASSOCIATES := "Business Associates"
  const ACTIVE_PROJECTS := "Active Projects"
  const BUSINESS_IDEAS_VENTURES := "Business Ideas & Ventures"
  const FOOD_DRINK_PREFERENCES := "Food & Drink Preferences"
  const TECHNOLOGY_TOOLS := "Technology & Tools"
  const ENTERTAINMENT_PREFERENCES := "Entertainment Preferences"
  const WORK_STYLE_ENVIRONMENT := "Work Style & Environment"
  const COMMUNICATION_STYLE := "Communication Style"
  const TRAVEL_PLACES := "Travel & Places"
  const KEY_DATES_MILESTONES := "Key Dates & Milestones"
  const DECISIONS_COMMITMENTS := "Decisions & Commitments"
  const PENDING_ACTION_ITEMS := "Pending Action Items"
  const NOTES_MISCELLANEOUS := "Notes & Miscellaneous"

  /** The twenty categories, in the order the matcher tries them. */
  const CATEGORIES: seq<string> := [
    BOSS_PROFILE,
    PERSONALITY_TRAITS,
    GOALS_ASPIRATIONS,
    HABITS_ROUTINES,
    SKILLS_EXPERTISE,
    FRIENDS_CONTACTS,
    FAMILY_MEMBERS,
    BUSINESS_ASSOCIATES,
    ACTIVE_PROJECTS,
    BUSINESS_IDEAS_VENTURES,
    FOOD_DRINK_PREFERENCES,
    TECHNOLOGY_TOOLS,
    ENTERTAINMENT_PREFERENCES,
    WORK_STYLE_ENVIRONMENT,
    COMMUNICATION_STYLE,
    TRAVEL_PLACES,
    KEY_DATES_MILESTONES,
    DECISIONS_COMMITMENTS,
    PENDING_ACTION_ITEMS,
    NOTES_MISCELLANEOUS
  ]

  /** The category anything unrecognised ends up in. */
  const FALLBACK_CATEGORY := NOTES_MISCELLANEOUS

  /** Per-day retention factor a new record copies from its category. */
  const DEFAULT_DECAY_RATES: map<string, real> := map[
    BOSS_PROFILE := 0.98,
    PERSONALITY_TRAITS := 0.97,
    GOALS_ASPIRATIONS := 0.96,
    HABITS_ROUTINES := 0.95,
    SKILLS_EXPERTISE := 0.97,
    FRIENDS_CONTACTS := 0.95,
    FAMILY_MEMBERS := 0.98,
    BUSINESS_ASSOCIATES := 0.94,
    ACTIVE_PROJECTS := 0.93,
    BUSINESS_IDEAS_VENTURES := 0.90,
    FOOD_DRINK_PREFERENCES := 0.94,
    TECHNOLOGY_TOOLS := 0.92,
    ENTERTAINMENT_PREFERENCES := 0.90,
    WORK_STYLE_ENVIRONMENT := 0.96,
    COMMUNICATION_STYLE := 0.96,
    TRAVEL_PLACES := 0.94,
    KEY_DATES_MILESTONES := 0.92,
    DECISIONS_COMMITMENTS := 0.93,
    PENDING_ACTION_ITEMS := 0.91,
    NOTES_MISCELLANEOUS := 0.88
  ]

  /** Starting importance of a new record, by category. */
  const DEFAULT_IMPORTANCE_BY_CATEGORY: map<string, real> := map[
    BOSS_PROFILE := 100.0,
    PERSONALITY_TRAITS := 90.0,
    GOALS_ASPIRATIONS := 95.0,
    HABITS_ROUTINES := 85.0,
    SKILLS_EXPERTISE := 80.0,
    FRIENDS_CONTACTS := 75.0,
    FAMILY_MEMBERS := 85.0,
    BUSINESS_ASSOCIATES := 70.0,
    ACTIVE_PROJECTS := 90.0,
    BUSINESS_IDEAS_VENTURES := 80.0,
    FOOD_DRINK_PREFERENCES := 60.0,
    TECHNOLOGY_TOOLS := 65.0,
    ENTERTAINMENT_PREFERENCES := 55.0,
    WORK_STYLE_ENVIRONMENT := 80.0,
    COMMUNICATION_STYLE := 75.0,
    TRAVEL_PLACES := 60.0,
    KEY_DATES_MILESTONES := 85.0,
    DECISIONS_COMMITMENTS := 80.0,
    PENDING_ACTION_ITEMS := 95.0,
    NOTES_MISCELLANEOUS := 50.0
  ]

  /** Used when the raw category has no entry in the importance table. */
  const FALLBACK_IMPORTANCE := 70.0

  /** Used when the raw category has no entry in the decay-rate table. */
  const FALLBACK_DECAY_RATE := 0.95

  /** One stored memory, with the fields of the record hash. */
  datatype Memory = Memory(
    id: string,
    content: string,
    category: string,
    importance: real,
    confidence: real,
    createdAt: int,
    lastAccessed: int,
    accessCount: int,
    decayRate: real,
    relatedIds: seq<string>,
    pinned: bool)

  /** The outcome of validation: `valid` and the violated constraints, in checking order. */
  datatype Validation = Validation(valid: bool, errors: seq<string>)

  const ID_ERROR := "Invalid or missing id"
  const CONTENT_ERROR := "Invalid or missing content"
  const CATEGORY_ERROR := "Invalid category"
  const IMPORTANCE_ERROR := "Invalid importance (must be 0-100)"
  const CONFIDENCE_ERROR := "Invalid confidence (must be 0-100)"

  /**
   * `table[key] || fallback`: a key without an entry, or whose entry is 0,
   * gives the fallback.
   */
  function LookupOr(table: map<string, real>, key: string, fallback: real): real {
    if key in table && table[key] != 0.0 then table[key] else fallback
  }

  /** Every category has a decay rate, and only categories have one. */
  lemma {:induction false} DecayTableKeys()
    ensures forall i | 0 <= i < |CATEGORIES| :: CATEGORIES[i] in DEFAULT_DECAY_RATES
    ensures forall c | c in DEFAULT_DECAY_RATES :: c in CATEGORIES
  {
  }

  /** Every category has a starting importance, and only categories have one. */
  lemma {:induction false} ImportanceTableKeys()
    ensures forall i | 0 <= i < |CATEGORIES| :: CATEGORIES[i] in DEFAULT_IMPORTANCE_BY_CATEGORY
    ensures forall c | c in DEFAULT_IMPORTANCE_BY_CATEGORY :: c in CATEGORIES
  {
  }

  /** Default importances lie in (0, 100]. */
  lemma {:induction false} ImportanceTableRange()
    ensures forall c | c in DEFAULT_IMPORTANCE_BY_CATEGORY :: 0.0 < DEFAULT_IMPORTANCE_BY_CATEGORY[c] <= 100.0
  {
  }

  /** Default decay rates lie in (0, 1). */
  lemma {:induction false} DecayTableRange()
    ensures forall c | c in DEFAULT_DECAY_RATES :: 0.0 < DEFAULT_DECAY_RATES[c] < 1.0
  {
  }

  /** A looked-up starting importance lies in [0, 100]. */
  lemma {:induction false} DefaultImportanceInRange(category: string)
    ensures 0.0 <= LookupOr(DEFAULT_IMPORTANCE_BY_CATEGORY, category, FALLBACK_IMPORTANCE) <= 100.0
  {
    ImportanceTableRange();
  }

  /** A looked-up decay rate lies strictly between 0 and 1. */
  lemma {:induction false} DefaultDecayInRange(category: string)
    ensures 0.0 < LookupOr(DEFAULT_DECAY_RATES, category, FALLBACK_DECAY_RATE) < 1.0
  {
    DecayTableRange();
  }

  /** `Math.min(100, Math.max(0, x))`. */
  function Clamp(x: real): (r: real)
    ensures 0.0 <= r <= 100.0
    ensures 0.0 <= x <= 100.0 ==> r == x
    ensures x < 0.0 ==> r == 0.0
    ensures x > 100.0 ==> r == 100.0
  {
    if x > 100.0 then 100.0 else if x < 0.0 then 0.0 else x
  }

  /** Whether the lowered name of the category at index `k` contains `query`. */
  predicate Matches(k: nat, query: string)
    requires k < |CATEGORIES|
  {
    Contains(Lower(CATEGORIES[k]), query)
  }

  /** `CATEGORIES.find(...)` from index `k` on: the first index whose lowered name contains `query`. */
  function FindFrom(query: string, k: nat): (r: Option<nat>)
    requires k <= |CATEGORIES|
    ensures r.Some? ==> k <= r.value < |CATEGORIES| && Matches(r.value, query)
    ensures r.Some? ==> forall j | k <= j < r.value :: !Matches(j, query)
    ensures r.None? ==> forall j | k <= j < |CATEGORIES| :: !Matches(j, query)
    decreases |CATEGORIES| - k
  {
    if k == |CATEGORIES| then None
    else if Matches(k, query) then Some(k)
    else FindFrom(query, k + 1)
  }

  /**
   * The loose category matcher: an empty input gives the fallback; otherwise
   * the first category, in list order, whose lowered name contains the lowered
   * input, and the fallback when none does.
   */
  function NormalizeCategory(category: string): (r: string)
    ensures r in CATEGORIES
    ensures category == "" ==> r == FALLBACK_CATEGORY
    ensures category != "" && (forall j | 0 <= j < |CATEGORIES| :: !Matches(j, Lower(category))) ==> r == FALLBACK_CATEGORY
    ensures forall i | 0 <= i < |CATEGORIES| && Matches(i, Lower(category)) ::
              category != "" && (forall j | 0 <= j < i :: !Matches(j, Lower(category))) ==> r == CATEGORIES[i]
  {
    if category == "" then FALLBACK_CATEGORY
    else
      match FindFrom(Lower(category), 0)
      case Some(i) => CATEGORIES[i]
      case None => FALLBACK_CATEGORY
  }

  /** The empty string occurs in every name, so without the guard the empty input would give the first category. */
  lemma {:induction false} EmptyInputNeedsGuard()
    ensures Matches(0, Lower(""))
    ensures NormalizeCategory("") == FALLBACK_CATEGORY != CATEGORIES[0]
  {
    assert Lower("") == "";
    assert "" <= Lower(CATEGORIES[0])[0..];
  }

  /** Every exact category name normalizes to itself. */
  lemma {:induction false} NormalizeFixesCategories(c: string)
    requires c in CATEGORIES
    ensures NormalizeCategory(c) == c
  {
    var i :| 0 <= i < |CATEGORIES| && CATEGORIES[i] == c;
    ContainsSelf(Lower(c));
    EarlierNamesMiss(i);
  }

  /** Normalizing twice is the same as normalizing once. */
  lemma {:induction false} NormalizeIdempotent(category: string)
    ensures NormalizeCategory(NormalizeCategory(category)) == NormalizeCategory(category)
  {
    NormalizeFixesCategories(NormalizeCategory(category));
  }

  /**
   * Builds a new record. The category is normalized, but the importance and
   * the decay rate are looked up with the category exactly as given. The
   * confidence is clamped to [0, 100]; the record starts unaccessed at `now`.
   */
  function CreateMemory(id: string, content: string, category: string, confidence: real, pinned: bool, now: int): (m: Memory)
    ensures m.id == id && m.content == content && m.pinned == pinned
    ensures m.category == NormalizeCategory(category) && m.category in CATEGORIES
    ensures m.importance == LookupOr(DEFAULT_IMPORTANCE_BY_CATEGORY, category, FALLBACK_IMPORTANCE)
    ensures m.decayRate == LookupOr(DEFAULT_DECAY_RATES, category, FALLBACK_DECAY_RATE)
    ensures 0.0 <= m.importance <= 100.0 && 0.0 < m.decayRate < 1.0
    ensures 0.0 <= m.confidence <= 100.0
    ensures 0.0 <= confidence <= 100.0 ==> m.confidence == confidence
    ensures confidence < 0.0 ==> m.confidence == 0.0
    ensures confidence > 100.0 ==> m.confidence == 100.0
    ensures m.createdAt == now && m.lastAccessed == now && m.accessCount == 0 && m.relatedIds == []
  {
    DefaultImportanceInRange(category);
    DefaultDecayInRange(category);
    Memory(
      id := id,
      content := content,
      category := NormalizeCategory(category),
      importance := LookupOr(DEFAULT_IMPORTANCE_BY_CATEGORY, category, FALLBACK_IMPORTANCE),
      confidence := Clamp(confidence),
      createdAt := now,
      lastAccessed := now,
      accessCount := 0,
      decayRate := LookupOr(DEFAULT_DECAY_RATES, category, FALLBACK_DECAY_RATE),
      relatedIds := [],
      pinned := pinned)
  }

  /** The field constraints a stored record must meet. */
  predicate IsValid(m: Memory) {
    && m.id != ""
    && m.content != ""
    && m.category in CATEGORIES
    && 0.0 <= m.importance <= 100.0
    && 0.0 <= m.confidence <= 100.0
  }

  /** The five validation messages are pairwise different. */
  lemma {:induction false} ErrorsDistinct()
    ensures ID_ERROR != CONTENT_ERROR && ID_ERROR != CATEGORY_ERROR && ID_ERROR != IMPORTANCE_ERROR && ID_ERROR != CONFIDENCE_ERROR
    ensures CONTENT_ERROR != CATEGORY_ERROR && CONTENT_ERROR != IMPORTANCE_ERROR && CONTENT_ERROR != CONFIDENCE_ERROR
    ensures CATEGORY_ERROR != IMPORTANCE_ERROR && CATEGORY_ERROR != CONFIDENCE_ERROR
    ensures IMPORTANCE_ERROR != CONFIDENCE_ERROR
  {
    assert ID_ERROR[19] != CONTENT_ERROR[19];
    assert IMPORTANCE_ERROR[8] != CONFIDENCE_ERROR[8];
  }

  /** Checks the five field constraints in order and lists each one violated. */
  function ValidateMemory(m: Memory): (v: Validation)
    ensures v.valid <==> v.errors == []
    ensures v.valid <==> IsValid(m)
    ensures |v.errors| <= 5
  {
    var errors :=
      (if m.id == "" then [ID_ERROR] else [])
      + (if m.content == "" then [CONTENT_ERROR] else [])
      + (if m.category == "" || m.category !in CATEGORIES then [CATEGORY_ERROR] else [])
      + (if m.importance < 0.0 || m.importance > 100.0 then [IMPORTANCE_ERROR] else [])
      + (if m.confidence < 0.0 || m.confidence > 100.0 then [CONFIDENCE_ERROR] else []);
    Validation(|errors| == 0, errors)
  }

  /** Each message is reported exactly when its constraint is violated. */
  lemma {:induction false} ValidationReportsEachViolation(m: Memory)
    ensures ID_ERROR in ValidateMemory(m).errors <==> m.id == ""
    ensures CONTENT_ERROR in ValidateMemory(m).errors <==> m.content == ""
    ensures CATEGORY_ERROR in ValidateMemory(m).errors <==> m.category !in CATEGORIES
    ensures IMPORTANCE_ERROR in ValidateMemory(m).errors <==> !(0.0 <= m.importance <= 100.0)
    ensures CONFIDENCE_ERROR in ValidateMemory(m).errors <==> !(0.0 <= m.confidence <= 100.0)
  {
    ErrorsDistinct();
    ErrorsListed(m);
  }

  /** The messages reported, each paired with the violation it stands for. */
  lemma {:induction false} ErrorsListed(m: Memory)
    ensures forall x :: x in ValidateMemory(m).errors <==>
      || (x == ID_ERROR && m.id == "")
      || (x == CONTENT_ERROR && m.content == "")
      || (x == CATEGORY_ERROR && m.category !in CATEGORIES)
      || (x == IMPORTANCE_ERROR && !(0.0 <= m.importance <= 100.0))
      || (x == CONFIDENCE_ERROR && !(0.0 <= m.confidence <= 100.0))
  {
    var a := if m.id == "" then [ID_ERROR] else [];
    var b := if m.content == "" then [CONTENT_ERROR] else [];
    var c := if m.category == "" || m.category !in CATEGORIES then [CATEGORY_ERROR] else [];
    var d := if m.importance < 0.0 || m.importance > 100.0 then [IMPORTANCE_ERROR] else [];
    var e := if m.confidence < 0.0 || m.confidence > 100.0 then [CONFIDENCE_ERROR] else [];
    assert ValidateMemory(m).errors == a + b + c + d + e;
    assert "" !in CATEGORIES;
    forall x
      ensures x in a + b + c + d + e <==> x in a || x in b || x in c || x in d || x in e
    {
    }
  }

  /** A freshly created record passes validation whenever its id and content are non-empty. */
  lemma {:induction false} CreatedMemoryIsValid(id: string, content: string, category: string, confidence: real, pinned: bool, now: int)
    requires id != "" && content != ""
    ensures ValidateMemory(CreateMemory(id, content, category, confidence, pinned, now)).valid
  {
  }

  /**
   * The importance lookup uses the raw category: a lower-case spelling lands in
   * "Active Projects" but starts at 70 and decays at 0.95 instead of 90 and 0.93.
   */
  lemma {:induction false} RawCategoryLookup()
    ensures CreateMemory("m", "c", "active projects", 85.0, false, 0).category == ACTIVE_PROJECTS
    ensures CreateMemory("m", "c", "active projects", 85.0, false, 0).importance == 70.0
    ensures CreateMemory("m", "c", "active projects", 85.0, false, 0).decayRate == 0.95
    ensures CreateMemory("m", "c", ACTIVE_PROJECTS, 85.0, false, 0).importance == 90.0
  {
    LowerSpellingMatchesActiveProjects();
    LowerSpellingHasNoEntry();
  }

  /** The lower-case spelling normalizes to "Active Projects". */
  lemma {:induction false} LowerSpellingMatchesActiveProjects()
    ensures NormalizeCategory("active projects") == ACTIVE_PROJECTS
  {
    LowerActiveProjects();
    ContainsSelf(Lower(ACTIVE_PROJECTS));
    EarlierNamesMiss(8);
  }

  /** Lowering "Active Projects" gives its lower-case spelling. */
  lemma {:induction false} LowerActiveProjects()
    ensures Lower("active projects") == Lower(ACTIVE_PROJECTS)
  {
  }

  /** The lower-case spelling is not a key of either table. */
  lemma {:induction false} LowerSpellingHasNoEntry()
    ensures "active projects" !in DEFAULT_IMPORTANCE_BY_CATEGORY
    ensures "active projects" !in DEFAULT_DECAY_RATES
  {
    ImportanceTableKeys();
    DecayTableKeys();
    forall i | 0 <= i < |CATEGORIES|
      ensures CATEGORIES[i] != "active projects"
    {
      assert CATEGORIES[i][0] != 'a';
    }
  }

  // No category name occurs inside an earlier one, once both are lowered.
  // This is what makes every exact name its own first match. Each name's
  // lowered letters are collected once; a later name that is not longer then
  // always has a letter outside that set.

  /** All lowered letters of `s` lie in `letters`. */
  ghost predicate LettersWithin(s: string, letters: set<char>) {
    forall k | 0 <= k < |s| :: LowerChar(s[k]) in letters
  }

  /** `t` is not inside `s` when some letter of `t` is not a letter of `s`. */
  lemma {:induction false} MissingLetter(s: string, t: string, k: nat, letters: set<char>)
    requires LettersWithin(s, letters) && k < |t| && LowerChar(t[k]) !in letters
    ensures !Contains(Lower(s), Lower(t))
  {
    assert Lower(t)[k] !in Lower(s);
    if Contains(Lower(s), Lower(t)) {
      ContainedLetters(Lower(s), Lower(t), k);
    }
  }

  /** `t` is not inside a shorter `s`. */
  lemma {:induction false} TooLong(s: string, t: string)
    requires |s| < |t|
    ensures !Contains(Lower(s), Lower(t))
  {
    if Contains(Lower(s), Lower(t)) {
      ContainedLetters(Lower(s), Lower(t), 0);
    }
  }

  /** The category at index `i` is matched by none before it. */
  lemma {:induction false} EarlierNamesMiss(i: nat)
    requires i < |CATEGORIES|
    ensures forall j | 0 <= j < i :: !Matches(j, Lower(CATEGORIES[i]))
  {
    if i == 1 { PersonalityTraitsFirstMatch(); }
    else if i == 2 { GoalsAspirationsFirstMatch(); }
    else if i == 3 { HabitsRoutinesFirstMatch(); }
    else if i == 4 { SkillsExpertiseFirstMatch(); }
    else if i == 5 { FriendsContactsFirstMatch(); }
    else if i == 6 { FamilyMembersFirstMatch(); }
    else if i == 7 { BusinessAssociatesFirstMatch(); }
    else if i == 8 { ActiveProjectsFirstMatch(); }
    else if i == 9 { BusinessIdeasVenturesFirstMatch(); }
    else if i == 10 { FoodDrinkPreferencesFirstMatch(); }
    else if i == 11 { TechnologyToolsFirstMatch(); }
    else if i == 12 { EntertainmentPreferencesFirstMatch(); }
    else if i == 13 { WorkStyleEnvironmentFirstMatch(); }
    else if i == 14 { CommunicationStyleFirstMatch(); }
    else if i == 15 { TravelPlacesFirstMatch(); }
    else if i == 16 { KeyDatesMilestonesFirstMatch(); }
    else if i == 17 { DecisionsCommitmentsFirstMatch(); }
    else if i == 18 { PendingActionItemsFirstMatch(); }
    else if i == 19 { NotesMiscellaneousFirstMatch(); }
  }

  /** No category is listed twice: an earlier name matching a later one would take its place. */
  lemma {:induction false} CategoriesDistinct()
    ensures forall i, j | 0 <= i < j < |CATEGORIES| :: CATEGORIES[i] != CATEGORIES[j]
  {
    forall i, j | 0 <= i < j < |CATEGORIES|
      ensures CATEGORIES[i] != CATEGORIES[j]
    {
      EarlierNamesMiss(j);
      ContainsSelf(Lower(CATEGORIES[j]));
    }
  }

  lemma {:induction false} LettersOfBossProfile()
    ensures LettersWithin(BOSS_PROFILE, {' ', 'b', 'e', 'f', 'i', 'l', 'o', 'p', 'r', 's'})
  {
  }

  lemma {:induction false} LettersOfPersonalityTraits()
    ensures LettersWithin(PERSONALITY_TRAITS, {' ', '&', 'a', 'e', 'i', 'l', 'n', 'o', 'p', 'r', 's', 't', 'y'})
  {
  }

  lemma {:induction false} LettersOfGoalsAspirations()
    ensures LettersWithin(GOALS_ASPIRATIONS, {' ', '&', 'a', 'g', 'i', 'l', 'n', 'o', 'p', 'r', 's', 't'})
  {
  }

  lemma {:induction false} LettersOfHabitsRoutines()
    ensures LettersWithin(HABITS_ROUTINES, {' ', '&', 'a', 'b', 'e', 'h', 'i', 'n', 'o', 'r', 's', 't', 'u'})
  {
  }

  lemma {:induction false} LettersOfSkillsExpertise()
    ensures LettersWithin(SKILLS_EXPERTISE, {' ', '&', 'e', 'i', 'k', 'l', 'p', 'r', 's', 't', 'x'})
  {
  }

  lemma {:induction false} LettersOfFriendsContacts()
    ensures LettersWithin(FRIENDS_CONTACTS, {' ', '&', 'a', 'c', 'd', 'e', 'f', 'i', 'n', 'o', 'r', 's', 't'})
  {
  }

  lemma {:induction false} LettersOfFamilyMembers()
    ensures LettersWithin(FAMILY_MEMBERS, {' ', 'a', 'b', 'e', 'f', 'i', 'l', 'm', 'r', 's', 'y'})
  {
  }

  lemma {:induction false} LettersOfBusinessAssociates()
    ensures LettersWithin(BUSINESS_ASSOCIATES, {' ', 'a', 'b', 'c', 'e', 'i', 'n', 'o', 's', 't', 'u'})
  {
  }

  lemma {:induction false} LettersOfActiveProjects()
    ensures LettersWithin(ACTIVE_PROJECTS, {' ', 'a', 'c', 'e', 'i', 'j', 'o', 'p', 'r', 's', 't', 'v'})
  {
  }

  lemma {:induction false} LettersOfBusinessIdeasVentures()
    ensures LettersWithin(BUSINESS_IDEAS_VENTURES, {' ', '&', 'a', 'b', 'd', 'e', 'i', 'n', 'r', 's', 't', 'u', 'v'})
  {
  }

  lemma {:induction false} LettersOfFoodDrinkPreferences()
    ensures LettersWithin(FOOD_DRINK_PREFERENCES, {' ', '&', 'c', 'd', 'e', 'f', 'i', 'k', 'n', 'o', 'p', 'r', 's'})
  {
  }

  lemma {:induction false} LettersOfTechnologyTools()
    ensures LettersWithin(TECHNOLOGY_TOOLS, {' ', '&', 'c', 'e', 'g', 'h', 'l', 'n', 'o', 's', 't', 'y'})
  {
  }

  lemma {:induction false} LettersOfEntertainmentPreferences()
    ensures LettersWithin(ENTERTAINMENT_PREFERENCES, {' ', 'a', 'c', 'e', 'f', 'i', 'm', 'n', 'p', 'r', 's', 't'})
  {
  }

  lemma {:induction false} LettersOfWorkStyleEnvironment()
    ensures LettersWithin(WORK_STYLE_ENVIRONMENT, {' ', '&', 'e', 'i', 'k', 'l', 'm', 'n', 'o', 'r', 's', 't', 'v', 'w', 'y'})
  {
  }

  lemma {:induction false} LettersOfCommunicationStyle()
    ensures LettersWithin(COMMUNICATION_STYLE, {' ', 'a', 'c', 'e', 'i', 'l', 'm', 'n', 'o', 's', 't', 'u', 'y'})
  {
  }

  lemma {:induction false} LettersOfTravelPlaces()
    ensures LettersWithin(TRAVEL_PLACES, {' ', '&', 'a', 'c', 'e', 'l', 'p', 'r', 's', 't', 'v'})
  {
  }

  lemma {:induction false} LettersOfKeyDatesMilestones()
    ensures LettersWithin(KEY_DATES_MILESTONES, {' ', '&', 'a', 'd', 'e', 'i', 'k', 'l', 'm', 'n', 'o', 's', 't', 'y'})
  {
  }

  lemma {:induction false} LettersOfDecisionsCommitments()
    ensures LettersWithin(DECISIONS_COMMITMENTS, {' ', '&', 'c', 'd', 'e', 'i', 'm', 'n', 'o', 's', 't'})
  {
  }

  lemma {:induction false} LettersOfPendingActionItems()
    ensures LettersWithin(PENDING_ACTION_ITEMS, {' ', 'a', 'c', 'd', 'e', 'g', 'i', 'm', 'n', 'o', 'p', 's', 't'})
  {
  }

  lemma {:induction false} PersonalityTraitsFirstMatch()
    ensures forall j | 0 <= j < 1 :: !Matches(j, Lower(CATEGORIES[1]))
  {
    TooLong(BOSS_PROFILE, PERSONALITY_TRAITS);
  }

  lemma {:induction false} GoalsAspirationsFirstMatch()
    ensures forall j | 0 <= j < 2 :: !Matches(j, Lower(CATEGORIES[2]))
  {
    TooLong(BOSS_PROFILE, GOALS_ASPIRATIONS);
    LettersOfPersonalityTraits();
    MissingLetter(PERSONALITY_TRAITS, GOALS_ASPIRATIONS, 0, {' ', '&', 'a', 'e', 'i', 'l', 'n', 'o', 'p', 'r', 's', 't', 'y'});
  }

  lemma {:induction false} HabitsRoutinesFirstMatch()
    ensures forall j | 0 <= j < 3 :: !Matches(j, Lower(CATEGORIES[3]))
  {
    TooLong(BOSS_PROFILE, HABITS_ROUTINES);
    LettersOfPersonalityTraits();
    MissingLetter(PERSONALITY_TRAITS, HABITS_ROUTINES, 0, {' ', '&', 'a', 'e', 'i', 'l', 'n', 'o', 'p', 'r', 's', 't', 'y'});
    LettersOfGoalsAspirations();
    MissingLetter(GOALS_ASPIRATIONS, HABITS_ROUTINES, 0, {' ', '&', 'a', 'g', 'i', 'l', 'n', 'o', 'p', 'r', 's', 't'});
  }

  lemma {:induction false} SkillsExpertiseFirstMatch()
    ensures forall j | 0 <= j < 4 :: !Matches(j, Lower(CATEGORIES[4]))
  {
    TooLong(BOSS_PROFILE, SKILLS_EXPERTISE);
    LettersOfPersonalityTraits();
    MissingLetter(PERSONALITY_TRAITS, SKILLS_EXPERTISE, 1, {' ', '&', 'a', 'e', 'i', 'l', 'n', 'o', 'p', 'r', 's', 't', 'y'});
    LettersOfGoalsAspirations();
    MissingLetter(GOALS_ASPIRATIONS, SKILLS_EXPERTISE, 1, {' ', '&', 'a', 'g', 'i', 'l', 'n', 'o', 'p', 'r', 's', 't'});
    TooLong(HABITS_ROUTINES, SKILLS_EXPERTISE);
  }

  lemma {:induction false} FriendsContactsFirstMatch()
    ensures forall j | 0 <= j < 5 :: !Matches(j, Lower(CATEGORIES[5]))
  {
    TooLong(BOSS_PROFILE, FRIENDS_CONTACTS);
    LettersOfPersonalityTraits();
    MissingLetter(PERSONALITY_TRAITS, FRIENDS_CONTACTS, 0, {' ', '&', 'a', 'e', 'i', 'l', 'n', 'o', 'p', 'r', 's', 't', 'y'});
    LettersOfGoalsAspirations();
    MissingLetter(GOALS_ASPIRATIONS, FRIENDS_CONTACTS, 0, {' ', '&', 'a', 'g', 'i', 'l', 'n', 'o', 'p', 'r', 's', 't'});
    TooLong(HABITS_ROUTINES, FRIENDS_CONTACTS);
    LettersOfSkillsExpertise();
    MissingLetter(SKILLS_EXPERTISE, FRIENDS_CONTACTS, 0, {' ', '&', 'e', 'i', 'k', 'l', 'p', 'r', 's', 't', 'x'});
  }

  lemma {:induction false} FamilyMembersFirstMatch()
    ensures forall j | 0 <= j < 6 :: !Matches(j, Lower(CATEGORIES[6]))
  {
    TooLong(BOSS_PROFILE, FAMILY_MEMBERS);
    LettersOfPersonalityTraits();
    MissingLetter(PERSONALITY_TRAITS, FAMILY_MEMBERS, 0, {' ', '&', 'a', 'e', 'i', 'l', 'n', 'o', 'p', 'r', 's', 't', 'y'});
    LettersOfGoalsAspirations();
    MissingLetter(GOALS_ASPIRATIONS, FAMILY_MEMBERS, 0, {' ', '&', 'a', 'g', 'i', 'l', 'n', 'o', 'p', 'r', 's', 't'});
    LettersOfHabitsRoutines();
    MissingLetter(HABITS_ROUTINES, FAMILY_MEMBERS, 0, {' ', '&', 'a', 'b', 'e', 'h', 'i', 'n', 'o', 'r', 's', 't', 'u'});
    LettersOfSkillsExpertise();
    MissingLetter(SKILLS_EXPERTISE, FAMILY_MEMBERS, 0, {' ', '&', 'e', 'i', 'k', 'l', 'p', 'r', 's', 't', 'x'});
    LettersOfFriendsContacts();
    MissingLetter(FRIENDS_CONTACTS, FAMILY_MEMBERS, 2, {' ', '&', 'a', 'c', 'd', 'e', 'f', 'i', 'n', 'o', 'r', 's', 't'});
  }

  lemma {:induction false} BusinessAssociatesFirstMatch()
    ensures forall j | 0 <= j < 7 :: !Matches(j, Lower(CATEGORIES[7]))
  {
    TooLong(BOSS_PROFILE, BUSINESS_ASSOCIATES);
    LettersOfPersonalityTraits();
    MissingLetter(PERSONALITY_TRAITS, BUSINESS_ASSOCIATES, 0, {' ', '&', 'a', 'e', 'i', 'l', 'n', 'o', 'p', 'r', 's', 't', 'y'});
    LettersOfGoalsAspirations();
    MissingLetter(GOALS_ASPIRATIONS, BUSINESS_ASSOCIATES, 0, {' ', '&', 'a', 'g', 'i', 'l', 'n', 'o', 'p', 'r', 's', 't'});
    TooLong(HABITS_ROUTINES, BUSINESS_ASSOCIATES);
    TooLong(SKILLS_EXPERTISE, BUSINESS_ASSOCIATES);
    TooLong(FRIENDS_CONTACTS, BUSINESS_ASSOCIATES);
    TooLong(FAMILY_MEMBERS, BUSINESS_ASSOCIATES);
  }

  lemma {:induction false} ActiveProjectsFirstMatch()
    ensures forall j | 0 <= j < 8 :: !Matches(j, Lower(CATEGORIES[8]))
  {
    TooLong(BOSS_PROFILE, ACTIVE_PROJECTS);
    LettersOfPersonalityTraits();
    MissingLetter(PERSONALITY_TRAITS, ACTIVE_PROJECTS, 1, {' ', '&', 'a', 'e', 'i', 'l', 'n', 'o', 'p', 'r', 's', 't', 'y'});
    LettersOfGoalsAspirations();
    MissingLetter(GOALS_ASPIRATIONS, ACTIVE_PROJECTS, 1, {' ', '&', 'a', 'g', 'i', 'l', 'n', 'o', 'p', 'r', 's', 't'});
    LettersOfHabitsRoutines();
    MissingLetter(HABITS_ROUTINES, ACTIVE_PROJECTS, 1, {' ', '&', 'a', 'b', 'e', 'h', 'i', 'n', 'o', 'r', 's', 't', 'u'});
    LettersOfSkillsExpertise();
    MissingLetter(SKILLS_EXPERTISE, ACTIVE_PROJECTS, 0, {' ', '&', 'e', 'i', 'k', 'l', 'p', 'r', 's', 't', 'x'});
    LettersOfFriendsContacts();
    MissingLetter(FRIENDS_CONTACTS, ACTIVE_PROJECTS, 4, {' ', '&', 'a', 'c', 'd', 'e', 'f', 'i', 'n', 'o', 'r', 's', 't'});
    TooLong(FAMILY_MEMBERS, ACTIVE_PROJECTS);
    LettersOfBusinessAssociates();
    MissingLetter(BUSINESS_ASSOCIATES, ACTIVE_PROJECTS, 4, {' ', 'a', 'b', 'c', 'e', 'i', 'n', 'o', 's', 't', 'u'});
  }

  lemma {:induction false} BusinessIdeasVenturesFirstMatch()
    ensures forall j | 0 <= j < 9 :: !Matches(j, Lower(CATEGORIES[9]))
  {
    TooLong(BOSS_PROFILE, BUSINESS_IDEAS_VENTURES);
    TooLong(PERSONALITY_TRAITS, BUSINESS_IDEAS_VENTURES);
    TooLong(GOALS_ASPIRATIONS, BUSINESS_IDEAS_VENTURES);
    TooLong(HABITS_ROUTINES, BUSINESS_IDEAS_VENTURES);
    TooLong(SKILLS_EXPERTISE, BUSINESS_IDEAS_VENTURES);
    TooLong(FRIENDS_CONTACTS, BUSINESS_IDEAS_VENTURES);
    TooLong(FAMILY_MEMBERS, BUSINESS_IDEAS_VENTURES);
    TooLong(BUSINESS_ASSOCIATES, BUSINESS_IDEAS_VENTURES);
    TooLong(ACTIVE_PROJECTS, BUSINESS_IDEAS_VENTURES);
  }

  lemma {:induction false} FoodDrinkPreferencesFirstMatch()
    ensures forall j | 0 <= j < 10 :: !Matches(j, Lower(CATEGORIES[10]))
  {
    TooLong(BOSS_PROFILE, FOOD_DRINK_PREFERENCES);
    TooLong(PERSONALITY_TRAITS, FOOD_DRINK_PREFERENCES);
    TooLong(GOALS_ASPIRATIONS, FOOD_DRINK_PREFERENCES);
    TooLong(HABITS_ROUTINES, FOOD_DRINK_PREFERENCES);
    TooLong(SKILLS_EXPERTISE, FOOD_DRINK_PREFERENCES);
    TooLong(FRIENDS_CONTACTS, FOOD_DRINK_PREFERENCES);
    TooLong(FAMILY_MEMBERS, FOOD_DRINK_PREFERENCES);
    TooLong(BUSINESS_ASSOCIATES, FOOD_DRINK_PREFERENCES);
    TooLong(ACTIVE_PROJECTS, FOOD_DRINK_PREFERENCES);
    LettersOfBusinessIdeasVentures();
    MissingLetter(BUSINESS_IDEAS_VENTURES, FOOD_DRINK_PREFERENCES, 0, {' ', '&', 'a', 'b', 'd', 'e', 'i', 'n', 'r', 's', 't', 'u', 'v'});
  }

  lemma {:induction false} TechnologyToolsFirstMatch()
    ensures forall j | 0 <= j < 11 :: !Matches(j, Lower(CATEGORIES[11]))
  {
    TooLong(BOSS_PROFILE, TECHNOLOGY_TOOLS);
    LettersOfPersonalityTraits();
    MissingLetter(PERSONALITY_TRAITS, TECHNOLOGY_TOOLS, 2, {' ', '&', 'a', 'e', 'i', 'l', 'n', 'o', 'p', 'r', 's', 't', 'y'});
    LettersOfGoalsAspirations();
    MissingLetter(GOALS_ASPIRATIONS, TECHNOLOGY_TOOLS, 1, {' ', '&', 'a', 'g', 'i', 'l', 'n', 'o', 'p', 'r', 's', 't'});
    TooLong(HABITS_ROUTINES, TECHNOLOGY_TOOLS);
    LettersOfSkillsExpertise();
    MissingLetter(SKILLS_EXPERTISE, TECHNOLOGY_TOOLS, 2, {' ', '&', 'e', 'i', 'k', 'l', 'p', 'r', 's', 't', 'x'});
    LettersOfFriendsContacts();
    MissingLetter(FRIENDS_CONTACTS, TECHNOLOGY_TOOLS, 3, {' ', '&', 'a', 'c', 'd', 'e', 'f', 'i', 'n', 'o', 'r', 's', 't'});
    TooLong(FAMILY_MEMBERS, TECHNOLOGY_TOOLS);
    LettersOfBusinessAssociates();
    MissingLetter(BUSINESS_ASSOCIATES, TECHNOLOGY_TOOLS, 3, {' ', 'a', 'b', 'c', 'e', 'i', 'n', 'o', 's', 't', 'u'});
    TooLong(ACTIVE_PROJECTS, TECHNOLOGY_TOOLS);
    LettersOfBusinessIdeasVentures();
    MissingLetter(BUSINESS_IDEAS_VENTURES, TECHNOLOGY_TOOLS, 2, {' ', '&', 'a', 'b', 'd', 'e', 'i', 'n', 'r', 's', 't', 'u', 'v'});
    LettersOfFoodDrinkPreferences();
    MissingLetter(FOOD_DRINK_PREFERENCES, TECHNOLOGY_TOOLS, 0, {' ', '&', 'c', 'd', 'e', 'f', 'i', 'k', 'n', 'o', 'p', 'r', 's'});
  }

  lemma {:induction false} EntertainmentPreferencesFirstMatch()
    ensures forall j | 0 <= j < 12 :: !Matches(j, Lower(CATEGORIES[12]))
  {
    TooLong(BOSS_PROFILE, ENTERTAINMENT_PREFERENCES);
    TooLong(PERSONALITY_TRAITS, ENTERTAINMENT_PREFERENCES);
    TooLong(GOALS_ASPIRATIONS, ENTERTAINMENT_PREFERENCES);
    TooLong(HABITS_ROUTINES, ENTERTAINMENT_PREFERENCES);
    TooLong(SKILLS_EXPERTISE, ENTERTAINMENT_PREFERENCES);
    TooLong(FRIENDS_CONTACTS, ENTERTAINMENT_PREFERENCES);
    TooLong(FAMILY_MEMBERS, ENTERTAINMENT_PREFERENCES);
    TooLong(BUSINESS_ASSOCIATES, ENTERTAINMENT_PREFERENCES);
    TooLong(ACTIVE_PROJECTS, ENTERTAINMENT_PREFERENCES);
    LettersOfBusinessIdeasVentures();
    MissingLetter(BUSINESS_IDEAS_VENTURES, ENTERTAINMENT_PREFERENCES, 9, {' ', '&', 'a', 'b', 'd', 'e', 'i', 'n', 'r', 's', 't', 'u', 'v'});
    TooLong(FOOD_DRINK_PREFERENCES, ENTERTAINMENT_PREFERENCES);
    TooLong(TECHNOLOGY_TOOLS, ENTERTAINMENT_PREFERENCES);
  }

  lemma {:induction false} WorkStyleEnvironmentFirstMatch()
    ensures forall j | 0 <= j < 13 :: !Matches(j, Lower(CATEGORIES[13]))
  {
    TooLong(BOSS_PROFILE, WORK_STYLE_ENVIRONMENT);
    TooLong(PERSONALITY_TRAITS, WORK_STYLE_ENVIRONMENT);
    TooLong(GOALS_ASPIRATIONS, WORK_STYLE_ENVIRONMENT);
    TooLong(HABITS_ROUTINES, WORK_STYLE_ENVIRONMENT);
    TooLong(SKILLS_EXPERTISE, WORK_STYLE_ENVIRONMENT);
    TooLong(FRIENDS_CONTACTS, WORK_STYLE_ENVIRONMENT);
    TooLong(FAMILY_MEMBERS, WORK_STYLE_ENVIRONMENT);
    TooLong(BUSINESS_ASSOCIATES, WORK_STYLE_ENVIRONMENT);
    TooLong(ACTIVE_PROJECTS, WORK_STYLE_ENVIRONMENT);
    LettersOfBusinessIdeasVentures();
    MissingLetter(BUSINESS_IDEAS_VENTURES, WORK_STYLE_ENVIRONMENT, 0, {' ', '&', 'a', 'b', 'd', 'e', 'i', 'n', 'r', 's', 't', 'u', 'v'});
    LettersOfFoodDrinkPreferences();
    MissingLetter(FOOD_DRINK_PREFERENCES, WORK_STYLE_ENVIRONMENT, 0, {' ', '&', 'c', 'd', 'e', 'f', 'i', 'k', 'n', 'o', 'p', 'r', 's'});
    TooLong(TECHNOLOGY_TOOLS, WORK_STYLE_ENVIRONMENT);
    LettersOfEntertainmentPreferences();
    MissingLetter(ENTERTAINMENT_PREFERENCES, WORK_STYLE_ENVIRONMENT, 0, {' ', 'a', 'c', 'e', 'f', 'i', 'm', 'n', 'p', 'r', 's', 't'});
  }

  lemma {:induction false} CommunicationStyleFirstMatch()
    ensures forall j | 0 <= j < 14 :: !Matches(j, Lower(CATEGORIES[14]))
  {
    TooLong(BOSS_PROFILE, COMMUNICATION_STYLE);
    LettersOfPersonalityTraits();
    MissingLetter(PERSONALITY_TRAITS, COMMUNICATION_STYLE, 0, {' ', '&', 'a', 'e', 'i', 'l', 'n', 'o', 'p', 'r', 's', 't', 'y'});
    LettersOfGoalsAspirations();
    MissingLetter(GOALS_ASPIRATIONS, COMMUNICATION_STYLE, 0, {' ', '&', 'a', 'g', 'i', 'l', 'n', 'o', 'p', 'r', 's', 't'});
    TooLong(HABITS_ROUTINES, COMMUNICATION_STYLE);
    TooLong(SKILLS_EXPERTISE, COMMUNICATION_STYLE);
    TooLong(FRIENDS_CONTACTS, COMMUNICATION_STYLE);
    TooLong(FAMILY_MEMBERS, COMMUNICATION_STYLE);
    LettersOfBusinessAssociates();
    MissingLetter(BUSINESS_ASSOCIATES, COMMUNICATION_STYLE, 2, {' ', 'a', 'b', 'c', 'e', 'i', 'n', 'o', 's', 't', 'u'});
    TooLong(ACTIVE_PROJECTS, COMMUNICATION_STYLE);
    LettersOfBusinessIdeasVentures();
    MissingLetter(BUSINESS_IDEAS_VENTURES, COMMUNICATION_STYLE, 0, {' ', '&', 'a', 'b', 'd', 'e', 'i', 'n', 'r', 's', 't', 'u', 'v'});
    LettersOfFoodDrinkPreferences();
    MissingLetter(FOOD_DRINK_PREFERENCES, COMMUNICATION_STYLE, 2, {' ', '&', 'c', 'd', 'e', 'f', 'i', 'k', 'n', 'o', 'p', 'r', 's'});
    TooLong(TECHNOLOGY_TOOLS, COMMUNICATION_STYLE);
    LettersOfEntertainmentPreferences();
    MissingLetter(ENTERTAINMENT_PREFERENCES, COMMUNICATION_STYLE, 1, {' ', 'a', 'c', 'e', 'f', 'i', 'm', 'n', 'p', 'r', 's', 't'});
    LettersOfWorkStyleEnvironment();
    MissingLetter(WORK_STYLE_ENVIRONMENT, COMMUNICATION_STYLE, 0, {' ', '&', 'e', 'i', 'k', 'l', 'm', 'n', 'o', 'r', 's', 't', 'v', 'w', 'y'});
  }

  lemma {:induction false} TravelPlacesFirstMatch()
    ensures forall j | 0 <= j < 15 :: !Matches(j, Lower(CATEGORIES[15]))
  {
    TooLong(BOSS_PROFILE, TRAVEL_PLACES);
    LettersOfPersonalityTraits();
    MissingLetter(PERSONALITY_TRAITS, TRAVEL_PLACES, 3, {' ', '&', 'a', 'e', 'i', 'l', 'n', 'o', 'p', 'r', 's', 't', 'y'});
    LettersOfGoalsAspirations();
    MissingLetter(GOALS_ASPIRATIONS, TRAVEL_PLACES, 3, {' ', '&', 'a', 'g', 'i', 'l', 'n', 'o', 'p', 'r', 's', 't'});
    LettersOfHabitsRoutines();
    MissingLetter(HABITS_ROUTINES, TRAVEL_PLACES, 3, {' ', '&', 'a', 'b', 'e', 'h', 'i', 'n', 'o', 'r', 's', 't', 'u'});
    LettersOfSkillsExpertise();
    MissingLetter(SKILLS_EXPERTISE, TRAVEL_PLACES, 2, {' ', '&', 'e', 'i', 'k', 'l', 'p', 'r', 's', 't', 'x'});
    LettersOfFriendsContacts();
    MissingLetter(FRIENDS_CONTACTS, TRAVEL_PLACES, 3, {' ', '&', 'a', 'c', 'd', 'e', 'f', 'i', 'n', 'o', 'r', 's', 't'});
    TooLong(FAMILY_MEMBERS, TRAVEL_PLACES);
    LettersOfBusinessAssociates();
    MissingLetter(BUSINESS_ASSOCIATES, TRAVEL_PLACES, 1, {' ', 'a', 'b', 'c', 'e', 'i', 'n', 'o', 's', 't', 'u'});
    LettersOfActiveProjects();
    MissingLetter(ACTIVE_PROJECTS, TRAVEL_PLACES, 5, {' ', 'a', 'c', 'e', 'i', 'j', 'o', 'p', 'r', 's', 't', 'v'});
    LettersOfBusinessIdeasVentures();
    MissingLetter(BUSINESS_IDEAS_VENTURES, TRAVEL_PLACES, 5, {' ', '&', 'a', 'b', 'd', 'e', 'i', 'n', 'r', 's', 't', 'u', 'v'});
    LettersOfFoodDrinkPreferences();
    MissingLetter(FOOD_DRINK_PREFERENCES, TRAVEL_PLACES, 0, {' ', '&', 'c', 'd', 'e', 'f', 'i', 'k', 'n', 'o', 'p', 'r', 's'});
    LettersOfTechnologyTools();
    MissingLetter(TECHNOLOGY_TOOLS, TRAVEL_PLACES, 1, {' ', '&', 'c', 'e', 'g', 'h', 'l', 'n', 'o', 's', 't', 'y'});
    LettersOfEntertainmentPreferences();
    MissingLetter(ENTERTAINMENT_PREFERENCES, TRAVEL_PLACES, 3, {' ', 'a', 'c', 'e', 'f', 'i', 'm', 'n', 'p', 'r', 's', 't'});
    LettersOfWorkStyleEnvironment();
    MissingLetter(WORK_STYLE_ENVIRONMENT, TRAVEL_PLACES, 2, {' ', '&', 'e', 'i', 'k', 'l', 'm', 'n', 'o', 'r', 's', 't', 'v', 'w', 'y'});
    LettersOfCommunicationStyle();
    MissingLetter(COMMUNICATION_STYLE, TRAVEL_PLACES, 1, {' ', 'a', 'c', 'e', 'i', 'l', 'm', 'n', 'o', 's', 't', 'u', 'y'});
  }

  lemma {:induction false} KeyDatesMilestonesFirstMatch()
    ensures forall j | 0 <= j < 16 :: !Matches(j, Lower(CATEGORIES[16]))
  {
    TooLong(BOSS_PROFILE, KEY_DATES_MILESTONES);
    TooLong(PERSONALITY_TRAITS, KEY_DATES_MILESTONES);
    TooLong(GOALS_ASPIRATIONS, KEY_DATES_MILESTONES);
    TooLong(HABITS_ROUTINES, KEY_DATES_MILESTONES);
    TooLong(SKILLS_EXPERTISE, KEY_DATES_MILESTONES);
    TooLong(FRIENDS_CONTACTS, KEY_DATES_MILESTONES);
    TooLong(FAMILY_MEMBERS, KEY_DATES_MILESTONES);
    TooLong(BUSINESS_ASSOCIATES, KEY_DATES_MILESTONES);
    TooLong(ACTIVE_PROJECTS, KEY_DATES_MILESTONES);
    LettersOfBusinessIdeasVentures();
    MissingLetter(BUSINESS_IDEAS_VENTURES, KEY_DATES_MILESTONES, 0, {' ', '&', 'a', 'b', 'd', 'e', 'i', 'n', 'r', 's', 't', 'u', 'v'});
    LettersOfFoodDrinkPreferences();
    MissingLetter(FOOD_DRINK_PREFERENCES, KEY_DATES_MILESTONES, 2, {' ', '&', 'c', 'd', 'e', 'f', 'i', 'k', 'n', 'o', 'p', 'r', 's'});
    TooLong(TECHNOLOGY_TOOLS, KEY_DATES_MILESTONES);
    LettersOfEntertainmentPreferences();
    MissingLetter(ENTERTAINMENT_PREFERENCES, KEY_DATES_MILESTONES, 0, {' ', 'a', 'c', 'e', 'f', 'i', 'm', 'n', 'p', 'r', 's', 't'});
    LettersOfWorkStyleEnvironment();
    MissingLetter(WORK_STYLE_ENVIRONMENT, KEY_DATES_MILESTONES, 4, {' ', '&', 'e', 'i', 'k', 'l', 'm', 'n', 'o', 'r', 's', 't', 'v', 'w', 'y'});
    TooLong(COMMUNICATION_STYLE, KEY_DATES_MILESTONES);
    TooLong(TRAVEL_PLACES, KEY_DATES_MILESTONES);
  }

  lemma {:induction false} DecisionsCommitmentsFirstMatch()
    ensures forall j | 0 <= j < 17 :: !Matches(j, Lower(CATEGORIES[17]))
  {
    TooLong(BOSS_PROFILE, DECISIONS_COMMITMENTS);
    TooLong(PERSONALITY_TRAITS, DECISIONS_COMMITMENTS);
    TooLong(GOALS_ASPIRATIONS, DECISIONS_COMMITMENTS);
    TooLong(HABITS_ROUTINES, DECISIONS_COMMITMENTS);
    TooLong(SKILLS_EXPERTISE, DECISIONS_COMMITMENTS);
    TooLong(FRIENDS_CONTACTS, DECISIONS_COMMITMENTS);
    TooLong(FAMILY_MEMBERS, DECISIONS_COMMITMENTS);
    TooLong(BUSINESS_ASSOCIATES, DECISIONS_COMMITMENTS);
    TooLong(ACTIVE_PROJECTS, DECISIONS_COMMITMENTS);
    LettersOfBusinessIdeasVentures();
    MissingLetter(BUSINESS_IDEAS_VENTURES, DECISIONS_COMMITMENTS, 2, {' ', '&', 'a', 'b', 'd', 'e', 'i', 'n', 'r', 's', 't', 'u', 'v'});
    LettersOfFoodDrinkPreferences();
    MissingLetter(FOOD_DRINK_PREFERENCES, DECISIONS_COMMITMENTS, 14, {' ', '&', 'c', 'd', 'e', 'f', 'i', 'k', 'n', 'o', 'p', 'r', 's'});
    TooLong(TECHNOLOGY_TOOLS, DECISIONS_COMMITMENTS);
    LettersOfEntertainmentPreferences();
    MissingLetter(ENTERTAINMENT_PREFERENCES, DECISIONS_COMMITMENTS, 0, {' ', 'a', 'c', 'e', 'f', 'i', 'm', 'n', 'p', 'r', 's', 't'});
    LettersOfWorkStyleEnvironment();
    MissingLetter(WORK_STYLE_ENVIRONMENT, DECISIONS_COMMITMENTS, 0, {' ', '&', 'e', 'i', 'k', 'l', 'm', 'n', 'o', 'r', 's', 't', 'v', 'w', 'y'});
    TooLong(COMMUNICATION_STYLE, DECISIONS_COMMITMENTS);
    TooLong(TRAVEL_PLACES, DECISIONS_COMMITMENTS);
    TooLong(KEY_DATES_MILESTONES, DECISIONS_COMMITMENTS);
  }

  lemma {:induction false} PendingActionItemsFirstMatch()
    ensures forall j | 0 <= j < 18 :: !Matches(j, Lower(CATEGORIES[18]))
  {
    TooLong(BOSS_PROFILE, PENDING_ACTION_ITEMS);
    LettersOfPersonalityTraits();
    MissingLetter(PERSONALITY_TRAITS, PENDING_ACTION_ITEMS, 3, {' ', '&', 'a', 'e', 'i', 'l', 'n', 'o', 'p', 'r', 's', 't', 'y'});
    TooLong(GOALS_ASPIRATIONS, PENDING_ACTION_ITEMS);
    TooLong(HABITS_ROUTINES, PENDING_ACTION_ITEMS);
    TooLong(SKILLS_EXPERTISE, PENDING_ACTION_ITEMS);
    TooLong(FRIENDS_CONTACTS, PENDING_ACTION_ITEMS);
    TooLong(FAMILY_MEMBERS, PENDING_ACTION_ITEMS);
    TooLong(BUSINESS_ASSOCIATES, PENDING_ACTION_ITEMS);
    TooLong(ACTIVE_PROJECTS, PENDING_ACTION_ITEMS);
    LettersOfBusinessIdeasVentures();
    MissingLetter(BUSINESS_IDEAS_VENTURES, PENDING_ACTION_ITEMS, 0, {' ', '&', 'a', 'b', 'd', 'e', 'i', 'n', 'r', 's', 't', 'u', 'v'});
    LettersOfFoodDrinkPreferences();
    MissingLetter(FOOD_DRINK_PREFERENCES, PENDING_ACTION_ITEMS, 6, {' ', '&', 'c', 'd', 'e', 'f', 'i', 'k', 'n', 'o', 'p', 'r', 's'});
    TooLong(TECHNOLOGY_TOOLS, PENDING_ACTION_ITEMS);
    LettersOfEntertainmentPreferences();
    MissingLetter(ENTERTAINMENT_PREFERENCES, PENDING_ACTION_ITEMS, 3, {' ', 'a', 'c', 'e', 'f', 'i', 'm', 'n', 'p', 'r', 's', 't'});
    LettersOfWorkStyleEnvironment();
    MissingLetter(WORK_STYLE_ENVIRONMENT, PENDING_ACTION_ITEMS, 0, {' ', '&', 'e', 'i', 'k', 'l', 'm', 'n', 'o', 'r', 's', 't', 'v', 'w', 'y'});
    TooLong(COMMUNICATION_STYLE, PENDING_ACTION_ITEMS);
    TooLong(TRAVEL_PLACES, PENDING_ACTION_ITEMS);
    LettersOfKeyDatesMilestones();
    MissingLetter(KEY_DATES_MILESTONES, PENDING_ACTION_ITEMS, 0, {' ', '&', 'a', 'd', 'e', 'i', 'k', 'l', 'm', 'n', 'o', 's', 't', 'y'});
    LettersOfDecisionsCommitments();
    MissingLetter(DECISIONS_COMMITMENTS, PENDING_ACTION_ITEMS, 0, {' ', '&', 'c', 'd', 'e', 'i', 'm', 'n', 'o', 's', 't'});
  }

  lemma {:induction false} NotesMiscellaneousFirstMatch()
    ensures forall j | 0 <= j < 19 :: !Matches(j, Lower(CATEGORIES[19]))
  {
    TooLong(BOSS_PROFILE, NOTES_MISCELLANEOUS);
    TooLong(PERSONALITY_TRAITS, NOTES_MISCELLANEOUS);
    TooLong(GOALS_ASPIRATIONS, NOTES_MISCELLANEOUS);
    TooLong(HABITS_ROUTINES, NOTES_MISCELLANEOUS);
    TooLong(SKILLS_EXPERTISE, NOTES_MISCELLANEOUS);
    TooLong(FRIENDS_CONTACTS, NOTES_MISCELLANEOUS);
    TooLong(FAMILY_MEMBERS, NOTES_MISCELLANEOUS);
    TooLong(BUSINESS_ASSOCIATES, NOTES_MISCELLANEOUS);
    TooLong(ACTIVE_PROJECTS, NOTES_MISCELLANEOUS);
    LettersOfBusinessIdeasVentures();
    MissingLetter(BUSINESS_IDEAS_VENTURES, NOTES_MISCELLANEOUS, 1, {' ', '&', 'a', 'b', 'd', 'e', 'i', 'n', 'r', 's', 't', 'u', 'v'});
    LettersOfFoodDrinkPreferences();
    MissingLetter(FOOD_DRINK_PREFERENCES, NOTES_MISCELLANEOUS, 2, {' ', '&', 'c', 'd', 'e', 'f', 'i', 'k', 'n', 'o', 'p', 'r', 's'});
    TooLong(TECHNOLOGY_TOOLS, NOTES_MISCELLANEOUS);
    LettersOfEntertainmentPreferences();
    MissingLetter(ENTERTAINMENT_PREFERENCES, NOTES_MISCELLANEOUS, 1, {' ', 'a', 'c', 'e', 'f', 'i', 'm', 'n', 'p', 'r', 's', 't'});
    LettersOfWorkStyleEnvironment();
    MissingLetter(WORK_STYLE_ENVIRONMENT, NOTES_MISCELLANEOUS, 11, {' ', '&', 'e', 'i', 'k', 'l', 'm', 'n', 'o', 'r', 's', 't', 'v', 'w', 'y'});
    TooLong(COMMUNICATION_STYLE, NOTES_MISCELLANEOUS);
    TooLong(TRAVEL_PLACES, NOTES_MISCELLANEOUS);
    LettersOfKeyDatesMilestones();
    MissingLetter(KEY_DATES_MILESTONES, NOTES_MISCELLANEOUS, 11, {' ', '&', 'a', 'd', 'e', 'i', 'k', 'l', 'm', 'n', 'o', 's', 't', 'y'});
    LettersOfDecisionsCommitments();
    MissingLetter(DECISIONS_COMMITMENTS, NOTES_MISCELLANEOUS, 13, {' ', '&', 'c', 'd', 'e', 'i', 'm', 'n', 'o', 's', 't'});
    TooLong(PENDING_ACTION_ITEMS, NOTES_MISCELLANEOUS);
  }

}
