/**
 * The upgrade and cutoff decisions: given the quality and language of a file
 * already held and, optionally, those of a candidate release, is the candidate
 * better, and has the held file reached its profile's cutoff?
 *
 * `compare` parameters stand for `new QualityModelComparer(profile).Compare`
 * on two quality models, and `revisionCompare` for `Revision.CompareTo`; their
 * bodies are not part of this model, so the lemmas that need them to behave
 * say so through `Antisymmetric` and `OrdersByRank`. Comparing a quality or a
 * language with a cutoff goes by rank in the profile (`Ranking.Compare`).
 */
module UpgradableSpecification {

  import opened Optional
  import opened Ranking
  import opened Profiles

  /** A missing candidate language never blocks; otherwise it must rank strictly higher. */
  function IsLanguageUpgradable<L(==)>(profile: LanguageProfile<L>, currentLanguage: L, newLanguage: Option<L>): (r: bool)
    requires newLanguage.Some? ==> currentLanguage in profile.languages && newLanguage.value in profile.languages
    ensures r <==> newLanguage.None?
                   || Rank(profile.languages, newLanguage.value) > Rank(profile.languages, currentLanguage)
    ensures r && newLanguage.Some? ==> newLanguage.value != currentLanguage
  {
    match newLanguage
    case Some(language) => Compare(profile.languages, language, currentLanguage) > 0
    case None => true
  }

  /** A missing candidate quality never blocks; otherwise the comparer must put it strictly above. */
  function IsQualityUpgradable<Q>(compare: QualityModelComparer<Q>, currentQuality: QualityModel<Q>, newQuality: Option<QualityModel<Q>>): (r: bool)
    ensures newQuality.None? ==> r
    ensures newQuality.Some? ==> (r <==> compare(newQuality.value, currentQuality) > 0)
  {
    match newQuality
    case Some(quality) => compare(quality, currentQuality) > 0
    case None => true
  }

  /**
   * Is the candidate an upgrade? Equal qualities defer to the languages; a
   * different quality must compare strictly better.
   */
  function IsUpgradable<Q, L(==)>(languageProfile: LanguageProfile<L>, compare: QualityModelComparer<Q>,
                                   currentQuality: QualityModel<Q>, currentLanguage: L,
                                   newQuality: Option<QualityModel<Q>>, newLanguage: Option<L>): (r: bool)
    requires newQuality.Some? && compare(newQuality.value, currentQuality) == 0 && newLanguage.Some? ==>
               currentLanguage in languageProfile.languages && newLanguage.value in languageProfile.languages
    ensures newQuality.None? ==> r
    ensures newQuality.Some? && compare(newQuality.value, currentQuality) == 0 ==>
              (r <==> newLanguage.None?
                      || Rank(languageProfile.languages, newLanguage.value) > Rank(languageProfile.languages, currentLanguage))
    ensures newQuality.Some? && compare(newQuality.value, currentQuality) != 0 ==>
              (r <==> compare(newQuality.value, currentQuality) > 0)
  {
    if newQuality.Some? && compare(newQuality.value, currentQuality) == 0 then
      IsLanguageUpgradable(languageProfile, currentLanguage, newLanguage)
    else if !IsQualityUpgradable(compare, currentQuality, newQuality) then
      false
    else
      true
  }

  /** A newer revision of the identical quality; a different quality never qualifies. */
  function IsRevisionUpgrade<Q(==)>(revisionCompare: RevisionComparer, currentQuality: QualityModel<Q>, newQuality: QualityModel<Q>): (r: bool)
    ensures r ==> currentQuality.quality == newQuality.quality
    ensures currentQuality.quality == newQuality.quality ==>
              (r <==> revisionCompare(newQuality.revision, currentQuality.revision) > 0)
  {
    var compare := revisionCompare(newQuality.revision, currentQuality.revision);
    currentQuality.quality == newQuality.quality && compare > 0
  }

  /**
   * The held quality is below the cutoff, or sits exactly at the cutoff and
   * the candidate is a newer revision of it.
   */
  function QualityCutoffNotMet<Q(==)>(profile: Profile<Q>, revisionCompare: RevisionComparer,
                                      currentQuality: QualityModel<Q>, newQuality: Option<QualityModel<Q>>): (r: bool)
    requires currentQuality.quality in profile.items && profile.cutoff in profile.items
    ensures r <==> Rank(profile.items, currentQuality.quality) < Rank(profile.items, profile.cutoff)
                   || (currentQuality.quality == profile.cutoff && newQuality.Some?
                       && newQuality.value.quality == profile.cutoff
                       && revisionCompare(newQuality.value.revision, currentQuality.revision) > 0)
  {
    var qualityCompare := Compare(profile.items, currentQuality.quality, profile.cutoff);
    if qualityCompare < 0 then
      true
    else if qualityCompare == 0 && newQuality.Some? && IsRevisionUpgrade(revisionCompare, currentQuality, newQuality.value) then
      true
    else
      false
  }

  /** The held language ranks strictly below the language cutoff. */
  function LanguageCutoffNotMet<L(==)>(languageProfile: LanguageProfile<L>, currentLanguage: L): (r: bool)
    requires currentLanguage in languageProfile.languages && languageProfile.cutoff in languageProfile.languages
    ensures r <==> Rank(languageProfile.languages, currentLanguage) < Rank(languageProfile.languages, languageProfile.cutoff)
    ensures currentLanguage == languageProfile.cutoff ==> !r
  {
    var languageCompare := Compare(languageProfile.languages, currentLanguage, languageProfile.cutoff);
    languageCompare < 0
  }

  /**
   * Still worth searching: the language is below its cutoff (whatever the
   * quality), or else the quality cutoff is not met.
   */
  function CutoffNotMet<Q(==), L(==)>(profile: Profile<Q>, languageProfile: LanguageProfile<L>, revisionCompare: RevisionComparer,
                                      currentQuality: QualityModel<Q>, currentLanguage: L,
                                      newQuality: Option<QualityModel<Q>>): (r: bool)
    requires currentLanguage in languageProfile.languages && languageProfile.cutoff in languageProfile.languages
    requires !LanguageCutoffNotMet(languageProfile, currentLanguage) ==>
               currentQuality.quality in profile.items && profile.cutoff in profile.items
    ensures r <==> Rank(languageProfile.languages, currentLanguage) < Rank(languageProfile.languages, languageProfile.cutoff)
                   || (Rank(profile.items, currentQuality.quality) < Rank(profile.items, profile.cutoff)
                       || (currentQuality.quality == profile.cutoff && newQuality.Some?
                           && IsRevisionUpgrade(revisionCompare, currentQuality, newQuality.value)))
  {
    if LanguageCutoffNotMet(languageProfile, currentLanguage) then
      true
    else if QualityCutoffNotMet(profile, revisionCompare, currentQuality, newQuality) then
      true
    else
      false
  }

  // ---------------------------------------------------------------------
  // Properties relating the decisions to each other and to the profiles.
  // ---------------------------------------------------------------------

  /** A quality model is never a revision upgrade of itself, and revision upgrades never go both ways. */
  lemma RevisionUpgradeIsAsymmetric<Q>(revisionCompare: RevisionComparer, a: QualityModel<Q>, b: QualityModel<Q>)
    requires Antisymmetric(revisionCompare)
    ensures !IsRevisionUpgrade(revisionCompare, a, a)
    ensures IsRevisionUpgrade(revisionCompare, a, b) ==> !IsRevisionUpgrade(revisionCompare, b, a)
  {
  }

  /** A candidate of strictly higher rank is an upgrade, one of strictly lower rank is not. */
  lemma QualityUpgradableFollowsRank<Q(!new)>(profile: Profile<Q>, compare: QualityModelComparer<Q>,
                                        currentQuality: QualityModel<Q>, newQuality: QualityModel<Q>)
    requires OrdersByRank(compare, profile)
    requires currentQuality.quality in profile.items && newQuality.quality in profile.items
    ensures Rank(profile.items, newQuality.quality) > Rank(profile.items, currentQuality.quality) ==>
              IsQualityUpgradable(compare, currentQuality, Some(newQuality))
    ensures Rank(profile.items, newQuality.quality) < Rank(profile.items, currentQuality.quality) ==>
              !IsQualityUpgradable(compare, currentQuality, Some(newQuality))
  {
  }

  /** A worse quality is never an upgrade, whatever the languages; a better one always is. */
  lemma UpgradeByQualityIgnoresLanguage<Q(!new), L>(profile: Profile<Q>, languageProfile: LanguageProfile<L>, compare: QualityModelComparer<Q>,
                                              currentQuality: QualityModel<Q>, currentLanguage: L,
                                              newQuality: QualityModel<Q>, newLanguage: Option<L>)
    requires OrdersByRank(compare, profile)
    requires currentQuality.quality in profile.items && newQuality.quality in profile.items
    requires currentLanguage in languageProfile.languages
    requires newLanguage.Some? ==> newLanguage.value in languageProfile.languages
    ensures Rank(profile.items, newQuality.quality) < Rank(profile.items, currentQuality.quality) ==>
              !IsUpgradable(languageProfile, compare, currentQuality, currentLanguage, Some(newQuality), newLanguage)
    ensures Rank(profile.items, newQuality.quality) > Rank(profile.items, currentQuality.quality) ==>
              IsUpgradable(languageProfile, compare, currentQuality, currentLanguage, Some(newQuality), newLanguage)
  {
  }

  /** The same quality model with a strictly preferred language is an upgrade, and only then. */
  lemma SameQualityLanguageBreaksTie<Q(!new), L>(languageProfile: LanguageProfile<L>, compare: QualityModelComparer<Q>,
                                           quality: QualityModel<Q>, currentLanguage: L, newLanguage: L)
    requires Antisymmetric(compare)
    requires currentLanguage in languageProfile.languages && newLanguage in languageProfile.languages
    ensures IsUpgradable(languageProfile, compare, quality, currentLanguage, Some(quality), Some(newLanguage)) <==>
              Rank(languageProfile.languages, newLanguage) > Rank(languageProfile.languages, currentLanguage)
  {
  }

  /**
   * Upgrades never go both ways: if the candidate is an upgrade of the held
   * file, the held file is not an upgrade of the candidate. This is what keeps
   * the pipeline from swapping two releases back and forth.
   */
  lemma UpgradeIsAsymmetric<Q(!new), L>(languageProfile: LanguageProfile<L>, compare: QualityModelComparer<Q>,
                                  quality1: QualityModel<Q>, language1: L, quality2: QualityModel<Q>, language2: L)
    requires Antisymmetric(compare)
    requires language1 in languageProfile.languages && language2 in languageProfile.languages
    ensures IsUpgradable(languageProfile, compare, quality1, language1, Some(quality2), Some(language2)) ==>
              !IsUpgradable(languageProfile, compare, quality2, language2, Some(quality1), Some(language1))
  {
  }

  /** Lowering the held quality never turns "quality cutoff not met" into "met". */
  lemma QualityCutoffNotMetMonotone<Q>(profile: Profile<Q>, revisionCompare: RevisionComparer,
                                       currentQuality: QualityModel<Q>, newQuality: Option<QualityModel<Q>>,
                                       worseQuality: QualityModel<Q>, otherNewQuality: Option<QualityModel<Q>>)
    requires currentQuality.quality in profile.items && worseQuality.quality in profile.items && profile.cutoff in profile.items
    requires Rank(profile.items, worseQuality.quality) < Rank(profile.items, currentQuality.quality)
    requires QualityCutoffNotMet(profile, revisionCompare, currentQuality, newQuality)
    ensures QualityCutoffNotMet(profile, revisionCompare, worseQuality, otherNewQuality)
  {
  }

  /**
   * Without a candidate language, a candidate whose quality model compares
   * equal is an upgrade in both directions: the language tie-break has
   * nothing to block on.
   */
  lemma EqualQualityWithoutLanguageUpgradesBothWays<Q(!new), L>(languageProfile: LanguageProfile<L>, compare: QualityModelComparer<Q>,
                                                                quality1: QualityModel<Q>, language1: L, quality2: QualityModel<Q>, language2: L)
    requires Antisymmetric(compare)
    requires compare(quality2, quality1) == 0
    ensures IsUpgradable(languageProfile, compare, quality1, language1, Some(quality2), None)
    ensures IsUpgradable(languageProfile, compare, quality2, language2, Some(quality1), None)
  {
  }

  /** A language below its cutoff keeps the search going whatever the quality, even one outside the profile. */
  lemma LanguageCutoffDominates<Q, L>(profile: Profile<Q>, languageProfile: LanguageProfile<L>, revisionCompare: RevisionComparer,
                                      currentQuality: QualityModel<Q>, currentLanguage: L, newQuality: Option<QualityModel<Q>>)
    requires currentLanguage in languageProfile.languages && languageProfile.cutoff in languageProfile.languages
    requires LanguageCutoffNotMet(languageProfile, currentLanguage)
    ensures CutoffNotMet(profile, languageProfile, revisionCompare, currentQuality, currentLanguage, newQuality)
  {
  }

  /**
   * A file held at both cutoffs is done: with no candidate, or with a
   * candidate that is not a newer revision of it, the cutoff is met.
   */
  lemma CutoffMetAtCutoffs<Q, L>(profile: Profile<Q>, languageProfile: LanguageProfile<L>, revisionCompare: RevisionComparer,
                                 currentQuality: QualityModel<Q>, newQuality: Option<QualityModel<Q>>)
    requires profile.cutoff in profile.items && languageProfile.cutoff in languageProfile.languages
    requires currentQuality.quality == profile.cutoff
    requires newQuality.Some? ==> !IsRevisionUpgrade(revisionCompare, currentQuality, newQuality.value)
    ensures !CutoffNotMet(profile, languageProfile, revisionCompare, currentQuality, languageProfile.cutoff, newQuality)
  {
  }

}
