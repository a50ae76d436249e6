/**
 * Concrete decisions on a small quality profile
 * [SDTV, WEBDL-480p, WEBDL-720p, Bluray-1080p] with cutoff WEBDL-720p, and a
 * language profile [Unknown, English, French] with cutoff French.
 */
module Scenarios {

  import opened Optional
  import opened Ranking
  import opened Profiles
  import opened UpgradableSpecification

  datatype SampleQuality = Sdtv | Webdl480p | Webdl720p | Bluray1080p

  datatype SampleLanguage = Unknown | English | French

  const SampleProfile: Profile<SampleQuality> := Profile([Sdtv, Webdl480p, Webdl720p, Bluray1080p], Webdl720p)

  const SampleLanguageProfile: LanguageProfile<SampleLanguage> := LanguageProfile([Unknown, English, French], French)

  /** A revision comparer that orders by version alone. */
  function CompareByVersion(a: Revision, b: Revision): (c: int)
    ensures c > 0 <==> a.version > b.version
  {
    Sign(a.version - b.version)
  }

  function Release(quality: SampleQuality, version: int): QualityModel<SampleQuality> {
    QualityModel(quality, Revision(version, 0, false))
  }

  /** WEBDL-480p sits below the WEBDL-720p cutoff, with or without a candidate. */
  lemma BelowCutoffIsNotMet(revisionCompare: RevisionComparer, newQuality: Option<QualityModel<SampleQuality>>)
    ensures QualityCutoffNotMet(SampleProfile, revisionCompare, Release(Webdl480p, 1), newQuality)
  {
  }

  /** A proper (version 2) of the cutoff quality reopens a file held at the cutoff. */
  lemma ProperAtCutoffIsNotMet()
    ensures QualityCutoffNotMet(SampleProfile, CompareByVersion, Release(Webdl720p, 1), Some(Release(Webdl720p, 2)))
    ensures !QualityCutoffNotMet(SampleProfile, CompareByVersion, Release(Webdl720p, 1), None)
  {
  }

  /** A repack of a different quality at the cutoff does not reopen it. */
  lemma OtherQualityRevisionIsIgnored()
    ensures !QualityCutoffNotMet(SampleProfile, CompareByVersion, Release(Webdl720p, 1), Some(Release(Webdl480p, 2)))
  {
  }

  /** Bluray-1080p held, WEBDL-720p offered: neither a quality upgrade nor an upgrade, whatever the language. */
  lemma WorseQualityIsRejected(compare: QualityModelComparer<SampleQuality>, newLanguage: Option<SampleLanguage>)
    requires OrdersByRank(compare, SampleProfile)
    requires newLanguage.Some? ==> newLanguage.value in SampleLanguageProfile.languages
    ensures !IsQualityUpgradable(compare, Release(Bluray1080p, 1), Some(Release(Webdl720p, 1)))
    ensures !IsUpgradable(SampleLanguageProfile, compare, Release(Bluray1080p, 1), English,
                          Some(Release(Webdl720p, 1)), newLanguage)
  {
  }

  /** Same WEBDL-720p release, French offered over English: the language breaks the tie. */
  lemma LanguageBreaksTie(compare: QualityModelComparer<SampleQuality>)
    requires Antisymmetric(compare)
    ensures IsUpgradable(SampleLanguageProfile, compare, Release(Webdl720p, 1), English,
                         Some(Release(Webdl720p, 1)), Some(French))
    ensures !IsUpgradable(SampleLanguageProfile, compare, Release(Webdl720p, 1), French,
                          Some(Release(Webdl720p, 1)), Some(English))
  {
  }

  /** Quality at its cutoff but English below the French cutoff: the search goes on. */
  lemma LanguageBelowCutoffKeepsSearching(revisionCompare: RevisionComparer)
    ensures CutoffNotMet(SampleProfile, SampleLanguageProfile, revisionCompare, Release(Webdl720p, 1), English, None)
    ensures !CutoffNotMet(SampleProfile, SampleLanguageProfile, revisionCompare, Release(Webdl720p, 1), French, None)
  {
  }

}
