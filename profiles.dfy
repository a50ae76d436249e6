/**
 * The data the decision engine reads: quality and language profiles, quality
 * models (a quality with its revision) and the comparers it is handed.
 */
module Profiles {

  import opened Ranking

  /** Allowed qualities from least to most preferred, and the cutoff quality. */
  datatype Profile<Q> = Profile(items: seq<Q>, cutoff: Q)

  /** Allowed languages from least to most preferred, and the cutoff language. */
  datatype LanguageProfile<L> = LanguageProfile(languages: seq<L>, cutoff: L)

  /** Release revision: version (a proper or repack bumps it), the REAL counter, the repack flag. */
  datatype Revision = Revision(version: int, realCount: int, isRepack: bool)

  /** One concrete occurrence of a quality, as attached to a file or a release. */
  datatype QualityModel<Q> = QualityModel(quality: Q, revision: Revision)

  /** Stands for `new QualityModelComparer(profile).Compare` on two quality models. */
  type QualityModelComparer<!Q> = (QualityModel<Q>, QualityModel<Q>) -> int

  /** Stands for `Revision.CompareTo`. */
  type RevisionComparer = (Revision, Revision) -> int

  /** A comparer whose verdict flips sign when its arguments are swapped. */
  ghost predicate Antisymmetric<T(!new)>(compare: (T, T) -> int) {
    forall a, b :: compare(a, b) > 0 <==> compare(b, a) < 0
  }

  /**
   * The comparer puts a quality model of strictly lower rank in the profile
   * below one of strictly higher rank. What it does when the ranks are equal
   * (revisions, say) is left open.
   */
  ghost predicate OrdersByRank<Q(!new)>(compare: QualityModelComparer<Q>, profile: Profile<Q>) {
    forall a: QualityModel<Q>, b: QualityModel<Q> | a.quality in profile.items && b.quality in profile.items
      && Rank(profile.items, a.quality) < Rank(profile.items, b.quality)
      :: compare(a, b) < 0 && compare(b, a) > 0
  }

}
