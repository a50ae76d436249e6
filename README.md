# Upgrade and cutoff decisions of a media-library manager, in Dafny

This project models the decision engine that a series library manager uses to
decide whether a release it finds should replace a file it already holds, and
whether a held file has reached its profile's "good enough" target (the cutoff).
The model follows `UpgradableSpecification` of the C# code:

- a quality **profile** is an ordered list of allowed qualities (least preferred
  first) plus a cutoff quality; a **language profile** is the same for languages;
- the **rank** of a value is its position in its profile (`Ranking.Rank`, the
  first occurrence), and profile comparisons give the sign of the rank
  difference (`Ranking.Compare`), as `int.CompareTo` does;
- a **quality model** is a quality with its **revision** (version, REAL counter,
  repack flag);
- the five public decisions (`IsUpgradable`, `QualityCutoffNotMet`,
  `LanguageCutoffNotMet`, `CutoffNotMet`, `IsRevisionUpgrade`) and the two
  private helpers (`IsLanguageUpgradable`, `IsQualityUpgradable`) are pure
  functions of their inputs; a C# argument that may be `null` is an
  `Option`.

The comparer of two quality models (`QualityModelComparer.Compare` on
`QualityModel` values) and `Revision.CompareTo` are called by the code but are
not part of this model, so they are parameters (`compare`, `revisionCompare`).
Lemmas that need them to behave say what they assume: `Antisymmetric` (swapping
the arguments flips the sign) or `OrdersByRank` (a quality of strictly lower
rank in the profile compares lower; equal ranks are left open, so whether the
revision breaks the tie is not decided here). Comparing a held quality or
language with a cutoff (lines 75 and 92) goes by rank in the profile.

Modules: `Optional` (the `Option` type), `Ranking` (rank and sign comparison),
`Profiles` (the data and the comparer assumptions), `UpgradableSpecification`
(the decisions and their properties) and `Scenarios` (concrete decisions on a
four-quality profile `[SDTV, WEBDL-480p, WEBDL-720p, Bluray-1080p]` with cutoff
WEBDL-720p and a language profile `[Unknown, English, French]` with cutoff French).

## Modelling choices

- The comparers are called directly at lines 31, 44, 58, 75 and 92 of
  `src/NzbDrone.Core/DecisionEngine/UpgradableSpecification.cs`, with no
  handling of a quality or language missing from its profile. Membership is
  therefore a precondition, and only on the paths that reach a comparison:
  `IsLanguageUpgradable` needs it only when a candidate language is given
  (line 29), `IsUpgradable` only when the quality models compare equal and a
  candidate language is given (lines 58-60), and `CutoffNotMet` needs the
  quality in its profile only when the language cutoff is met (lines 100-105).
- The equality test at line 58 uses the quality-model comparer, not the bare
  rank, so a different revision of the same quality is not stated to count as
  the same quality there.
- `IsUpgradable` and `IsLanguageUpgradable` test the candidate quality and
  language for `null` (lines 29, 42, 58) even where the interface does not mark
  them optional, so both are `Option` here.
- Revisions are ordered only through `revisionCompare` (line 117); the sample
  comparer `Scenarios.CompareByVersion` orders by version alone.

## Model

| member | source | states |
|---|---|---|
| `Ranking.Rank` | src/NzbDrone.Core/DecisionEngine/UpgradableSpecification.cs:75 | the rank of a profile member is the position of its first occurrence: the entry there is the value and no earlier entry is |
| `Ranking.Compare` | src/NzbDrone.Core/DecisionEngine/UpgradableSpecification.cs:92 | profile comparison is -1, 0 or +1; negative exactly when the first value ranks lower, positive exactly when it ranks higher, zero exactly when both are the same value |
| `Ranking.RankOfPosition` | src/NzbDrone.Core/DecisionEngine/UpgradableSpecification.cs:31 | in a profile without duplicates the i-th entry has rank i |
| `Ranking.CompareAntisymmetric` | src/NzbDrone.Core/DecisionEngine/UpgradableSpecification.cs:31 | swapping the two values negates the rank comparison of languages (and of a quality with the cutoff) |
| `Ranking.CompareTransitive` | src/NzbDrone.Core/DecisionEngine/UpgradableSpecification.cs:92 | the rank comparison used for languages and cutoffs is transitive |
| `UpgradableSpecification.IsLanguageUpgradable` | src/NzbDrone.Core/DecisionEngine/UpgradableSpecification.cs:27-38 | true exactly when no candidate language is given or it ranks strictly above the held language; a true verdict never names the held language itself |
| `UpgradableSpecification.IsQualityUpgradable` | src/NzbDrone.Core/DecisionEngine/UpgradableSpecification.cs:40-52 | true when no candidate quality is given; otherwise true exactly when the comparer puts the candidate strictly above the held quality |
| `UpgradableSpecification.IsUpgradable` | src/NzbDrone.Core/DecisionEngine/UpgradableSpecification.cs:55-71 | no candidate quality: an upgrade; an equal quality: an upgrade exactly when no language is given or the language ranks strictly higher; a different quality: an upgrade exactly when it compares higher, whatever the language |
| `UpgradableSpecification.IsRevisionUpgrade` | src/NzbDrone.Core/DecisionEngine/UpgradableSpecification.cs:115-127 | true only for the identical quality, and then exactly when the candidate's revision compares newer |
| `UpgradableSpecification.QualityCutoffNotMet` | src/NzbDrone.Core/DecisionEngine/UpgradableSpecification.cs:73-88 | true exactly when the held quality ranks below the cutoff, or it is the cutoff quality and the candidate is a newer revision of that same quality; false above the cutoff and at the cutoff without a candidate |
| `UpgradableSpecification.LanguageCutoffNotMet` | src/NzbDrone.Core/DecisionEngine/UpgradableSpecification.cs:90-95 | true exactly when the held language ranks strictly below the language cutoff, so never for the cutoff language itself |
| `UpgradableSpecification.CutoffNotMet` | src/NzbDrone.Core/DecisionEngine/UpgradableSpecification.cs:97-113 | true exactly when the language ranks below its cutoff, or the quality ranks below its cutoff, or the quality is the cutoff and the candidate is a newer revision of it |
| `UpgradableSpecification.RevisionUpgradeIsAsymmetric` | src/NzbDrone.Core/DecisionEngine/UpgradableSpecification.cs:115-127 | with an antisymmetric revision comparer nothing is a revision upgrade of itself, and revision upgrades never go both ways |
| `UpgradableSpecification.QualityUpgradableFollowsRank` | src/NzbDrone.Core/DecisionEngine/UpgradableSpecification.cs:40-52 | with a comparer that orders by profile rank, a strictly higher-ranked candidate is a quality upgrade and a strictly lower-ranked one is not |
| `UpgradableSpecification.UpgradeByQualityIgnoresLanguage` | src/NzbDrone.Core/DecisionEngine/UpgradableSpecification.cs:63-70 | with a comparer that orders by rank, a worse quality is never an upgrade and a better one always is, whatever either language |
| `UpgradableSpecification.SameQualityLanguageBreaksTie` | src/NzbDrone.Core/DecisionEngine/UpgradableSpecification.cs:57-61 | offered the same quality model, the candidate is an upgrade exactly when its language ranks strictly higher |
| `UpgradableSpecification.UpgradeIsAsymmetric` | src/NzbDrone.Core/DecisionEngine/UpgradableSpecification.cs:55-71 | with an antisymmetric comparer and when both releases carry a language, if B is an upgrade over A then A is not an upgrade over B, so such releases cannot replace each other back and forth |
| `UpgradableSpecification.EqualQualityWithoutLanguageUpgradesBothWays` | src/NzbDrone.Core/DecisionEngine/UpgradableSpecification.cs:27-38 | with no candidate language, a candidate whose quality model compares equal is an upgrade in both directions |
| `UpgradableSpecification.QualityCutoffNotMetMonotone` | src/NzbDrone.Core/DecisionEngine/UpgradableSpecification.cs:75-79 | if the cutoff is not met for a held quality, it is not met for any lower-ranked quality, whatever the candidate |
| `UpgradableSpecification.LanguageCutoffDominates` | src/NzbDrone.Core/DecisionEngine/UpgradableSpecification.cs:99-103 | a language below its cutoff makes the cutoff not met whatever the quality (in the profile or not) and candidate |
| `UpgradableSpecification.CutoffMetAtCutoffs` | src/NzbDrone.Core/DecisionEngine/UpgradableSpecification.cs:97-113 | a file held at the cutoff quality and the cutoff language meets the cutoff unless the candidate is a newer revision of that quality |
| `Scenarios.BelowCutoffIsNotMet` | src/NzbDrone.Core/DecisionEngine/UpgradableSpecification.cs:75-80 | WEBDL-480p held under a WEBDL-720p cutoff: quality cutoff not met, with or without a candidate |
| `Scenarios.ProperAtCutoffIsNotMet` | src/NzbDrone.Core/DecisionEngine/UpgradableSpecification.cs:82-87 | WEBDL-720p version 1 held at the cutoff: a version 2 of WEBDL-720p makes the cutoff not met; no candidate leaves it met |
| `Scenarios.OtherQualityRevisionIsIgnored` | src/NzbDrone.Core/DecisionEngine/UpgradableSpecification.cs:119-120 | at the cutoff, a newer revision of a different quality does not make the cutoff not met |
| `Scenarios.WorseQualityIsRejected` | src/NzbDrone.Core/DecisionEngine/UpgradableSpecification.cs:40-71 | Bluray-1080p held, WEBDL-720p offered: not a quality upgrade and not an upgrade, whatever the offered language |
| `Scenarios.LanguageBreaksTie` | src/NzbDrone.Core/DecisionEngine/UpgradableSpecification.cs:57-61 | the same WEBDL-720p release in French over English is an upgrade; English over French is not |
| `Scenarios.LanguageBelowCutoffKeepsSearching` | src/NzbDrone.Core/DecisionEngine/UpgradableSpecification.cs:97-113 | quality at its cutoff with English under a French cutoff: cutoff not met; with French it is met |

## Left out

- The bodies of `QualityModelComparer.Compare` on quality models and of `Revision.CompareTo` are not part of this model: both are parameters, and the lemmas state the assumptions (antisymmetry, ordering by rank) they rely on.
- The `Profile` argument of `IsQualityUpgradable` and `IsUpgradable` is used by the code only to build the comparer, so the model takes the comparer in its place.
- The C# `==` between two qualities (line 120) is modelled as equality of the quality values; the overloaded operator is not part of this model.
- A quality or language missing from its profile on a path that compares it: the code has no handling for it, so membership is a precondition there (only there, see Modelling choices) rather than a modelled failure.
- Debug logging (`_logger.Debug`) has no effect on any result and is left out.
- The revision's REAL counter and repack flag are carried in `Revision` but only matter through the revision comparer.
- The history endpoint, the statistics resource, the front-end initialisation module and the web front end's store actions and connectors are outside the decision engine and are not modelled.
