/** GET /api/counselors/recommended (app/api/counselors/recommended/route.ts):
    each counselor scored against the caller's client profile out of 100
    (languages 30, gender 20, counseling type 30, experience 20), the three
    best returned; without a profile, the three most experienced. */
module Recommend {
  import opened Wrappers
  import opened Collections
  import opened Sorting
  import opened Store

  /** A 30-point share: `30 * (matches / total)` when something matches,
      else nothing. */
  function Share(matches: nat, total: nat): (r: real)
    requires matches <= total
    ensures 0.0 <= r <= 30.0
    ensures r == 0.0 <==> matches == 0
    ensures r == 30.0 <==> matches > 0 && matches == total
  {
    if matches > 0 then
      var q := matches as real / total as real;
      RatioBounds(matches, total);
      30.0 * q
    else 0.0
  }

  /** A share of matched items is at most 1, and exactly 1 when all match. */
  lemma RatioBounds(matches: nat, total: nat)
    requires 0 < matches <= total
    ensures 0.0 < matches as real / total as real <= 1.0
    ensures matches as real / total as real == 1.0 <==> matches == total
  {
    var q := matches as real / total as real;
    assert q * total as real == matches as real;
    if matches != total {
      assert q * total as real < total as real;
    }
  }

  /** `languages.filter(l => preferredLanguages.includes(l)).length`. */
  function LanguageMatches(c: Counselor, p: ClientProfile): (n: nat)
    ensures n <= |c.languages|
  {
    Count(c.languages, l => l in p.preferredLanguages)
  }

  function SpecialtyMatches(c: Counselor, p: ClientProfile): (n: nat)
    ensures n <= |c.specializations|
  {
    Count(c.specializations, s => s in p.counselingType)
  }

  function LanguagePoints(c: Counselor, p: ClientProfile): real {
    Share(LanguageMatches(c, p), |c.languages|)
  }

  function SpecialtyPoints(c: Counselor, p: ClientProfile): real {
    Share(SpecialtyMatches(c, p), |c.specializations|)
  }

  /** The gender test passes for "No Preference", for no preference at all
      (absent or empty), or for an exact match. */
  predicate GenderMatches(c: Counselor, p: ClientProfile) {
    p.preferredGender == Some("No Preference") || p.preferredGender.None? || p.preferredGender == Some("")
    || c.gender == p.preferredGender
  }

  function GenderPoints(c: Counselor, p: ClientProfile): real {
    if GenderMatches(c, p) then 20.0 else 0.0
  }

  /** 20 at five years or more, otherwise `(years / 5) * 20`. */
  function ExperiencePoints(years: int): (r: real)
    ensures years >= 5 ==> r == 20.0
    ensures 0 <= years ==> 0.0 <= r <= 20.0
    ensures years < 5 ==> r == 4.0 * years as real
  {
    if years >= 5 then 20.0 else years as real / 5.0 * 20.0
  }

  /** More experience never scores less. */
  lemma ExperienceMonotone(y1: int, y2: int)
    requires y1 <= y2
    ensures ExperiencePoints(y1) <= ExperiencePoints(y2)
  {
  }

  /** The unrounded score. */
  function TotalScore(c: Counselor, p: ClientProfile): (r: real)
    ensures c.yearsOfExperience >= 0 ==> 0.0 <= r <= 100.0
  {
    LanguagePoints(c, p) + GenderPoints(c, p) + SpecialtyPoints(c, p) + ExperiencePoints(c.yearsOfExperience)
  }

  /** The scoring closure as written: `score` and `matchPoints` built up
      one criterion at a time. `matchPoints` counts the criteria that
      matched (the response does not use it). */
  method ScoreCounselor(c: Counselor, p: ClientProfile) returns (score: real, matchPoints: nat)
    ensures score == TotalScore(c, p)
    ensures matchPoints == (if LanguageMatches(c, p) > 0 then 1 else 0) + (if GenderMatches(c, p) then 1 else 0)
      + (if SpecialtyMatches(c, p) > 0 then 1 else 0)
    ensures matchPoints <= 3
  {
    score := 0.0;
    matchPoints := 0;
    var languageMatches := LanguageMatches(c, p);
    if languageMatches > 0 {
      score := score + 30.0 * (languageMatches as real / |c.languages| as real);
      matchPoints := matchPoints + 1;
    }
    if GenderMatches(c, p) {
      score := score + 20.0;
      matchPoints := matchPoints + 1;
    }
    var specialtyMatches := SpecialtyMatches(c, p);
    if specialtyMatches > 0 {
      score := score + 30.0 * (specialtyMatches as real / |c.specializations| as real);
      matchPoints := matchPoints + 1;
    }
    if c.yearsOfExperience >= 5 {
      score := score + 20.0;
    } else {
      score := score + (c.yearsOfExperience as real / 5.0) * 20.0;
    }
  }

  /** `Math.round`: the nearest integer, halves rounded up. */
  function Round(x: real): (r: int)
    ensures r as real <= x + 0.5 < r as real + 1.0
  {
    (x + 0.5).Floor
  }

  /** Rounding keeps a value in [0, 100] within [0, 100], and leaves whole
      numbers alone. */
  lemma RoundBounds(x: real, n: int)
    ensures 0.0 <= x <= 100.0 ==> 0 <= Round(x) <= 100
    ensures Round(n as real) == n
  {
  }

  function MatchScore(c: Counselor, p: ClientProfile): (r: int)
    ensures c.yearsOfExperience >= 0 ==> 0 <= r <= 100
  {
    RoundBounds(TotalScore(c, p), 0);
    Round(TotalScore(c, p))
  }

  /** A counselor speaking only preferred languages, of the preferred
      gender, practicing only wanted types, with five years or more,
      scores 100. */
  lemma PerfectMatch(c: Counselor, p: ClientProfile)
    requires c.languages != [] && forall i :: 0 <= i < |c.languages| ==> c.languages[i] in p.preferredLanguages
    requires c.specializations != [] && forall i :: 0 <= i < |c.specializations| ==> c.specializations[i] in p.counselingType
    requires GenderMatches(c, p) && c.yearsOfExperience >= 5
    ensures MatchScore(c, p) == 100
  {
    CountEveryone(c.languages, l => l in p.preferredLanguages);
    CountEveryone(c.specializations, s => s in p.counselingType);
    RoundBounds(100.0, 100);
  }

  /** A counselor as returned, with `matchScore` added. */
  datatype Scored = Scored(counselor: Counselor, matchScore: int)

  function ScoreAll(cs: seq<Counselor>, p: ClientProfile): (r: seq<Scored>)
    ensures |r| == |cs| && forall i :: 0 <= i < |cs| ==> r[i] == Scored(cs[i], MatchScore(cs[i], p))
  {
    seq(|cs|, i requires 0 <= i < |cs| => Scored(cs[i], MatchScore(cs[i], p)))
  }

  /** `sort((a, b) => b.matchScore - a.matchScore)`, a stable sort. */
  function ByScore(s: Scored): Key {
    Key(0, -s.matchScore, "")
  }

  /** `.sort({ "professionalInfo.yearsOfExperience": -1 })`. */
  function ByExperience(c: Counselor): Key {
    Key(0, -c.yearsOfExperience, "")
  }

  /** The first three after sorting: none left out scores higher than one
      kept. */
  function TopThree(all: seq<Scored>): (r: seq<Scored>)
    ensures |r| == if |all| < 3 then |all| else 3
    ensures forall i, j :: 0 <= i < j < |r| ==> r[i].matchScore >= r[j].matchScore
    ensures forall i :: 0 <= i < |r| ==> r[i] in all
    ensures forall i :: 0 <= i < |all| && all[i] !in r ==> forall j :: 0 <= j < |r| ==> all[i].matchScore <= r[j].matchScore
  {
    var r := Take(SortBy(all, ByScore), 3);
    SortedPrefix(all, ByScore, 3);
    forall i, j | 0 <= i < j < |r| ensures r[i].matchScore >= r[j].matchScore {
      assert KeyLe(ByScore(r[i]), ByScore(r[j]));
    }
    forall i | 0 <= i < |all| && all[i] !in r ensures forall j :: 0 <= j < |r| ==> all[i].matchScore <= r[j].matchScore {
      forall j | 0 <= j < |r| ensures all[i].matchScore <= r[j].matchScore {
        assert KeyLe(ByScore(r[j]), ByScore(all[i]));
      }
    }
    r
  }

  /** `.sort({ yearsOfExperience: -1 }).limit(3)`: nobody left out has
      more experience than someone kept. */
  function ThreeMostExperienced(cs: seq<Counselor>): (r: seq<Counselor>)
    ensures |r| == if |cs| < 3 then |cs| else 3
    ensures forall i :: 0 <= i < |r| ==> r[i] in cs
    ensures forall i, j :: 0 <= i < j < |r| ==> r[i].yearsOfExperience >= r[j].yearsOfExperience
    ensures forall k :: 0 <= k < |cs| && cs[k] !in r ==> forall j :: 0 <= j < |r| ==> cs[k].yearsOfExperience <= r[j].yearsOfExperience
  {
    var top := Take(SortBy(cs, ByExperience), 3);
    SortedPrefix(cs, ByExperience, 3);
    forall i, j | 0 <= i < j < |top| ensures top[i].yearsOfExperience >= top[j].yearsOfExperience {
      assert KeyLe(ByExperience(top[i]), ByExperience(top[j]));
    }
    forall k | 0 <= k < |cs| && cs[k] !in top ensures forall j :: 0 <= j < |top| ==> cs[k].yearsOfExperience <= top[j].yearsOfExperience {
      forall j | 0 <= j < |top| ensures cs[k].yearsOfExperience <= top[j].yearsOfExperience {
        assert KeyLe(ByExperience(top[j]), ByExperience(cs[k]));
      }
    }
    top
  }

  /** The fallback: the three most experienced, each scored 100. */
  function MostExperienced(cs: seq<Counselor>): (r: seq<Scored>)
    ensures |r| == |ThreeMostExperienced(cs)|
    ensures forall i :: 0 <= i < |r| ==> r[i] == Scored(ThreeMostExperienced(cs)[i], 100)
  {
    FullMarks(ThreeMostExperienced(cs))
  }

  function FullMarks(cs: seq<Counselor>): (r: seq<Scored>)
    ensures |r| == |cs| && forall i :: 0 <= i < |cs| ==> r[i] == Scored(cs[i], 100)
  {
    seq(|cs|, i requires 0 <= i < |cs| => Scored(cs[i], 100))
  }

  /** The GET: 401 without `token.userId`; without a client profile, the
      fallback; otherwise every counselor scored and the best three. */
  function Recommended(counselors: seq<Counselor>, profiles: seq<ClientProfile>, tokenUserId: Option<Id>): (r: Response<seq<Scored>>)
    ensures tokenUserId.None? <==> r.Err?
    ensures r.Err? ==> r.status == Unauthorized
    ensures r.Ok? ==> |r.body| == if |counselors| < 3 then |counselors| else 3
    ensures r.Ok? && FindProfile(profiles, tokenUserId.value).None? ==> r.body == MostExperienced(counselors)
    ensures r.Ok? && FindProfile(profiles, tokenUserId.value).Some? ==>
      r.body == TopThree(ScoreAll(counselors, FindProfile(profiles, tokenUserId.value).value))
  {
    if tokenUserId.None? then Err(Unauthorized)
    else
      match FindProfile(profiles, tokenUserId.value)
      case None => Ok(MostExperienced(counselors))
      case Some(p) => Ok(TopThree(ScoreAll(counselors, p)))
  }

  /** With a profile, every returned score is the counselor's own match
      score, and a counselor left out scores no higher than any returned. */
  lemma RecommendedAreBest(counselors: seq<Counselor>, p: ClientProfile, c: Counselor, j: nat)
    requires c in counselors
    requires j < |TopThree(ScoreAll(counselors, p))|
    ensures var top := TopThree(ScoreAll(counselors, p));
      top[j].matchScore == MatchScore(top[j].counselor, p)
      && (Scored(c, MatchScore(c, p)) !in top ==> MatchScore(c, p) <= top[j].matchScore)
  {
    var all := ScoreAll(counselors, p);
    var top := TopThree(all);
    assert top[j] in all;
    var k :| 0 <= k < |counselors| && counselors[k] == c;
    assert all[k] == Scored(c, MatchScore(c, p));
  }
}
