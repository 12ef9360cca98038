/** The counselor list's client-side filter
    (app/counselors/components/counselor-list.tsx, `filteredCounselors`)
    over the filter state the search panel edits
    (app/counselors/components/counselor-search.tsx, `CounselorFilters`). */
module CounselorFilter {
  import opened Wrappers
  import opened Text
  import opened Collections
  import opened Store

  /** `CounselorFilters`. The panel writes the specialization and language
      values already lower-cased; the empty string is "any". */
  datatype Filters = Filters(search: string, specialization: string, language: string, maxPrice: real, minExperience: int)

  /** The panel's initial and reset state. */
  const DefaultFilters := Filters("", "", "", 200.0, 0)

  /** The lower-cased term is a substring of the lower-cased name, of some
      specialization or of some language. */
  predicate MatchesSearch(c: Counselor, term: string) {
    Includes(LowerStr(c.fullName), term)
    || (exists s :: s in c.specializations && Includes(LowerStr(s), term))
    || (exists l :: l in c.languages && Includes(LowerStr(l), term))
  }

  /** Some entry, lower-cased, equals the wanted value. */
  predicate HasEntry(entries: seq<string>, wanted: string) {
    exists e :: e in entries && LowerStr(e) == wanted
  }

  /** `hourlyRate > maxPrice` rejects; an absent rate compares false and
      is kept. */
  predicate WithinPrice(c: Counselor, maxPrice: real) {
    !(c.workPreferences.hourlyRate.Some? && c.workPreferences.hourlyRate.value > maxPrice)
  }

  /** The filter callback: every test that is switched on passes. */
  predicate Keeps(f: Filters, c: Counselor) {
    (f.search != "" ==> MatchesSearch(c, LowerStr(f.search)))
    && (f.specialization != "" ==> HasEntry(c.specializations, f.specialization))
    && (f.language != "" ==> HasEntry(c.languages, f.language))
    && WithinPrice(c, f.maxPrice)
    && c.yearsOfExperience >= f.minExperience
  }

  /** `filters ? counselors.filter(…) : counselors`. */
  function FilteredCounselors(counselors: seq<Counselor>, filters: Option<Filters>): (r: seq<Counselor>)
    ensures IsSubsequence(r, counselors)
    ensures filters.None? ==> r == counselors
    ensures filters.Some? ==> forall i :: 0 <= i < |r| ==> Keeps(filters.value, r[i])
    ensures filters.Some? ==> forall i :: 0 <= i < |counselors| && Keeps(filters.value, counselors[i]) ==> counselors[i] in r
  {
    if filters.None? then
      SubsequenceRefl(counselors);
      counselors
    else
      FilterIsSubsequence(counselors, c => Keeps(filters.value, c));
      Filter(counselors, c => Keeps(filters.value, c))
  }

  lemma {:induction false} SubsequenceRefl(s: seq<Counselor>)
    ensures IsSubsequence(s, s)
  {
    if s != [] {
      SubsequenceRefl(s[1..]);
    }
  }

  /** Filtering the filtered list again changes nothing. */
  lemma FilterTwice(counselors: seq<Counselor>, filters: Option<Filters>)
    ensures FilteredCounselors(FilteredCounselors(counselors, filters), filters) == FilteredCounselors(counselors, filters)
  {
    if filters.Some? {
      FilterIdempotent(counselors, c => Keeps(filters.value, c));
    }
  }

  /** With only a search term set, a counselor is kept exactly when the
      lower-cased term occurs in the lower-cased name, a specialization or
      a language. */
  lemma SearchOnly(c: Counselor, term: string)
    requires term != [] && WithinPrice(c, 200.0) && c.yearsOfExperience >= 0
    ensures Keeps(DefaultFilters.(search := term), c) <==>
      Occurs(LowerStr(c.fullName), LowerStr(term))
      || (exists s :: s in c.specializations && Occurs(LowerStr(s), LowerStr(term)))
      || (exists l :: l in c.languages && Occurs(LowerStr(l), LowerStr(term)))
  {
    IncludesAt(LowerStr(c.fullName), LowerStr(term));
    forall s | s in c.specializations ensures Includes(LowerStr(s), LowerStr(term)) <==> Occurs(LowerStr(s), LowerStr(term)) {
      IncludesAt(LowerStr(s), LowerStr(term));
    }
    forall l | l in c.languages ensures Includes(LowerStr(l), LowerStr(term)) <==> Occurs(LowerStr(l), LowerStr(term)) {
      IncludesAt(LowerStr(l), LowerStr(term));
    }
  }

  /** The search ignores case: a term and its lower-cased form keep the
      same counselors. */
  lemma SearchIgnoresCase(f: Filters, c: Counselor)
    ensures Keeps(f.(search := LowerStr(f.search)), c) <==> Keeps(f, c)
  {
    LowerStrIdempotent(f.search);
    assert (LowerStr(f.search) == "") == (f.search == "");
  }

  /** Every kept counselor's rate, when it has one, is at most the maximum,
      and their experience at least the minimum. */
  lemma KeptWithinBounds(counselors: seq<Counselor>, f: Filters, i: nat)
    requires i < |FilteredCounselors(counselors, Some(f))|
    ensures var c := FilteredCounselors(counselors, Some(f))[i];
      (c.workPreferences.hourlyRate.Some? ==> c.workPreferences.hourlyRate.value <= f.maxPrice)
      && c.yearsOfExperience >= f.minExperience
  {
  }

  /** A counselor without a rate passes every price limit. */
  lemma MissingRateAlwaysKept(counselors: seq<Counselor>, f: Filters, c: Counselor)
    requires c in counselors && c.workPreferences.hourlyRate.None?
    requires f.search == "" && f.specialization == "" && f.language == "" && c.yearsOfExperience >= f.minExperience
    ensures c in FilteredCounselors(counselors, Some(f))
  {
    var k :| 0 <= k < |counselors| && counselors[k] == c;
    assert Keeps(f, counselors[k]);
  }

  /** Raising the price limit or lowering the experience minimum keeps a
      superset, in the same order. */
  lemma LooserLimitsKeepMore(counselors: seq<Counselor>, f: Filters, maxPrice: real, minExperience: int)
    requires f.maxPrice <= maxPrice && minExperience <= f.minExperience
    ensures IsSubsequence(FilteredCounselors(counselors, Some(f)),
                          FilteredCounselors(counselors, Some(f.(maxPrice := maxPrice, minExperience := minExperience))))
  {
    var g := f.(maxPrice := maxPrice, minExperience := minExperience);
    FilterMonotone(counselors, c => Keeps(f, c), c => Keeps(g, c));
  }
}
