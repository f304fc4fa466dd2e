/**
 * The public doctors directory: a case-insensitive search over name, licence number and e-mail,
 * then exact specialization and department filters, each step applied only when its criterion
 * is set.
 */
module DoctorsDirectory {
  import opened Seqs
  import opened Text

  /** The fields of a doctor the directory reads; the page reads them without optional chaining. */
  datatype Doctor = Doctor(
    name: string,
    licenseNumber: string,
    email: string,
    specialization: string,
    department: string)

  /** The search box and the two drop-downs; the empty string means "not set". */
  datatype Criteria = Criteria(searchTerm: string, specialization: string, department: string)

  predicate MatchesSearch(term: string, d: Doctor)
  {
    Contains(Lower(d.name), Lower(term))
    || Contains(Lower(d.licenseNumber), Lower(term))
    || Contains(Lower(d.email), Lower(term))
  }

  /** What a doctor must satisfy to be listed: every criterion that is set. */
  predicate Selected(c: Criteria, d: Doctor)
  {
    && (c.searchTerm != "" ==> MatchesSearch(c.searchTerm, d))
    && (c.specialization != "" ==> d.specialization == c.specialization)
    && (c.department != "" ==> d.department == c.department)
  }

  function SearchStep(doctors: seq<Doctor>, term: string): (r: seq<Doctor>)
    ensures IsSubsequence(r, doctors)
    ensures forall d :: d in r <==> d in doctors && (term != "" ==> MatchesSearch(term, d))
  {
    if term == "" then
      PrefixIsSubsequence(doctors, |doctors|);
      assert doctors[..|doctors|] == doctors;
      doctors
    else
      var keep := (d: Doctor) => MatchesSearch(term, d);
      forall d ensures d in Filter(doctors, keep) <==> d in doctors && keep(d) {
        FilterMembership(doctors, keep, d);
      }
      Filter(doctors, keep)
  }

  function SpecializationStep(doctors: seq<Doctor>, specialization: string): (r: seq<Doctor>)
    ensures IsSubsequence(r, doctors)
    ensures forall d :: d in r <==> d in doctors && (specialization != "" ==> d.specialization == specialization)
  {
    if specialization == "" then
      PrefixIsSubsequence(doctors, |doctors|);
      assert doctors[..|doctors|] == doctors;
      doctors
    else
      var keep := (d: Doctor) => d.specialization == specialization;
      forall d ensures d in Filter(doctors, keep) <==> d in doctors && keep(d) {
        FilterMembership(doctors, keep, d);
      }
      Filter(doctors, keep)
  }

  function DepartmentStep(doctors: seq<Doctor>, department: string): (r: seq<Doctor>)
    ensures IsSubsequence(r, doctors)
    ensures forall d :: d in r <==> d in doctors && (department != "" ==> d.department == department)
  {
    if department == "" then
      PrefixIsSubsequence(doctors, |doctors|);
      assert doctors[..|doctors|] == doctors;
      doctors
    else
      var keep := (d: Doctor) => d.department == department;
      forall d ensures d in Filter(doctors, keep) <==> d in doctors && keep(d) {
        FilterMembership(doctors, keep, d);
      }
      Filter(doctors, keep)
  }

  /** `filterDoctors`: the three steps in sequence, each skipped when its criterion is empty. */
  function FilterDoctors(doctors: seq<Doctor>, c: Criteria): seq<Doctor>
  {
    DepartmentStep(SpecializationStep(SearchStep(doctors, c.searchTerm), c.specialization), c.department)
  }

  /**
   * The listed doctors are an order-preserving selection of the input, and a doctor is listed
   * exactly when it satisfies every criterion that is set: the filters compose by conjunction.
   */
  lemma FilterDoctorsSpec(doctors: seq<Doctor>, c: Criteria)
    ensures IsSubsequence(FilterDoctors(doctors, c), doctors)
    ensures forall d :: d in FilterDoctors(doctors, c) <==> d in doctors && Selected(c, d)
    ensures FilterDoctors(doctors, c) == Filter(doctors, d => Selected(c, d))
  {
    var a := SearchStep(doctors, c.searchTerm);
    var b := SpecializationStep(a, c.specialization);
    SubsequenceTransitive(b, a, doctors);
    SubsequenceTransitive(FilterDoctors(doctors, c), b, doctors);
    FilterDoctorsIsOneFilter(doctors, c);
  }

  /** The three steps compose into one filter by the conjunction of the set criteria. */
  lemma FilterDoctorsIsOneFilter(doctors: seq<Doctor>, c: Criteria)
    ensures FilterDoctors(doctors, c) == Filter(doctors, d => Selected(c, d))
  {
    var a := SearchStep(doctors, c.searchTerm);
    var b := SpecializationStep(a, c.specialization);
    var bySearch := (d: Doctor) => c.searchTerm != "" ==> MatchesSearch(c.searchTerm, d);
    var bySpecialization := (d: Doctor) => c.specialization != "" ==> d.specialization == c.specialization;
    var byDepartment := (d: Doctor) => c.department != "" ==> d.department == c.department;
    var byFirstTwo := (d: Doctor) => bySearch(d) && bySpecialization(d);
    assert a == Filter(doctors, bySearch) by {
      if c.searchTerm == "" {
        FilterKeepsAll(doctors, bySearch);
      } else {
        FilterCongruent(doctors, (d: Doctor) => MatchesSearch(c.searchTerm, d), bySearch);
      }
    }
    assert b == Filter(a, bySpecialization) by {
      if c.specialization == "" {
        FilterKeepsAll(a, bySpecialization);
      } else {
        FilterCongruent(a, (d: Doctor) => d.specialization == c.specialization, bySpecialization);
      }
    }
    assert FilterDoctors(doctors, c) == Filter(b, byDepartment) by {
      if c.department == "" {
        FilterKeepsAll(b, byDepartment);
      } else {
        FilterCongruent(b, (d: Doctor) => d.department == c.department, byDepartment);
      }
    }
    FilterFilter(doctors, bySearch, bySpecialization, byFirstTwo);
    FilterFilter(doctors, byFirstTwo, byDepartment, d => Selected(c, d));
  }

  /** `clearFilters`: all three criteria back to empty. */
  function ClearFilters(c: Criteria): (cleared: Criteria)
    ensures cleared.searchTerm == "" && cleared.specialization == "" && cleared.department == ""
  {
    Criteria("", "", "")
  }

  /** With the criteria cleared the directory lists every doctor, in order. */
  lemma ClearedFiltersListAll(doctors: seq<Doctor>, c: Criteria)
    ensures FilterDoctors(doctors, ClearFilters(c)) == doctors
  {
  }

  /** A search on the empty term would keep everyone anyway, so skipping it changes nothing. */
  lemma EmptySearchMatchesEveryone(d: Doctor)
    ensures MatchesSearch("", d)
  {
    ContainsEmpty(Lower(d.name));
  }
}
