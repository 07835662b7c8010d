/** The job search page: a fixed list of sample jobs and the filter that the keyword,
    location and job type controls apply to it. */
module JobSearch {
  import opened Js
  import opened Seqs

  datatype Job = Job(
    id: nat,
    title: string,
    company: string,
    location: string,
    jobType: string,
    salary: string,
    posted: string,
    description: string,
    skills: seq<string>)

  /** The page's sample data, in its order. */
  const Jobs: seq<Job> := [
    Job(1, "Residential Plumber", "HomeFixers Inc.", "New York, NY", "Full-time", "$30-40/hr", "2 days ago",
        "Looking for an experienced plumber to join our team for residential projects.",
        ["Plumbing", "Pipe Fitting", "Troubleshooting"]),
    Job(2, "Construction Worker", "BuildRight Construction", "Los Angeles, CA", "Contract", "$25-35/hr", "1 day ago",
        "General construction labor needed for commercial building project.",
        ["Construction", "Physical Strength", "Safety Protocols"]),
    Job(3, "Electrician", "PowerUp Electric", "Chicago, IL", "Part-time", "$35-45/hr", "3 days ago",
        "Certified electrician needed for residential and light commercial work.",
        ["Electrical", "Wiring", "Troubleshooting"]),
    Job(4, "Landscaper", "GreenScapes", "Miami, FL", "Seasonal", "$20-25/hr", "5 days ago",
        "Landscaping professional needed for residential properties maintenance.",
        ["Landscaping", "Lawn Care", "Plant Knowledge"]),
    Job(5, "Carpenter", "WoodWorks Custom", "Seattle, WA", "Full-time", "$28-38/hr", "1 week ago",
        "Skilled carpenter needed for custom furniture and cabinetry projects.",
        ["Carpentry", "Woodworking", "Finishing"])
  ]

  /** The values of the page's filter controls. The salary slider's range is kept in
      the state but never read by the filter. */
  datatype Filters = Filters(searchTerm: string, location: string, jobType: string, salaryRange: seq<int>)

  /** The state "Reset Filters" restores, which is also the initial state. */
  const ResetFilters: Filters := Filters("", "", "", [20, 50])

  /** The keyword clause: an empty term, or the lower-cased term inside the lower-cased
      title, description or one of the skills. A non-empty term matches exactly when it
      occurs, ignoring case, in one of them. */
  predicate MatchesKeyword(job: Job, term: string): (b: bool)
    ensures term == "" ==> b
    ensures term != "" ==> (b <==>
      || OccursIn(ToLowerCase(term), ToLowerCase(job.title))
      || OccursIn(ToLowerCase(term), ToLowerCase(job.description))
      || exists k :: 0 <= k < |job.skills| && OccursIn(ToLowerCase(term), ToLowerCase(job.skills[k])))
  {
    var t := ToLowerCase(term);
    || term == ""
    || Includes(ToLowerCase(job.title), t)
    || Includes(ToLowerCase(job.description), t)
    || exists k :: 0 <= k < |job.skills| && Includes(ToLowerCase(job.skills[k]), t)
  }

  /** The whole test: keyword, then location as a case-sensitive substring, then the
      job type by equality; an empty type is a wildcard, and so is an empty location,
      which occurs in every location anyway. */
  predicate Matches(f: Filters, job: Job): (b: bool)
    ensures b <==> && MatchesKeyword(job, f.searchTerm)
                   && OccursIn(f.location, job.location)
                   && (f.jobType == "" || job.jobType == f.jobType)
  {
    assert OccursAt("", job.location, 0);
    && MatchesKeyword(job, f.searchTerm)
    && (f.location == "" || Includes(job.location, f.location))
    && (f.jobType == "" || job.jobType == f.jobType)
  }

  /** The jobs of `jobs` that pass, in order. */
  function FilterJobs(jobs: seq<Job>, f: Filters): (r: seq<Job>)
    ensures IsSubsequence(r, jobs)
    ensures forall job :: job in r <==> job in jobs && Matches(f, job)
    ensures forall job :: multiset(r)[job] == if Matches(f, job) then multiset(jobs)[job] else 0
  {
    Filter(jobs, job => Matches(f, job))
  }

  /** `filteredJobs`: the sample jobs that pass, in the page's order. */
  function FilteredJobs(f: Filters): (r: seq<Job>)
    ensures IsSubsequence(r, Jobs)
    ensures forall job :: job in r <==> job in Jobs && Matches(f, job)
  {
    FilterJobs(Jobs, f)
  }

  // ---------------------------------------------------------------------------
  // Properties

  /** The keyword clause sees the term only through its lower-case form. */
  lemma {:induction false} KeywordIgnoresCase(job: Job, term: string)
    ensures MatchesKeyword(job, term) == MatchesKeyword(job, ToLowerCase(term))
  {
    ToLowerCaseIdempotent(term);
    assert term == "" <==> ToLowerCase(term) == "";
  }

  /** The salary range never changes the result. */
  lemma {:induction false} SalaryRangeIgnored(jobs: seq<Job>, f: Filters, range: seq<int>)
    ensures FilterJobs(jobs, f.(salaryRange := range)) == FilterJobs(jobs, f)
  {
    var g := f.(salaryRange := range);
    assert g.searchTerm == f.searchTerm && g.location == f.location && g.jobType == f.jobType;
    FilterSameTest(jobs, job => Matches(g, job), job => Matches(f, job));
  }

  /** After a reset every job is listed, in order. */
  lemma {:induction false} ResetListsAllJobs(jobs: seq<Job>)
    ensures FilterJobs(jobs, ResetFilters) == jobs
  {
    forall job | job in jobs ensures Matches(ResetFilters, job) {
      IncludesEmpty(job.location);
    }
    FilterAll(jobs, job => Matches(ResetFilters, job));
  }

  /** An empty location and type leave only the keyword clause. */
  lemma {:induction false} EmptyLocationAndTypeAreWildcards(f: Filters)
    requires f.location == "" && f.jobType == ""
    ensures forall job :: job in FilteredJobs(f) <==> job in Jobs && MatchesKeyword(job, f.searchTerm)
  {
  }

  /** The "All Types" option sets the type to "all", which no job has: nothing is listed. */
  lemma {:induction false} AllTypesOptionListsNothing(f: Filters)
    requires f.jobType == "all"
    ensures FilteredJobs(f) == []
  {
    assert forall job :: job in Jobs ==> job.jobType != "all";
    FilterNone(Jobs, job => Matches(f, job));
  }

  // ---------------------------------------------------------------------------
  // The type filter as evidently intended

  /** The test with the "All Types" option ("all") read as a wildcard, like "". */
  predicate MatchesIntended(f: Filters, job: Job) {
    && MatchesKeyword(job, f.searchTerm)
    && (f.location == "" || Includes(job.location, f.location))
    && (f.jobType == "" || f.jobType == "all" || job.jobType == f.jobType)
  }

  function FilterJobsIntended(jobs: seq<Job>, f: Filters): (r: seq<Job>)
    ensures IsSubsequence(r, jobs)
    ensures forall job :: job in r <==> job in jobs && MatchesIntended(f, job)
  {
    Filter(jobs, job => MatchesIntended(f, job))
  }

  /** With the corrected test, "All Types" lists what no type selection lists, and every
      other choice lists what the page lists. */
  lemma {:induction false} AllTypesIntendedIsWildcard(jobs: seq<Job>, f: Filters)
    ensures FilterJobsIntended(jobs, f.(jobType := "all")) == FilterJobs(jobs, f.(jobType := ""))
    ensures f.jobType != "all" ==> FilterJobsIntended(jobs, f) == FilterJobs(jobs, f)
  {
    var all := f.(jobType := "all");
    var none := f.(jobType := "");
    assert all.searchTerm == none.searchTerm && all.location == none.location;
    FilterSameTest(jobs, job => MatchesIntended(all, job), job => Matches(none, job));
    if f.jobType != "all" {
      FilterSameTest(jobs, job => MatchesIntended(f, job), job => Matches(f, job));
    }
  }
}
