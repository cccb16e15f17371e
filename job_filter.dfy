/**
 * The job aggregator page: its filter state, the `filteredJobs` list it renders and the
 * source selector's change handler. Only the source selection and the role take part in
 * the filter; the other fields are kept to show that they do not.
 */
module JobFilter {
  import opened Text
  import opened Seqs

  datatype Job = Job(
    title: string, company: string, location: string, jobType: string,
    workHours: string, shift: string, workMode: string, experience: string,
    salary: string, source: string, link: string, description: string)

  /** The page's filter state (`useState` hooks), with the selected source keys. */
  datatype Filters = Filters(
    role: string, location: string, jobType: string, workHours: string, shift: string,
    workMode: string, experience: string, salary: string, selectedSources: seq<string>)

  /** The source keys of `SOURCES`, in their order. */
  const SourceKeys: seq<string> := ["internshala", "glassdoor", "linkedin", "indeed"]

  /** The filter predicate: a selected source, and the role (when one is set) in the title, ignoring case. */
  predicate Matches(f: Filters, job: Job) {
    job.source in f.selectedSources
    && (f.role == "" || Contains(ToLower(job.title), ToLower(f.role)))
  }

  /** `filteredJobs`. */
  function FilteredJobs(jobs: seq<Job>, f: Filters): seq<Job> {
    Filter(jobs, job => Matches(f, job))
  }

  /** A job is shown exactly when it is one of the jobs and passes the filter; the list keeps their order. */
  lemma FilteredJobsSpec(jobs: seq<Job>, f: Filters, job: Job)
    ensures job in FilteredJobs(jobs, f) <==> job in jobs && Matches(f, job)
    ensures IsSubsequence(FilteredJobs(jobs, f), jobs)
  {
    FilterMembership(jobs, job => Matches(f, job), job);
    FilterIsSubsequence(jobs, job => Matches(f, job));
  }

  /** Every shown job comes from a selected source. */
  lemma ShownSourcesSelected(jobs: seq<Job>, f: Filters)
    ensures forall k :: 0 <= k < |FilteredJobs(jobs, f)| ==> FilteredJobs(jobs, f)[k].source in f.selectedSources
  {
    forall k | 0 <= k < |FilteredJobs(jobs, f)|
      ensures FilteredJobs(jobs, f)[k].source in f.selectedSources
    {
      FilteredJobsSpec(jobs, f, FilteredJobs(jobs, f)[k]);
    }
  }

  /**
   * The role test: with no role a job is shown exactly when its source is selected;
   * with a role, exactly when in addition the lower-cased role occurs in the
   * lower-cased title.
   */
  lemma RoleRule(jobs: seq<Job>, f: Filters, job: Job)
    ensures f.role == "" ==> (job in FilteredJobs(jobs, f) <==> job in jobs && job.source in f.selectedSources)
    ensures f.role != "" ==> (job in FilteredJobs(jobs, f) <==>
      job in jobs && job.source in f.selectedSources && Contains(ToLower(job.title), ToLower(f.role)))
  {
    FilteredJobsSpec(jobs, f, job);
  }

  /** Location, type, hours, shift, mode, experience and salary do not change the list. */
  lemma OtherFiltersIgnored(jobs: seq<Job>, f: Filters, g: Filters)
    requires f.role == g.role && f.selectedSources == g.selectedSources
    ensures FilteredJobs(jobs, f) == FilteredJobs(jobs, g)
  {
    FilterCongruent(jobs, job => Matches(f, job), job => Matches(g, job));
  }

  /** The role is compared without regard to case. */
  lemma RoleCaseIgnored(jobs: seq<Job>, f: Filters)
    ensures FilteredJobs(jobs, f.(role := ToLower(f.role))) == FilteredJobs(jobs, f)
  {
    ToLowerIdempotent(f.role);
    var g := f.(role := ToLower(f.role));
    forall k | 0 <= k < |jobs| ensures Matches(g, jobs[k]) == Matches(f, jobs[k]) {
      assert (g.role == "") == (f.role == "");
    }
    FilterCongruent(jobs, job => Matches(g, job), job => Matches(f, job));
  }

  const DummyJobs: seq<Job> := [
    Job("Senior Frontend Developer", "TechCorp Solutions", "Bangalore", "Full-Time", "Day",
        "Morning (6 AM - 2 PM)", "Hybrid", "Senior Level", "15-25 LPA", "linkedin",
        "https://www.linkedin.com/jobs/view/senior-frontend-developer-techcorp",
        "Build scalable web applications using React, TypeScript, and modern frontend technologies."),
    Job("Data Science Intern", "AI Innovations", "Remote", "Internship", "Flexible",
        "Flexible", "Remote", "Entry Level", "3-6 LPA", "internshala",
        "https://internshala.com/internship/detail/data-science-intern-ai-innovations",
        "Work on machine learning projects and data analysis using Python and SQL."),
    Job("UI/UX Designer", "Creative Studios", "Mumbai", "Full-Time", "Day",
        "Morning (6 AM - 2 PM)", "On-site", "Mid Level", "10-15 LPA", "glassdoor",
        "https://www.glassdoor.com/job-listing/ui-ux-designer-creative-studios-JV_IC2295383_KO0,14",
        "Design user interfaces and experiences for web and mobile applications.")
  ]

  /** The state on mount: every filter empty and every source selected. */
  const InitialFilters: Filters := Filters("", "", "", "", "", "", "", "", SourceKeys)

  /** On mount all three dummy jobs are shown. */
  lemma InitiallyAllShown()
    ensures FilteredJobs(DummyJobs, InitialFilters) == DummyJobs
  {
    assert DummyJobs[0].source == SourceKeys[2];
    assert DummyJobs[1].source == SourceKeys[0];
    assert DummyJobs[2].source == SourceKeys[1];
    FilterAll(DummyJobs, job => Matches(InitialFilters, job));
  }

  /** The value of the multiple select's change event: a comma-separated string or an array. */
  datatype SelectValue = TextValue(text: string) | KeysValue(keys: seq<string>)

  /** `handleSourceChange`: the new selection. */
  function SourceChange(value: SelectValue): (selected: seq<string>)
    ensures value.TextValue? ==> |selected| >= 1 && forall k :: 0 <= k < |selected| ==> ',' !in selected[k]
    ensures value.KeysValue? ==> selected == value.keys
  {
    match value
    case TextValue(text) => Split(text, ',')
    case KeysValue(keys) => keys
  }

  /** A non-empty selection of comma-free keys is the same whether it arrives as an array or as its joined string. */
  lemma SourceChangeForms(keys: seq<string>)
    requires |keys| >= 1 && forall k :: 0 <= k < |keys| ==> ',' !in keys[k]
    ensures SourceChange(TextValue(Join(keys, ","))) == SourceChange(KeysValue(keys))
  {
    SplitJoin(keys, ',');
  }
}
