/**
 * The job explorer's state: the posting list, the filter fields, the
 * favourites list with its storage slot, and the filtered view derived
 * from them by the filter effect.
 */
module Jobs {
  import opened Wrappers
  import opened Seqs

  datatype SalaryRange = SalaryRange(min: int, max: int)

  /** A job posting; coordinates are not part of this model. */
  datatype Job = Job(
    id: int,
    title: string,
    company: string,
    location: string,
    description: string,
    salary: string,
    skills: seq<string>,
    industry: string,
    url: Option<string>,
    jobType: Option<string>,
    experienceLevel: Option<string>,
    salaryRange: Option<SalaryRange>)

  /** A favourite mark: a job id and when it was added (an ISO timestamp). */
  datatype FavoriteJob = FavoriteJob(id: int, dateAdded: string)

  /** The filter fields: three selects, the salary interval and the favourites-only switch. */
  datatype Filters = Filters(
    industry: string,
    jobType: string,
    experienceLevel: string,
    salaryLow: int,
    salaryHigh: int,
    favoritesOnly: bool)

  /** The select value that switches a categorical filter off. */
  const All: string := "all"

  /** The industry select's options; every one but the first names an industry. */
  const IndustryIds: seq<string> := [All, "technology", "education", "healthcare",
    "manufacturing", "automotive", "analytics", "construction", "marketing", "design"]

  /** The job-type select's options. */
  const JobTypeIds: seq<string> := [All, "Full-time", "Part-time", "Contract", "Freelance", "Internship"]

  /** The experience-level select's options. */
  const ExperienceLevelIds: seq<string> := [All, "Entry-level", "Mid-level", "Senior-level"]

  /** The filter fields when the page opens: everything on "all", salaries 0 to 5000000. */
  const InitialFilters: Filters := Filters(All, All, All, 0, 5000000, false)

  // ---- The favourites list ----

  /** `favoriteJobs.some(job => job.id === id)`. */
  predicate IsFavorite(favorites: seq<FavoriteJob>, id: int)
    ensures IsFavorite(favorites, id) <==> id in FavoriteIds(favorites)
  {
    var ids := FavoriteIds(favorites);
    assert forall k :: 0 <= k < |favorites| && favorites[k].id == id ==> ids[k] == id;
    exists k :: 0 <= k < |favorites| && favorites[k].id == id
  }

  /** `favoriteJobs.map(fav => fav.id)`. */
  function FavoriteIds(favorites: seq<FavoriteJob>): (ids: seq<int>)
    ensures |ids| == |favorites|
    ensures forall k :: 0 <= k < |favorites| ==> ids[k] == favorites[k].id
  {
    seq(|favorites|, k requires 0 <= k < |favorites| => favorites[k].id)
  }

  /** The set of favourite ids, whatever the order and the timestamps. */
  ghost function FavoriteIdSet(favorites: seq<FavoriteJob>): set<int>
  {
    set f | f in favorites :: f.id
  }

  /** The filter's `includes` test and `isFavorite`'s `some` test agree. */
  lemma FavoriteIdsMembership(favorites: seq<FavoriteJob>, id: int)
    ensures id in FavoriteIds(favorites) <==> IsFavorite(favorites, id)
    ensures id in FavoriteIdSet(favorites) <==> IsFavorite(favorites, id)
  {
    var ids := FavoriteIds(favorites);
    if id in ids {
      var k :| 0 <= k < |ids| && ids[k] == id;
      assert favorites[k].id == id;
    }
    if IsFavorite(favorites, id) {
      var k :| 0 <= k < |favorites| && favorites[k].id == id;
      assert ids[k] == id;
      assert favorites[k] in favorites;
    }
  }

  function NotId(id: int): FavoriteJob -> bool
  {
    (f: FavoriteJob) => f.id != id
  }

  /** The favourites after `toggleFavorite(id)` at time `now`. */
  function Toggled(favorites: seq<FavoriteJob>, id: int, now: string): (r: seq<FavoriteJob>)
    ensures IsFavorite(r, id) <==> !IsFavorite(favorites, id)
    ensures forall g :: g in favorites && g.id != id ==> g in r
  {
    if IsFavorite(favorites, id) then
      var r := Keep(favorites, NotId(id));
      assert forall k :: 0 <= k < |r| ==> r[k] in r;
      assert forall g :: g in favorites && g.id != id ==> g in r by {
        forall g | g in favorites && g.id != id {
          KeepMembership(favorites, NotId(id), g);
        }
      }
      r
    else
      var r := favorites + [FavoriteJob(id, now)];
      assert r[|favorites|].id == id;
      r
  }

  /** Toggling an absent id appends one entry for it and keeps the others in front. */
  lemma ToggleAbsentAppends(favorites: seq<FavoriteJob>, id: int, now: string)
    requires !IsFavorite(favorites, id)
    ensures |Toggled(favorites, id, now)| == |favorites| + 1
    ensures Toggled(favorites, id, now)[..|favorites|] == favorites
    ensures Toggled(favorites, id, now)[|favorites|].id == id
    ensures IsFavorite(Toggled(favorites, id, now), id)
  {
    var r := Toggled(favorites, id, now);
    assert r[|favorites|].id == id;
  }

  /** Toggling a present id removes every entry with that id and keeps the rest, in order. */
  lemma ToggleRemovesAll(favorites: seq<FavoriteJob>, id: int, now: string)
    requires IsFavorite(favorites, id)
    ensures !IsFavorite(Toggled(favorites, id, now), id)
    ensures IsSubsequence(Toggled(favorites, id, now), favorites)
    ensures forall f: FavoriteJob ::
      (multiset(Toggled(favorites, id, now))[f] == if f.id == id then 0 else multiset(favorites)[f])
  {
    var r := Toggled(favorites, id, now);
    KeepSubsequence(favorites, NotId(id));
    forall f: FavoriteJob ensures multiset(r)[f] == if f.id == id then 0 else multiset(favorites)[f] {
      KeepCount(favorites, NotId(id), f);
    }
  }

  /** Toggling flips the membership of `id` and of no other id. */
  lemma ToggleFlipsMembership(favorites: seq<FavoriteJob>, id: int, now: string, other: int)
    ensures IsFavorite(Toggled(favorites, id, now), id) <==> !IsFavorite(favorites, id)
    ensures other != id ==>
      (IsFavorite(Toggled(favorites, id, now), other) <==> IsFavorite(favorites, other))
  {
    var r := Toggled(favorites, id, now);
    if other != id && IsFavorite(favorites, other) {
      var k :| 0 <= k < |favorites| && favorites[k].id == other;
      assert favorites[k] in r;
      var j :| 0 <= j < |r| && r[j] == favorites[k];
    }
    if other != id && IsFavorite(r, other) {
      var j :| 0 <= j < |r| && r[j].id == other;
      if IsFavorite(favorites, id) {
        KeepMembership(favorites, NotId(id), r[j]);
        assert r[j] in r;
      } else {
        assert j < |favorites|;
        assert r[j] == favorites[j];
      }
    }
  }

  /** Toggling twice restores the set of favourite ids; from an absent id it restores the very list. */
  lemma ToggleTwice(favorites: seq<FavoriteJob>, id: int, t1: string, t2: string)
    ensures FavoriteIdSet(Toggled(Toggled(favorites, id, t1), id, t2)) == FavoriteIdSet(favorites)
    ensures !IsFavorite(favorites, id) ==> Toggled(Toggled(favorites, id, t1), id, t2) == favorites
  {
    var once := Toggled(favorites, id, t1);
    var twice := Toggled(once, id, t2);
    if !IsFavorite(favorites, id) {
      ToggleAbsentAppends(favorites, id, t1);
      assert once == favorites + [FavoriteJob(id, t1)];
      KeepAppend(favorites, [FavoriteJob(id, t1)], NotId(id));
      assert forall f :: f in favorites ==> NotId(id)(f);
      KeepEverything(favorites, NotId(id));
      assert twice == favorites;
    } else {
      forall x ensures x in FavoriteIdSet(twice) <==> x in FavoriteIdSet(favorites) {
        ToggleFlipsMembership(favorites, id, t1, x);
        ToggleFlipsMembership(once, id, t2, x);
        FavoriteIdsMembership(favorites, x);
        FavoriteIdsMembership(twice, x);
      }
    }
  }

  // ---- The filter pipeline ----

  predicate IndustryMatches(f: Filters, job: Job)
  {
    f.industry == All || job.industry == f.industry
  }

  predicate JobTypeMatches(f: Filters, job: Job)
  {
    f.jobType == All || job.jobType == Some(f.jobType)
  }

  predicate ExperienceMatches(f: Filters, job: Job)
  {
    f.experienceLevel == All || job.experienceLevel == Some(f.experienceLevel)
  }

  /** The job has a salary range and it overlaps the filter's interval; never skipped. */
  predicate SalaryOverlaps(f: Filters, job: Job)
  {
    job.salaryRange.Some? &&
    job.salaryRange.value.min <= f.salaryHigh && job.salaryRange.value.max >= f.salaryLow
  }

  predicate FavoriteMatches(f: Filters, favorites: seq<FavoriteJob>, job: Job)
  {
    !f.favoritesOnly || job.id in FavoriteIds(favorites)
  }

  /** A job stays in the view when every criterion holds of it. */
  predicate Matches(f: Filters, favorites: seq<FavoriteJob>, job: Job)
  {
    IndustryMatches(f, job) && JobTypeMatches(f, job) && ExperienceMatches(f, job) &&
    SalaryOverlaps(f, job) && FavoriteMatches(f, favorites, job)
  }

  function Matcher(f: Filters, favorites: seq<FavoriteJob>): Job -> bool
  {
    job => Matches(f, favorites, job)
  }

  /** The filtered view: the jobs that satisfy every active criterion, in list order. */
  function Filtered(jobs: seq<Job>, f: Filters, favorites: seq<FavoriteJob>): (view: seq<Job>)
    ensures |view| <= |jobs|
    ensures forall job :: job in view <==> job in jobs && Matches(f, favorites, job)
  {
    var view := Keep(jobs, Matcher(f, favorites));
    assert forall job :: job in view <==> job in jobs && Matches(f, favorites, job) by {
      forall job {
        KeepMembership(jobs, Matcher(f, favorites), job);
      }
    }
    view
  }

  /** The view only drops jobs: same order, no job added or changed, each kept as often as listed. */
  lemma FilteredIsSubsequence(jobs: seq<Job>, f: Filters, favorites: seq<FavoriteJob>)
    ensures IsSubsequence(Filtered(jobs, f, favorites), jobs)
    ensures forall job :: job in Filtered(jobs, f, favorites) ==>
      multiset(Filtered(jobs, f, favorites))[job] == multiset(jobs)[job]
  {
    KeepSubsequence(jobs, Matcher(f, favorites));
    forall job | job in Filtered(jobs, f, favorites)
      ensures multiset(Filtered(jobs, f, favorites))[job] == multiset(jobs)[job]
    {
      KeepCount(jobs, Matcher(f, favorites), job);
    }
  }

  /** A job is in the view exactly when it is in the list and passes every active criterion. */
  lemma FilteredMembership(jobs: seq<Job>, f: Filters, favorites: seq<FavoriteJob>, job: Job)
    ensures job in Filtered(jobs, f, favorites) <==>
      && job in jobs
      && (f.industry != All ==> job.industry == f.industry)
      && (f.jobType != All ==> job.jobType == Some(f.jobType))
      && (f.experienceLevel != All ==> job.experienceLevel == Some(f.experienceLevel))
      && job.salaryRange.Some?
      && job.salaryRange.value.min <= f.salaryHigh
      && job.salaryRange.value.max >= f.salaryLow
      && (f.favoritesOnly ==> IsFavorite(favorites, job.id))
  {
    KeepMembership(jobs, Matcher(f, favorites), job);
    FavoriteIdsMembership(favorites, job.id);
  }

  /** A job without a salary range never appears, whatever the other filters say. */
  lemma NoSalaryRangeNeverShown(jobs: seq<Job>, f: Filters, favorites: seq<FavoriteJob>, job: Job)
    requires job.salaryRange.None?
    ensures job !in Filtered(jobs, f, favorites)
  {
    KeepMembership(jobs, Matcher(f, favorites), job);
  }

  /** With favourites-only off, the favourites list has no influence on the view. */
  lemma FilteredIgnoresFavoritesWhenOff(jobs: seq<Job>, f: Filters, favorites1: seq<FavoriteJob>, favorites2: seq<FavoriteJob>)
    requires !f.favoritesOnly
    ensures Filtered(jobs, f, favorites1) == Filtered(jobs, f, favorites2)
  {
    KeepAgree(jobs, Matcher(f, favorites1), Matcher(f, favorites2));
  }

  // ---- The page state ----

  /** What a job fetch delivered: mapped API postings, an API failure, or an earlier failure. */
  datatype FetchOutcome = Received(apiJobs: seq<Job>) | ApiFailed | Failed

  class JobExplorer {
    /** The built-in postings, which every fetch puts in front of the fetched ones. */
    const seed: seq<Job>
    var jobs: seq<Job>
    var filteredJobs: seq<Job>
    var filters: Filters
    var favorites: seq<FavoriteJob>
    /** The local-storage slot holding the favourites, as already-parsed content. */
    var persisted: Option<seq<FavoriteJob>>

    /** The view shows what the filter effect derives from the current state. */
    ghost predicate Consistent()
      reads this
    {
      filteredJobs == Filtered(jobs, filters, favorites)
    }

    /** The state once mounted: the seed jobs, unfiltered, and the favourites the slot held. */
    constructor (seed: seq<Job>, saved: Option<seq<FavoriteJob>>)
      ensures this.seed == seed
      ensures jobs == seed && filteredJobs == seed && filters == InitialFilters
      ensures favorites == saved.GetOr([]) && persisted == saved
    {
      this.seed := seed;
      jobs := seed;
      filteredJobs := seed;
      filters := InitialFilters;
      favorites := saved.GetOr([]);
      persisted := saved;
    }

    /** The filter effect: narrows the list one criterion at a time and stores the result. */
    method RefreshFiltered()
      modifies this`filteredJobs
      ensures Consistent()
      ensures filteredJobs == Filtered(jobs, filters, favorites)
    {
      var f := filters;
      var favs := favorites;
      ghost var passed: Job -> bool := _ => true;
      var filtered := jobs;
      KeepEverything(jobs, passed);

      ghost var next: Job -> bool := job => passed(job) && IndustryMatches(f, job);
      if f.industry != All {
        var industry := f.industry;
        KeepFuse(jobs, passed, (job: Job) => job.industry == industry, next);
        filtered := Keep(filtered, (job: Job) => job.industry == industry);
      } else {
        KeepAgree(jobs, passed, next);
      }
      passed := next;

      next := job => passed(job) && JobTypeMatches(f, job);
      if f.jobType != All {
        var jobType := f.jobType;
        KeepFuse(jobs, passed, (job: Job) => job.jobType == Some(jobType), next);
        filtered := Keep(filtered, (job: Job) => job.jobType == Some(jobType));
      } else {
        KeepAgree(jobs, passed, next);
      }
      passed := next;

      next := job => passed(job) && ExperienceMatches(f, job);
      if f.experienceLevel != All {
        var level := f.experienceLevel;
        KeepFuse(jobs, passed, (job: Job) => job.experienceLevel == Some(level), next);
        filtered := Keep(filtered, (job: Job) => job.experienceLevel == Some(level));
      } else {
        KeepAgree(jobs, passed, next);
      }
      passed := next;

      next := job => passed(job) && SalaryOverlaps(f, job);
      KeepFuse(jobs, passed, (job: Job) => SalaryOverlaps(f, job), next);
      filtered := Keep(filtered, (job: Job) => SalaryOverlaps(f, job));
      passed := next;

      next := job => passed(job) && FavoriteMatches(f, favs, job);
      if f.favoritesOnly {
        var favoriteIds := FavoriteIds(favs);
        KeepFuse(jobs, passed, (job: Job) => job.id in favoriteIds, next);
        filtered := Keep(filtered, (job: Job) => job.id in favoriteIds);
      } else {
        KeepAgree(jobs, passed, next);
      }
      passed := next;

      KeepAgree(jobs, passed, Matcher(f, favs));
      filteredJobs := filtered;
    }

    method SelectIndustry(industry: string)
      modifies this`filters
      ensures filters == old(filters).(industry := industry)
    {
      filters := filters.(industry := industry);
    }

    method SelectJobType(jobType: string)
      modifies this`filters
      ensures filters == old(filters).(jobType := jobType)
    {
      filters := filters.(jobType := jobType);
    }

    method SelectExperienceLevel(level: string)
      modifies this`filters
      ensures filters == old(filters).(experienceLevel := level)
    {
      filters := filters.(experienceLevel := level);
    }

    method SetSalaryRange(low: int, high: int)
      modifies this`filters
      ensures filters == old(filters).(salaryLow := low, salaryHigh := high)
    {
      filters := filters.(salaryLow := low, salaryHigh := high);
    }

    method ToggleShowFavorites()
      modifies this`filters
      ensures filters == old(filters).(favoritesOnly := !old(filters).favoritesOnly)
    {
      filters := filters.(favoritesOnly := !filters.favoritesOnly);
    }

    /** `toggleFavorite(id)` at time `now`: flips membership and overwrites the storage slot. */
    method ToggleFavorite(id: int, now: string)
      modifies this`favorites, this`persisted
      ensures favorites == Toggled(old(favorites), id, now)
      ensures IsFavorite(favorites, id) <==> !IsFavorite(old(favorites), id)
      ensures forall other :: other != id ==>
        (IsFavorite(favorites, other) <==> IsFavorite(old(favorites), other))
      ensures persisted == Some(favorites)
    {
      var newFavorites: seq<FavoriteJob>;
      if IsFavorite(favorites, id) {
        newFavorites := Keep(favorites, (job: FavoriteJob) => job.id != id);
        assert newFavorites == Keep(favorites, NotId(id));
      } else {
        newFavorites := favorites + [FavoriteJob(id, now)];
      }
      forall other ensures IsFavorite(newFavorites, other) <==> (if other == id then !IsFavorite(favorites, id) else IsFavorite(favorites, other)) {
        ToggleFlipsMembership(favorites, id, now, other);
      }
      favorites := newFavorites;
      persisted := Some(newFavorites);
    }

    /** The job list after a fetch: the seed jobs followed by the API postings, or by the mock set. */
    method ReceiveJobs(outcome: FetchOutcome, mock: seq<Job>)
      modifies this`jobs
      ensures outcome.Received? ==> jobs == seed + outcome.apiJobs
      ensures outcome.ApiFailed? ==> jobs == seed + mock
      ensures outcome.Failed? ==> jobs == seed
      ensures jobs[..|seed|] == seed
    {
      var apiJobs: seq<Job>;
      match outcome {
        case Received(fetched) => apiJobs := fetched;
        case ApiFailed => apiJobs := mock;
        case Failed => apiJobs := [];
      }
      jobs := seed + apiJobs;
    }
  }
}
