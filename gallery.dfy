/**
 * The portfolio preview of the landing page: a category filter over a fixed
 * list of projects, a random six-project sample unless the full portfolio is
 * shown, and a lightbox for one selected project.
 */
module Gallery {
  import opened Wrappers
  import opened Seqs
  import opened Dom

  /** One entry of the hard-coded project list; `kind` is the source's `type` field. */
  datatype Project = Project(
    title: string,
    category: string,
    image: string,
    gradient: string,
    description: string,
    kind: string)

  /** The filter that shows every project. */
  const AllFilter: string := "All"

  /** The filter buttons, in display order. */
  const Filters: seq<string> := ["All", "Logo Design", "Poster Design", "Invitations / Invitation Videos"]

  /** How many projects the collapsed view samples. */
  const SampleSize: nat := 6

  predicate InCategory(p: Project, category: string) { p.category == category }

  /** The projects the active filter lets through. */
  function FilteredProjects(projects: seq<Project>, activeFilter: string): (r: seq<Project>)
    ensures activeFilter == AllFilter ==> r == projects
    ensures activeFilter != AllFilter ==> forall i :: 0 <= i < |r| ==> r[i].category == activeFilter
  {
    if activeFilter == AllFilter then projects
    else Filter(projects, p => InCategory(p, activeFilter))
  }

  /**
   * Under a named filter the list is exactly the projects of that category:
   * each as often as in the catalog, nothing else, in catalog order.
   */
  lemma FilteredProjectsExact(projects: seq<Project>, activeFilter: string, p: Project)
    requires activeFilter != AllFilter
    ensures multiset(FilteredProjects(projects, activeFilter))[p] ==
            if p.category == activeFilter then multiset(projects)[p] else 0
    ensures p in FilteredProjects(projects, activeFilter) <==> p in projects && p.category == activeFilter
    ensures IsSubsequence(FilteredProjects(projects, activeFilter), projects)
  {
    FilterCount(projects, q => InCategory(q, activeFilter), p);
    FilterMembership(projects, q => InCategory(q, activeFilter), p);
    FilterIsSubsequence(projects, q => InCategory(q, activeFilter));
  }

  /**
   * The filter buttons after 'All' select disjoint groups: no project is
   * listed under two of them, and every listed project comes from the catalog.
   */
  lemma FilterButtonsDisjoint(projects: seq<Project>, i: nat, j: nat, p: Project)
    requires 0 < i < j < |Filters|
    ensures !(p in FilteredProjects(projects, Filters[i]) && p in FilteredProjects(projects, Filters[j]))
    ensures p in FilteredProjects(projects, Filters[i]) ==> p in projects
  {
    assert Filters[0] == AllFilter;
    assert Filters[i] != Filters[j] && Filters[i] != AllFilter && Filters[j] != AllFilter by {
      assert |Filters[1]| == 11 && |Filters[2]| == 13 && |Filters[3]| == 31 && |Filters[0]| == 3;
    }
    FilteredProjectsExact(projects, Filters[i], p);
    FilteredProjectsExact(projects, Filters[j], p);
  }

  // ---------------------------------------------------------------------------
  // Fisher-Yates shuffle

  /** Exchange the elements at `i` and `j` (the destructuring swap of the source). */
  function Swap<T>(s: seq<T>, i: nat, j: nat): (r: seq<T>)
    requires i < |s| && j < |s|
    ensures |r| == |s| && multiset(r) == multiset(s)
    ensures r[i] == s[j] && r[j] == s[i]
    ensures forall k :: 0 <= k < |s| && k != i && k != j ==> r[k] == s[k]
  {
    s[i := s[j]][j := s[i]]
  }

  /**
   * `choices` is a possible record of the random picks of the shuffle of an
   * `n`-element list: step `k` runs with loop index `i == n - 1 - k >= 1` and
   * picks some `j` with `0 <= j <= i`.
   */
  ghost predicate ValidChoices(n: nat, choices: seq<int>) {
    (if n == 0 then |choices| == 0 else |choices| <= n - 1) &&
    forall k :: 0 <= k < |choices| ==> 0 <= choices[k] <= n - 1 - k
  }

  /** The list after the first `|choices|` steps of the shuffle have swapped it. */
  function AfterSwaps<T>(s: seq<T>, choices: seq<int>): (r: seq<T>)
    requires ValidChoices(|s|, choices)
    ensures |r| == |s| && multiset(r) == multiset(s)
    decreases |choices|
  {
    if choices == [] then s
    else
      var k := |choices| - 1;
      Swap(AfterSwaps(s, choices[..k]), |s| - 1 - k, choices[k])
  }

  /**
   * shuffleArray: copy the list, then for `i` from the last index down to 1
   * swap position `i` with a position `j` in `[0, i]` chosen at random.
   * The input is a value and stays as it was; the result is a permutation of it.
   */
  method ShuffleArray<T>(items: seq<T>) returns (shuffled: seq<T>, ghost choices: seq<int>)
    ensures ValidChoices(|items|, choices)
    ensures |items| > 0 ==> |choices| == |items| - 1
    ensures shuffled == AfterSwaps(items, choices)
    ensures |shuffled| == |items| && multiset(shuffled) == multiset(items)
  {
    var a := new T[|items|](k requires 0 <= k < |items| => items[k]);
    choices := [];
    var i := a.Length - 1;
    while i > 0
      invariant if a.Length == 0 then i == -1 else 0 <= i < a.Length
      invariant |choices| == a.Length - 1 - i
      invariant ValidChoices(a.Length, choices)
      invariant a[..] == AfterSwaps(items, choices)
    {
      var j :| 0 <= j <= i;
      ghost var before := a[..];
      var t := a[i];
      a[i] := a[j];
      a[j] := t;
      assert a[..] == Swap(before, i, j);
      ghost var next := choices + [j];
      assert next[..|choices|] == choices;
      assert ValidChoices(a.Length, next);
      assert AfterSwaps(items, next) == Swap(AfterSwaps(items, choices), i, j);
      choices := next;
      i := i - 1;
    }
    shuffled := a[..];
  }

  /**
   * displayedProjects: the whole filtered list when the full portfolio is
   * shown, otherwise the first six entries of a fresh shuffle of it.
   */
  method DisplayedProjects(filtered: seq<Project>, showFullPortfolio: bool) returns (shown: seq<Project>)
    ensures showFullPortfolio ==> shown == filtered
    ensures !showFullPortfolio ==> |shown| == Min(SampleSize, |filtered|)
    ensures !showFullPortfolio ==> multiset(shown) <= multiset(filtered)
  {
    if showFullPortfolio {
      shown := filtered;
    } else {
      var shuffled, _ := ShuffleArray(filtered);
      shown := shuffled[..Min(SampleSize, |shuffled|)];
      PrefixMultiset(shuffled, Min(SampleSize, |shuffled|));
    }
  }

  // ---------------------------------------------------------------------------
  // Component state

  /**
   * The state of the portfolio preview together with the browser state its
   * effects touch: the Escape keydown listener and the body's `overflow` style.
   */
  class PortfolioPreview {
    const projects: seq<Project>
    var activeFilter: string
    var showFullPortfolio: bool
    var selectedProject: Option<Project>
    var isModalOpen: bool
    var escapeListenerAttached: bool
    var bodyOverflow: string
    /** How often the scroll lock was applied, and how often it was released. */
    ghost var scrollLocks: nat
    ghost var scrollReleases: nat

    ghost predicate Valid()
      reads this
    {
      (isModalOpen <==> selectedProject.Some?) &&
      escapeListenerAttached == isModalOpen &&
      (isModalOpen ==> bodyOverflow == "hidden") &&
      (!isModalOpen && scrollLocks > 0 ==> bodyOverflow == "unset") &&
      scrollLocks == scrollReleases + (if isModalOpen then 1 else 0)
    }

    /** The lightbox is rendered only when it is open and a project is selected. */
    predicate ModalRendered()
      reads this
    {
      isModalOpen && selectedProject.Some?
    }

    /** Mounting: filter 'All', collapsed, no project selected; the closed effect touches nothing. */
    constructor (projects: seq<Project>, bodyOverflow: string)
      ensures Valid()
      ensures this.projects == projects && activeFilter == AllFilter && !showFullPortfolio
      ensures selectedProject == None && !isModalOpen && !escapeListenerAttached
      ensures this.bodyOverflow == bodyOverflow && scrollLocks == 0
    {
      this.projects := projects;
      activeFilter := AllFilter;
      showFullPortfolio := false;
      selectedProject := None;
      isModalOpen := false;
      escapeListenerAttached := false;
      this.bodyOverflow := bodyOverflow;
      scrollLocks, scrollReleases := 0, 0;
    }

    /** The list shown now, for the current filter and expansion. */
    method Displayed() returns (shown: seq<Project>)
      ensures showFullPortfolio ==> shown == FilteredProjects(projects, activeFilter)
      ensures !showFullPortfolio ==> |shown| == Min(SampleSize, |FilteredProjects(projects, activeFilter)|)
      ensures !showFullPortfolio ==> multiset(shown) <= multiset(FilteredProjects(projects, activeFilter))
    {
      shown := DisplayedProjects(FilteredProjects(projects, activeFilter), showFullPortfolio);
    }

    /**
     * A click on a filter button. A new filter re-runs the reset effect, which
     * collapses the view; clicking the filter already active changes nothing.
     */
    method SetActiveFilter(filter: string)
      requires Valid()
      modifies this
      ensures Valid()
      ensures activeFilter == filter
      ensures filter != old(activeFilter) ==> !showFullPortfolio
      ensures filter == old(activeFilter) ==> showFullPortfolio == old(showFullPortfolio)
      ensures selectedProject == old(selectedProject) && isModalOpen == old(isModalOpen)
      ensures escapeListenerAttached == old(escapeListenerAttached) && bodyOverflow == old(bodyOverflow)
      ensures scrollLocks == old(scrollLocks) && scrollReleases == old(scrollReleases)
    {
      if filter != activeFilter {
        activeFilter := filter;
        showFullPortfolio := false;
      }
    }

    /** The 'View Full Portfolio' / 'Show Less' button. */
    method ToggleFullPortfolio()
      requires Valid()
      modifies this`showFullPortfolio
      ensures Valid()
      ensures showFullPortfolio == !old(showFullPortfolio)
    {
      showFullPortfolio := !showFullPortfolio;
    }

    /**
     * The effect keyed on `isModalOpen`, run after it changed: the cleanup of
     * the previous run detaches the listener and sets overflow to 'unset',
     * then an open lightbox attaches the listener and locks scrolling.
     */
    method ModalEffect()
      requires Valid() || (isModalOpen != escapeListenerAttached && (isModalOpen <==> selectedProject.Some?))
      requires !isModalOpen ==> escapeListenerAttached && scrollLocks == scrollReleases + 1
      requires isModalOpen ==> !escapeListenerAttached && scrollLocks == scrollReleases
      modifies this`escapeListenerAttached, this`bodyOverflow, this`scrollLocks, this`scrollReleases
      ensures Valid()
      ensures escapeListenerAttached == isModalOpen
      ensures bodyOverflow == if isModalOpen then "hidden" else "unset"
      ensures isModalOpen ==> scrollLocks == old(scrollLocks) + 1 && scrollReleases == old(scrollReleases)
      ensures !isModalOpen ==> scrollReleases == old(scrollReleases) + 1 && scrollLocks == old(scrollLocks)
    {
      if escapeListenerAttached {
        scrollReleases := scrollReleases + 1;
      }
      escapeListenerAttached := false;
      bodyOverflow := "unset";
      if isModalOpen {
        escapeListenerAttached := true;
        bodyOverflow := "hidden";
        scrollLocks := scrollLocks + 1;
      }
    }

    /** openProjectModal: select the project and open the lightbox; only a closed lightbox re-runs the effect. */
    method OpenProjectModal(project: Project)
      requires Valid()
      modifies this
      ensures Valid() && ModalRendered()
      ensures selectedProject == Some(project) && isModalOpen
      ensures escapeListenerAttached && bodyOverflow == "hidden"
      ensures scrollLocks == old(scrollLocks) + (if old(isModalOpen) then 0 else 1)
      ensures scrollReleases == old(scrollReleases)
      ensures activeFilter == old(activeFilter) && showFullPortfolio == old(showFullPortfolio)
    {
      var wasOpen := isModalOpen;
      selectedProject := Some(project);
      isModalOpen := true;
      if !wasOpen {
        ModalEffect();
      }
    }

    /** closeModal: close the lightbox and clear the selection; only an open lightbox re-runs the effect. */
    method CloseModal()
      requires Valid()
      modifies this
      ensures Valid() && !ModalRendered()
      ensures selectedProject == None && !isModalOpen && !escapeListenerAttached
      ensures bodyOverflow == if old(isModalOpen) then "unset" else old(bodyOverflow)
      ensures scrollReleases == old(scrollReleases) + (if old(isModalOpen) then 1 else 0)
      ensures scrollLocks == old(scrollLocks)
      ensures activeFilter == old(activeFilter) && showFullPortfolio == old(showFullPortfolio)
    {
      var wasOpen := isModalOpen;
      isModalOpen := false;
      selectedProject := None;
      if wasOpen {
        ModalEffect();
      }
    }

    /** A keydown on the document: only the attached listener sees it, and it reacts to Escape alone. */
    method KeyDown(key: string)
      requires Valid()
      modifies this
      ensures Valid()
      ensures old(isModalOpen) && key == EscapeKey ==>
                !isModalOpen && selectedProject == None && !escapeListenerAttached && bodyOverflow == "unset" &&
                scrollReleases == old(scrollReleases) + 1 && scrollLocks == old(scrollLocks)
      ensures !(old(isModalOpen) && key == EscapeKey) ==>
                isModalOpen == old(isModalOpen) && selectedProject == old(selectedProject) &&
                bodyOverflow == old(bodyOverflow) && escapeListenerAttached == old(escapeListenerAttached) &&
                scrollReleases == old(scrollReleases) && scrollLocks == old(scrollLocks)
      ensures activeFilter == old(activeFilter) && showFullPortfolio == old(showFullPortfolio)
    {
      if escapeListenerAttached && key == EscapeKey && isModalOpen {
        CloseModal();
      }
    }

    /** A click on the rendered lightbox: the backdrop and the close control close it, the content does not. */
    method Click(target: ClickTarget)
      requires Valid()
      modifies this
      ensures Valid()
      ensures old(ModalRendered()) && target != Content ==>
                !isModalOpen && selectedProject == None && !escapeListenerAttached && bodyOverflow == "unset" &&
                scrollReleases == old(scrollReleases) + 1 && scrollLocks == old(scrollLocks)
      ensures !(old(ModalRendered()) && target != Content) ==>
                isModalOpen == old(isModalOpen) && selectedProject == old(selectedProject) &&
                bodyOverflow == old(bodyOverflow) && escapeListenerAttached == old(escapeListenerAttached) &&
                scrollReleases == old(scrollReleases) && scrollLocks == old(scrollLocks)
      ensures activeFilter == old(activeFilter) && showFullPortfolio == old(showFullPortfolio)
    {
      if ModalRendered() {
        match target
        case Backdrop => CloseModal();
        case CloseButton => CloseModal();
        case Content =>
      }
    }

    /**
     * Unmounting runs the cleanup of the last effect run, whatever the state:
     * the listener is detached, overflow becomes 'unset', and every lock has
     * then been released.
     */
    method Unmount()
      requires Valid()
      modifies this`escapeListenerAttached, this`bodyOverflow, this`scrollReleases
      ensures !escapeListenerAttached && bodyOverflow == "unset"
      ensures scrollReleases == old(scrollReleases) + (if isModalOpen then 1 else 0)
      ensures scrollLocks == scrollReleases
    {
      if escapeListenerAttached {
        scrollReleases := scrollReleases + 1;
      }
      escapeListenerAttached := false;
      bodyOverflow := "unset";
    }
  }
}
