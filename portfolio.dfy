/** The portfolio showcase: the windowed project and certificate lists with
    their independent show-more toggles, the cache hydration on mount and
    the application of a fetch result to the lists and the cache. */
module Portfolio {
  import opened Common

  const MOBILE_BREAKPOINT: int := 768
  const MOBILE_ITEMS: nat := 4
  const DESKTOP_ITEMS: nat := 6

  datatype Certificate = Certificate(id: Option<Id>, img: Option<string>)

  /** The number of items shown while a list is collapsed: fewer on a
      viewport narrower than the breakpoint. */
  function InitialItems(width: int): (n: nat)
    ensures width < MOBILE_BREAKPOINT ==> n == MOBILE_ITEMS
    ensures width >= MOBILE_BREAKPOINT ==> n == DESKTOP_ITEMS
  {
    if width < MOBILE_BREAKPOINT then MOBILE_ITEMS else DESKTOP_ITEMS
  }

  /** `items.slice(0, n)`: the first `n` items, or all of them if there are fewer. */
  function Take<T>(items: seq<T>, n: nat): (r: seq<T>)
    ensures |r| == if |items| < n then |items| else n
    ensures r == items[..|r|]
  {
    if |items| <= n then items else items[..n]
  }

  /** The displayed part of a list: everything when expanded, the first
      `initial` items in order when collapsed. */
  function Displayed<T>(items: seq<T>, showAll: bool, initial: nat): (r: seq<T>)
    ensures showAll ==> r == items
    ensures !showAll ==> r == items[..if |items| < initial then |items| else initial]
  {
    if showAll then items else Take(items, initial)
  }

  /** Whether the toggle button is rendered under a list: it is offered
      exactly when it would change what is displayed, and the collapsed view
      is then strictly shorter than the list. */
  function ToggleVisible<T>(items: seq<T>, initial: nat): (shown: bool)
    ensures shown <==> Displayed(items, false, initial) != Displayed(items, true, initial)
    ensures shown ==> |Displayed(items, false, initial)| == initial < |items|
  {
    assert |items| > initial ==> |Displayed(items, false, initial)| == initial;
    |items| > initial
  }

  /** The button's caption follows the list's flag. */
  function ToggleLabel(isShowingMore: bool): (caption: string)
    ensures caption == "See Less" <==> isShowingMore
    ensures caption == "See More" <==> !isShowingMore
  {
    if isShowingMore then "See Less" else "See More"
  }

  /** Which list a toggle button belongs to. */
  datatype ListKind = Projects | Certificates

  datatype ShowFlags = ShowFlags(showAllProjects: bool, showAllCertificates: bool)

  /** `toggleShowMore(kind)`: flips the flag of that list only. */
  function Toggled(f: ShowFlags, kind: ListKind): (r: ShowFlags)
    ensures kind == Projects ==> r.showAllProjects == !f.showAllProjects && r.showAllCertificates == f.showAllCertificates
    ensures kind == Certificates ==> r.showAllCertificates == !f.showAllCertificates && r.showAllProjects == f.showAllProjects
  {
    match kind
    case Projects => f.(showAllProjects := !f.showAllProjects)
    case Certificates => f.(showAllCertificates := !f.showAllCertificates)
  }

  /** Toggling the same list twice restores the flags, and toggles of the two
      lists commute. */
  lemma ToggleInvolutive(f: ShowFlags, kind: ListKind, other: ListKind)
    ensures Toggled(Toggled(f, kind), kind) == f
    ensures Toggled(Toggled(f, kind), other) == Toggled(Toggled(f, other), kind)
  {
  }

  /** The two cache entries as the browser's storage holds them. */
  datatype Cache = Cache(projects: Option<seq<Project>>, certificates: Option<seq<Certificate>>)

  /** The lists loaded from the cache on mount: only when both entries exist. */
  function Hydrate(cache: Cache): (r: Option<(seq<Project>, seq<Certificate>)>)
    ensures r.Some? <==> cache.projects.Some? && cache.certificates.Some?
    ensures r.Some? ==> r.value == (cache.projects.value, cache.certificates.value)
  {
    if cache.projects.Some? && cache.certificates.Some? then
      Some((cache.projects.value, cache.certificates.value))
    else
      None
  }

  /** One response of the backend: an error, or data that may be missing. */
  datatype Response<T> = Response(error: Option<string>, data: Option<seq<T>>)

  function DataOrEmpty<T>(r: Response<T>): (d: seq<T>)
    ensures r.data.None? ==> d == []
    ensures r.data.Some? ==> d == r.data.value
  {
    if r.data.Some? then r.data.value else []
  }

  /** The lists a pair of responses yields, or nothing if either failed. */
  function FetchOutcome(pr: Response<Project>, cr: Response<Certificate>): (r: Option<(seq<Project>, seq<Certificate>)>)
    ensures r.None? <==> pr.error.Some? || cr.error.Some?
    ensures r.Some? ==> r.value == (DataOrEmpty(pr), DataOrEmpty(cr))
  {
    if pr.error.Some? || cr.error.Some? then None else Some((DataOrEmpty(pr), DataOrEmpty(cr)))
  }

  /** What a successful fetch writes to the cache is what the next mount
      reads back: the cache and the lists agree. */
  lemma FetchThenHydrate(pr: Response<Project>, cr: Response<Certificate>)
    requires FetchOutcome(pr, cr).Some?
    ensures Hydrate(Cache(Some(DataOrEmpty(pr)), Some(DataOrEmpty(cr)))) == FetchOutcome(pr, cr)
  {
  }

  /** The showcase's state, together with the two cache entries it reads and writes. */
  class Showcase {
    var projects: seq<Project>
    var certificates: seq<Certificate>
    var showAllProjects: bool
    var showAllCertificates: bool
    var initialItems: nat
    var cache: Cache

    function Flags(): ShowFlags
      reads this
    {
      ShowFlags(showAllProjects, showAllCertificates)
    }

    /** Mounting: both lists collapsed, the collapsed size chosen from the
        viewport width, and the cached lists loaded when both are present. */
    constructor (width: int, stored: Cache)
      ensures initialItems == InitialItems(width)
      ensures !showAllProjects && !showAllCertificates
      ensures cache == stored
      ensures Hydrate(stored).Some? ==> (projects, certificates) == Hydrate(stored).value
      ensures Hydrate(stored).None? ==> projects == [] && certificates == []
    {
      projects, certificates := [], [];
      showAllProjects, showAllCertificates := false, false;
      initialItems := InitialItems(width);
      cache := stored;
      if stored.projects.Some? && stored.certificates.Some? {
        projects := stored.projects.value;
        certificates := stored.certificates.value;
      }
    }

    function DisplayedProjects(): (r: seq<Project>)
      reads this
      ensures r <= projects
    {
      Displayed(projects, showAllProjects, initialItems)
    }

    function DisplayedCertificates(): (r: seq<Certificate>)
      reads this
      ensures r <= certificates
    {
      Displayed(certificates, showAllCertificates, initialItems)
    }

    /** `toggleShowMore`. */
    method ToggleShowMore(kind: ListKind)
      modifies this
      ensures Flags() == Toggled(old(Flags()), kind)
      ensures projects == old(projects) && certificates == old(certificates)
      ensures initialItems == old(initialItems) && cache == old(cache)
    {
      if kind == Projects {
        showAllProjects := !showAllProjects;
      } else {
        showAllCertificates := !showAllCertificates;
      }
    }

    /** The end of `fetchData`: an error in either response changes nothing;
        otherwise both lists are replaced and the same data is cached. */
    method ApplyFetch(pr: Response<Project>, cr: Response<Certificate>)
      modifies this
      ensures FetchOutcome(pr, cr).None? ==>
                projects == old(projects) && certificates == old(certificates) && cache == old(cache)
      ensures FetchOutcome(pr, cr).Some? ==>
                (projects, certificates) == FetchOutcome(pr, cr).value
                && cache == Cache(Some(projects), Some(certificates))
      ensures Flags() == old(Flags()) && initialItems == old(initialItems)
    {
      if pr.error.Some? {
        return;
      }
      if cr.error.Some? {
        return;
      }
      var projectData := DataOrEmpty(pr);
      var certificateData := DataOrEmpty(cr);
      projects := projectData;
      certificates := certificateData;
      cache := Cache(Some(projectData), Some(certificateData));
    }
  }
}
