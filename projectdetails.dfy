/** The project details page: the route parameter, the lookup of the stored
    project whose id matches it, the defaults filled in for missing fields,
    the GitHub click guard, the technology icon lookup and the two counts. */
module ProjectDetails {
  import opened Common
  import CardProject

  const DEFAULT_GITHUB := "https://github.com/janninobaoc"
  const PRIVATE_GITHUB := "Private"

  /** The `id` parameter the router extracts from a path of the form
      `/project/<id>`: one non-empty segment. */
  function RouteParam(path: string): (id: Option<string>)
    ensures id.Some? ==> CardProject.DETAILS_PREFIX + id.value == path && id.value != "" && '/' !in id.value
  {
    var prefix := CardProject.DETAILS_PREFIX;
    if prefix <= path && |path| > |prefix| && '/' !in path[|prefix|..] then
      assert prefix + path[|prefix|..] == path;
      Some(path[|prefix|..])
    else
      None
  }

  /** Whether a stored project is the one the route names: `String(p.id) === id`.
      A string id must equal the route id; a numeric id matches only a route
      id that is the decimal form of that very number; a missing id matches
      only the text "undefined". */
  function MatchesRoute(p: Project, routeId: string): (r: bool)
    ensures p.id.None? ==> (r <==> routeId == "undefined")
    ensures p.id.Some? && p.id.value.StrId? ==> (r <==> routeId == p.id.value.s)
    ensures p.id.Some? && p.id.value.NumId? ==>
              (r ==> IntShaped(routeId) && IntValue(routeId) == p.id.value.n)
  {
    IdText(p.id) == routeId
  }

  /** The position `find` stops at: the first matching project. */
  function FindIndex(stored: seq<Project>, routeId: string): (r: Option<nat>)
    ensures r.Some? ==> r.value < |stored| && MatchesRoute(stored[r.value], routeId)
    ensures r.Some? ==> forall j :: 0 <= j < r.value ==> !MatchesRoute(stored[j], routeId)
    ensures r.None? ==> forall j :: 0 <= j < |stored| ==> !MatchesRoute(stored[j], routeId)
  {
    if stored == [] then None
    else if MatchesRoute(stored[0], routeId) then Some(0)
    else
      match FindIndex(stored[1..], routeId)
      case None => None
      case Some(i) => Some(i + 1)
  }

  /** The project as the page keeps it: every stored field, with a missing
      feature or technology list replaced by an empty one and a missing or
      empty GitHub link replaced by the owner's profile. */
  function Normalise(p: Project): (r: Project)
    ensures r.id == p.id && r.img == p.img && r.title == p.title
    ensures r.description == p.description && r.link == p.link && r.github == p.github
    ensures r.Features == (if p.Features.Some? then p.Features else Some([]))
    ensures r.TechStack == (if p.TechStack.Some? then p.TechStack else Some([]))
    ensures r.Github == (if StringTruthy(p.Github) then p.Github else Some(DEFAULT_GITHUB))
  {
    p.(Features := if p.Features.Some? then p.Features else Some([]),
       TechStack := if p.TechStack.Some? then p.TechStack else Some([]),
       Github := if StringTruthy(p.Github) then p.Github else Some(DEFAULT_GITHUB))
  }

  /** Normalising twice is normalising once, and a normalised project has
      both lists and a truthy GitHub link. */
  lemma NormaliseIdempotent(p: Project)
    ensures Normalise(Normalise(p)) == Normalise(p)
    ensures Normalise(p).Features.Some? && Normalise(p).TechStack.Some? && StringTruthy(Normalise(p).Github)
  {
  }

  /** The lookup effect: nothing happens for an empty route id; otherwise the
      first stored project whose id renders as the route id, normalised.
      While the result is missing the page shows its loading view. */
  function LoadProject(routeId: string, stored: seq<Project>): (r: Option<Project>)
    ensures routeId == "" ==> r.None?
    ensures r.Some? <==> routeId != "" && exists j :: 0 <= j < |stored| && MatchesRoute(stored[j], routeId)
    ensures r.Some? ==> exists k :: 0 <= k < |stored| && r.value == Normalise(stored[k]) && MatchesRoute(stored[k], routeId)
                                    && forall j :: 0 <= j < k ==> !MatchesRoute(stored[j], routeId)
  {
    if routeId == "" then None
    else
      match FindIndex(stored, routeId)
      case None => None
      case Some(k) => Some(Normalise(stored[k]))
  }

  /** `handleGithubClick`: the link is followed unless it is "Private". */
  function GithubClickAllowed(githubLink: Option<string>): (ok: bool)
    ensures ok <==> githubLink != Some(PRIVATE_GITHUB)
  {
    !(githubLink.Some? && githubLink.value == PRIVATE_GITHUB)
  }

  /** The default GitHub link that normalisation fills in is always followed. */
  lemma DefaultGithubIsFollowed(p: Project)
    requires !StringTruthy(p.Github)
    ensures GithubClickAllowed(Normalise(p).Github)
  {
  }

  /** The GitHub anchor of the page showing a stored project, as the page
      writes it: `href` and the click guard read the `github` key of the
      normalised project, which normalisation leaves alone. */
  function GithubHrefAsWritten(stored: Project): (href: Option<string>)
    ensures href == stored.github
  {
    Normalise(stored).github
  }

  /** A stored project without any GitHub link: normalisation fills in the
      default under `Github`, yet the anchor still has no target. */
  lemma DefaultGithubNeverReachesAnchor()
    ensures var p := Project(Some(NumId(1)), None, None, None, None, None, None, None, None);
            && Normalise(p).Github == Some(DEFAULT_GITHUB)
            && GithubHrefAsWritten(p).None?
  {
  }

  /** The GitHub anchor reading the key that normalisation fills in: the
      stored link when it is non-empty, the owner's profile otherwise, which
      the click guard lets through. */
  function GithubHref(stored: Project): (href: Option<string>)
    ensures StringTruthy(href)
    ensures StringTruthy(stored.Github) ==> href == stored.Github
    ensures !StringTruthy(stored.Github) ==> href == Some(DEFAULT_GITHUB) && GithubClickAllowed(href)
  {
    Normalise(stored).Github
  }

  /** With the corrected anchor every loaded project links somewhere: to its
      own non-empty link, or to the owner's profile, which is never blocked. */
  lemma LoadedProjectHasGithubTarget(routeId: string, stored: seq<Project>)
    requires LoadProject(routeId, stored).Some?
    ensures FindIndex(stored, routeId).Some?
    ensures LoadProject(routeId, stored).value.Github == GithubHref(stored[FindIndex(stored, routeId).value])
    ensures StringTruthy(LoadProject(routeId, stored).value.Github)
    ensures var p := LoadProject(routeId, stored).value;
            p.Github == Some(DEFAULT_GITHUB) ==> GithubClickAllowed(p.Github)
  {
  }

  /** An icon: a path to an image, or the generic package component. */
  datatype Icon = IconPath(path: string) | PackageIcon

  const TECH_ICONS: map<string, Icon> := map[
    "HTML" := IconPath("/svg/html.svg"),
    "CSS" := IconPath("/svg/css.svg"),
    "Javascript" := IconPath("/svg/javascript.svg"),
    "Tailwind" := IconPath("/svg/tailwind.svg"),
    "NextJs" := IconPath("/svg/nextjs.svg"),
    "ReactJs" := IconPath("/svg/reactjs.svg"),
    "VueJs" := IconPath("/svg/vuejs.svg"),
    "Laravel" := IconPath("/svg/laravel.svg"),
    "MySQL" := IconPath("/svg/mysql.svg"),
    "Java" := IconPath("/svg/java.svg"),
    "default" := PackageIcon
  ]

  /** The badge's icon: the mapped entry for a known name, the default one otherwise. */
  function IconFor(tech: string): (icon: Icon)
    ensures tech in TECH_ICONS ==> icon == TECH_ICONS[tech]
    ensures tech !in TECH_ICONS ==> icon == PackageIcon
  {
    if tech in TECH_ICONS then TECH_ICONS[tech] else TECH_ICONS["default"]
  }

  /** `typeof Icon === "string"`: the badge renders an image for every icon
      but the default one. */
  function IsImage(icon: Icon): (r: bool)
    ensures r <==> icon != TECH_ICONS["default"]
  {
    icon.IconPath?
  }

  /** A badge shows an image exactly for the ten named technologies. */
  lemma BadgeImageIffKnown(tech: string)
    ensures IsImage(IconFor(tech)) <==> tech in TECH_ICONS && tech != "default"
  {
  }

  /** `ProjectStats`: the technology and feature counts, 0 when a list or
      the project is missing. */
  function StatsCounts(project: Option<Project>): (counts: (nat, nat))
    ensures project.None? ==> counts == (0, 0)
    ensures project.Some? && project.value.TechStack.Some? ==> counts.0 == |project.value.TechStack.value|
    ensures project.Some? && project.value.Features.Some? ==> counts.1 == |project.value.Features.value|
    ensures project.Some? && project.value.TechStack.None? ==> counts.0 == 0
    ensures project.Some? && project.value.Features.None? ==> counts.1 == 0
  {
    match project
    case None => (0, 0)
    case Some(p) => (LengthOrZero(p.TechStack), LengthOrZero(p.Features))
  }

  /** A card's details link leads to its project: the router hands the page
      `String(id)`, and the lookup finds that project (normalised), provided
      no earlier stored project renders to the same id string. */
  lemma {:induction false} CardLinkFindsProject(stored: seq<Project>, k: nat)
    requires k < |stored| && IdTruthy(stored[k].id)
    requires '/' !in IdString(stored[k].id.value)
    requires forall j :: 0 <= j < k ==> !MatchesRoute(stored[j], IdText(stored[k].id))
    ensures CardProject.RenderDetails(stored[k].id).DetailsLink?
    ensures RouteParam(CardProject.RenderDetails(stored[k].id).href) == Some(IdString(stored[k].id.value))
    ensures LoadProject(IdString(stored[k].id.value), stored) == Some(Normalise(stored[k]))
  {
    var id := stored[k].id.value;
    var href := CardProject.DetailsHref(id);
    assert href[|CardProject.DETAILS_PREFIX|..] == IdString(id);
    assert IdString(id) != "";
    var r := FindIndex(stored, IdString(id));
    assert MatchesRoute(stored[k], IdString(id));
    assert r.Some? && r.value == k;
  }

  /** Numeric ids, the ones the data uses, never contain a slash. */
  lemma NumericIdHasNoSlash(n: int)
    ensures '/' !in IdString(NumId(n))
  {
    var s := IntToString(n);
    assert forall i :: 0 <= i < |s| ==> s[i] != '/';
  }

  /** With numeric ids that differ, no other project renders to a card's id
      string, since a number's decimal form determines the number; a missing
      id renders as "undefined", which is not a number's form either. */
  lemma NumericIdsMatchOnlyTheirProject(stored: seq<Project>, k: nat, n: int)
    requires k < |stored| && stored[k].id == Some(NumId(n))
    requires forall j :: 0 <= j < k ==> stored[j].id.None? || (stored[j].id.value.NumId? && stored[j].id.value.n != n)
    ensures forall j :: 0 <= j < k ==> !MatchesRoute(stored[j], IntToString(n))
  {
    assert !IsDigit('u');
  }

  /** The data's case: a card with a non-zero numeric id, different from the
      numeric ids before it, leads to the page of its own project. */
  lemma NumericCardLinkFindsProject(stored: seq<Project>, k: nat, n: int)
    requires k < |stored| && stored[k].id == Some(NumId(n)) && n != 0
    requires forall j :: 0 <= j < k ==> stored[j].id.None? || (stored[j].id.value.NumId? && stored[j].id.value.n != n)
    ensures RouteParam(CardProject.RenderDetails(stored[k].id).href) == Some(IntToString(n))
    ensures LoadProject(IntToString(n), stored) == Some(Normalise(stored[k]))
  {
    NumericIdHasNoSlash(n);
    NumericIdsMatchOnlyTheirProject(stored, k, n);
    CardLinkFindsProject(stored, k);
  }
}
