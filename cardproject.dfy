/** A project card: the live-demo and details links, each rendered only
    when its field is truthy, and their click guards. */
module CardProject {
  import opened Common

  const DETAILS_PREFIX := "/project/"

  /** `/project/${id}`. */
  function DetailsHref(id: Id): (href: string)
    ensures DETAILS_PREFIX <= href && href[|DETAILS_PREFIX|..] == IdString(id)
  {
    DETAILS_PREFIX + IdString(id)
  }

  /** What the card shows in place of the live-demo link. */
  datatype DemoView = LiveDemo(href: string) | DemoNotAvailable

  /** What the card shows in place of the details link. */
  datatype DetailsView = DetailsLink(href: string) | DetailsNotAvailable

  function RenderDemo(link: Option<string>): (v: DemoView)
    ensures v.LiveDemo? <==> StringTruthy(link)
    ensures v.LiveDemo? ==> v.href == link.value
  {
    if StringTruthy(link) then LiveDemo(link.value) else DemoNotAvailable
  }

  function RenderDetails(id: Option<Id>): (v: DetailsView)
    ensures v.DetailsLink? <==> IdTruthy(id)
    ensures v.DetailsLink? ==> v.href == DetailsHref(id.value)
  {
    if IdTruthy(id) then DetailsLink(DetailsHref(id.value)) else DetailsNotAvailable
  }

  /** `handleLiveDemo`: navigation is prevented exactly when the link is
      falsy, that is missing or empty, which is when no demo anchor is shown. */
  function LiveDemoPrevented(link: Option<string>): (prevented: bool)
    ensures prevented <==> link.None? || link.value == ""
    ensures prevented <==> !RenderDemo(link).LiveDemo?
  {
    !StringTruthy(link)
  }

  /** `handleDetails`: navigation is prevented exactly when the id is falsy,
      that is missing, 0 or empty, which is when no details link is shown. */
  function DetailsPrevented(id: Option<Id>): (prevented: bool)
    ensures prevented <==> id.None? || id == Some(NumId(0)) || id == Some(StrId(""))
    ensures prevented <==> !RenderDetails(id).DetailsLink?
  {
    !IdTruthy(id)
  }

  /** A link the card renders is never blocked by its own click guard, so the
      guards only matter for links that are not shown; an empty link and an
      id of 0 count as missing. */
  lemma RenderedLinksAreNotBlocked(link: Option<string>, id: Option<Id>)
    ensures RenderDemo(link).LiveDemo? <==> !LiveDemoPrevented(link)
    ensures RenderDetails(id).DetailsLink? <==> !DetailsPrevented(id)
    ensures RenderDemo(Some("")) == DemoNotAvailable && LiveDemoPrevented(Some(""))
    ensures RenderDetails(Some(NumId(0))) == DetailsNotAvailable && DetailsPrevented(Some(NumId(0)))
  {
  }
}
