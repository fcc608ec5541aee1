/** The social links panel: the primary link shown on its own row, and the
    other links bound by position to the four smaller tiles. */
module SocialLinks {
  import opened Common

  datatype SocialLink = SocialLink(
    name: string,
    displayName: string,
    subText: string,
    url: string,
    color: string,
    gradient: string,
    isPrimary: bool)

  const SOCIAL_LINKS: seq<SocialLink> := [
    SocialLink("LinkedIn", "Let's Connect", "on LinkedIn", "#", "#0A66C2", "from-[#0A66C2] to-[#0077B5]", true),
    SocialLink("Instagram", "Instagram", "@jn", "#", "#E4405F", "from-[#833AB4] via-[#E4405F] to-[#FCAF45]", false),
    SocialLink("YouTube", "YouTube", "@jn", "#", "#FF0000", "from-[#FF0000] to-[#CC0000]", false),
    SocialLink("GitHub", "GitHub", "@jn", "#", "#ffffff", "from-[#333] to-[#24292e]", false),
    SocialLink("TikTok", "Tiktok", "@jn", "#", "black", "from-[#000000] via-[#25F4EE] to-[#FE2C55]", false)
  ]

  /** The position `find(l => l.isPrimary)` stops at: the first primary entry. */
  function PrimaryIndex(links: seq<SocialLink>): (r: Option<nat>)
    ensures r.Some? ==> r.value < |links| && links[r.value].isPrimary
    ensures r.Some? ==> forall j :: 0 <= j < r.value ==> !links[j].isPrimary
    ensures r.None? ==> forall j :: 0 <= j < |links| ==> !links[j].isPrimary
  {
    if links == [] then None
    else if links[0].isPrimary then Some(0)
    else
      match PrimaryIndex(links[1..])
      case None => None
      case Some(i) => Some(i + 1)
  }

  /** `find(l => l.isPrimary)`: the first primary entry, if any. */
  function FindPrimary(links: seq<SocialLink>): (r: Option<SocialLink>)
    ensures r.None? <==> forall i :: 0 <= i < |links| ==> !links[i].isPrimary
    ensures r.Some? ==> r.value.isPrimary && r.value == links[PrimaryIndex(links).value]
  {
    match PrimaryIndex(links)
    case None => None
    case Some(k) => Some(links[k])
  }

  /** `filter(l => !l.isPrimary)`: the non-primary entries in their order. */
  function OtherLinks(links: seq<SocialLink>): (r: seq<SocialLink>)
    ensures forall i :: 0 <= i < |r| ==> !r[i].isPrimary
    ensures |r| <= |links|
  {
    if links == [] then []
    else (if links[0].isPrimary then [] else [links[0]]) + OtherLinks(links[1..])
  }

  /** The other links are exactly the non-primary entries of the list. */
  lemma {:induction false} OtherLinksMembers(links: seq<SocialLink>)
    ensures forall l :: l in OtherLinks(links) <==> l in links && !l.isPrimary
  {
    if links != [] {
      OtherLinksMembers(links[1..]);
      assert links == [links[0]] + links[1..];
    }
  }

  /** Filtering a concatenation filters each part in place, so the other
      links keep their original order. */
  lemma {:induction false} OtherLinksKeepOrder(a: seq<SocialLink>, b: seq<SocialLink>)
    ensures OtherLinks(a + b) == OtherLinks(a) + OtherLinks(b)
  {
    if a == [] {
      assert a + b == b;
    } else {
      assert (a + b)[0] == a[0];
      assert (a + b)[1..] == a[1..] + b;
      OtherLinksKeepOrder(a[1..], b);
    }
  }

  /** The number of primary entries. */
  function PrimaryCount(links: seq<SocialLink>): nat
  {
    if links == [] then 0 else (if links[0].isPrimary then 1 else 0) + PrimaryCount(links[1..])
  }

  /** The primary link is the entry at the first primary position, and the
      other links are the list with that entry cut out, in their order. */
  predicate SplitsAtPrimary(links: seq<SocialLink>)
  {
    match PrimaryIndex(links)
    case None => false
    case Some(k) => FindPrimary(links) == Some(links[k]) && OtherLinks(links) == links[..k] + links[k + 1..]
  }

  /** With exactly one primary entry, every entry is shown exactly once: the
      primary entry on its own row, the others in their order. */
  lemma {:induction false} PartitionIsExact(links: seq<SocialLink>)
    requires PrimaryCount(links) == 1
    ensures SplitsAtPrimary(links)
    ensures |OtherLinks(links)| == |links| - 1
  {
    var x, rest := links[0], links[1..];
    assert links == [x] + rest;
    if x.isPrimary {
      SplitsWhenFirst(x, rest);
    } else {
      PartitionIsExact(rest);
      SplitsWhenLater(x, rest);
    }
  }

  lemma SplitsWhenFirst(x: SocialLink, rest: seq<SocialLink>)
    requires x.isPrimary && PrimaryCount(rest) == 0
    ensures SplitsAtPrimary([x] + rest)
  {
    var links := [x] + rest;
    OtherLinksCons(x, rest);
    NoPrimaryKeepsAll(rest);
    assert links[..0] + links[1..] == rest;
  }

  lemma SplitsWhenLater(x: SocialLink, rest: seq<SocialLink>)
    requires !x.isPrimary && SplitsAtPrimary(rest)
    ensures SplitsAtPrimary([x] + rest)
  {
    var links := [x] + rest;
    var k := PrimaryIndex(rest).value;
    assert links[1..] == rest;
    OtherLinksCons(x, rest);
    assert PrimaryIndex(links) == Some(k + 1);
    assert links[k + 1] == rest[k];
    assert OtherLinks(links) == [x] + (rest[..k] + rest[k + 1..]);
    assert links[..k + 1] == [x] + rest[..k];
    assert links[k + 2..] == rest[k + 1..];
  }

  lemma {:induction false} NoPrimaryKeepsAll(links: seq<SocialLink>)
    requires PrimaryCount(links) == 0
    ensures OtherLinks(links) == links
  {
    if links != [] {
      NoPrimaryKeepsAll(links[1..]);
      assert links == [links[0]] + links[1..];
    }
  }

  /** The element at a position, or `undefined` past the end, as positional
      destructuring binds it. */
  function At(s: seq<SocialLink>, i: nat): (r: Option<SocialLink>)
    ensures i < |s| ==> r == Some(s[i])
    ensures i >= |s| ==> r.None?
  {
    if i < |s| then Some(s[i]) else None
  }

  /** What rendering the panel comes to: nothing without a primary entry;
      a `TypeError` when a tile's entry is missing, since each tile reads
      `link.name` and `link.url`; otherwise the primary row and four tiles. */
  datatype PanelView =
    | NoPanel
    | RenderError
    | Panel(primary: SocialLink, instagram: SocialLink, youtube: SocialLink, github: SocialLink, tiktok: SocialLink)

  function RenderPanel(links: seq<SocialLink>): (r: PanelView)
    ensures r.NoPanel? <==> FindPrimary(links).None?
    ensures r.RenderError? <==> FindPrimary(links).Some? && |OtherLinks(links)| < 4
    ensures r.Panel? ==> r.primary == FindPrimary(links).value
    ensures r.Panel? ==> var others := OtherLinks(links);
                         && |others| >= 4
                         && r.instagram == others[0] && r.youtube == others[1]
                         && r.github == others[2] && r.tiktok == others[3]
  {
    var others := OtherLinks(links);
    match FindPrimary(links)
    case None => NoPanel
    case Some(p) =>
      var tiles := [At(others, 0), At(others, 1), At(others, 2), At(others, 3)];
      if exists i :: 0 <= i < 4 && tiles[i].None? then RenderError
      else Panel(p, tiles[0].value, tiles[1].value, tiles[2].value, tiles[3].value)
  }

  /** Filtering a list with a given first entry. */
  lemma OtherLinksCons(x: SocialLink, rest: seq<SocialLink>)
    ensures OtherLinks([x] + rest) == (if x.isPrimary then [] else [x]) + OtherLinks(rest)
  {
    assert ([x] + rest)[0] == x;
    assert ([x] + rest)[1..] == rest;
  }

  /** A five-entry list whose first entry alone is primary binds the
      remaining four entries to the tiles in order. */
  lemma PanelOfFive(l: seq<SocialLink>)
    requires |l| == 5 && l[0].isPrimary
    requires !l[1].isPrimary && !l[2].isPrimary && !l[3].isPrimary && !l[4].isPrimary
    ensures RenderPanel(l) == Panel(l[0], l[1], l[2], l[3], l[4])
  {
    var s4: seq<SocialLink> := [l[4]];
    var s3 := [l[3]] + s4;
    var s2 := [l[2]] + s3;
    var s1 := [l[1]] + s2;
    assert l == [l[0]] + s1;
    OtherLinksCons(l[4], []);
    assert [l[4]] + [] == s4;
    OtherLinksCons(l[3], s4);
    OtherLinksCons(l[2], s3);
    OtherLinksCons(l[1], s2);
    OtherLinksCons(l[0], s1);
    assert OtherLinks(l) == s1;
    assert PrimaryIndex(l) == Some(0);
  }

  /** With the panel's own list, the names line up with the tiles they are bound to. */
  lemma PanelBindsByName()
    ensures RenderPanel(SOCIAL_LINKS).Panel?
    ensures var p := RenderPanel(SOCIAL_LINKS);
            && p.primary.name == "LinkedIn"
            && p.instagram.name == "Instagram" && p.youtube.name == "YouTube"
            && p.github.name == "GitHub" && p.tiktok.name == "TikTok"
  {
    PanelOfFive(SOCIAL_LINKS);
  }
}
