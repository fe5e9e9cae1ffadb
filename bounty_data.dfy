/** The bounty catalogue and its lookups (src/lib/bounty/data.ts). Every query
    is one `filter` or `find` over a list of bounties; the list is a parameter
    here, and `Catalog` holds the entries the site ships with. */
module BountyData {
  import opened Seqs

  datatype Status = Active | Claimed | Completed | Expired

  datatype Difficulty = Beginner | Intermediate | Advanced | Expert

  /** The fields of a bounty that the lookups, the search and the totals read. */
  datatype Bounty = Bounty(
    id: string,
    slug: string,
    title: string,
    description: string,
    reward: int,
    difficulty: Difficulty,
    status: Status,
    tags: seq<string>)

  const LandingPage := Bounty("1", "kracked-devs-landing-page", "Kracked Devs Landing Page",
    "Create a creative, standout landing page design for Kracked Devs – a vibrant developer community.",
    100, Beginner, Completed, ["design", "landing-page", "ui", "frontend", "creative"])
  const JobBoard := Bounty("2", "gamified-tech-job-board", "Build a Gamified Tech Job Board for Kracked Devs",
    "Implement gamification features into a tech job board – points, badges, leaderboards for job applications, postings, or hires.",
    150, Intermediate, Completed, ["gamification", "job-board", "nextjs", "typescript", "fullstack"])
  const ProfileWidget := Bounty("3", "github-profile-widget", "Build a Kracked Devs Profile GitHub Widget",
    "Build a customizable GitHub widget for Kracked Devs profiles with OAuth, contribution graph, themes, and live preview.",
    150, Advanced, Completed, ["github", "oauth", "widget", "react", "api", "profile"])

  const Catalog: seq<Bounty> := [LandingPage, JobBoard, ProfileWidget]

  /** `getBountyBySlug`: the first bounty with that slug, if any. */
  function BountyBySlug(bounties: seq<Bounty>, slug: string): (r: Option<Bounty>)
    ensures r.None? <==> forall i :: 0 <= i < |bounties| ==> bounties[i].slug != slug
    ensures r.Some? ==>
      exists i :: 0 <= i < |bounties| && bounties[i] == r.value && r.value.slug == slug &&
                  forall j :: 0 <= j < i ==> bounties[j].slug != slug
  {
    Find((b: Bounty) => b.slug == slug, bounties)
  }

  /** `getAllBounties`: the catalogue itself. */
  function AllBounties(bounties: seq<Bounty>): (r: seq<Bounty>)
    ensures r == bounties
  {
    bounties
  }

  /** `getBountiesByStatus`: the bounties with status `status`, in catalogue order. */
  function BountiesByStatus(bounties: seq<Bounty>, status: Status): (r: seq<Bounty>)
    ensures forall b :: b in r <==> b in bounties && b.status == status
  {
    Filter((b: Bounty) => b.status == status, bounties)
  }

  /** `getActiveBounties`. */
  function ActiveBounties(bounties: seq<Bounty>): (r: seq<Bounty>)
    ensures forall b :: b in r <==> b in bounties && b.status == Active
  {
    Filter((b: Bounty) => b.status == Active, bounties)
  }

  /** `getCompletedBounties`. */
  function CompletedBounties(bounties: seq<Bounty>): (r: seq<Bounty>)
    ensures forall b :: b in r <==> b in bounties && b.status == Completed
  {
    Filter((b: Bounty) => b.status == Completed, bounties)
  }

  /** The status query keeps exactly the bounties with that status, each as
      often as it occurs, and in the order of the catalogue. */
  lemma BountiesByStatusIsExact(bounties: seq<Bounty>, status: Status)
    ensures IsSubsequence(BountiesByStatus(bounties, status), bounties)
    ensures forall b :: multiset(BountiesByStatus(bounties, status))[b] ==
                        if b.status == status then multiset(bounties)[b] else 0
  {
    FilterIsSubsequence((b: Bounty) => b.status == status, bounties);
    FilterCounts((b: Bounty) => b.status == status, bounties);
  }

  /** The two fixed-status queries are the status query at that status. */
  lemma FixedStatusQueries(bounties: seq<Bounty>)
    ensures ActiveBounties(bounties) == BountiesByStatus(bounties, Active)
    ensures CompletedBounties(bounties) == BountiesByStatus(bounties, Completed)
  {
    var active, completed := Active, Completed;
    FilterAgree((b: Bounty) => b.status == Active, (b: Bounty) => b.status == active, bounties);
    FilterAgree((b: Bounty) => b.status == Completed, (b: Bounty) => b.status == completed, bounties);
  }

  /** In the shipped catalogue every bounty is completed: nothing is active. */
  lemma CatalogStatuses()
    ensures CompletedBounties(Catalog) == Catalog
    ensures ActiveBounties(Catalog) == []
  {
    assert |Catalog| == 3;
    assert Catalog[0].status == Completed && Catalog[1].status == Completed && Catalog[2].status == Completed;
    assert forall i :: 0 <= i < |Catalog| ==> Catalog[i].status == Completed;
    FilterKeepsAll((b: Bounty) => b.status == Completed, Catalog);
    FilterDropsAll((b: Bounty) => b.status == Active, Catalog);
  }

  /** Catalogue slugs resolve to their entry; an unknown slug resolves to nothing. */
  lemma CatalogSlugs()
    ensures BountyBySlug(Catalog, "github-profile-widget") == Some(Catalog[2])
    ensures BountyBySlug(Catalog, "no-such-bounty") == None
  {
  }
}
