/**
 * The projects page: the portfolio filtered by category, and a details
 * window whose image carousel wraps around at both ends.
 */
module Projects {
  import opened Common

  /** A portfolio entry; descriptions and thumbnails are not modelled. */
  datatype Project = Project(id: nat, title: string, category: string)

  /** The six projects of the shared table followed by the six added on this page. */
  const ExtendedProjects: seq<Project> := [
    Project(1, "Harmony Residences", "residential"),
    Project(2, "Skyline Corporate Tower", "commercial"),
    Project(3, "Serene Living Spaces", "interior"),
    Project(4, "Cultural Heritage Center", "public"),
    Project(5, "Fashion District Pavilion", "commercial"),
    Project(6, "Tranquil Oasis Villa", "residential"),
    Project(7, "Metro Art Station", "public"),
    Project(8, "Beachfront Villa", "residential"),
    Project(9, "Tech Hub Offices", "commercial"),
    Project(10, "Urban Loft Conversion", "interior"),
    Project(11, "Wellness Center", "commercial"),
    Project(12, "Community Library", "public")
  ]

  /** `filteredProjects`: everything for "all", otherwise the projects of that category. */
  function FilterProjects(projects: seq<Project>, filter: string): seq<Project>
  {
    if filter == "all" then projects else Filter(projects, (p: Project) => p.category == filter)
  }

  /**
   * A category filter keeps exactly the projects of that category, and keeps
   * them in their original order: the result is the input with the other
   * categories' projects removed.
   */
  lemma FilterProjectsByCategory(projects: seq<Project>, filter: string, p: Project)
    requires filter != "all"
    ensures p in FilterProjects(projects, filter) <==> p in projects && p.category == filter
    ensures forall q :: q in FilterProjects(projects, filter) ==> q.category == filter
  {
    var keep := (q: Project) => q.category == filter;
    FilterMembership(projects, keep, p);
    forall q | q in FilterProjects(projects, filter) ensures q.category == filter {
      FilterMembership(projects, keep, q);
    }
  }

  /** The filter buttons of the page: "all" and the four categories. */
  const ProjectCategoryIds: seq<string> := ["all", "residential", "commercial", "public", "interior"]

  /** Every project's category has a filter button, so each project is reachable through its own category's filter. */
  lemma PortfolioCategories(i: nat)
    requires i < |ExtendedProjects|
    ensures ExtendedProjects[i].category in ProjectCategoryIds[1..]
    ensures ExtendedProjects[i] in FilterProjects(ExtendedProjects, ExtendedProjects[i].category)
  {
    FilterProjectsByCategory(ExtendedProjects, ExtendedProjects[i].category, ExtendedProjects[i]);
  }

  // ---------------------------------------------------------------------------
  // Project details

  /** The contents of the details window; the prose fields are not modelled, and images are named by their photo id. */
  datatype ProjectDetails = ProjectDetails(title: string, location: string, year: string, images: seq<string>)

  /** `getProjectDetails`: only projects 1 and 2 have a details entry; any other id gives `null`. */
  function GetProjectDetails(id: int): (r: Option<ProjectDetails>)
    ensures r.Some? <==> id == 1 || id == 2
    ensures r.Some? ==> |r.value.images| == 3
  {
    if id == 1 then
      Some(ProjectDetails("Harmony Residences", "Chennai, Tamil Nadu", "2020", [
        "photo-1600585154340-be6161a56a0c",
        "photo-1574873215043-44119461cb3b",
        "photo-1600607687939-ce8a6c25118c"]))
    else if id == 2 then
      Some(ProjectDetails("Skyline Corporate Tower", "Chennai Business District", "2019", [
        "photo-1486325212027-8081e485255e",
        "photo-1497366811353-6870744d04b2",
        "photo-1504384308090-c894fdcc538d"]))
    else None
  }

  /** The details entries carry the titles of the portfolio entries with the same id. */
  lemma DetailsMatchPortfolio(i: nat)
    requires i < |ExtendedProjects| && GetProjectDetails(ExtendedProjects[i].id).Some?
    ensures GetProjectDetails(ExtendedProjects[i].id).value.title == ExtendedProjects[i].title
  {
  }

  /** `getProjectDetails(selectedProject)?.images.length`, with 0 where there are no details. */
  function ImageCount(id: int): nat {
    match GetProjectDetails(id)
    case Some(d) => |d.images|
    case None => 0
  }

  /** The arrows are shown only for a project with more than one image. */
  predicate ShowArrows(id: int) {
    ImageCount(id) > 1
  }

  // ---------------------------------------------------------------------------
  // The carousel

  /** `(length || 1) - 1`: the last index, with a missing or empty list counted as one image. */
  function LastIndex(count: nat): nat {
    (if count == 0 then 1 else count) - 1
  }

  /** The updater of the previous-image arrow. */
  function PrevImage(active: nat, count: nat): nat {
    if active == 0 then LastIndex(count) else active - 1
  }

  /** The updater of the next-image arrow. */
  function NextImage(active: nat, count: nat): nat {
    if active == LastIndex(count) then 0 else active + 1
  }

  /** Both arrows keep the index among the images, wrapping at the ends. */
  lemma ArrowsStayInRange(active: nat, count: nat)
    requires active < count
    ensures PrevImage(active, count) < count && NextImage(active, count) < count
    ensures PrevImage(active, count) == (active + count - 1) % count
    ensures NextImage(active, count) == (active + 1) % count
  {
  }

  /** The two arrows undo each other. */
  lemma ArrowsInverse(active: nat, count: nat)
    requires active < count
    ensures NextImage(PrevImage(active, count), count) == active
    ensures PrevImage(NextImage(active, count), count) == active
  {
  }

  /** The index after pressing the next arrow `k` times. */
  function NextTimes(active: nat, count: nat, k: nat): nat {
    if k == 0 then active else NextImage(NextTimes(active, count, k - 1), count)
  }

  /** Pressing next `j` and then `k` times is pressing it `j + k` times. */
  lemma {:induction false} NextTimesAdd(active: nat, count: nat, j: nat, k: nat)
    ensures NextTimes(active, count, j + k) == NextTimes(NextTimes(active, count, j), count, k)
  {
    if k > 0 {
      NextTimesAdd(active, count, j, k - 1);
    }
  }

  /** Short of the last image, `k` presses move `k` places forward. */
  lemma {:induction false} NextTimesForward(active: nat, count: nat, k: nat)
    requires active + k < count
    ensures NextTimes(active, count, k) == active + k
  {
    if k > 0 {
      NextTimesForward(active, count, k - 1);
    }
  }

  /** `count` presses of the next arrow come back to the image shown at the start. */
  lemma NextTimesCycle(active: nat, count: nat)
    requires active < count
    ensures NextTimes(active, count, count) == active
  {
    var toLast := count - 1 - active;
    NextTimesForward(active, count, toLast);
    NextTimesAdd(active, count, toLast, 1);
    assert NextTimes(active, count, toLast + 1) == 0;
    NextTimesAdd(active, count, toLast + 1, active);
    NextTimesForward(0, count, active);
  }

  // ---------------------------------------------------------------------------
  // Page state

  /** The page's state: the active filter, the open project and the image shown in its carousel. */
  class ProjectsPage {
    var activeFilter: string
    var selectedProject: Option<int>
    var activeImage: nat

    /** With no project open the carousel is at its first image; with one open the image is among its images. */
    ghost predicate Valid()
      reads this
    {
      (selectedProject.None? ==> activeImage == 0) &&
      (selectedProject.Some? ==> activeImage < ImageCount(selectedProject.value) || activeImage == 0)
    }

    constructor ()
      ensures Valid()
      ensures activeFilter == "all" && selectedProject == None && activeImage == 0
    {
      activeFilter := "all";
      selectedProject := None;
      activeImage := 0;
    }

    /** A filter button. */
    method SetActiveFilter(filter: string)
      modifies this
      ensures activeFilter == filter
      ensures selectedProject == old(selectedProject) && activeImage == old(activeImage)
    {
      activeFilter := filter;
    }

    /** The projects the grid shows. */
    function Shown(): seq<Project>
      reads this
    {
      FilterProjects(ExtendedProjects, activeFilter)
    }

    /** `openProjectDetails`: a project card is clicked while no window is open (the window's backdrop covers the cards). */
    method OpenProjectDetails(id: int)
      requires Valid() && selectedProject.None?
      modifies this
      ensures Valid()
      ensures selectedProject == Some(id) && activeImage == 0 && activeFilter == old(activeFilter)
    {
      selectedProject := Some(id);
    }

    /** `closeProjectDetails`: no project open and the carousel back at its first image. */
    method CloseProjectDetails()
      modifies this
      ensures Valid()
      ensures selectedProject == None && activeImage == 0 && activeFilter == old(activeFilter)
    {
      selectedProject := None;
      activeImage := 0;
    }

    /** The previous-image arrow, shown only for a project with more than one image. */
    method ShowPrevImage()
      requires Valid() && selectedProject.Some? && ShowArrows(selectedProject.value)
      modifies this
      ensures Valid()
      ensures selectedProject == old(selectedProject) && activeFilter == old(activeFilter)
      ensures selectedProject.Some? && activeImage == PrevImage(old(activeImage), ImageCount(selectedProject.value))
    {
      activeImage := PrevImage(activeImage, ImageCount(selectedProject.value));
    }

    /** The next-image arrow. */
    method ShowNextImage()
      requires Valid() && selectedProject.Some? && ShowArrows(selectedProject.value)
      modifies this
      ensures Valid()
      ensures selectedProject == old(selectedProject) && activeFilter == old(activeFilter)
      ensures selectedProject.Some? && activeImage == NextImage(old(activeImage), ImageCount(selectedProject.value))
    {
      activeImage := NextImage(activeImage, ImageCount(selectedProject.value));
    }

    /** An indicator dot: one per image of the open project. */
    method SelectImage(index: nat)
      requires Valid() && selectedProject.Some? && index < ImageCount(selectedProject.value)
      modifies this
      ensures Valid()
      ensures activeImage == index && selectedProject == old(selectedProject) && activeFilter == old(activeFilter)
    {
      activeImage := index;
    }
  }
}
