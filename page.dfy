/**
 * The page's own state and data: which project card is expanded, the contact
 * form's fields, the image preview, the image path prefix of a production
 * build, and the table of projects the page shows.
 */
module Page {
  import opened Wrappers
  import ProjectCarousel

  type Image = ProjectCarousel.Image

  /** The prefix a production build serves its images under. */
  const BasePath: string := "/Portofolio"

  /** `getImagePath`: the path under the production prefix, or unchanged in development. */
  function GetImagePath(production: bool, path: string): (r: string)
    ensures production ==> |r| == |BasePath| + |path| && r[..|BasePath|] == BasePath && r[|BasePath|..] == path
    ensures !production ==> r == path
  {
    if production then BasePath + path else path
  }

  /** Distinct image paths stay distinct once prefixed. */
  lemma GetImagePathInjective(production: bool, p: string, q: string)
    requires GetImagePath(production, p) == GetImagePath(production, q)
    ensures p == q
  {
    if production {
      assert p == GetImagePath(production, p)[|BasePath|..];
    }
  }

  /** `toggleProject`: collapse the card if it is the expanded one, otherwise expand it instead. */
  function Toggle(expanded: Option<nat>, index: nat): (r: Option<nat>)
    ensures r == None <==> expanded == Some(index)
    ensures r.Some? ==> r.value == index
  {
    if expanded == Some(index) then None else Some(index)
  }

  /**
   * Toggling the same card twice restores the previous state exactly when no card
   * or that card was expanded; if another card was expanded, all cards end collapsed.
   */
  lemma ToggleTwice(expanded: Option<nat>, index: nat)
    ensures Toggle(Toggle(expanded, index), index) == expanded <==>
      expanded == None || expanded == Some(index)
    ensures expanded != None && expanded != Some(index) ==>
      Toggle(Toggle(expanded, index), index) == None
  {
  }

  /** The names of the contact form's three inputs. */
  const FormFields: set<string> := {"name", "email", "message"}

  /** The contact form with every field empty. */
  const EmptyForm: map<string, string> := map["name" := "", "email" := "", "message" := ""]

  class Home {
    /** The one expanded project card, if any. */
    var expandedProject: Option<nat>
    var formData: map<string, string>
    var modalOpen: bool
    var selectedImage: Option<Image>

    constructor ()
      ensures expandedProject == None && formData == EmptyForm
      ensures !modalOpen && selectedImage == None
    {
      expandedProject := None;
      formData := EmptyForm;
      modalOpen := false;
      selectedImage := None;
    }

    /** Whether the card at `index` shows its long description and features. */
    predicate IsExpanded(index: nat)
      reads this
    {
      expandedProject == Some(index)
    }

    method ToggleProject(index: nat)
      modifies this`expandedProject
      ensures expandedProject == Toggle(old(expandedProject), index)
      ensures forall k: nat :: IsExpanded(k) ==> k == index
    {
      expandedProject := if expandedProject == Some(index) then None else Some(index);
    }

    /** `handleInputChange`: the input's named field takes its value; every other field keeps its own. */
    method HandleInputChange(name: string, value: string)
      modifies this`formData
      ensures formData == old(formData)[name := value]
      ensures forall k :: k in old(formData) && k != name ==> k in formData && formData[k] == old(formData)[k]
      ensures name in FormFields && old(formData).Keys == FormFields ==> formData.Keys == FormFields
    {
      formData := formData[name := value];
    }

    /** `handleSubmit`: after the confirmation, the form is emptied. */
    method HandleSubmit()
      modifies this`formData
      ensures formData == EmptyForm
      ensures formData.Keys == FormFields && forall k :: k in formData ==> formData[k] == ""
    {
      formData := map["name" := "", "email" := "", "message" := ""];
    }

    method HandleOpenModal(image: Image)
      modifies this`selectedImage, this`modalOpen
      ensures selectedImage == Some(image) && modalOpen
    {
      selectedImage := Some(image);
      modalOpen := true;
    }

    method CloseModal()
      modifies this`modalOpen
      ensures !modalOpen
    {
      modalOpen := false;
    }
  }

  /** A figure on a project card: its value, the unit after it, and the key of its label. */
  datatype Stat = Stat(value: real, suffix: string, labelKey: string)

  /** A project card; texts are translation keys, looked up when the page renders. */
  datatype Project = Project(
    id: nat,
    titleKey: string,
    descriptionKey: string,
    longDescriptionKey: string,
    images: seq<Image>,
    stats: seq<Stat>,
    tags: seq<string>,
    featureKeys: seq<string>,
    githubLink: string)

  /** The paths and descriptions of a card's slides, with the image paths prefixed for the build. */
  function Gallery(production: bool, files: seq<(string, string)>): (images: seq<Image>)
    ensures |images| == |files|
    ensures forall j :: 0 <= j < |files| ==>
      images[j].src == GetImagePath(production, files[j].0) && images[j].alt == files[j].1
  {
    seq(|files|, j requires 0 <= j < |files| => ProjectCarousel.Image(GetImagePath(production, files[j].0), files[j].1))
  }

  /** The shape every card has: its position as id, four slides, four figures, all positive, and four features. */
  predicate Card(p: Project, id: nat)
  {
    p.id == id && |p.images| == 4 && |p.stats| == 4 && |p.featureKeys| == 4 &&
    forall j :: 0 <= j < |p.stats| ==> p.stats[j].value > 0.0
  }

  /** Every slide of the card is served from under the production prefix. */
  predicate UnderBasePath(p: Project)
  {
    forall j :: 0 <= j < |p.images| ==>
      |BasePath| <= |p.images[j].src| && p.images[j].src[..|BasePath|] == BasePath
  }

  /** CineList, a tracker for films, series and anime. */
  function CineList(production: bool): (p: Project)
    ensures Card(p, 0)
    ensures production ==> UnderBasePath(p)
  {
    Project(0, "projects.cineList.title", "projects.cineList.description", "projects.cineList.longDescription",
      Gallery(production, [
        ("/images/cinelist-home.png",
         "CineList home screen showing featured shows and new episodes"),
        ("/images/cinelist-browse.png",
         "CineList browse screen showing anime and TV shows"),
        ("/images/cinelist-show-details.png",
         "CineList show details screen with episode information"),
        ("/images/cinelist-wwe.png",
         "CineList detailed view of WWE Raw with show information")
      ]),
      [
        Stat(15000.0, "", "projects.cineList.stats.users"),
        Stat(250000.0, "", "projects.cineList.stats.movies"),
        Stat(4.8, "/5", "projects.cineList.stats.rating"),
        Stat(98.0, "%", "projects.cineList.stats.satisfaction")
      ],
      ["Kotlin", "Flutter", "Firebase", "Multilingual"],
      [
        "projects.cineList.features.0",
        "projects.cineList.features.1",
        "projects.cineList.features.2",
        "projects.cineList.features.3"
      ],
      "https://github.com")
  }

  /** Planty, smart plant watering. */
  function Planty(production: bool): (p: Project)
    ensures Card(p, 1)
    ensures production ==> UnderBasePath(p)
  {
    Project(1, "projects.planty.title", "projects.planty.description", "projects.planty.longDescription",
      Gallery(production, [
        ("/images/planty-dashboard.png",
         "Planty dashboard showing list of plants with their watering modes"),
        ("/images/planty-history.png",
         "Planty watering history screen showing automatic and manual watering events"),
        ("/images/planty-account.png",
         "Planty account settings with notification preferences"),
        ("/images/planty-login.png",
         "Planty login screen with email and password fields")
      ]),
      [
        Stat(5000.0, "", "projects.planty.stats.devices"),
        Stat(30.0, "%", "projects.planty.stats.waterSaved"),
        Stat(12500.0, "", "projects.planty.stats.plants"),
        Stat(99.7, "%", "projects.planty.stats.uptime")
      ],
      ["IoT", "ESP32", "Firebase", "Arduino", "Multilingual"],
      [
        "projects.planty.features.0",
        "projects.planty.features.1",
        "projects.planty.features.2",
        "projects.planty.features.3"
      ],
      "https://github.com")
  }

  /** Barrier, a parental-control app. */
  function Barrier(production: bool): (p: Project)
    ensures Card(p, 2)
    ensures production ==> UnderBasePath(p)
  {
    Project(2, "projects.barrier.title", "projects.barrier.description", "projects.barrier.longDescription",
      Gallery(production, [
        ("/images/barrier-screentime.png",
         "Barrier screen time monitoring dashboard showing app usage statistics"),
        ("/images/barrier-location.png",
         "Barrier location tracking feature showing child's location on a map"),
        ("/images/barrier-request-time.png",
         "Barrier screen time request feature for children to request additional time"),
        ("/images/barrier-login.png",
         "Barrier app login screen with secure authentication")
      ]),
      [
        Stat(8500.0, "", "projects.barrier.stats.families"),
        Stat(25.0, "%", "projects.barrier.stats.screenReduction"),
        Stat(1250.0, "", "projects.barrier.stats.locationsTracked"),
        Stat(98.2, "%", "projects.barrier.stats.alertAccuracy")
      ],
      ["Flutter", "Dart", "Firebase", "Maps API", "Real-time"],
      [
        "projects.barrier.features.0",
        "projects.barrier.features.1",
        "projects.barrier.features.2",
        "projects.barrier.features.3"
      ],
      "https://github.com")
  }

  /** Zombie Sheriff, the mobile game. */
  function ZombieSheriff(production: bool): (p: Project)
    ensures Card(p, 3)
    ensures production ==> UnderBasePath(p)
  {
    Project(3, "projects.game.title", "projects.game.description", "projects.game.longDescription",
      Gallery(production, [
        ("/images/zombie-sheriff-gameplay.png",
         "Zombie Sheriff gameplay showing the player fighting zombies"),
        ("/images/zombie-sheriff-shield.png",
         "Zombie Sheriff special ability shield activation"),
        ("/images/zombie-sheriff-gameover.png",
         "Zombie Sheriff game over screen showing survival time"),
        ("/images/zombie-sheriff-unity.png",
         "Zombie Sheriff made with Unity splash screen")
      ]),
      [
        Stat(50000.0, "", "projects.game.stats.downloads"),
        Stat(4.7, "/5", "projects.game.stats.rating"),
        Stat(45.0, "m", "projects.game.stats.avgPlaytime"),
        Stat(12.0, "", "projects.game.stats.levels")
      ],
      ["Unity", "C#", "Game Design", "Mobile"],
      [
        "projects.game.features.0",
        "projects.game.features.1",
        "projects.game.features.2",
        "projects.game.features.3"
      ],
      "https://github.com")
  }

  /** The projects the page shows, in order. */
  function Projects(production: bool): seq<Project>
  {
    [CineList(production), Planty(production), Barrier(production), ZombieSheriff(production)]
  }
}
