/** The Projects page: the constant `projects` array rendered card by card,
    in array order. A card shows an emoji or an image cover, an
    "IN PROGRESS" badge for unfinished work, the tech-stack tags, and either
    a disabled "Coming Soon" button or the GitHub and demo anchors. */
module ProjectsPage {
  import opened Views

  datatype Project = Project(
    id: int,
    title: string,
    description: string,
    techStack: seq<string>,
    githubLink: Option<string>,
    demoLink: Option<string>,
    coverType: string,
    coverContent: string,
    inProgress: bool)

  const Projects: seq<Project> := [
    Project(1,
      "Statistical Website for Soccer Players",
      "Built a Spring Boot + MongoDB web application that analyzed stats for 50+ professional soccer players, scraping data on goals, assists, and trophies. Implemented a custom ranking formula to generate instant player comparisons and performance insights.",
      ["Java", "Spring Boot", "MongoDB", "AWS", "JSoup", "Maven", "OOP", "HTML", "CSS", "MVC"],
      Some("https://github.com/SansarSharma/SoccerStats"), None, "emoji", "⚽", false),
    Project(2,
      "Bookstore Application",
      "Built a JavaFX bookstore application with two roles: admin (manage books/customers) and customer (shop, cart, purchases), applying OOP and the State Design Pattern for account status, loyalty points, and access control. Migrated storage from files to MySQL + JDBC architecture.",
      ["Java", "JavaFX", "MySQL", "Maven", "JDBC", "OOP", "Design Patterns", "MVC", "Inventory Management System", "GUI", "Refactored Project"],
      Some("https://github.com/SansarSharma/BookstoreApplication"), None, "emoji", "📚", false),
    Project(3,
      "Interactive Rock Paper Scissors Game",
      "Refactored a legacy single-file Rock-Paper-Scissors game into a React + Phaser.js application, applying OOP to build 15+ components. Designed a custom Insane Mode featuring trivia mechanics, adaptive sound effects, and real-time HUD animations.",
      ["JavaScript", "React.js", "Phaser.js", "OOP", "MVC", "GUI", "Refactored Project"],
      Some("https://github.com/SansarSharma/RPS_Remastered"), None, "emoji", "✊📄✂️", false),
    Project(4,
      "Money Manager Application",
      "Built a Python + PyQt6 personal finance tool supporting Excel file upload/editing and manual expense entry, with categorized budgets (Housing, Food, Subscriptions, etc.), real-time charts, and automatic Excel export on exit. Applied advanced OOP and design patterns for scalability.",
      ["Python", "PyQt6", "Excel", "Pandas", "OOP", "MVC", "GUI", "Design Patterns"],
      Some("https://github.com/SansarSharma/MoneyManager"), None, "image", "/assets/images/moneymanager.png", false),
    Project(5,
      "Blackjack",
      "Refactored a Java Blackjack game by migrating legacy lab code to a Maven + IntelliJ project, restructuring with OOP principles to mirror real-world Blackjack rules and enable cleaner, maintainable architecture.",
      ["Java", "Maven", "OOP"],
      Some("https://github.com/SansarSharma/Blackjack"), None, "emoji", "🃏", false),
    Project(6,
      "IdeaBoard",
      "A full-stack task management application for organizing ideas and projects. Built with Spring Boot backend and React frontend, featuring user authentication, real-time updates, and collaborative features.",
      ["Javascript", "Typescript", "React", "Angular.js"],
      None, None, "emoji", "💡", true)
  ]

  /** The cover block: the glyph itself, or an `<img>` with its source and alt text. */
  datatype Cover = EmojiCover(glyph: string) | ImageCover(src: string, alt: string)

  /** An element of the `project-actions` block. An anchor whose link is
      `null` is still rendered, without an `href`. */
  datatype Action =
    | Button(className: string, text: string, disabled: bool)
    | Anchor(href: Option<string>, className: string, text: string)

  const ComingSoon: Action := Button("btn-disabled", "Coming Soon", true)

  datatype ProjectCard = ProjectCard(
    key: int,
    cover: Cover,
    badge: bool,
    title: string,
    description: string,
    techTags: seq<Keyed<string>>,
    actions: seq<Action>)

  predicate IsAnchor(a: Action) { a.Anchor? }

  /** `renderProjectCard`. */
  function RenderProjectCard(p: Project): (c: ProjectCard)
    ensures c.key == p.id && c.title == p.title && c.description == p.description
    ensures c.cover.EmojiCover? <==> p.coverType == "emoji"
    ensures c.cover.EmojiCover? ==> c.cover.glyph == p.coverContent
    ensures c.cover.ImageCover? ==> c.cover.src == p.coverContent && c.cover.alt == p.title
    ensures c.badge <==> p.inProgress
    ensures Values(c.techTags) == p.techStack
    ensures p.inProgress ==> c.actions == [ComingSoon] && forall k :: 0 <= k < |c.actions| ==> !IsAnchor(c.actions[k])
    ensures !p.inProgress ==>
      (|c.actions| == 2
       && c.actions[0].Anchor? && c.actions[0].href == p.githubLink
       && c.actions[1].Anchor? && c.actions[1].href == p.demoLink)
  {
    EnumerateValues(p.techStack);
    ProjectCard(
      p.id,
      if p.coverType == "emoji" then EmojiCover(p.coverContent) else ImageCover(p.coverContent, p.title),
      p.inProgress,
      p.title,
      p.description,
      Enumerate(p.techStack),
      if p.inProgress then [ComingSoon]
      else [Anchor(p.githubLink, "btn-github", "View Code"), Anchor(p.demoLink, "btn-demo", "Demo (soon)")])
  }

  /** `projects.map(renderProjectCard)`: one card per project, in array order. */
  function RenderProjects(ps: seq<Project>): (r: seq<ProjectCard>)
    ensures |r| == |ps|
    ensures forall i :: 0 <= i < |ps| ==> r[i] == RenderProjectCard(ps[i])
  {
    if ps == [] then [] else [RenderProjectCard(ps[0])] + RenderProjects(ps[1..])
  }

  lemma ProjectIdsUnique()
    ensures forall i, j :: 0 <= i < j < |Projects| ==> Projects[i].id != Projects[j].id
  {
  }

  /** A project that is still in progress never gets a link on the page,
      whatever its link fields hold; a finished one always gets both
      anchors, in GitHub-then-demo order. */
  lemma InProgressCardsHaveNoLinks(ps: seq<Project>)
    ensures forall i :: 0 <= i < |ps| && ps[i].inProgress ==>
      RenderProjects(ps)[i].actions == [ComingSoon] && RenderProjects(ps)[i].badge
    ensures forall i :: 0 <= i < |ps| && !ps[i].inProgress ==>
      |RenderProjects(ps)[i].actions| == 2 && IsAnchor(RenderProjects(ps)[i].actions[0]) && IsAnchor(RenderProjects(ps)[i].actions[1])
  {
  }

  /** The fields of the six records that the card rules look at. */
  predicate ProjectsShape(ps: seq<Project>)
  {
    && |ps| == 6
    && (forall i :: 0 <= i < 6 ==> ps[i].id == i + 1)
    && (forall i :: 0 <= i < 6 ==> (ps[i].inProgress <==> i == 5))
    && (forall i :: 0 <= i < 6 ==> (ps[i].coverType == "emoji" <==> i != 3))
    && (forall i :: 0 <= i < 6 ==> ps[i].demoLink == None)
    && ps[3].coverContent == "/assets/images/moneymanager.png"
  }

  lemma ProjectsHaveShape()
    ensures ProjectsShape(Projects)
  {
    assert |Projects| == 6;
    assert forall i :: 0 <= i < 6 ==> Projects[i].id == i + 1;
    assert forall i :: 0 <= i < 6 ==> (Projects[i].inProgress <==> i == 5);
    assert forall i :: 0 <= i < 6 ==> (Projects[i].coverType == "emoji" <==> i != 3);
    assert forall i :: 0 <= i < 6 ==> Projects[i].demoLink == None;
  }

  /** What the page renders, for the `projects` array and any other of its
      shape: six cards keyed 1 to 6; only IdeaBoard is in progress; only the
      Money Manager card has an image cover; and every demo anchor is
      rendered without a target, since no project has a demo link. */
  lemma ShapeRendering(ps: seq<Project>)
    requires ProjectsShape(ps)
    ensures |RenderProjects(ps)| == 6
    ensures forall i :: 0 <= i < 6 ==> RenderProjects(ps)[i].key == i + 1
    ensures forall i :: 0 <= i < 6 ==> (RenderProjects(ps)[i].badge <==> i == 5)
    ensures forall i :: 0 <= i < 6 ==> (RenderProjects(ps)[i].cover.ImageCover? <==> i == 3)
    ensures RenderProjects(ps)[3].cover.src == "/assets/images/moneymanager.png"
    ensures RenderProjects(ps)[5].actions == [ComingSoon]
    ensures forall i :: 0 <= i < 5 ==> RenderProjects(ps)[i].actions[1].href == None
  {
  }
}
