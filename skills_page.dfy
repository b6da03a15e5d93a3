/** The Skills page: four category boxes in a fixed order, each a grid of
    flip cards (name on the front, years and context on the back) built
    from the constant `skillsData` arrays. Entrance delays are kept in
    integer tenths of a second. */
module SkillsPage {

  datatype Skill = Skill(name: string, years: string, context: string)

  const ProgrammingLanguages: seq<Skill> := [
    Skill("Java", "4 years", "Started during highschool, continued through university"),
    Skill("Python", "2 years", "Learned in university for coursework and projects"),
    Skill("TypeScript", "1 year", "Self-taught for full-stack web development"),
    Skill("JavaScript", "2 years", "Learned for web development and interactive projects"),
    Skill("C", "2 years", "University coursework and Arduino projects"),
    Skill("HTML", "3 years", "Self-taught for web development"),
    Skill("CSS", "3 years", "Self-taught for styling web applications"),
    Skill("VHDL", "1 year", "University coursework in digital systems")
  ]

  const Frameworks: seq<Skill> := [
    Skill("Spring Boot", "1 year", "Self-taught for building web applications"),
    Skill("JavaFX", "1 year", "University coursework and personal projects"),
    Skill("React.js", "1 year", "Self-taught for modern front-end development"),
    Skill("Angular.js", "6 months", "Explored for front-end development"),
    Skill("Node.js", "1 year", "Self-taught for backend JavaScript development"),
    Skill("Phaser.js", "1 year", "Used for game development projects")
  ]

  const Tools: seq<Skill> := [
    Skill("GitHub", "3 years", "Version control for all projects and collaboration"),
    Skill("MongoDB", "1 year", "NoSQL database for web applications"),
    Skill("IntelliJ", "3 years", "Primary IDE for Java development"),
    Skill("PyCharm", "3 years", "Primary IDE for Python development"),
    Skill("Visual Studio Code", "2 years", "Primary editor for web development"),
    Skill("MySQL", "1 year", "Relational database management and design"),
    Skill("Microsoft 365", "3 years", "Used for university course documentation and productivity"),
    Skill("MATLAB", "3 year", "University coursework for engineering analysis")
  ]

  const Design: seq<Skill> := [
    Skill("OOP", "4 years", "Started during highschool, continued through university"),
    Skill("Design Patterns", "1 year", "Learned through university, and applied to passion projects"),
    Skill("MVC", "3 years", "Applied across multiple projects to separate concerns and improve scalability and maintainability"),
    Skill("Database Architecture", "2 months", "Learn through university")
  ]

  /** One flip card: its key, its animation delay in tenths of a second,
      the front heading and the two back paragraphs. */
  datatype SkillCard = SkillCard(key: nat, delayTenths: nat, front: string, backYears: string, backContext: string)

  datatype CategoryBox = CategoryBox(title: string, delayTenths: nat, cards: seq<SkillCard>)

  /** `renderSkillCard(skill, index)`: the delay `index * 0.1` seconds is
      `index` tenths. */
  function RenderSkillCard(skill: Skill, index: nat): (c: SkillCard)
    ensures c.key == index && c.delayTenths == index
    ensures c.front == skill.name && c.backYears == skill.years && c.backContext == skill.context
  {
    SkillCard(index, index, skill.name, skill.years, skill.context)
  }

  /** `skills.map((skill, index) => renderSkillCard(skill, index))`. */
  function RenderSkillCards(skills: seq<Skill>): (r: seq<SkillCard>)
    ensures |r| == |skills|
    ensures forall i :: 0 <= i < |skills| ==> r[i] == RenderSkillCard(skills[i], i)
  {
    if skills == [] then []
    else RenderSkillCards(skills[..|skills| - 1]) + [RenderSkillCard(skills[|skills| - 1], |skills| - 1)]
  }

  /** `renderCategory(title, skills, delay)`. */
  function RenderCategory(title: string, skills: seq<Skill>, delayTenths: nat): (b: CategoryBox)
    ensures b.title == title && b.delayTenths == delayTenths && |b.cards| == |skills|
    ensures forall i :: 0 <= i < |skills| ==> b.cards[i] == RenderSkillCard(skills[i], i)
  {
    CategoryBox(title, delayTenths, RenderSkillCards(skills))
  }

  const CategoryTitles: seq<string> := [
    "Programming Languages",
    "Frameworks & Libraries",
    "Tools & Technologies",
    "Software Design & Architecture"
  ]

  /** The page body for the four `skillsData` arrays, in the order the
      component calls `renderCategory`, with delays 0.2, 0.4, 0.6, 0.8 s. */
  function RenderSkillsPage(languages: seq<Skill>, frameworks: seq<Skill>, tools: seq<Skill>, design: seq<Skill>): (r: seq<CategoryBox>)
    ensures |r| == 4
    ensures forall k :: 0 <= k < 4 ==> r[k].title == CategoryTitles[k] && r[k].delayTenths == 2 * (k + 1)
    ensures |r[0].cards| == |languages| && |r[1].cards| == |frameworks|
    ensures |r[2].cards| == |tools| && |r[3].cards| == |design|
  {
    [
      RenderCategory("Programming Languages", languages, 2),
      RenderCategory("Frameworks & Libraries", frameworks, 4),
      RenderCategory("Tools & Technologies", tools, 6),
      RenderCategory("Software Design & Architecture", design, 8)
    ]
  }

  /** The page as the component renders it, from the four `skillsData` arrays. */
  const SkillsPageView: seq<CategoryBox> := RenderSkillsPage(ProgrammingLanguages, Frameworks, Tools, Design)

  /** The rendered page shows the four categories in order, each box holding
      the cards of its own `skillsData` array: 8, 6, 8 and 4 cards. */
  lemma SkillsPageViewFromData()
    ensures |SkillsPageView| == 4
    ensures forall k :: 0 <= k < 4 ==> SkillsPageView[k].title == CategoryTitles[k]
    ensures SkillsPageView[0].cards == RenderSkillCards(ProgrammingLanguages)
    ensures SkillsPageView[1].cards == RenderSkillCards(Frameworks)
    ensures SkillsPageView[2].cards == RenderSkillCards(Tools)
    ensures SkillsPageView[3].cards == RenderSkillCards(Design)
    ensures |SkillsPageView[0].cards| == 8 && |SkillsPageView[1].cards| == 6
    ensures |SkillsPageView[2].cards| == 8 && |SkillsPageView[3].cards| == 4
  {
    CategoryOrder(ProgrammingLanguages, Frameworks, Tools, Design);
  }

  /** Whatever the data, the page has exactly four boxes with the four
      titles in their fixed order, each box holds the cards of its own
      array, and the boxes enter strictly one after another. */
  lemma CategoryOrder(languages: seq<Skill>, frameworks: seq<Skill>, tools: seq<Skill>, design: seq<Skill>)
    ensures |RenderSkillsPage(languages, frameworks, tools, design)| == 4
    ensures forall k :: 0 <= k < 4 ==> RenderSkillsPage(languages, frameworks, tools, design)[k].title == CategoryTitles[k]
    ensures RenderSkillsPage(languages, frameworks, tools, design)[0].cards == RenderSkillCards(languages)
    ensures RenderSkillsPage(languages, frameworks, tools, design)[1].cards == RenderSkillCards(frameworks)
    ensures RenderSkillsPage(languages, frameworks, tools, design)[2].cards == RenderSkillCards(tools)
    ensures RenderSkillsPage(languages, frameworks, tools, design)[3].cards == RenderSkillCards(design)
    ensures forall j, k :: 0 <= j < k < 4 ==>
      RenderSkillsPage(languages, frameworks, tools, design)[j].delayTenths < RenderSkillsPage(languages, frameworks, tools, design)[k].delayTenths
  {
  }

  /** Within a box, card `i` shows skill `i`, and a later card never starts
      its animation before an earlier one. */
  lemma CardsInOrder(skills: seq<Skill>)
    ensures forall i :: 0 <= i < |skills| ==>
      RenderSkillCards(skills)[i].front == skills[i].name
      && RenderSkillCards(skills)[i].backYears == skills[i].years
      && RenderSkillCards(skills)[i].backContext == skills[i].context
    ensures forall i, j :: 0 <= i < j < |skills| ==>
      RenderSkillCards(skills)[i].delayTenths < RenderSkillCards(skills)[j].delayTenths
  {
  }

  /** Every skill record carries a name, a years text and a context. */
  predicate Complete(skills: seq<Skill>)
  {
    forall i :: 0 <= i < |skills| ==> skills[i].name != "" && skills[i].years != "" && skills[i].context != ""
  }

  lemma SkillsDataComplete()
    ensures Complete(ProgrammingLanguages) && Complete(Frameworks) && Complete(Tools) && Complete(Design)
    ensures |ProgrammingLanguages| == 8 && |Frameworks| == 6 && |Tools| == 8 && |Design| == 4
  {
  }
}
