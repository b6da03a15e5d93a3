/** The Experience page: the constant `experiences` array rendered card by
    card, in array order. The tech-stack block appears only for a non-empty
    stack, and the actions block only when there is a GitHub link; the demo
    link inside it needs a demo link as well. */
module ExperiencePage {
  import opened Views

  datatype Experience = Experience(
    id: int,
    logo: string,
    title: string,
    organization: string,
    location: string,
    duration: string,
    description: string,
    keyPoints: seq<string>,
    techStack: seq<string>,
    githubLink: Option<string>,
    demoLink: Option<string>)

  const Experiences: seq<Experience> := [
    Experience(1, "/assets/images/BECU.jpg",
      "University Competition",
      "Biomedical Engineering Course Union (BECU) Arduino Competition",
      "Toronto, Ontario", "November 2024",
      "Built a CPR feedback system in C with Arduino, programming pressure sensors, buzzer alerts, LCD output, and BPM calculations while rapidly self-learning and applying new libraries.",
      [
        "Programmed pressure sensors, buzzer alerts, and LCD output for real-time feedback",
        "Implemented BPM calculations to measure compression rate accuracy",
        "Rapidly self-learned and applied new C libraries during the competition",
        "Taught teammates C and Arduino basics, balancing coding tasks with mentoring",
        "Demonstrated adaptability under time constraints in a competition setting"
      ],
      ["C", "Arduino", "Embedded Systems", "Embedded C", "Pressure Sensors", "OLED Display", "Real Time Feedback", "Team Competition"],
      Some("https://github.com/SansarSharma/Arduino_Competiton"),
      Some("https://youtu.be/LKiS1EZJe0A?si=qgP7JQ5hgEGfooj-")),
    Experience(2, "/assets/images/FormulaOneRacing.jpg",
      "Electric Powertrain General Member",
      "Toronto Metropolitan Formula Racing Team",
      "Toronto, Ontario", "September 2023 - December 2023",
      "Gained foundational exposure to electric powertrain systems by studying design, testing, and integration processes under team mentorship.",
      [
        "Studied electric powertrain system design and architecture",
        "Learned about testing and integration processes for electric vehicles",
        "Collaborated with experienced team members on powertrain development",
        "Gained hands-on exposure to Formula Racing engineering practices",
        "Developed understanding of team-based engineering workflows"
      ],
      [],
      None,
      None)
  ]

  /** The `experience-actions` block: the "View Code" target and, when
      present, the "Demo Video" target. */
  datatype Actions = Actions(codeHref: string, demoHref: Option<string>)

  datatype ExperienceCard = ExperienceCard(
    key: int,
    logoSrc: string,
    logoAlt: string,
    heading: string,
    role: string,
    subline: string,
    description: string,
    keyPoints: seq<Keyed<string>>,
    techBlock: Option<seq<Keyed<string>>>,
    actions: Option<Actions>)

  /** The demo target the card shows, if any. */
  function DemoShown(c: ExperienceCard): (d: Option<string>)
  {
    if c.actions.Some? then c.actions.value.demoHref else None
  }

  /** `renderExperienceCard`. */
  function RenderExperienceCard(e: Experience): (c: ExperienceCard)
    ensures c.key == e.id && c.logoSrc == e.logo && c.logoAlt == e.organization
    ensures c.heading == e.organization && c.role == e.title && c.description == e.description
    ensures c.subline == e.location + " | " + e.duration
    ensures Values(c.keyPoints) == e.keyPoints
    ensures c.techBlock.Some? <==> |e.techStack| > 0
    ensures c.techBlock.Some? ==> Values(c.techBlock.value) == e.techStack
    ensures c.actions.Some? <==> Truthy(e.githubLink)
    ensures c.actions.Some? ==> c.actions.value.codeHref == e.githubLink.value
    ensures DemoShown(c).Some? <==> Truthy(e.githubLink) && Truthy(e.demoLink)
    ensures DemoShown(c).Some? ==> DemoShown(c).value == e.demoLink.value
  {
    EnumerateValues(e.keyPoints);
    EnumerateValues(e.techStack);
    ExperienceCard(
      e.id,
      e.logo,
      e.organization,
      e.organization,
      e.title,
      e.location + " | " + e.duration,
      e.description,
      Enumerate(e.keyPoints),
      if |e.techStack| > 0 then Some(Enumerate(e.techStack)) else None,
      if Truthy(e.githubLink) then
        Some(Actions(e.githubLink.value, if Truthy(e.demoLink) then Some(e.demoLink.value) else None))
      else None)
  }

  /** `experiences.map(renderExperienceCard)`: one card per experience, in array order. */
  function RenderExperiences(es: seq<Experience>): (r: seq<ExperienceCard>)
    ensures |r| == |es|
    ensures forall i :: 0 <= i < |es| ==> r[i] == RenderExperienceCard(es[i])
  {
    if es == [] then [] else [RenderExperienceCard(es[0])] + RenderExperiences(es[1..])
  }

  /** A demo link alone never reaches the page: for every card of any
      array, a demo target is shown only beside a code target. */
  lemma DemoNeedsGithub(es: seq<Experience>)
    ensures forall i :: 0 <= i < |es| && DemoShown(RenderExperiences(es)[i]).Some? ==>
      RenderExperiences(es)[i].actions.Some? && Truthy(es[i].githubLink) && Truthy(es[i].demoLink)
    ensures forall i :: 0 <= i < |es| && !Truthy(es[i].githubLink) ==>
      RenderExperiences(es)[i].actions == None && DemoShown(RenderExperiences(es)[i]) == None
  {
  }

  /** The fields of the two records that the card rules look at. */
  predicate ExperiencesShape(es: seq<Experience>)
  {
    && |es| == 2
    && es[0].id == 1 && es[1].id == 2
    && |es[0].keyPoints| == 5 && |es[1].keyPoints| == 5
    && |es[0].techStack| == 8 && es[1].techStack == []
    && Truthy(es[0].githubLink) && Truthy(es[0].demoLink)
    && es[1].githubLink == None && es[1].demoLink == None
  }

  lemma ExperiencesHaveShape()
    ensures ExperiencesShape(Experiences)
  {
  }

  /** What the page renders, for the `experiences` array and any other of
      its shape: the competition card with five key points, its eight tech
      tags, code and demo links; the racing-team card with five key points
      and neither a tech block nor an actions block. */
  lemma ShapeRendering(es: seq<Experience>)
    requires ExperiencesShape(es)
    ensures |RenderExperiences(es)| == 2
    ensures RenderExperiences(es)[0].key == 1 && RenderExperiences(es)[1].key == 2
    ensures |RenderExperiences(es)[0].keyPoints| == 5 && |RenderExperiences(es)[1].keyPoints| == 5
    ensures RenderExperiences(es)[0].techBlock.Some? && |RenderExperiences(es)[0].techBlock.value| == 8
    ensures RenderExperiences(es)[0].actions.Some? && DemoShown(RenderExperiences(es)[0]) == es[0].demoLink
    ensures RenderExperiences(es)[1].techBlock == None && RenderExperiences(es)[1].actions == None
  {
  }
}
