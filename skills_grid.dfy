/**
 * The skills grid: six category tabs, the skills of the active category,
 * a level-to-percentage table for the bars, and the rules for the years
 * label and the projects-count line.
 */
module SkillsGrid {
  import opened Options
  import opened Lists
  import opened PortfolioData

  datatype Tab = Tab(id: SkillCategory, name: string)

  /** The tabs in display order. There is no tab for the "tool" category. */
  const Tabs: seq<Tab> := [
    Tab(Language, "Languages"), Tab(Framework, "Frameworks"), Tab(Backend, "Backend"),
    Tab(Devops, "DevOps"), Tab(Ai, "AI/ML"), Tab(Learning, "Learning")]

  predicate IsTabId(c: SkillCategory) {
    exists i :: 0 <= i < |Tabs| && Tabs[i].id == c
  }

  const InitialCategory: SkillCategory := Language

  /** The categories that have a tab are exactly all but "tool"; the initial one has a tab. */
  lemma TabIds(c: SkillCategory)
    ensures IsTabId(c) <==> c != Tool
    ensures IsTabId(InitialCategory)
  {
    assert Tabs[0].id == Language && Tabs[1].id == Framework && Tabs[2].id == Backend;
    assert Tabs[3].id == Devops && Tabs[4].id == Ai && Tabs[5].id == Learning;
  }

  /** Clicking tab i makes its id the active category. */
  function ClickTab(i: nat): (active: SkillCategory)
    requires i < |Tabs|
    ensures active == Tabs[i].id && IsTabId(active) && active != Tool
  {
    TabIds(Tabs[i].id);
    Tabs[i].id
  }

  /** `filteredSkills`: the skills of the active category, in their original order. */
  function FilteredSkills(skills: seq<Skill>, active: SkillCategory): (r: seq<Skill>)
    ensures forall i :: 0 <= i < |r| ==> r[i].category == active && r[i] in skills
    ensures forall i :: 0 <= i < |skills| && skills[i].category == active ==> skills[i] in r
  {
    Filter(skills, (s: Skill) => s.category == active)
  }

  /**
   * Whatever tab is active, a "tool" skill is never listed; every other
   * skill is listed under its own category's tab and under no other.
   */
  lemma TabsCoverAllButTools(skills: seq<Skill>, i: nat, t: nat)
    requires i < |skills| && t < |Tabs|
    ensures skills[i].category == Tool ==> skills[i] !in FilteredSkills(skills, ClickTab(t))
    ensures skills[i] in FilteredSkills(skills, ClickTab(t)) <==> skills[i].category == Tabs[t].id
  {
    var r := FilteredSkills(skills, ClickTab(t));
    if skills[i] in r {
      var j :| 0 <= j < |r| && r[j] == skills[i];
    }
  }

  /** `levelToPercentage`: the width of the bar for each level. */
  function LevelToPercentage(level: SkillLevel): (pct: int)
    ensures 0 < pct <= 100
  {
    match level
    case Beginner => 40
    case Intermediate => 60
    case Advanced => 80
    case Expert => 95
  }

  /** The levels in increasing order of proficiency. */
  function LevelRank(level: SkillLevel): nat {
    match level
    case Beginner => 0
    case Intermediate => 1
    case Advanced => 2
    case Expert => 3
  }

  /** A higher level always draws a longer bar, and a longer bar means a higher level. */
  lemma PercentageStrictlyIncreasing(a: SkillLevel, b: SkillLevel)
    ensures LevelRank(a) < LevelRank(b) <==> LevelToPercentage(a) < LevelToPercentage(b)
  {
  }

  /**
   * What the JSX `{x && <el/>}` puts on the page for an optional number x:
   * nothing when it is absent, the text "0" when it is 0 (a number is
   * rendered, not skipped), and the element otherwise.
   */
  datatype YearsSlot = NoYears | YearsZero | YearsLabel(years: real, unit: string)
  datatype ProjectsSlot = NoProjects | ProjectsZero | ProjectsLine(count: real)

  /** The years label: `{skill.years} {skill.years > 1 ? "years" : "year"}`. */
  function YearsDisplay(years: Option<real>): (r: YearsSlot)
    ensures r.YearsLabel? <==> years.Some? && years.value != 0.0
    ensures r.YearsLabel? ==> r.years == years.value && (r.unit == "years" <==> years.value > 1.0)
    ensures r.YearsLabel? ==> (r.unit == "year" <==> years.value <= 1.0)
    ensures r == YearsZero <==> years == Some(0.0)
  {
    match years
    case None => NoYears
    case Some(y) =>
      if y == 0.0 then YearsZero
      else YearsLabel(y, if y > 1.0 then "years" else "year")
  }

  /** The line `Used in {skill.projectsCount}+ projects`. */
  function ProjectsDisplay(projectsCount: Option<real>): (r: ProjectsSlot)
    ensures r.ProjectsLine? <==> projectsCount.Some? && projectsCount.value != 0.0
    ensures r.ProjectsLine? ==> r.count == projectsCount.value
    ensures r == ProjectsZero <==> projectsCount == Some(0.0)
  {
    match projectsCount
    case None => NoProjects
    case Some(n) => if n == 0.0 then ProjectsZero else ProjectsLine(n)
  }
}
