/**
 * The rules of a project card: which technologies are chips in the AI
 * group and which in the infrastructure group, how many chips show and
 * what the overflow chip says, which metric the footer shows, and the
 * footer's markers and link.
 */
module ProjectCard {
  import opened Options
  import opened Lists
  import opened PortfolioData

  /** The two cards drawn in the gold style, with a live link instead of a case study. */
  predicate IsSoftgame(p: Project) {
    p.id == "softgame-studio" || p.id == "portfolio"
  }

  const AiTechNames: seq<string> := ["TensorFlow", "TensorFlow Lite", "OpenAI API", "NumPy", "Pandas", "Python"]
  const RealTimeTechNames: seq<string> := ["Socket.io", "WebRTC", "WebSocket", "Apache Kafka"]

  predicate IsAiTech(tech: string) {
    tech in AiTechNames
  }

  predicate IsNonAiTech(tech: string) {
    !IsAiTech(tech)
  }

  predicate IsRealTimeTech(tech: string) {
    tech in RealTimeTechNames
  }

  /** The AI group: the stack's AI technologies, in stack order. */
  function AiTechs(p: Project): (r: seq<string>)
    ensures forall i :: 0 <= i < |r| ==> IsAiTech(r[i]) && r[i] in p.techStack
    ensures forall i :: 0 <= i < |p.techStack| && IsAiTech(p.techStack[i]) ==> p.techStack[i] in r
  {
    Filter(p.techStack, IsAiTech)
  }

  /** The infrastructure group as written: the entries that are not in the AI group. */
  function InfraTechs(p: Project): (r: seq<string>)
    ensures forall i :: 0 <= i < |r| ==> !IsAiTech(r[i]) && r[i] in p.techStack
    ensures forall i :: 0 <= i < |p.techStack| && !IsAiTech(p.techStack[i]) ==> p.techStack[i] in r
  {
    var ai := AiTechs(p);
    Filter(p.techStack, tech => tech !in ai)
  }

  /** An entry of the stack is in the AI group exactly when it is an AI technology. */
  lemma InAiTechs(p: Project, i: nat)
    requires i < |p.techStack|
    ensures p.techStack[i] in AiTechs(p) <==> IsAiTech(p.techStack[i])
  {
    var ai := AiTechs(p);
    if p.techStack[i] in ai {
      var j :| 0 <= j < |ai| && ai[j] == p.techStack[i];
      assert IsAiTech(ai[j]);
    }
  }

  /** "Not in the AI group" is "not an AI technology": the infrastructure group is the complement. */
  lemma InfraIsNonAi(p: Project)
    ensures InfraTechs(p) == Filter(p.techStack, IsNonAiTech)
  {
    var ai := AiTechs(p);
    forall i | 0 <= i < |p.techStack|
      ensures (p.techStack[i] !in ai) == !IsAiTech(p.techStack[i])
    {
      InAiTechs(p, i);
    }
    FilterCongruent(p.techStack, tech => tech !in ai, IsNonAiTech);
  }

  /**
   * Every entry of the stack lands in exactly one group, and the two groups
   * together hold each entry exactly as often as the stack does.
   */
  lemma TechPartition(p: Project)
    ensures multiset(AiTechs(p)) + multiset(InfraTechs(p)) == multiset(p.techStack)
    ensures |AiTechs(p)| + |InfraTechs(p)| == |p.techStack|
    ensures forall i :: 0 <= i < |p.techStack| ==> (p.techStack[i] in AiTechs(p) <==> p.techStack[i] !in InfraTechs(p))
  {
    InfraIsNonAi(p);
    FilterPartition(p.techStack, IsAiTech, IsNonAiTech);
    forall i | 0 <= i < |p.techStack|
      ensures p.techStack[i] in AiTechs(p) <==> p.techStack[i] !in InfraTechs(p)
    {
      InAiTechs(p, i);
      var infra := InfraTechs(p);
      if p.techStack[i] in infra {
        var j :| 0 <= j < |infra| && infra[j] == p.techStack[i];
        assert !IsAiTech(infra[j]);
      }
    }
  }

  /** `hasRealTime`: some entry of the stack is a real-time technology. */
  function HasRealTime(p: Project): (r: bool)
    ensures r <==> exists i :: 0 <= i < |p.techStack| && IsRealTimeTech(p.techStack[i])
  {
    Any(p.techStack, IsRealTimeTech)
  }

  /** String.prototype.includes for a substring. */
  predicate Contains(s: string, part: string)
    decreases |s|
  {
    |part| <= |s| && (s[..|part|] == part || Contains(s[1..], part))
  }

  /**
   * `getPrimaryMetric`: the preferred-metric tests all return the first
   * metric, so the result is the first metric whenever there is one.
   */
  function PrimaryMetric(p: Project): (r: Option<string>)
    ensures r.Some? <==> p.metrics.Some? && |p.metrics.value| > 0
    ensures r.Some? ==> r.value == p.metrics.value[0]
  {
    if p.metrics.Some? && |p.metrics.value| > 0 then
      var metric := p.metrics.value[0];
      if Contains(metric, "K+") || Contains(metric, "M+") || Contains(metric, "$") then Some(metric)
      else if Contains(metric, "users") || Contains(metric, "downloads") then Some(metric)
      else Some(metric)
    else None
  }

  /** The infrastructure chips: `infraTechs.slice(0, 4 - aiTechs.length)`. */
  function ShownInfra(p: Project): (r: seq<string>)
    ensures |r| <= |InfraTechs(p)| && r == InfraTechs(p)[..|r|]
    ensures |AiTechs(p)| <= 4 ==> |r| == if |InfraTechs(p)| < 4 - |AiTechs(p)| then |InfraTechs(p)| else 4 - |AiTechs(p)|
  {
    SliceFromStart(InfraTechs(p), 4 - |AiTechs(p)|);
    Slice(InfraTechs(p), 0, 4 - |AiTechs(p)|)
  }

  /** All technology chips: the whole AI group, then the shown infrastructure chips. */
  function Chips(p: Project): (r: seq<string>)
    ensures forall i :: 0 <= i < |r| ==> r[i] in p.techStack
    ensures forall i :: 0 <= i < |r| ==> (IsAiTech(r[i]) <==> i < |AiTechs(p)|)
  {
    var ai, shown := AiTechs(p), ShownInfra(p);
    assert forall i :: 0 <= i < |shown| ==> shown[i] == InfraTechs(p)[i];
    ai + shown
  }

  /** The overflow chip `+n`, present when the stack has more than four entries. */
  function Overflow(p: Project): (r: Option<int>)
    ensures r.Some? <==> |p.techStack| > 4
    ensures r.Some? ==> r.value >= 1 && 4 + r.value == |p.techStack|
  {
    if |p.techStack| > 4 then Some(|p.techStack| - 4) else None
  }

  function OverflowCount(p: Project): nat {
    match Overflow(p)
    case None => 0
    case Some(n) => n
  }

  /**
   * With at most four AI technologies, at most four chips show, and the
   * chips and the overflow count add up to the size of the stack.
   */
  lemma ChipCounts(p: Project)
    requires |AiTechs(p)| <= 4
    ensures |Chips(p)| == if |p.techStack| < 4 then |p.techStack| else 4
    ensures |Chips(p)| + OverflowCount(p) == |p.techStack|
  {
    TechPartition(p);
    SliceFromStart(InfraTechs(p), 4 - |AiTechs(p)|);
  }

  /**
   * With more than four AI technologies the slice end is negative: instead
   * of no infrastructure chips, all but the last |ai| - 4 entries show, and
   * more than four chips appear in total.
   */
  lemma ManyAiChips(p: Project)
    requires |AiTechs(p)| > 4
    ensures var drop := |AiTechs(p)| - 4;
            ShownInfra(p) == InfraTechs(p)[..if |InfraTechs(p)| < drop then 0 else |InfraTechs(p)| - drop]
    ensures |Chips(p)| > 4
  {
    SliceFromStart(InfraTechs(p), 4 - |AiTechs(p)|);
  }

  /** A card with five AI technologies and two others. */
  const ManyAiProject: Project := Project(
    "many-ai", "Many AI", "", "",
    ["TensorFlow", "TensorFlow Lite", "OpenAI API", "NumPy", "Pandas", "React", "Node.js"],
    "", None, None, None, None)

  /** Its first five entries are AI technologies... */
  lemma ManyAiLeading()
    ensures forall i :: 0 <= i < 5 ==> IsAiTech(ManyAiProject.techStack[i])
  {
    var s := ManyAiProject.techStack;
    assert IsAiTech(s[0]) && IsAiTech(s[1]) && IsAiTech(s[2]);
    assert IsAiTech(s[3]) && IsAiTech(s[4]);
  }

  /** ...and its last two are not. */
  lemma ManyAiTrailing()
    ensures forall i :: 5 <= i < 7 ==> !IsAiTech(ManyAiProject.techStack[i])
  {
    var s := ManyAiProject.techStack;
    assert s[5] == "React" && s[6] == "Node.js";
    assert !IsAiTech("React") && !IsAiTech("Node.js");
  }

  /** So the first five entries form the AI group. */
  lemma ManyAiGroup()
    ensures AiTechs(ManyAiProject) == ManyAiProject.techStack[..5]
  {
    var s := ManyAiProject.techStack;
    ManyAiLeading();
    ManyAiTrailing();
    assert s == s[..5] + s[5..];
    NoneFiltered(s[5..], IsAiTech);
    AllFiltered(s[..5], IsAiTech);
    FilterConcat(s[..5], s[5..], IsAiTech);
  }

  /**
   * That card still shows one infrastructure chip, the first one, beside
   * the five AI chips and a "+3", instead of the four chips the layout aims at.
   */
  lemma ManyAiChipsExample()
    ensures |InfraTechs(ManyAiProject)| == 2
    ensures ShownInfra(ManyAiProject) == InfraTechs(ManyAiProject)[..1]
    ensures |Chips(ManyAiProject)| == 6 && OverflowCount(ManyAiProject) == 3
  {
    ManyAiGroup();
    TechPartition(ManyAiProject);
    ManyAiChips(ManyAiProject);
  }

  /** What the footer shows. `liveLink` is the "Visit Startup Website" link; without it the card offers its case study. */
  datatype Footer = Footer(metric: Option<string>, realTime: bool, ml: bool, liveLink: Option<string>)

  /** JavaScript's truthiness of an optional string: present and not empty. */
  predicate Truthy(s: Option<string>) {
    s.Some? && s.value != ""
  }

  function FooterOf(p: Project): (f: Footer)
    ensures f.metric.Some? <==> !IsSoftgame(p) && Truthy(PrimaryMetric(p))
    ensures f.metric.Some? ==> f.metric == PrimaryMetric(p) && f.metric.value == p.metrics.value[0]
    ensures f.realTime == HasRealTime(p)
    ensures f.ml <==> exists i :: 0 <= i < |p.techStack| && IsAiTech(p.techStack[i])
    ensures f.liveLink.Some? <==> IsSoftgame(p) && Truthy(p.liveUrl)
    ensures f.liveLink.Some? ==> f.liveLink == p.liveUrl
  {
    var metric := PrimaryMetric(p);
    var ai := AiTechs(p);
    assert |ai| > 0 <==> exists i :: 0 <= i < |p.techStack| && IsAiTech(p.techStack[i]) by {
      if |ai| > 0 {
        assert ai[0] in p.techStack;
      }
    }
    Footer(
      if !IsSoftgame(p) && Truthy(metric) then metric else None,
      HasRealTime(p),
      |ai| > 0,
      if IsSoftgame(p) && Truthy(p.liveUrl) then p.liveUrl else None)
  }
}
