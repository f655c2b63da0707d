/**
 * The decorative icons of `src/components/FloatingElements.tsx`: the
 * per-section element tables, the size and colour class lookups, the number
 * of particles, and the connection lines drawn between consecutive elements.
 * The window width is a parameter.
 */
module FloatingElements {
  import opened Wrappers

  datatype Icon = MessageSquare | Cpu | Network | Zap | Database | Globe | Shield | Sparkles | Hexagon

  /** A position in percent of the container. */
  datatype Position = Position(x: int, y: int)

  datatype FloatingElement = FloatingElement(
    id: string, icon: Icon, size: string, position: Position,
    delay: real, duration: real, color: string)

  /** The section names the tables cover. */
  const Sections: seq<string> := ["hero", "automation", "intelligence", "innovation"]

  const HeroElements: seq<FloatingElement> := [
    FloatingElement("msg-1", MessageSquare, "md", Position(10, 20), 0.0, 4.0, "cyan"),
    FloatingElement("cpu-1", Cpu, "sm", Position(85, 15), 1.0, 5.0, "teal"),
    FloatingElement("network-1", Network, "lg", Position(15, 70), 2.0, 3.0, "cyan"),
    FloatingElement("zap-1", Zap, "sm", Position(80, 75), 0.5, 4.5, "teal")
  ]

  const AutomationElements: seq<FloatingElement> := [
    FloatingElement("db-1", Database, "md", Position(20, 25), 0.0, 6.0, "cyan"),
    FloatingElement("globe-1", Globe, "lg", Position(75, 20), 1.5, 5.0, "teal"),
    FloatingElement("shield-1", Shield, "sm", Position(12, 80), 3.0, 4.0, "cyan"),
    FloatingElement("sparkles-1", Sparkles, "sm", Position(88, 70), 2.0, 3.0, "light")
  ]

  const IntelligenceElements: seq<FloatingElement> := [
    FloatingElement("cpu-2", Cpu, "lg", Position(25, 30), 0.0, 5.0, "teal"),
    FloatingElement("network-2", Network, "md", Position(70, 25), 2.0, 4.0, "cyan"),
    FloatingElement("hex-1", Hexagon, "sm", Position(15, 75), 1.0, 6.0, "teal"),
    FloatingElement("zap-2", Zap, "md", Position(85, 80), 3.5, 3.5, "cyan")
  ]

  const InnovationElements: seq<FloatingElement> := [
    FloatingElement("sparkles-2", Sparkles, "lg", Position(30, 20), 0.0, 4.0, "light"),
    FloatingElement("hex-2", Hexagon, "md", Position(65, 30), 1.5, 5.5, "cyan"),
    FloatingElement("cpu-3", Cpu, "sm", Position(20, 85), 3.0, 4.0, "teal"),
    FloatingElement("network-3", Network, "lg", Position(75, 75), 2.5, 6.0, "cyan")
  ]

  /** The elements of all four sections together. */
  function AllElements(): seq<FloatingElement>
  {
    HeroElements + AutomationElements + IntelligenceElements + InnovationElements
  }

  /** No two elements in the list share an id. */
  predicate DistinctIds(es: seq<FloatingElement>)
  {
    forall i, j :: 0 <= i < j < |es| ==> es[i].id != es[j].id
  }

  /** Every element lies inside the container. */
  predicate InsideContainer(es: seq<FloatingElement>)
  {
    forall i :: 0 <= i < |es| ==> 0 <= es[i].position.x <= 100 && 0 <= es[i].position.y <= 100
  }

  /** `getElementsForSection()`: four elements per known section; none for
      any other value. */
  function ElementsForSection(section: string): (r: seq<FloatingElement>)
    ensures section in Sections ==> |r| == 4
    ensures section !in Sections ==> r == []
    ensures DistinctIds(r) && InsideContainer(r)
    ensures forall i :: 0 <= i < |r| ==> r[i] in AllElements()
  {
    if section == "hero" then HeroElements
    else if section == "automation" then AutomationElements
    else if section == "intelligence" then IntelligenceElements
    else if section == "innovation" then InnovationElements
    else []
  }

  /** No id of `p` occurs in `q`. */
  predicate DisjointIds(p: seq<FloatingElement>, q: seq<FloatingElement>)
  {
    forall i, j :: 0 <= i < |p| && 0 <= j < |q| ==> p[i].id != q[j].id
  }

  lemma {:induction false} DistinctConcat(p: seq<FloatingElement>, q: seq<FloatingElement>)
    requires DistinctIds(p) && DistinctIds(q) && DisjointIds(p, q)
    ensures DistinctIds(p + q)
  {
    forall i, j | 0 <= i < j < |p + q|
      ensures (p + q)[i].id != (p + q)[j].id
    {
      if j < |p| {
        assert (p + q)[i] == p[i] && (p + q)[j] == p[j];
      } else if i < |p| {
        assert (p + q)[i] == p[i] && (p + q)[j] == q[j - |p|];
      } else {
        assert (p + q)[i] == q[i - |p|] && (p + q)[j] == q[j - |p|];
      }
    }
  }

  lemma {:induction false} DisjointConcat(p: seq<FloatingElement>, q: seq<FloatingElement>, r: seq<FloatingElement>)
    requires DisjointIds(p, r) && DisjointIds(q, r)
    ensures DisjointIds(p + q, r)
  {
    forall i, j | 0 <= i < |p + q| && 0 <= j < |r|
      ensures (p + q)[i].id != r[j].id
    {
      if i < |p| {
        assert (p + q)[i] == p[i];
      } else {
        assert (p + q)[i] == q[i - |p|];
      }
    }
  }

  /** The ids of different sections never clash. */
  lemma HeroIdsDisjoint()
    ensures DisjointIds(HeroElements, AutomationElements)
    ensures DisjointIds(HeroElements, IntelligenceElements)
    ensures DisjointIds(HeroElements, InnovationElements)
  {
  }

  lemma AutomationIdsDisjoint()
    ensures DisjointIds(AutomationElements, IntelligenceElements)
    ensures DisjointIds(AutomationElements, InnovationElements)
  {
  }

  lemma IntelligenceIdsDisjoint()
    ensures DisjointIds(IntelligenceElements, InnovationElements)
  {
  }

  /** Ids are distinct across all sections as well. */
  lemma AllIdsDistinct()
    ensures |AllElements()| == 16
    ensures DistinctIds(AllElements())
  {
    var h, a, i, n := HeroElements, AutomationElements, IntelligenceElements, InnovationElements;
    assert DistinctIds(h) && DistinctIds(a) && DistinctIds(i) && DistinctIds(n) by {
      assert ElementsForSection("hero") == h && ElementsForSection("automation") == a;
      assert ElementsForSection("intelligence") == i && ElementsForSection("innovation") == n;
    }
    HeroIdsDisjoint();
    AutomationIdsDisjoint();
    IntelligenceIdsDisjoint();
    DistinctConcat(h, a);
    DisjointConcat(h, a, i);
    DistinctConcat(h + a, i);
    DisjointConcat(h, a, n);
    DisjointConcat(h + a, i, n);
    DistinctConcat(h + a + i, n);
  }

  /** `getSizeClasses(size)`. */
  function SizeClasses(size: string): (r: string)
    ensures size == "sm" <==> r == "w-8 h-8"
    ensures size == "lg" <==> r == "w-16 h-16"
    ensures size != "sm" && size != "lg" <==> r == "w-12 h-12"
  {
    match size
    case "sm" => "w-8 h-8"
    case "md" => "w-12 h-12"
    case "lg" => "w-16 h-16"
    case _ => "w-12 h-12"
  }

  /** `getColorClasses(color)`. */
  function ColorClasses(color: string): (r: string)
    ensures color == "teal" <==> r == "text-brand-teal"
    ensures color == "light" <==> r == "text-brand-light"
    ensures color != "teal" && color != "light" <==> r == "text-brand-cyan"
  {
    match color
    case "cyan" => "text-brand-cyan"
    case "teal" => "text-brand-teal"
    case "light" => "text-brand-light"
    case _ => "text-brand-cyan"
  }

  /** `isMobile` as the resize listener sets it. */
  function IsMobile(innerWidth: int): (r: bool)
    ensures r <==> innerWidth < 768
    ensures ParticleCount(r) == 6 <==> innerWidth < 768
  {
    innerWidth < 768
  }

  /** The number of extra particles: fewer on narrow windows. */
  function ParticleCount(isMobile: bool): (r: nat)
    ensures r == 6 <==> isMobile
    ensures r == 12 <==> !isMobile
  {
    if isMobile then 6 else 12
  }

  /** A dashed line between two element positions. */
  datatype Line = Line(fromId: string, from: Position, to: Position)

  /** `elements.slice(0, 3).map(...)`: one slot per element among the first
      three, `None` where there is no next element. */
  function LineSlots(es: seq<FloatingElement>): (r: seq<Option<Line>>)
    ensures |r| == if |es| < 3 then |es| else 3
  {
    seq(if |es| < 3 then |es| else 3,
        i requires 0 <= i < |es| && i < 3 =>
          if i + 1 < |es| then Some(Line(es[i].id, es[i].position, es[i + 1].position)) else None)
  }

  /** The lines React renders from the slots: `null` renders nothing. */
  function Rendered(slots: seq<Option<Line>>): seq<Line>
  {
    if slots == [] then []
    else (match slots[0] case Some(l) => [l] case None => []) + Rendered(slots[1..])
  }

  /** Slots that hold lines up to `n` and nothing after render exactly those lines. */
  lemma {:induction false} RenderedPrefix(slots: seq<Option<Line>>, n: nat)
    requires n <= |slots|
    requires forall i :: 0 <= i < n ==> slots[i].Some?
    requires forall i :: n <= i < |slots| ==> slots[i].None?
    ensures |Rendered(slots)| == n
    ensures forall i :: 0 <= i < n ==> Rendered(slots)[i] == slots[i].value
  {
    if slots != [] {
      if n == 0 {
        RenderedPrefix(slots[1..], 0);
      } else {
        RenderedPrefix(slots[1..], n - 1);
      }
    }
  }

  /** The connection lines: min(3, n - 1) of them for n elements, line i
      joining element i to element i + 1. */
  function ConnectionLines(es: seq<FloatingElement>): (r: seq<Line>)
    ensures |r| == if |es| == 0 then 0 else if |es| - 1 < 3 then |es| - 1 else 3
    ensures forall i :: 0 <= i < |r| ==> r[i] == Line(es[i].id, es[i].position, es[i + 1].position)
  {
    var slots := LineSlots(es);
    var n := if |es| == 0 then 0 else if |es| - 1 < 3 then |es| - 1 else 3;
    RenderedPrefix(slots, n);
    Rendered(slots)
  }

  /** Every section draws exactly three lines. */
  lemma ThreeLinesPerSection(section: string)
    requires section in Sections
    ensures |ConnectionLines(ElementsForSection(section))| == 3
  {
  }
}
