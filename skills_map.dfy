/**
 * The skills map (`SkillsMapComponent`): the category list, the filter, the
 * grouping by category, the average level, and the pointer handling (hover,
 * hit test, drag with clamping). Skills are objects shared between the full
 * list, the filtered list, the hovered and the dragged skill; their name,
 * level and category never change, their coordinates do.
 */
module SkillsMap {
  import opened Wrappers

  /** One row of the skills table as written in the component. */
  datatype SkillRow = SkillRow(name: string, level: int, category: string)

  /** The site's sixteen skills, in table order. */
  const SiteSkills: seq<SkillRow> := [
    SkillRow("Angular", 40, "Frontend"), SkillRow("React", 50, "Frontend"),
    SkillRow("Vue.js", 50, "Frontend"), SkillRow("TypeScript", 60, "Frontend"),
    SkillRow("Three.js", 30, "Frontend"), SkillRow("CSS/Sass", 70, "Frontend"),
    SkillRow("Node.js", 70, "Backend"), SkillRow("Express", 70, "Backend"),
    SkillRow("C/C++", 60, "Backend"), SkillRow("PostgreSQL", 40, "Database"),
    SkillRow("MongoDB", 70, "Database"), SkillRow("Docker", 40, "DevOps"),
    SkillRow("CI/CD", 50, "DevOps"), SkillRow("DigitalOcean", 40, "DevOps"),
    SkillRow("Git", 80, "Tools"), SkillRow("Linux", 70, "Tools")
  ]

  /** A skill node; `x` and `y` are undefined until the layout places it. */
  class Skill {
    const name: string
    const level: int
    const category: string
    var x: Option<real>
    var y: Option<real>

    constructor (row: SkillRow)
      ensures name == row.name && level == row.level && category == row.category
      ensures x == None && y == None
    {
      name := row.name;
      level := row.level;
      category := row.category;
      x := None;
      y := None;
    }
  }

  /** One node per row, in order, each newly allocated. */
  method MakeSkills(rows: seq<SkillRow>) returns (nodes: seq<Skill>)
    ensures |nodes| == |rows|
    ensures forall k :: 0 <= k < |rows| ==>
              fresh(nodes[k]) && nodes[k].name == rows[k].name && nodes[k].level == rows[k].level
              && nodes[k].category == rows[k].category && nodes[k].x == None && nodes[k].y == None
  {
    nodes := [];
    for i := 0 to |rows|
      invariant |nodes| == i
      invariant forall k :: 0 <= k < i ==>
                  fresh(nodes[k]) && nodes[k].name == rows[k].name && nodes[k].level == rows[k].level
                  && nodes[k].category == rows[k].category && nodes[k].x == None && nodes[k].y == None
    {
      var node := new Skill(rows[i]);
      nodes := nodes + [node];
    }
  }

  // ----- Categories -----

  /** The category of every skill, in order. */
  function CategoryOf(skills: seq<Skill>): (r: seq<string>)
    ensures |r| == |skills|
    ensures forall k :: 0 <= k < |skills| ==> r[k] == skills[k].category
  {
    seq(|skills|, k requires 0 <= k < |skills| => skills[k].category)
  }

  /** `Array.from(new Set(s))`: each value once, kept where it first occurs. */
  function Distinct<T(==,!new)>(s: seq<T>): (r: seq<T>)
    ensures forall x :: x in r <==> x in s
    ensures forall i, j :: 0 <= i < j < |r| ==> r[i] != r[j]
    decreases |s|
  {
    if |s| == 0 then []
    else
      var d := Distinct(s[..|s| - 1]);
      var last := s[|s| - 1];
      assert forall x :: x in s <==> x in s[..|s| - 1] || x == last;
      if last in d then d else d + [last]
  }

  /** Where `x` first occurs in `s`. */
  function FirstIndex<T(==)>(s: seq<T>, x: T): (i: nat)
    requires x in s
    ensures i < |s| && s[i] == x && x !in s[..i]
  {
    if s[0] == x then 0
    else
      var i := 1 + FirstIndex(s[1..], x);
      assert s[..i] == [s[0]] + s[1..][..i - 1];
      i
  }

  /** Extending `s` does not move the first occurrence of a value already in it. */
  lemma FirstIndexExtend<T>(s: seq<T>, y: T, x: T)
    requires x in s
    ensures FirstIndex(s + [y], x) == FirstIndex(s, x)
  {
    var t := s + [y];
    var i := FirstIndex(s, x);
    var j := FirstIndex(t, x);
    assert t[..i] == s[..i];
    assert t[i] == x;
  }

  /** Every element of `r` occurs in `s`, and `r` lists them in the order `s` first reaches them. */
  predicate InFirstOccurrenceOrder<T(==)>(r: seq<T>, s: seq<T>)
  {
    (forall k :: 0 <= k < |r| ==> r[k] in s)
    && forall i, j :: 0 <= i < j < |r| ==> FirstIndex(s, r[i]) < FirstIndex(s, r[j])
  }

  /** The distinct values come in the order of their first occurrence. */
  lemma {:induction false} DistinctInOrder<T(!new)>(s: seq<T>)
    ensures InFirstOccurrenceOrder(Distinct(s), s)
    decreases |s|
  {
    if |s| > 0 {
      var p := s[..|s| - 1];
      var last := s[|s| - 1];
      assert s == p + [last];
      var d := Distinct(p);
      var r := Distinct(s);
      DistinctInOrder(p);
      forall x | x in d
        ensures FirstIndex(s, x) == FirstIndex(p, x) < |p|
      {
        FirstIndexExtend(p, last, x);
      }
      forall i, j | 0 <= i < j < |r|
        ensures FirstIndex(s, r[i]) < FirstIndex(s, r[j])
      {
        assert r[i] == d[i] && d[i] in d;
        if j < |d| {
          assert r[j] == d[j] && d[j] in d;
          assert FirstIndex(p, d[i]) < FirstIndex(p, d[j]);
        } else {
          assert r[j] == last && last !in s[..|p|];
          assert FirstIndex(s, last) == |p|;
        }
      }
    }
  }

  /** `categories`: `'All'` before the distinct categories of the skills. */
  function Categories(skills: seq<Skill>): (r: seq<string>)
    ensures |r| >= 1 && r[0] == "All"
    ensures forall c :: c in r[1..] <==> exists k :: 0 <= k < |skills| && skills[k].category == c
    ensures forall i, j :: 1 <= i < j < |r| ==> r[i] != r[j]
  {
    var cats := CategoryOf(skills);
    var r := ["All"] + Distinct(cats);
    assert r[1..] == Distinct(cats);
    r
  }

  /** The category list names the categories in the order the skills first use them. */
  lemma CategoriesInOrder(skills: seq<Skill>)
    ensures InFirstOccurrenceOrder(Categories(skills)[1..], CategoryOf(skills))
  {
    var cats := CategoryOf(skills);
    assert Categories(skills)[1..] == Distinct(cats);
    DistinctInOrder(cats);
  }

  // ----- Filtering and grouping -----

  /** `s` occurs in `t` in order, possibly with gaps. */
  predicate Subsequence<T(==)>(s: seq<T>, t: seq<T>)
    decreases |t|
  {
    if |s| == 0 then true
    else if |t| == 0 then false
    else if s[0] == t[0] then Subsequence(s[1..], t[1..])
    else Subsequence(s, t[1..])
  }

  /** `skills.filter(s => s.category === category)`. */
  function OfCategory(skills: seq<Skill>, category: string): (r: seq<Skill>)
    ensures forall k :: 0 <= k < |r| ==> r[k] in skills && r[k].category == category
    ensures forall k :: 0 <= k < |skills| && skills[k].category == category ==> skills[k] in r
    ensures Subsequence(r, skills)
    decreases |skills|
  {
    if |skills| == 0 then []
    else
      var rest := OfCategory(skills[1..], category);
      assert forall k :: 1 <= k < |skills| ==> skills[k] == skills[1..][k - 1];
      if skills[0].category == category then [skills[0]] + rest else rest
  }

  /** The filter, one skill at a time from the end. */
  lemma {:induction false} OfCategoryAppend(skills: seq<Skill>, s: Skill, category: string)
    ensures OfCategory(skills + [s], category)
         == OfCategory(skills, category) + (if s.category == category then [s] else [])
    decreases |skills|
  {
    if |skills| > 0 {
      assert (skills + [s])[1..] == skills[1..] + [s];
      OfCategoryAppend(skills[1..], s, category);
    } else {
      assert skills + [s] == [s];
    }
  }

  /** What `filterByCategory` selects: every skill for `'All'`, else those of the category. */
  function Selected(skills: seq<Skill>, category: string): (r: seq<Skill>)
    ensures category == "All" ==> r == skills
    ensures category != "All" ==> r == OfCategory(skills, category)
    ensures Subsequence(r, skills)
  {
    if category == "All" then (SubsequenceOfItself(skills); skills) else OfCategory(skills, category)
  }

  lemma {:induction false} SubsequenceOfItself<T>(s: seq<T>)
    ensures Subsequence(s, s)
    decreases |s|
  {
    if |s| > 0 {
      SubsequenceOfItself(s[1..]);
    }
  }

  /** `groupByCategory`, one skill at a time: append the skill to its category's group. */
  function Grouped(skills: seq<Skill>): (groups: map<string, seq<Skill>>)
    ensures forall c :: c in groups ==> |groups[c]| > 0 && groups[c][|groups[c]| - 1].category == c
    decreases |skills|
  {
    if |skills| == 0 then map[]
    else
      var g := Grouped(skills[..|skills| - 1]);
      var s := skills[|skills| - 1];
      g[s.category := (if s.category in g then g[s.category] else []) + [s]]
  }

  /** One category's group: present exactly when the filter by it is non-empty, and then equal to it. */
  lemma {:induction false} GroupedAt(skills: seq<Skill>, c: string)
    ensures c in Grouped(skills) <==> OfCategory(skills, c) != []
    ensures c in Grouped(skills) ==> Grouped(skills)[c] == OfCategory(skills, c)
    decreases |skills|
  {
    if |skills| > 0 {
      var p := skills[..|skills| - 1];
      var s := skills[|skills| - 1];
      assert skills == p + [s];
      GroupedAt(p, c);
      OfCategoryAppend(p, s, c);
    }
  }

  /** The filter by a category is non-empty exactly when some skill has it. */
  lemma OfCategoryNonEmpty(skills: seq<Skill>, c: string)
    ensures OfCategory(skills, c) != [] <==> exists k :: 0 <= k < |skills| && skills[k].category == c
  {
    var r := OfCategory(skills, c);
    if r != [] {
      assert r[0] in skills && r[0].category == c;
      var k :| 0 <= k < |skills| && skills[k] == r[0];
    }
  }

  /**
   * The groups partition the skills: there is a group exactly for each
   * category in use, and each group is the filter by its category, so every
   * skill appears once, in its own group, in its original order.
   */
  lemma GroupedIsFilter(skills: seq<Skill>)
    ensures var g := Grouped(skills);
            (forall c :: c in g <==> exists k :: 0 <= k < |skills| && skills[k].category == c)
            && forall c :: c in g ==> g[c] == OfCategory(skills, c)
  {
    forall c
      ensures c in Grouped(skills) <==> exists k :: 0 <= k < |skills| && skills[k].category == c
      ensures c in Grouped(skills) ==> Grouped(skills)[c] == OfCategory(skills, c)
    {
      GroupedAt(skills, c);
      OfCategoryNonEmpty(skills, c);
    }
  }

  /** `groupByCategory` as written: a reduce that creates a group on first sight and pushes into it. */
  method GroupByCategory(skills: seq<Skill>) returns (groups: map<string, seq<Skill>>)
    ensures groups == Grouped(skills)
  {
    groups := map[];
    for i := 0 to |skills|
      invariant groups == Grouped(skills[..i])
    {
      var category := skills[i].category;
      if category !in groups {
        groups := groups[category := []];
      }
      groups := groups[category := groups[category] + [skills[i]]];
      assert skills[..i + 1][..i] == skills[..i];
    }
    assert skills[..|skills|] == skills;
  }

  // ----- The average level -----

  function SumLevels(skills: seq<Skill>): int
    decreases |skills|
  {
    if |skills| == 0 then 0 else SumLevels(skills[..|skills| - 1]) + skills[|skills| - 1].level
  }

  /** `Math.round(a / n)`: the nearest integer, halves rounded up. */
  function RoundDiv(a: int, n: int): (r: int)
    requires n > 0
    ensures 2 * (n * r) - n <= 2 * a < 2 * (n * r) + n
  {
    (2 * a + n) / (2 * n)
  }

  /** `averageLevel` of a list of skills. */
  function Average(skills: seq<Skill>): (r: int)
    ensures |skills| == 0 ==> r == 0
    ensures |skills| > 0 ==> 2 * (|skills| * r) - |skills| <= 2 * SumLevels(skills) < 2 * (|skills| * r) + |skills|
  {
    if |skills| == 0 then 0 else RoundDiv(SumLevels(skills), |skills|)
  }

  lemma {:induction false} SumBetween(skills: seq<Skill>, lo: int, hi: int)
    requires forall k :: 0 <= k < |skills| ==> lo <= skills[k].level <= hi
    ensures |skills| * lo <= SumLevels(skills) <= |skills| * hi
    decreases |skills|
  {
    if |skills| > 0 {
      SumBetween(skills[..|skills| - 1], lo, hi);
    }
  }

  // The monotonicity step of the two rounding lemmas below.
  lemma MultiplyAtLeast(n: int, a: int, b: int)
    requires n > 0 && a <= b
    ensures n * a <= n * b
  {
  }

  /** A mean rounded to the nearest integer does not exceed a bound on the sum. */
  lemma RoundedAtMost(n: int, r: int, sum: int, hi: int)
    requires n > 0 && 2 * (n * r) - n <= 2 * sum && sum <= n * hi
    ensures r <= hi
  {
    if r > hi {
      MultiplyAtLeast(n, hi + 1, r);
    }
  }

  /** A mean rounded to the nearest integer is not below a lower bound on the sum. */
  lemma RoundedAtLeast(n: int, r: int, sum: int, lo: int)
    requires n > 0 && 2 * sum < 2 * (n * r) + n && n * lo <= sum
    ensures lo <= r
  {
    if r < lo {
      MultiplyAtLeast(n, r, lo - 1);
    }
  }

  /** The lowest level of a non-empty list. */
  function MinLevel(skills: seq<Skill>): (m: int)
    requires |skills| > 0
    ensures forall k :: 0 <= k < |skills| ==> m <= skills[k].level
    ensures exists k :: 0 <= k < |skills| && m == skills[k].level
    decreases |skills|
  {
    if |skills| == 1 then skills[0].level
    else
      var m := MinLevel(skills[1..]);
      assert forall k :: 1 <= k < |skills| ==> skills[k] == skills[1..][k - 1];
      if skills[0].level <= m then skills[0].level else m
  }

  /** The highest level of a non-empty list. */
  function MaxLevel(skills: seq<Skill>): (m: int)
    requires |skills| > 0
    ensures forall k :: 0 <= k < |skills| ==> skills[k].level <= m
    ensures exists k :: 0 <= k < |skills| && m == skills[k].level
    decreases |skills|
  {
    if |skills| == 1 then skills[0].level
    else
      var m := MaxLevel(skills[1..]);
      assert forall k :: 1 <= k < |skills| ==> skills[k] == skills[1..][k - 1];
      if skills[0].level >= m then skills[0].level else m
  }

  /** The average of a non-empty list lies between its lowest and its highest level. */
  lemma AverageBetween(skills: seq<Skill>, lo: int, hi: int)
    requires |skills| > 0
    requires forall k :: 0 <= k < |skills| ==> lo <= skills[k].level <= hi
    ensures lo <= Average(skills) <= hi
  {
    SumBetween(skills, lo, hi);
    RoundedAtMost(|skills|, Average(skills), SumLevels(skills), hi);
    RoundedAtLeast(|skills|, Average(skills), SumLevels(skills), lo);
  }

  // ----- Pointer handling -----

  /** JavaScript truthiness of an optional coordinate: defined and not zero. */
  predicate Truthy(c: Option<real>)
  {
    c.Some? && c.value != 0.0
  }

  /** The mousedown test for one skill: placed, and the point within 60 across and 25 up or down. */
  predicate Hits(s: Skill, px: real, py: real)
    reads s
  {
    Truthy(s.x) && Truthy(s.y)
    && s.x.value - 60.0 <= px <= s.x.value + 60.0 && s.y.value - 25.0 <= py <= s.y.value + 25.0
  }

  /** `filteredSkills.find(...)` for the mousedown: the index of the first skill hit. */
  function HitTest(skills: seq<Skill>, px: real, py: real): (r: Option<nat>)
    reads skills
    ensures r.Some? ==> r.value < |skills| && Hits(skills[r.value], px, py)
                        && forall k :: 0 <= k < r.value ==> !Hits(skills[k], px, py)
    ensures r.None? ==> forall k :: 0 <= k < |skills| ==> !Hits(skills[k], px, py)
    decreases |skills|
  {
    if |skills| == 0 then None
    else if Hits(skills[0], px, py) then Some(0)
    else match HitTest(skills[1..], px, py)
      case None => None
      case Some(k) => Some(k + 1)
  }

  /** A placed skill is found by a press on its own centre, or an earlier skill is. */
  lemma HitTestAtCentre(skills: seq<Skill>, k: nat)
    requires k < |skills| && Truthy(skills[k].x) && Truthy(skills[k].y)
    ensures var r := HitTest(skills, skills[k].x.value, skills[k].y.value);
            r.Some? && r.value <= k
  {
    assert Hits(skills[k], skills[k].x.value, skills[k].y.value);
  }

  /** `Math.max(lo, Math.min(hi, v))`. */
  function Clamp(v: real, lo: real, hi: real): (r: real)
    ensures lo <= r
    ensures lo <= hi ==> r <= hi
    ensures lo <= v <= hi ==> r == v
    ensures r == lo || r == hi || r == v
  {
    var m := if hi < v then hi else v;
    if lo > m then lo else m
  }

  /** The skills map's state. */
  class SkillsMapComponent {
    const skills: seq<Skill>
    var filteredSkills: seq<Skill>
    var categories: seq<string>
    var selectedCategory: string
    var hoveredSkill: Option<Skill>
    var tooltipX: real
    var tooltipY: real
    var isDragging: bool
    var draggedSkill: Option<Skill>
    var dragOffsetX: real
    var dragOffsetY: real

    /**
     * The filtered list is the selection for the selected category. It is not
     * a class invariant: before `ngOnInit` the list is empty whatever the
     * category, as in the source; `Init` and `FilterByCategory` establish it.
     */
    ghost predicate FilterCurrent()
      reads this
    {
      filteredSkills == Selected(skills, selectedCategory)
    }

    /** The component with the site's table, before `ngOnInit`. */
    constructor ()
      ensures |skills| == |SiteSkills| && filteredSkills == [] && categories == ["All"]
      ensures forall k :: 0 <= k < |SiteSkills| ==>
                skills[k].name == SiteSkills[k].name && skills[k].level == SiteSkills[k].level
                && skills[k].category == SiteSkills[k].category && skills[k].x == None && skills[k].y == None
      ensures selectedCategory == "All" && hoveredSkill == None && !isDragging && draggedSkill == None
      ensures tooltipX == 0.0 && tooltipY == 0.0 && dragOffsetX == 0.0 && dragOffsetY == 0.0
    {
      var nodes := MakeSkills(SiteSkills);
      skills := nodes;
      filteredSkills := [];
      categories := ["All"];
      selectedCategory := "All";
      hoveredSkill := None;
      tooltipX := 0.0;
      tooltipY := 0.0;
      isDragging := false;
      draggedSkill := None;
      dragOffsetX := 0.0;
      dragOffsetY := 0.0;
    }

    /** `totalSkills`. */
    function TotalSkills(): (n: nat)
      reads this
      requires FilterCurrent()
      ensures selectedCategory == "All" ==> n == |skills|
      ensures selectedCategory != "All" ==> n == |OfCategory(skills, selectedCategory)|
    {
      |filteredSkills|
    }

    /** `averageLevel` over the filtered skills: 0 for none, else the rounded mean, within the levels' range. */
    function AverageLevel(): (r: int)
      reads this
      ensures filteredSkills == [] ==> r == 0
      ensures filteredSkills != [] ==>
                MinLevel(filteredSkills) <= r <= MaxLevel(filteredSkills)
                && 2 * (|filteredSkills| * r) - |filteredSkills| <= 2 * SumLevels(filteredSkills)
                && 2 * SumLevels(filteredSkills) < 2 * (|filteredSkills| * r) + |filteredSkills|
    {
      if filteredSkills == [] then 0
      else
        AverageBetween(filteredSkills, MinLevel(filteredSkills), MaxLevel(filteredSkills));
        Average(filteredSkills)
    }

    /** `ngOnInit` without the layout: the category list, then the `'All'` filter. */
    method Init()
      modifies this
      ensures FilterCurrent()
      ensures categories == Categories(skills) && selectedCategory == "All" && filteredSkills == skills
      ensures hoveredSkill == old(hoveredSkill) && isDragging == old(isDragging) && draggedSkill == old(draggedSkill)
      ensures tooltipX == old(tooltipX) && tooltipY == old(tooltipY)
      ensures dragOffsetX == old(dragOffsetX) && dragOffsetY == old(dragOffsetY)
    {
      categories := Categories(skills);
      FilterByCategory("All");
    }

    /** The layout's assignment of one skill's coordinates. */
    method PlaceSkill(k: nat, x: real, y: real)
      requires k < |skills|
      modifies skills[k]
      ensures skills[k].x == Some(x) && skills[k].y == Some(y)
    {
      skills[k].x := Some(x);
      skills[k].y := Some(y);
    }

    method FilterByCategory(category: string)
      modifies this
      ensures FilterCurrent()
      ensures selectedCategory == category && filteredSkills == Selected(skills, category)
      ensures categories == old(categories) && hoveredSkill == old(hoveredSkill)
      ensures isDragging == old(isDragging) && draggedSkill == old(draggedSkill)
      ensures tooltipX == old(tooltipX) && tooltipY == old(tooltipY)
      ensures dragOffsetX == old(dragOffsetX) && dragOffsetY == old(dragOffsetY)
    {
      selectedCategory := category;
      if category == "All" {
        filteredSkills := skills;
      } else {
        filteredSkills := OfCategory(skills, category);
      }
    }

    /** `onSkillHover`: ignored while dragging; the tooltip follows a placed skill. */
    method OnSkillHover(s: Skill)
      modifies this
      ensures isDragging ==> unchanged(this)
      ensures !isDragging ==> hoveredSkill == Some(s)
      ensures !isDragging && Truthy(s.x) && Truthy(s.y) ==> tooltipX == s.x.value + 20.0 && tooltipY == s.y.value - 50.0
      ensures !(Truthy(s.x) && Truthy(s.y)) ==> tooltipX == old(tooltipX) && tooltipY == old(tooltipY)
      ensures isDragging == old(isDragging) && draggedSkill == old(draggedSkill)
      ensures filteredSkills == old(filteredSkills) && selectedCategory == old(selectedCategory)
      ensures categories == old(categories) && dragOffsetX == old(dragOffsetX) && dragOffsetY == old(dragOffsetY)
    {
      if !isDragging {
        hoveredSkill := Some(s);
        if Truthy(s.x) && Truthy(s.y) {
          tooltipX := s.x.value + 20.0;
          tooltipY := s.y.value - 50.0;
        }
      }
    }

    /** `onSkillLeave`: ignored while dragging. */
    method OnSkillLeave()
      modifies this
      ensures isDragging ==> unchanged(this)
      ensures !isDragging ==> hoveredSkill == None
      ensures tooltipX == old(tooltipX) && tooltipY == old(tooltipY)
      ensures isDragging == old(isDragging) && draggedSkill == old(draggedSkill)
      ensures filteredSkills == old(filteredSkills) && selectedCategory == old(selectedCategory)
      ensures categories == old(categories) && dragOffsetX == old(dragOffsetX) && dragOffsetY == old(dragOffsetY)
    {
      if !isDragging {
        hoveredSkill := None;
      }
    }

    /** The mousedown listener, at a point relative to the container: grab the first skill hit. */
    method MouseDown(px: real, py: real)
      modifies this
      ensures var hit := HitTest(old(filteredSkills), px, py);
              (hit.None? ==> unchanged(this))
              && (hit.Some? ==>
                    var s := old(filteredSkills)[hit.value];
                    isDragging && draggedSkill == Some(s)
                    && dragOffsetX == px - s.x.value && dragOffsetY == py - s.y.value
                    && tooltipX == old(tooltipX) && tooltipY == old(tooltipY) && categories == old(categories))
      ensures filteredSkills == old(filteredSkills) && selectedCategory == old(selectedCategory)
      ensures hoveredSkill == old(hoveredSkill)
    {
      var hit := HitTest(filteredSkills, px, py);
      if hit.Some? {
        var s := filteredSkills[hit.value];
        isDragging := true;
        draggedSkill := Some(s);
        dragOffsetX := px - s.x.value;
        dragOffsetY := py - s.y.value;
      }
    }

    /**
     * The mousemove listener's animation-frame body: move the dragged skill
     * to the pointer minus the grab offset, clamped 50 inside the container.
     */
    method MouseMove(px: real, py: real, width: real, height: real)
      modifies if draggedSkill.Some? then {draggedSkill.value} else {}
      ensures isDragging && draggedSkill.Some? ==>
                draggedSkill.value.x == Some(Clamp(px - dragOffsetX, 50.0, width - 50.0))
                && draggedSkill.value.y == Some(Clamp(py - dragOffsetY, 50.0, height - 50.0))
      ensures !(isDragging && draggedSkill.Some?) ==> draggedSkill.None? || unchanged(draggedSkill.value)
    {
      if isDragging && draggedSkill.Some? {
        var s := draggedSkill.value;
        s.x := Some(px - dragOffsetX);
        s.y := Some(py - dragOffsetY);
        s.x := Some(Clamp(s.x.value, 50.0, width - 50.0));
        s.y := Some(Clamp(s.y.value, 50.0, height - 50.0));
      }
    }

    /** The mouseup and mouseleave listeners: drop whatever is dragged. */
    method EndDrag()
      modifies this
      ensures !isDragging && draggedSkill == None
      ensures dragOffsetX == old(dragOffsetX) && dragOffsetY == old(dragOffsetY)
      ensures filteredSkills == old(filteredSkills) && selectedCategory == old(selectedCategory)
      ensures hoveredSkill == old(hoveredSkill)
      ensures tooltipX == old(tooltipX) && tooltipY == old(tooltipY) && categories == old(categories)
    {
      isDragging := false;
      draggedSkill := None;
    }
  }
}
