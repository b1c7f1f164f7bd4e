/**
 * The Skills section: the table of eight skills on an orbit, the selected
 * skill shown in the side panel, and the orbit's animation delays.
 */
module Skills {
  import opened Wrappers

  /** A skill node; the icon component is left out. */
  datatype Skill = Skill(name: string, angle: int, description: string)

  const SkillTable: seq<Skill> := [
    Skill("Python", 0,
      "Strong proficiency in Python for data analysis, automation, backend development, and AI/ML projects."),
    Skill("Machine Learning", 45,
      "Hands-on experience in developing, training, and evaluating machine learning models for predictive tasks."),
    Skill("Deep Learning", 90,
      "Building intelligent systems using AI techniques to automate tasks and solve real-world problems."),
    Skill("SQL", 135,
      "Efficient in writing optimized queries to manage, retrieve, and analyze structured database data."),
    Skill("Data Analysis", 180,
      "Skilled in collecting, cleaning, and analyzing data to extract insights and support data-driven decisions."),
    Skill("AWS", 225,
      "Experience with cloud-based services for deploying, managing, and scaling applications efficiently."),
    Skill("Excel", 270,
      "Advanced Excel skills for data manipulation, visualization, and business analytics."),
    Skill("AI", 315,
      "Building intelligent systems using AI techniques to automate tasks and solve real-world problems.")
  ]

  /** The length, in seconds, of one revolution of the orbit animation. */
  const OrbitPeriod: real := 20.0

  /** Names are distinct, as their use as React keys requires, and node i sits at 45·i degrees. */
  lemma SkillTableWellFormed()
    ensures |SkillTable| == 8
    ensures forall i, j :: 0 <= i < j < |SkillTable| ==> SkillTable[i].name != SkillTable[j].name
    ensures forall i :: 0 <= i < |SkillTable| ==> SkillTable[i].angle == 45 * i
  {
    forall i, j | 0 <= i < j < |SkillTable| ensures SkillTable[i].name != SkillTable[j].name {
      assert SkillTable[i].name[0] != SkillTable[j].name[0] || |SkillTable[i].name| != |SkillTable[j].name|
        || SkillTable[i].name[1] != SkillTable[j].name[1];
    }
  }

  // ---------------------------------------------------------------------------
  // Orbit delays
  // ---------------------------------------------------------------------------

  /** The CSS `animationDelay`, in seconds, of node `index` among `count` nodes. */
  function OrbitDelay(count: nat, index: nat): (d: real)
    requires count > 0
    ensures index < count ==> -OrbitPeriod < d <= 0.0
  {
    -(OrbitPeriod / count as real) * index as real
  }

  /** The delays are evenly spaced by one node's share of the period. */
  lemma OrbitDelaysEvenlySpaced(count: nat, index: nat)
    requires count > 0
    ensures OrbitDelay(count, index + 1) - OrbitDelay(count, index) == -(OrbitPeriod / count as real)
  {
  }

  /** Different nodes start at different phases of the orbit. */
  lemma OrbitDelaysDistinct(count: nat, i: nat, j: nat)
    requires count > 0 && i != j
    ensures OrbitDelay(count, i) != OrbitDelay(count, j)
  {
    var step := OrbitPeriod / count as real;
    assert step > 0.0;
    assert OrbitDelay(count, i) - OrbitDelay(count, j) == step * (j as real - i as real);
  }

  /** With the eight skills of the table, node i is delayed by -2.5·i seconds. */
  lemma SkillOrbitDelays(index: nat)
    ensures OrbitDelay(|SkillTable|, index) == -2.5 * index as real
  {
  }

  // ---------------------------------------------------------------------------
  // Selection and the side panel
  // ---------------------------------------------------------------------------

  /** What the side panel shows. */
  datatype Panel = Detail(title: string, body: string) | Overview

  /** The side panel for a selection: the skill's name and description, or the default text. */
  function PanelFor(selected: Option<Skill>): (p: Panel)
    ensures p.Detail? <==> selected.Some?
    ensures p.Detail? ==> p.title == selected.value.name && p.body == selected.value.description
  {
    match selected
    case Some(s) => Detail(s.name, s.description)
    case None => Overview
  }

  class SkillSelection {
    var selectedSkill: Option<Skill>

    /** The selection is nothing, or one of the table's skills. */
    ghost predicate Valid()
      reads this
    {
      selectedSkill.None? || selectedSkill.value in SkillTable
    }

    constructor ()
      ensures Valid() && selectedSkill == None
    {
      selectedSkill := None;
    }

    /** A click on node `index`: it replaces any earlier selection. */
    method SelectNode(index: int)
      requires Valid() && 0 <= index < |SkillTable|
      modifies this
      ensures Valid() && selectedSkill == Some(SkillTable[index])
    {
      selectedSkill := Some(SkillTable[index]);
    }

    /** "Back to skill tree". */
    method Back()
      requires Valid()
      modifies this
      ensures Valid() && selectedSkill == None
    {
      selectedSkill := None;
    }

    /** The side panel for the current selection. */
    function CurrentPanel(): (p: Panel)
      reads this
      requires Valid()
      ensures p == PanelFor(selectedSkill)
      ensures p.Detail? ==> exists k :: 0 <= k < |SkillTable| && p.title == SkillTable[k].name
    {
      PanelFor(selectedSkill)
    }
  }
}
