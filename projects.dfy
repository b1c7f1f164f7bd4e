/**
 * The project carousel of the Projects section: the static project table,
 * the wrap-around `activeIndex` state and the pure per-card 3D layout.
 */
module Projects {

  datatype Project = Project(id: nat, title: string, description: string, image: string, tags: seq<string>)

  /** The five projects shown in the carousel, in display order. */
  const ProjectTable: seq<Project> := [
    Project(1, "AI Career Guidance System",
      "Intelligent career planning platform leveraging AI/ML algorithms for personalized pathways.",
      "/project_01.jpg", ["Python", "Machine Learning", "AI"]),
    Project(2, "CINEMAPULSE",
      "Real-time sentiment analysis platform using AWS for customer feedback analysis.",
      "/project_02.jpg", ["AWS", "Sentiment Analysis", "Cloud"]),
    Project(3, "Data Science Projects",
      "Collection of data analysis and visualization projects using Python and SQL.",
      "/project_03.jpg", ["Python", "SQL", "Data Analysis"]),
    Project(4, "Deep Learning Models",
      "Neural network implementations for image and text classification tasks.",
      "/project_04.jpg", ["Deep Learning", "TensorFlow", "Python"]),
    Project(5, "ML Algorithms",
      "Implementation of various machine learning algorithms from scratch.",
      "/project_05.jpg", ["Machine Learning", "Python", "Scikit-learn"])
  ]

  /** The index the carousel shows first. */
  const InitialIndex: int := 2

  // ---------------------------------------------------------------------------
  // Wrap-around navigation
  // ---------------------------------------------------------------------------

  /** The index `goToPrev` moves to, among `n` cards. */
  function PrevIndex(n: int, i: int): (r: int)
    requires 0 <= i < n
    ensures 0 <= r < n
    ensures r == (i + n - 1) % n
  {
    if i == 0 then n - 1 else i - 1
  }

  /** The index `goToNext` moves to, among `n` cards. */
  function NextIndex(n: int, i: int): (r: int)
    requires 0 <= i < n
    ensures 0 <= r < n
    ensures r == (i + 1) % n
  {
    if i == n - 1 then 0 else i + 1
  }

  /** The index reached from `i` by pressing "next" `k` times. */
  function NextTimes(n: int, i: int, k: nat): (r: int)
    requires 0 <= i < n
    ensures 0 <= r < n
  {
    if k == 0 then i else NextIndex(n, NextTimes(n, i, k - 1))
  }

  lemma PrevUndoesNext(n: int, i: int)
    requires 0 <= i < n
    ensures PrevIndex(n, NextIndex(n, i)) == i
    ensures NextIndex(n, PrevIndex(n, i)) == i
  {
  }

  /** Pressing "next" `k` times advances the index by `k` modulo `n`. */
  lemma {:induction false} NextTimesIsModular(n: int, i: int, k: nat)
    requires 0 <= i < n
    ensures NextTimes(n, i, k) == (i + k) % n
  {
    if k > 0 {
      NextTimesIsModular(n, i, k - 1);
      var j := (i + k - 1) % n;
      assert NextIndex(n, j) == (j + 1) % n;
      ModSucc(n, i + k - 1);
    }
  }

  /** Division with remainder has one answer: a quotient and remainder in range are the built-in ones. */
  lemma ModUnique(m: int, n: int, q: int, r: int)
    requires n > 0 && m == q * n + r && 0 <= r < n
    ensures m % n == r
  {
    var q0, r0 := m / n, m % n;
    assert m == q0 * n + r0;
    if q > q0 {
      MulAtLeast(q - q0, n);
      assert false;
    } else if q < q0 {
      MulAtLeast(q0 - q, n);
      assert false;
    }
  }

  lemma {:induction false} MulAtLeast(d: int, n: int)
    requires d >= 1 && n > 0
    ensures d * n >= n
  {
    if d > 1 {
      MulAtLeast(d - 1, n);
      assert d * n == (d - 1) * n + n;
    }
  }

  lemma ModSucc(n: int, m: int)
    requires n > 0 && m >= 0
    ensures ((m % n) + 1) % n == (m + 1) % n
  {
    var q, r := m / n, m % n;
    assert m == q * n + r;
    if r == n - 1 {
      ModUnique(m + 1, n, q + 1, 0);
      ModUnique(r + 1, n, 1, 0);
    } else {
      ModUnique(m + 1, n, q, r + 1);
      ModUnique(r + 1, n, 0, r + 1);
    }
  }

  /** A full round of `n` presses of "next" comes back to the starting card. */
  lemma NextFullRound(n: int, i: int)
    requires 0 <= i < n
    ensures NextTimes(n, i, n) == i
  {
    NextTimesIsModular(n, i, n);
    ModUnique(i + n, n, 1, i);
  }

  // ---------------------------------------------------------------------------
  // The active-index state
  // ---------------------------------------------------------------------------

  /** The carousel's React state: which project is in front. */
  class Carousel {
    var activeIndex: int

    ghost predicate Valid()
      reads this
    {
      0 <= activeIndex < |ProjectTable|
    }

    constructor ()
      ensures Valid() && activeIndex == InitialIndex
    {
      activeIndex := InitialIndex;
    }

    /** The previous-arrow button. */
    method GoToPrev()
      requires Valid()
      modifies this
      ensures Valid()
      ensures activeIndex == PrevIndex(|ProjectTable|, old(activeIndex))
    {
      activeIndex := if activeIndex == 0 then |ProjectTable| - 1 else activeIndex - 1;
    }

    /** The next-arrow button. */
    method GoToNext()
      requires Valid()
      modifies this
      ensures Valid()
      ensures activeIndex == NextIndex(|ProjectTable|, old(activeIndex))
    {
      activeIndex := if activeIndex == |ProjectTable| - 1 then 0 else activeIndex + 1;
    }

    /** A click on card `index`; the cards are rendered from the table's indices. */
    method SelectCard(index: int)
      requires Valid() && 0 <= index < |ProjectTable|
      modifies this
      ensures Valid() && activeIndex == index
    {
      activeIndex := index;
    }

    /** The counter under the carousel: position and total. */
    function Counter(): (r: (int, int))
      reads this
      requires Valid()
      ensures r.1 == |ProjectTable| && 1 <= r.0 <= r.1
      ensures r.0 - 1 == activeIndex
    {
      (activeIndex + 1, |ProjectTable|)
    }

    /** The title shown above the counter. */
    function ActiveTitle(): (t: string)
      reads this
      requires Valid()
      ensures t == ProjectTable[Counter().0 - 1].title
      ensures forall k :: 0 <= k < |ProjectTable| && CardLayout(k, activeIndex).zIndex == 10 ==>
        t == ProjectTable[k].title
    {
      ProjectTable[activeIndex].title
    }
  }

  // ---------------------------------------------------------------------------
  // Per-card layout
  // ---------------------------------------------------------------------------

  /** The inline style of one card: pixels, degrees, a scale factor, an opacity and a stacking order. */
  datatype CardStyle = CardStyle(
    translateX: int, translateZ: int, rotateY: int,
    scale: real, opacity: real, zIndex: int)

  function Abs(x: int): nat { if x < 0 then -x else x }

  /** The style of a card whose index is `offset` positions from the active one. */
  function StyleAt(offset: int): (r: CardStyle)
    ensures r.zIndex == 10 <==> offset == 0
    ensures offset != 0 ==> r.zIndex <= 4 && r.translateZ <= -200 && r.scale < 1.0
    ensures 0.0 <= r.opacity <= 1.0
    ensures r.opacity > 0.0 <==> Abs(offset) <= 2
    ensures r.opacity == 1.0 <==> offset == 0
  {
    var absOffset := Abs(offset);
    var isActive := offset == 0;
    CardStyle(
      offset * 280,
      if isActive then 100 else -150 - absOffset * 50,
      offset * -25,
      if isActive then 1.0 else 0.85 - absOffset as real * 0.05,
      if absOffset > 2 then 0.0 else 1.0 - absOffset as real * 0.2,
      if isActive then 10 else 5 - absOffset)
  }

  /** The style of card `index` when card `active` is in front: the offset is the raw difference. */
  function CardLayout(index: int, active: int): (r: CardStyle)
    ensures r.zIndex == 10 <==> index == active
    ensures r.opacity == 0.0 <==> Abs(index - active) > 2
  {
    StyleAt(index - active)
  }

  /** The active card sits in front, unscaled, fully opaque and on top. */
  lemma ActiveCardStyle(active: int)
    ensures CardLayout(active, active) == CardStyle(0, 100, 0, 1.0, 1.0, 10)
  {
  }

  /** Exactly one card of the carousel is the active one, and every other card is stacked below it. */
  lemma ExactlyOneActive(n: int, active: int)
    requires 0 <= active < n
    ensures (set k | 0 <= k < n && CardLayout(k, active).zIndex == 10) == {active}
    ensures forall k :: 0 <= k < n && k != active ==>
      CardLayout(k, active).zIndex == 5 - Abs(k - active) < CardLayout(active, active).zIndex
  {
    var s := (set k | 0 <= k < n && CardLayout(k, active).zIndex == 10);
    assert active in s;
    forall k | k in s ensures k == active {
    }
    forall k | 0 <= k < n && k != active
      ensures CardLayout(k, active).zIndex == 5 - Abs(k - active)
    {
      assert CardLayout(k, active) == StyleAt(k - active);
    }
  }

  /** Horizontal position and rotation flip sign with the offset; depth, scale, opacity and stacking do not. */
  lemma StyleMirrorSymmetric(offset: int)
    ensures StyleAt(-offset).translateX == -StyleAt(offset).translateX
    ensures StyleAt(-offset).rotateY == -StyleAt(offset).rotateY
    ensures StyleAt(-offset).translateZ == StyleAt(offset).translateZ
    ensures StyleAt(-offset).scale == StyleAt(offset).scale
    ensures StyleAt(-offset).opacity == StyleAt(offset).opacity
    ensures StyleAt(-offset).zIndex == StyleAt(offset).zIndex
  {
  }

  /** Position and rotation are linear in the offset. */
  lemma StyleLinear(offset: int)
    ensures StyleAt(offset).translateX == 280 * offset
    ensures StyleAt(offset).rotateY == -25 * offset
  {
  }

  /** Inactive cards recede with distance: depth, scale and stacking strictly decrease. */
  lemma FartherIsDeeper(a: int, b: int)
    requires 0 < Abs(a) < Abs(b)
    ensures StyleAt(b).translateZ < StyleAt(a).translateZ < StyleAt(0).translateZ
    ensures StyleAt(b).scale < StyleAt(a).scale < StyleAt(0).scale
    ensures StyleAt(b).zIndex < StyleAt(a).zIndex < StyleAt(0).zIndex
  {
  }

  /** Opacity and scale of an inactive card, as formulas of its distance. */
  lemma InactiveFade(offset: int)
    requires offset != 0
    ensures StyleAt(offset).translateZ == -150 - 50 * Abs(offset)
    ensures StyleAt(offset).scale == 0.85 - 0.05 * Abs(offset) as real
    ensures StyleAt(offset).opacity == if Abs(offset) > 2 then 0.0 else 1.0 - 0.2 * Abs(offset) as real
  {
  }

  /**
   * The layout does not wrap although the index does: with the last of four or
   * more cards in front, the first card is placed to the far left and is
   * invisible, yet it is the card that "next" brings to the front.
   */
  lemma LayoutDoesNotWrap(n: int)
    requires n >= 4
    ensures NextIndex(n, n - 1) == 0
    ensures CardLayout(0, n - 1).translateX == -280 * (n - 1) && CardLayout(0, n - 1).opacity == 0.0
    ensures PrevIndex(n, 0) == n - 1 && CardLayout(n - 1, 0).opacity == 0.0
  {
  }

  /** With the five projects: when card 4 is in front, card 0 has offset -4 and opacity 0. */
  lemma ProjectLayoutDoesNotWrap()
    ensures NextIndex(|ProjectTable|, 4) == 0
    ensures CardLayout(0, 4) == StyleAt(-4) && CardLayout(0, 4).opacity == 0.0
  {
    LayoutDoesNotWrap(|ProjectTable|);
  }

  /** Every project id is distinct, as the cards' React keys require. */
  lemma ProjectIdsDistinct()
    ensures forall i, j :: 0 <= i < j < |ProjectTable| ==> ProjectTable[i].id != ProjectTable[j].id
    ensures forall i :: 0 <= i < |ProjectTable| ==> ProjectTable[i].id == i + 1
  {
  }

  /** The initial index is a valid card. */
  lemma InitialIndexInRange()
    ensures 0 <= InitialIndex < |ProjectTable| == 5
  {
  }
}
