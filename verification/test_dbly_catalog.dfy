/** The course catalogue of the teaching-assistant pages
    (src/app/test/test_dbly/page.tsx): the course search, the experiment
    and minute totals, the category labels and the equipment badges of an
    experiment card. */
module TestDblyCatalog {
  import opened Text
  import opened Collections
  import TD = TestDblyData
  import C = Dbly1Catalog
  import S = Search

  /** The fields the course search looks at. */
  function NameAndDescription(): TD.Course -> (string, string) {
    (c: TD.Course) => (c.name, c.description)
  }

  /** `filteredCourses`: the search over the name and the description. */
  function FilteredCourses(courses: seq<TD.Course>, term: string): (r: seq<TD.Course>)
    ensures forall c :: c in r <==> c in courses && S.Matches(c.name, c.description, term)
    ensures term == "" ==> r == courses
  {
    S.Searched(courses, NameAndDescription(), term)
  }

  /** `mockCourses.reduce((sum, course) => sum + course.experiments.length, 0)` */
  function ExperimentCount(courses: seq<TD.Course>): nat
    decreases |courses|
  {
    if courses == [] then 0 else ExperimentCount(courses[..|courses| - 1]) + |courses[|courses| - 1].experiments|
  }

  /** The flattened experiments of some courses followed by one more. */
  lemma {:induction false} AllExperimentsSnoc(courses: seq<TD.Course>, c: TD.Course)
    ensures TD.AllExperiments(courses + [c]) == TD.AllExperiments(courses) + c.experiments
    decreases |courses|
  {
    if courses == [] {
      assert [c][1..] == [];
    } else {
      assert (courses + [c])[1..] == courses[1..] + [c];
      AllExperimentsSnoc(courses[1..], c);
    }
  }

  /** The experiment total counts every experiment of every course once. */
  lemma {:induction false} CountIsAllExperiments(courses: seq<TD.Course>)
    ensures ExperimentCount(courses) == |TD.AllExperiments(courses)|
    decreases |courses|
  {
    if courses != [] {
      var init := courses[..|courses| - 1];
      CountIsAllExperiments(init);
      AllExperimentsSnoc(init, courses[|courses| - 1]);
      assert init + [courses[|courses| - 1]] == courses;
    }
  }

  /** `course.experiments.reduce((sum, exp) => sum + exp.estimatedTime, 0)` */
  function Minutes(es: seq<TD.Experiment>): int
    decreases |es|
  {
    if es == [] then 0 else Minutes(es[..|es| - 1]) + es[|es| - 1].estimatedTime
  }

  /** The minutes of two lists of experiments add up. */
  lemma {:induction false} MinutesAppend(a: seq<TD.Experiment>, b: seq<TD.Experiment>)
    ensures Minutes(a + b) == Minutes(a) + Minutes(b)
    decreases |b|
  {
    if b == [] {
      assert a + b == a;
    } else {
      assert (a + b)[..|a + b| - 1] == a + b[..|b| - 1];
      MinutesAppend(a, b[..|b| - 1]);
    }
  }

  /** A list of experiments none of which takes negative time takes at
      least as long as any one of them. */
  lemma {:induction false} MinutesBound(es: seq<TD.Experiment>, k: int)
    requires forall i :: 0 <= i < |es| ==> es[i].estimatedTime >= 0
    requires 0 <= k < |es|
    ensures Minutes(es) >= es[k].estimatedTime
    decreases |es|
  {
    var init := es[..|es| - 1];
    MinutesNonNegative(init);
    if k < |es| - 1 {
      assert init[k] == es[k];
      MinutesBound(init, k);
    }
  }

  lemma {:induction false} MinutesNonNegative(es: seq<TD.Experiment>)
    requires forall i :: 0 <= i < |es| ==> es[i].estimatedTime >= 0
    ensures Minutes(es) >= 0
    decreases |es|
  {
    if es != [] {
      MinutesNonNegative(es[..|es| - 1]);
    }
  }

  /** The string a course's category is stored as. */
  function CategoryKey(c: TD.Category): (k: string)
    ensures C.Known(k)
  {
    match c
    case Digital => "digital"
    case Analog => "analog"
    case Basic => "basic"
  }

  /** Every course has a proper label: the `其他` fallback never shows. */
  lemma CourseCategoryNamed(c: TD.Course)
    ensures C.CategoryName(CategoryKey(c.category)) != "其他"
  {
  }

  /** The light class list of a colour family. */
  function Palette(h: string): string {
    "bg-" + (h + PaletteTail(h))
  }

  function PaletteTail(h: string): (t: string)
    ensures |t| > 0 && t[0] == '-'
  {
    "-100 text-" + h + "-800"
  }

  /** `getCategoryColor(category)`: e.g. `bg-blue-100 text-blue-800` for
      `digital`; the three categories get three different colours and any
      other category gets gray. */
  function CategoryColor(category: string): (r: string)
    ensures r == Palette("gray") <==> !C.Known(category)
    ensures forall other :: C.Known(category) && C.Known(other) && other != category ==> Palette(C.Hue(other)) != r
  {
    var r := Palette(C.Hue(category));
    forall other | C.Known(category) && C.Known(other) && other != category
      ensures Palette(C.Hue(other)) != r
    {
      if Palette(C.Hue(other)) == r {
        PrefixedHeadInjective("bg-", C.Hue(other), PaletteTail(C.Hue(other)), C.Hue(category), PaletteTail(C.Hue(category)), '-');
      }
    }
    if r == Palette("gray") then
      PrefixedHeadInjective("bg-", C.Hue(category), PaletteTail(C.Hue(category)), "gray", PaletteTail("gray"), '-');
      r
    else r
  }

  /** The badges of an experiment card: the first three items, then a `+N`
      badge counting the rest, present exactly when there is a rest. */
  function EquipmentBadges(equipment: seq<string>): (b: (seq<string>, Option<nat>))
    ensures b.0 <= equipment && |b.0| == if |equipment| < 3 then |equipment| else 3
    ensures b.1.Some? <==> |equipment| > 3
    ensures |b.0| + (if b.1.Some? then b.1.value else 0) == |equipment|
  {
    var shown := if |equipment| < 3 then equipment else equipment[..3];
    (shown, if |equipment| > 3 then Some(|equipment| - 3) else None)
  }
}
