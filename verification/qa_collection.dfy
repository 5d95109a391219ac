/** The question-collection page (src/app/test/qa_collection/page.tsx): a
    search, category, model, tag and time-window filter pipeline over the
    imported questions, followed by an in-place sort, and the handlers that
    change the selected category and tags. */
module QACollection {
  import opened Text
  import opened Collections

  datatype Tag = Tag(id: int, name: string)

  /** A question; `createdAt` is the creation time in milliseconds, the
      value `new Date(created_at)` denotes. */
  datatype Question = Question(
    id: int, title: string, content: string, createdAt: int,
    categoryId: int, productModelId: int,
    viewsCount: int, likesCount: int, tags: seq<Tag>)

  datatype SortBy = Latest | Best | Ranking
  datatype Period = Week | Month | Quarter | Year | All

  /** The page's filter state. Ids are `number | null`; 0 is falsy. */
  datatype Filters = Filters(
    searchTerm: string, category: Option<int>, model: Option<int>,
    selectedTags: seq<int>, sortBy: SortBy, period: Period)

  const DayMs: int := 24 * 60 * 60 * 1000

  /** JavaScript truthiness of a `number | null` id. */
  predicate Selected(id: Option<int>) {
    id.Some? && id.value != 0
  }

  /** The days the time window reaches back. */
  function WindowDays(p: Period): (d: int)
    requires p != All
    ensures d in {7, 30, 90, 365}
  {
    match p
    case Week => 7
    case Month => 30
    case Quarter => 90
    case Year => 365
  }

  // ---------------------------------------------------------------------
  // the individual filters

  /** The search filter: the lowercased (untrimmed) term occurs in the
      lowercased title, content or some tag name. */
  predicate MatchesSearch(q: Question, term: string) {
    var t := Lower(term);
    Contains(Lower(q.title), t) || Contains(Lower(q.content), t)
    || exists k :: 0 <= k < |q.tags| && Contains(Lower(q.tags[k].name), t)
  }

  /** Every selected tag id is the id of one of the question's tags. */
  predicate HasAllTags(q: Question, ids: seq<int>) {
    forall i :: 0 <= i < |ids| ==> exists k :: 0 <= k < |q.tags| && q.tags[k].id == ids[i]
  }

  predicate InWindow(q: Question, p: Period, now: int)
    requires p != All
  {
    q.createdAt >= now - WindowDays(p) * DayMs
  }

  /** The stages of the pipeline, in the page's order. */
  datatype Stage = Search | Category | Model | Tags | Window

  const Stages: seq<Stage> := [Search, Category, Model, Tags, Window]

  /** Whether a stage filters at all under the current selection. */
  predicate Applies(st: Stage, f: Filters) {
    match st
    case Search => Trim(f.searchTerm) != ""
    case Category => Selected(f.category)
    case Model => Selected(f.model)
    case Tags => |f.selectedTags| > 0
    case Window => f.sortBy == Ranking && f.period != All
  }

  /** The test a stage applies to one question. */
  predicate Passes(q: Question, st: Stage, f: Filters, now: int) {
    match st
    case Search => MatchesSearch(q, f.searchTerm)
    case Category => f.category.Some? && q.categoryId == f.category.value
    case Model => f.model.Some? && q.productModelId == f.model.value
    case Tags => HasAllTags(q, f.selectedTags)
    case Window => f.period != All && InWindow(q, f.period, now)
  }

  /** `if (applies) result = result.filter(test)` */
  function Apply(qs: seq<Question>, st: Stage, f: Filters, now: int): seq<Question> {
    if Applies(st, f) then Filter(qs, (q: Question) => Passes(q, st, f, now)) else qs
  }

  /** The filters, applied one after another in the page's order. */
  function Pipeline(qs: seq<Question>, f: Filters, now: int): seq<Question> {
    Apply(Apply(Apply(Apply(Apply(qs, Search, f, now), Category, f, now), Model, f, now), Tags, f, now), Window, f, now)
  }

  /** What a question must satisfy to pass every filter that applies. */
  predicate Keeps(q: Question, f: Filters, now: int) {
    forall i :: 0 <= i < |Stages| && Applies(Stages[i], f) ==> Passes(q, Stages[i], f, now)
  }

  /** `Keeps` as the test of a `filter`. */
  function KeptBy(f: Filters, now: int): Question -> bool {
    q => Keeps(q, f, now)
  }

  /** The sort key the selected order uses. */
  function SortKey(s: SortBy): Question -> int {
    match s
    case Latest => (q: Question) => q.createdAt
    case Best => (q: Question) => q.likesCount
    case Ranking => (q: Question) => q.viewsCount
  }

  /** `filteredQuestions` as a value. */
  function FilteredQuestions(qs: seq<Question>, f: Filters, now: int): seq<Question> {
    SortDescending(Pipeline(qs, f, now), SortKey(f.sortBy))
  }

  /** Whether no filter applies, in which case `result` is the imported
      array itself and the sort reorders it. */
  predicate NoFilterApplies(f: Filters) {
    forall i :: 0 <= i < |Stages| ==> !Applies(Stages[i], f)
  }

  // ---------------------------------------------------------------------
  // properties of the pipeline

  lemma ApplyAppend(a: seq<Question>, b: seq<Question>, st: Stage, f: Filters, now: int)
    ensures Apply(a + b, st, f, now) == Apply(a, st, f, now) + Apply(b, st, f, now)
  {
    if Applies(st, f) {
      FilterAppend(a, b, (q: Question) => Passes(q, st, f, now));
    }
  }

  lemma PipelineAppend(a: seq<Question>, b: seq<Question>, f: Filters, now: int)
    ensures Pipeline(a + b, f, now) == Pipeline(a, f, now) + Pipeline(b, f, now)
  {
    var a1, b1 := Apply(a, Search, f, now), Apply(b, Search, f, now);
    ApplyAppend(a, b, Search, f, now);
    var a2, b2 := Apply(a1, Category, f, now), Apply(b1, Category, f, now);
    ApplyAppend(a1, b1, Category, f, now);
    var a3, b3 := Apply(a2, Model, f, now), Apply(b2, Model, f, now);
    ApplyAppend(a2, b2, Model, f, now);
    var a4, b4 := Apply(a3, Tags, f, now), Apply(b3, Tags, f, now);
    ApplyAppend(a3, b3, Tags, f, now);
    ApplyAppend(a4, b4, Window, f, now);
  }

  lemma ApplyOne(q: Question, st: Stage, f: Filters, now: int)
    ensures Apply([q], st, f, now) == if !Applies(st, f) || Passes(q, st, f, now) then [q] else []
  {
    assert [q][1..] == [];
  }

  /** One question passes the pipeline exactly when it passes every
      applicable filter. */
  lemma PipelineOne(q: Question, f: Filters, now: int)
    ensures Pipeline([q], f, now) == if Keeps(q, f, now) then [q] else []
  {
    ApplyOne(q, Search, f, now);
    ApplyOne(q, Category, f, now);
    ApplyOne(q, Model, f, now);
    ApplyOne(q, Tags, f, now);
    ApplyOne(q, Window, f, now);
    assert Apply([], Category, f, now) == [] && Apply([], Model, f, now) == [];
    assert Apply([], Tags, f, now) == [] && Apply([], Window, f, now) == [];
    assert Stages[0] == Search && Stages[1] == Category && Stages[2] == Model;
    assert Stages[3] == Tags && Stages[4] == Window;
  }

  /** The filters compose as a conjunction: the pipeline keeps exactly the
      questions that pass every applicable filter, in their order. */
  lemma {:induction false} PipelineIsConjunction(qs: seq<Question>, f: Filters, now: int)
    ensures Pipeline(qs, f, now) == Filter(qs, KeptBy(f, now))
    decreases |qs|
  {
    if qs != [] {
      assert qs == [qs[0]] + qs[1..];
      PipelineAppend([qs[0]], qs[1..], f, now);
      PipelineOne(qs[0], f, now);
      PipelineIsConjunction(qs[1..], f, now);
    } else {
      assert Apply([], Search, f, now) == [] && Apply([], Category, f, now) == [];
      assert Apply([], Model, f, now) == [] && Apply([], Tags, f, now) == [];
    }
  }

  /** The result holds exactly the questions of the collection that pass
      every applicable filter, as many times as they occur there, ordered
      by the selected key: latest, most liked or most viewed first. */
  lemma FilteredQuestionsSpec(qs: seq<Question>, f: Filters, now: int)
    ensures var r := FilteredQuestions(qs, f, now);
      && multiset(r) == multiset(Filter(qs, KeptBy(f, now)))
      && (forall q :: q in r <==> q in qs && Keeps(q, f, now))
      && Descending(r, SortKey(f.sortBy))
  {
    PipelineIsConjunction(qs, f, now);
    var r := FilteredQuestions(qs, f, now);
    var kept := Filter(qs, KeptBy(f, now));
    forall q
      ensures q in r <==> q in qs && Keeps(q, f, now)
    {
      assert q in r <==> q in multiset(kept);
    }
  }

  /** Questions with equal keys keep their collection order. */
  lemma FilteredQuestionsStable(qs: seq<Question>, f: Filters, now: int, k: int)
    ensures Filter(FilteredQuestions(qs, f, now), HasKey(SortKey(f.sortBy), k))
         == Filter(Filter(qs, KeptBy(f, now)), HasKey(SortKey(f.sortBy), k))
  {
    PipelineIsConjunction(qs, f, now);
    SortStable(Pipeline(qs, f, now), SortKey(f.sortBy), k);
  }

  /** With no filter applicable every question passes, in place. */
  lemma NothingSelectedKeepsAll(qs: seq<Question>, f: Filters, now: int)
    requires NoFilterApplies(f)
    ensures Pipeline(qs, f, now) == qs
  {
    assert !Applies(Stages[0], f) && !Applies(Stages[1], f) && !Applies(Stages[2], f);
    assert !Applies(Stages[3], f) && !Applies(Stages[4], f);
  }

  // ---------------------------------------------------------------------
  // the selection handlers

  /** `handleTagToggle(tagId)` on the previous selection. */
  function TagToggle(prev: seq<int>, tagId: int): (r: seq<int>)
    ensures tagId in prev ==> tagId !in r && forall x :: x in r <==> x in prev && x != tagId
    ensures tagId !in prev ==> r == prev + [tagId]
  {
    if tagId in prev then Filter(prev, id => id != tagId) else prev + [tagId]
  }

  /** Toggling the same tag twice restores the selected set; when the id was
      not selected the selection itself is restored. */
  lemma ToggleTwice(prev: seq<int>, tagId: int)
    ensures forall x :: x in TagToggle(TagToggle(prev, tagId), tagId) <==> x in prev
    ensures tagId !in prev ==> TagToggle(TagToggle(prev, tagId), tagId) == prev
  {
    if tagId !in prev {
      var once := prev + [tagId];
      FilterAppend(prev, [tagId], id => id != tagId);
      FilterKeepsAll(prev, id => id != tagId);
      assert Filter([tagId], id => id != tagId) == [];
    }
  }

  /** Toggling keeps the selection free of duplicates. */
  lemma ToggleKeepsDistinct(prev: seq<int>, tagId: int)
    requires Distinct(prev)
    ensures Distinct(TagToggle(prev, tagId))
  {
    if tagId in prev {
      FilterDistinct(prev, id => id != tagId);
    }
  }

  /** The page: its filter state and the imported collection, which the
      pipeline shares when no filter applies. */
  class Page {
    const questions: array<Question>
    var filters: Filters

    constructor (questions: array<Question>)
      ensures this.questions == questions
      ensures filters == Filters("", None, None, [], Latest, All)
    {
      this.questions := questions;
      filters := Filters("", None, None, [], Latest, All);
    }

    /** `handleCategoryChange(categoryId)`: the model selection is reset. */
    method HandleCategoryChange(categoryId: Option<int>)
      modifies this
      ensures filters == old(filters).(category := categoryId, model := None)
    {
      filters := filters.(category := categoryId, model := None);
    }

    /** `handleTagToggle(tagId)` */
    method HandleTagToggle(tagId: int)
      modifies this
      ensures filters == old(filters).(selectedTags := TagToggle(old(filters).selectedTags, tagId))
    {
      filters := filters.(selectedTags := TagToggle(filters.selectedTags, tagId));
    }

    /** The `filteredQuestions` computation at time `now`. When no filter
        applies, `result` is the imported array and the sort reorders that
        array in place. */
    method Filtered(now: int) returns (result: seq<Question>)
      modifies questions
      ensures result == FilteredQuestions(old(questions[..]), filters, now)
      ensures NoFilterApplies(filters) ==> questions[..] == result
      ensures !NoFilterApplies(filters) ==> questions[..] == old(questions[..])
    {
      var kept := Pipeline(questions[..], filters, now);
      result := SortDescending(kept, SortKey(filters.sortBy));
      if NoFilterApplies(filters) {
        NothingSelectedKeepsAll(questions[..], filters, now);
        assert |result| == |multiset(result)| == |multiset(kept)| == questions.Length;
        forall i | 0 <= i < questions.Length {
          questions[i] := result[i];
        }
        assert questions[..] == result;
      }
    }
  }
}
