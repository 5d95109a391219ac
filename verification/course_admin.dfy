/** The administration panel of the experiment-teaching pages
    (src/app/test/dbly1/admin/page.tsx): the overview statistics, the
    search and course filters over student questions, FAQs and files, and
    the list of the five most viewed FAQs, which the panel obtains by
    sorting the shared FAQ array in place. */
module CourseAdmin {
  import opened Text
  import opened Collections
  import opened Dbly1Data
  import opened Search

  const AllSelected: string := "all"
  const DayMs: int := 86400000

  /** The overview figures. */
  datatype Stats = Stats(
    totalCourses: nat, totalExperiments: nat, totalQuestions: nat, totalFAQs: nat, totalFiles: nat,
    activeStudents: nat, todayQuestions: nat)

  /** `new Date(a).toDateString() === new Date(b).toDateString()`: the same
      calendar day at the local offset `offset` (milliseconds east of UTC). */
  predicate SameDay(a: int, b: int, offset: int) {
    (a + offset) / DayMs == (b + offset) / DayMs
  }

  function AskedOn(now: int, offset: int): StudentQuestion -> bool {
    (q: StudentQuestion) => SameDay(q.timestamp, now, offset)
  }

  /** `stats`, at time `now`. */
  function StatsOf(courses: seq<Course>, questions: seq<StudentQuestion>, faqs: seq<FAQItem>,
                   files: seq<ExperimentFile>, now: int, offset: int): (s: Stats)
    ensures s.totalCourses == |courses| && s.totalExperiments == |AllExperiments(courses)|
    ensures s.totalQuestions == |questions| && s.totalFAQs == |faqs| && s.totalFiles == |files|
    ensures s.activeStudents == 3
    ensures s.todayQuestions == |Filter(questions, AskedOn(now, offset))|
    ensures s.todayQuestions <= s.totalQuestions
    ensures forall q :: q in questions && SameDay(q.timestamp, now, offset) ==> s.todayQuestions > 0
  {
    TotalIsAllExperiments(courses);
    var today := Filter(questions, AskedOn(now, offset));
    assert forall q :: q in questions && SameDay(q.timestamp, now, offset) ==> q in today;
    Stats(|courses|, TotalExperiments(courses), |questions|, |faqs|, |files|, 3, |today|)
  }

  /** The conditions of `filteredQuestions`. */
  predicate QuestionShown(q: StudentQuestion, term: string, course: string, experiment: string) {
    && Matches(q.question, q.studentName, term)
    && (course == AllSelected || Contains(q.experimentId, course))
    && (experiment == AllSelected || q.experimentId == experiment)
  }

  function QuestionShownBy(term: string, course: string, experiment: string): StudentQuestion -> bool {
    (q: StudentQuestion) => QuestionShown(q, term, course, experiment)
  }

  /** `filteredQuestions` */
  function FilteredQuestions(qs: seq<StudentQuestion>, term: string, course: string, experiment: string): (r: seq<StudentQuestion>)
    ensures forall q :: q in r <==> q in qs && QuestionShown(q, term, course, experiment)
  {
    Filter(qs, QuestionShownBy(term, course, experiment))
  }

  /** The conditions of `filteredFAQs`: with a course selected, an FAQ
      needs an experiment id, not empty, that contains the course. */
  predicate FAQShown(f: FAQItem, term: string, course: string) {
    && Matches(f.question, f.answer, term)
    && (course == AllSelected || (Truthy(f.experimentId) && Contains(f.experimentId.value, course)))
  }

  function FAQShownBy(term: string, course: string): FAQItem -> bool {
    (f: FAQItem) => FAQShown(f, term, course)
  }

  /** `filteredFAQs` */
  function FilteredFAQs(faqs: seq<FAQItem>, term: string, course: string): (r: seq<FAQItem>)
    ensures forall f :: f in r <==> f in faqs && FAQShown(f, term, course)
    ensures course != AllSelected ==> forall f :: f in r ==> f.experimentId.Some? && f.experimentId.value != ""
  {
    Filter(faqs, FAQShownBy(term, course))
  }

  /** The conditions of `filteredFiles`: the course is matched as a part of
      the file's course name. */
  predicate FileShown(f: ExperimentFile, term: string, course: string) {
    Matches(f.fileName, f.experiment, term) && (course == AllSelected || Contains(f.course, course))
  }

  function FileShownBy(term: string, course: string): ExperimentFile -> bool {
    (f: ExperimentFile) => FileShown(f, term, course)
  }

  /** `filteredFiles` */
  function FilteredFiles(files: seq<ExperimentFile>, term: string, course: string): (r: seq<ExperimentFile>)
    ensures forall f :: f in r <==> f in files && FileShown(f, term, course)
  {
    Filter(files, FileShownBy(term, course))
  }

  /** With an empty search and nothing selected, every list is shown whole. */
  lemma NothingSelectedShowsAll(qs: seq<StudentQuestion>, faqs: seq<FAQItem>, files: seq<ExperimentFile>)
    ensures FilteredQuestions(qs, "", AllSelected, AllSelected) == qs
    ensures FilteredFAQs(faqs, "", AllSelected) == faqs
    ensures FilteredFiles(files, "", AllSelected) == files
  {
    forall q | q in qs ensures QuestionShownBy("", AllSelected, AllSelected)(q) {
      EmptyTermMatches(q.question, q.studentName);
    }
    forall f | f in faqs ensures FAQShownBy("", AllSelected)(f) {
      EmptyTermMatches(f.question, f.answer);
    }
    forall f | f in files ensures FileShownBy("", AllSelected)(f) {
      EmptyTermMatches(f.fileName, f.experiment);
    }
    FilterKeepsAll(qs, QuestionShownBy("", AllSelected, AllSelected));
    FilterKeepsAll(faqs, FAQShownBy("", AllSelected));
    FilterKeepsAll(files, FileShownBy("", AllSelected));
  }

  function Published(): FAQItem -> bool {
    (f: FAQItem) => f.isPublished
  }

  function Unpublished(): FAQItem -> bool {
    (f: FAQItem) => !f.isPublished
  }

  /** `mockFAQs.filter(f => f.isPublished).length`: it reaches the number of
      FAQs exactly when every FAQ is published. */
  function PublishedCount(faqs: seq<FAQItem>): (n: nat)
    ensures n <= |faqs|
    ensures n == |faqs| <==> forall f :: f in faqs ==> f.isPublished
  {
    FilterComplement(faqs, Published(), Unpublished());
    if forall f :: f in faqs ==> f.isPublished then
      FilterKeepsAll(faqs, Published());
      |Filter(faqs, Published())|
    else
      var f :| f in faqs && !f.isPublished;
      assert f in Filter(faqs, Unpublished());
      |Filter(faqs, Published())|
  }

  function Views(): FAQItem -> int {
    (f: FAQItem) => f.viewCount
  }

  /** The first five FAQs of a list sorted by descending views (a stable
      sort): the most viewed, none of those left out viewed more. */
  function HotFAQs(faqs: seq<FAQItem>): (r: seq<FAQItem>)
    ensures |r| == if |faqs| < 5 then |faqs| else 5
    ensures multiset(r) <= multiset(faqs)
    ensures Descending(r, Views())
    ensures forall y :: y in multiset(faqs) - multiset(r) ==> forall x :: x in r ==> x.viewCount >= y.viewCount
  {
    var sorted := SortDescending(faqs, Views());
    var n := if |faqs| < 5 then |faqs| else 5;
    assert |sorted| == |multiset(sorted)| == |faqs|;
    HeadOutranksTail(sorted, n);
    assert sorted == sorted[..n] + sorted[n..];
    assert multiset(faqs) - multiset(sorted[..n]) == multiset(sorted[n..]);
    sorted[..n]
  }

  /** In a list sorted by descending views, each of the first `n` is viewed
      at least as often as each of the rest. */
  lemma HeadOutranksTail(sorted: seq<FAQItem>, n: nat)
    requires Descending(sorted, Views()) && n <= |sorted|
    ensures Descending(sorted[..n], Views())
    ensures forall y :: y in multiset(sorted[n..]) ==> forall x :: x in sorted[..n] ==> x.viewCount >= y.viewCount
  {
    forall y | y in multiset(sorted[n..])
      ensures forall x :: x in sorted[..n] ==> x.viewCount >= y.viewCount
    {
      var j :| 0 <= j < |sorted[n..]| && sorted[n..][j] == y;
      assert sorted[n + j] == y;
      forall x | x in sorted[..n] ensures x.viewCount >= y.viewCount {
        var i :| 0 <= i < n && sorted[..n][i] == x;
        assert sorted[i] == x;
      }
    }
  }

  /** The hot list as the panel renders it: `mockFAQs.sort(...)` reorders
      the shared array itself, then its first five are shown. */
  method HotList(faqs: array<FAQItem>) returns (top: seq<FAQItem>)
    modifies faqs
    ensures faqs[..] == SortDescending(old(faqs[..]), Views())
    ensures top == HotFAQs(old(faqs[..]))
    ensures multiset(faqs[..]) == multiset(old(faqs[..]))
  {
    var sorted := SortDescending(faqs[..], Views());
    assert |sorted| == |multiset(sorted)| == faqs.Length;
    top := HotFAQs(faqs[..]);
    forall i | 0 <= i < faqs.Length {
      faqs[i] := sorted[i];
    }
    assert faqs[..] == sorted;
  }
}
