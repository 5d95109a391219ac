/** The data of the experiment-teaching pages (src/app/test/dbly1/types.ts
    and src/app/test/dbly1/mockData.ts): courses, FAQs, student questions
    and files, the keyword-matched tutor reply, and the chat history that
    `saveChatMessage` appends to. Times are milliseconds; an experiment's
    `estimatedTime` is in hours and may be fractional, so it is a `real`. */
module Dbly1Data {
  import opened Text
  import opened Collections
  import TD = TestDblyData

  datatype Experiment = Experiment(id: string, name: string, description: string, estimatedTime: real, equipment: seq<string>)

  datatype Course = Course(id: string, name: string, description: string, category: string, experiments: seq<Experiment>)

  /** An FAQ; `experimentId` is optional. */
  datatype FAQItem = FAQItem(
    id: string, question: string, answer: string, category: string, experimentId: Option<string>,
    isPublished: bool, viewCount: int)

  datatype StudentQuestion = StudentQuestion(
    id: string, studentId: string, studentName: string, experimentId: string, question: string, timestamp: int)

  datatype ExperimentFile = ExperimentFile(id: string, experimentId: string, fileName: string, course: string, experiment: string)

  datatype Role = User | Assistant

  datatype ChatMessage = ChatMessage(id: string, role: Role, content: string, timestamp: int, studentId: string, experimentId: string)

  // ---------------------------------------------------------------------
  // totals

  /** `courses.reduce((total, course) => total + course.experiments.length, 0)` */
  function TotalExperiments(courses: seq<Course>): nat
    decreases |courses|
  {
    if courses == [] then 0 else TotalExperiments(courses[..|courses| - 1]) + |courses[|courses| - 1].experiments|
  }

  /** Every course's experiments, course after course. */
  function AllExperiments(courses: seq<Course>): seq<Experiment>
    decreases |courses|
  {
    if courses == [] then [] else AllExperiments(courses[..|courses| - 1]) + courses[|courses| - 1].experiments
  }

  /** The experiment total counts every experiment of every course once. */
  lemma {:induction false} TotalIsAllExperiments(courses: seq<Course>)
    ensures TotalExperiments(courses) == |AllExperiments(courses)|
    decreases |courses|
  {
    if courses != [] {
      TotalIsAllExperiments(courses[..|courses| - 1]);
    }
  }

  /** A new course adds its experiments to the total. */
  lemma {:induction false} TotalAppend(courses: seq<Course>, c: Course)
    ensures TotalExperiments(courses + [c]) == TotalExperiments(courses) + |c.experiments|
  {
    assert (courses + [c])[..|courses + [c]| - 1] == courses;
  }

  function Hours(): Experiment -> real {
    (e: Experiment) => e.estimatedTime
  }

  /** `course.experiments.reduce((total, exp) => total + exp.estimatedTime, 0)` */
  function CourseHours(c: Course): real {
    Sum(c.experiments, Hours())
  }

  /** Hours are never negative when no experiment's time is, and the hours
      of two lists of experiments add up. */
  lemma CourseHoursProperties(c: Course, d: Course)
    requires forall i :: 0 <= i < |c.experiments| ==> c.experiments[i].estimatedTime >= 0.0
    ensures CourseHours(c) >= 0.0
    ensures CourseHours(c.(experiments := c.experiments + d.experiments)) == CourseHours(c) + CourseHours(d)
  {
    SumNonNegative(c.experiments, Hours());
    SumAppend(c.experiments, d.experiments, Hours());
  }

  // ---------------------------------------------------------------------
  // the tutor reply

  const NandReply: string :=
    "74LS00是四2输入与非门芯片，其逻辑功能是：当所有输入都为高电平时，输出为低电平；其他情况下输出为高电平。在实验中需要注意正确连接电源（14脚接5V，7脚接地）。"
  const ScopeReply: string :=
    "使用OWON FDS示波器时，首先确保探头正确连接，然后调节垂直和水平刻度使波形完整显示。可以使用自动测量功能获取各种参数，如峰峰值、有效值、频率等。"
  const OpAmpReply: string :=
    "运算放大器是高增益的差分放大器，理想情况下具有无穷大的输入阻抗和零输出阻抗。在实际应用中需要注意输入偏置电流、失调电压等非理想特性的影响。"
  const VoltageReply: string :=
    "电压测量时需要注意：1. 选择合适的量程；2. 确保测试表笔接触良好；3. 注意测量点的选择；4. 考虑仪器的输入阻抗对被测电路的影响。"
  const LedReply: string :=
    "LED不亮的常见原因：1. 极性接反；2. 限流电阻过大；3. 电源电压不足；4. LED损坏；5. 电路连接不良。请逐一检查这些可能的原因。"
  const HalfAdderReply: string :=
    "半加器实现两个一位二进制数的相加，不考虑进位输入。由异或门产生和输出（S = A ⊕ B），由与门产生进位输出（C = A · B）。"
  const DefaultReply: string :=
    "这是一个很好的问题！根据当前实验的内容，建议你：1. 仔细阅读实验原理部分；2. 检查电路连接是否正确；3. 确认仪器设置是否合适；4. 如果问题仍然存在，可以尝试更换元器件或重新连接电路。"

  /** The keyword groups, in the order they are tried. */
  const Groups: seq<TD.Group> := [
    TD.Group(["74ls00", "与非门"], NandReply),
    TD.Group(["示波器", "owon"], ScopeReply),
    TD.Group(["运放", "运算放大器"], OpAmpReply),
    TD.Group(["电压", "测量"], VoltageReply),
    TD.Group(["led", "发光二极管"], LedReply),
    TD.Group(["半加器"], HalfAdderReply)]

  /** `generateMockAIResponse(question, experimentId)`: the reply of the
      first group one of whose keywords the lowercased question contains,
      else the default reply. The experiment is not consulted. */
  function TutorReply(question: string, experimentId: string): (r: string)
    ensures (exists i :: 0 <= i < |Groups| && TD.Hits(Groups[i], Lower(question))) ==>
      exists i :: 0 <= i < |Groups| && TD.Hits(Groups[i], Lower(question)) && r == Groups[i].response
                  && forall j :: 0 <= j < i ==> !TD.Hits(Groups[j], Lower(question))
    ensures (forall i :: 0 <= i < |Groups| ==> !TD.Hits(Groups[i], Lower(question))) ==> r == DefaultReply
  {
    var hit := TD.FirstHit(Groups, Lower(question));
    if hit.Some? then hit.value else DefaultReply
  }

  lemma LowerCharIdempotent(c: char)
    ensures LowerChar(LowerChar(c)) == LowerChar(c)
  {
  }

  /** The reply ignores letter case: a question and its lowercase form get
      the same reply. */
  lemma ReplyIgnoresCase(question: string, experimentId: string)
    ensures TutorReply(question, experimentId) == TutorReply(Lower(question), experimentId)
  {
    forall i | 0 <= i < |question|
      ensures Lower(Lower(question))[i] == Lower(question)[i]
    {
      LowerCharIdempotent(question[i]);
    }
    assert Lower(Lower(question)) == Lower(question);
  }

  /** A question naming the chip, in any case, gets the 74LS00 reply. */
  lemma ChipFirst(question: string, experimentId: string)
    requires Contains(Lower(question), "74ls00")
    ensures TutorReply(question, experimentId) == NandReply
  {
    assert TD.Hits(Groups[0], Lower(question)) by {
      assert Groups[0].keywords[0] == "74ls00";
    }
  }

  // ---------------------------------------------------------------------
  // the chat history

  /** The messages of one experiment and student, in stored order. */
  predicate Between(m: ChatMessage, experimentId: string, studentId: string) {
    m.experimentId == experimentId && m.studentId == studentId
  }

  function BetweenBy(experimentId: string, studentId: string): ChatMessage -> bool {
    (m: ChatMessage) => Between(m, experimentId, studentId)
  }

  function HistoryOf(messages: seq<ChatMessage>, experimentId: string, studentId: string): (r: seq<ChatMessage>)
    ensures forall m :: m in r <==> m in messages && Between(m, experimentId, studentId)
  {
    Filter(messages, BetweenBy(experimentId, studentId))
  }

  /** A saved message closes its own history and leaves every other history
      as it was. */
  lemma HistoryAfterAppend(messages: seq<ChatMessage>, m: ChatMessage, experimentId: string, studentId: string)
    ensures Between(m, experimentId, studentId) ==>
      HistoryOf(messages + [m], experimentId, studentId) == HistoryOf(messages, experimentId, studentId) + [m]
    ensures !Between(m, experimentId, studentId) ==>
      HistoryOf(messages + [m], experimentId, studentId) == HistoryOf(messages, experimentId, studentId)
  {
    FilterAppend(messages, [m], BetweenBy(experimentId, studentId));
    assert Filter([m], BetweenBy(experimentId, studentId)) == Filter([], BetweenBy(experimentId, studentId)) + (if Between(m, experimentId, studentId) then [m] else []);
  }

  /** The module-level `mockChatMessages` array. */
  class ChatStore {
    var messages: seq<ChatMessage>

    constructor (messages: seq<ChatMessage>)
      ensures this.messages == messages
    {
      this.messages := messages;
    }

    /** `getExperimentChatHistory(experimentId, studentId)` */
    function History(experimentId: string, studentId: string): (r: seq<ChatMessage>)
      reads this
      ensures forall m :: m in r <==> m in messages && Between(m, experimentId, studentId)
    {
      HistoryOf(messages, experimentId, studentId)
    }

    /** `saveChatMessage(message)`: the fields given, a new id and the
        current time; the message is pushed and returned. */
    method Save(role: Role, content: string, studentId: string, experimentId: string, stamp: string, now: int)
      returns (m: ChatMessage)
      modifies this
      ensures m == ChatMessage("msg-" + stamp, role, content, now, studentId, experimentId)
      ensures messages == old(messages) + [m]
      ensures History(experimentId, studentId) == old(History(experimentId, studentId)) + [m]
    {
      m := ChatMessage("msg-" + stamp, role, content, now, studentId, experimentId);
      HistoryAfterAppend(messages, m, experimentId, studentId);
      messages := messages + [m];
    }
  }
}
