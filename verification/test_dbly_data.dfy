/** The course data of the teaching-assistant pages
    (src/app/test/test_dbly/mockData.ts): courses with their experiments and
    manuals, the preview report assembled from an experiment's manual, and
    the keyword-matched tutor reply. The course list is a parameter. */
module TestDblyData {
  import opened Text

  datatype Category = Digital | Analog | Basic
  datatype Difficulty = Beginner | Intermediate | Advanced
  datatype SectionType = Objective | Theory | EquipmentList | Procedure | Questions | Notes

  datatype ManualSection = ManualSection(id: string, title: string, content: string, kind: SectionType)
  datatype Manual = Manual(id: string, title: string, content: string, sections: seq<ManualSection>, lastUpdated: string)

  /** An experiment; `estimatedTime` is in minutes. */
  datatype Experiment = Experiment(
    id: string, name: string, description: string, courseId: string, difficulty: Difficulty,
    estimatedTime: int, equipment: seq<string>, manual: Manual)

  datatype Course = Course(id: string, name: string, description: string, category: Category, experiments: seq<Experiment>)

  datatype TutorConfig = TutorConfig(depth: string, style: string)

  datatype ReportType = RObjective | RTheory | REquipment | RProcedure | RParameters | RQuestions | RTroubleshooting
  datatype ReportSection = ReportSection(id: string, title: string, content: string, kind: ReportType)
  datatype PreviewReport = PreviewReport(
    id: string, experimentId: string, tutorConfig: TutorConfig, content: string,
    sections: seq<ReportSection>, generatedAt: string)

  datatype Result<T> = Ok(value: T) | Err(message: string)

  const NoSuchExperiment: string := "实验不存在"

  /** The order of a report's sections. */
  const ReportOrder: seq<ReportType> :=
    [RObjective, RTheory, REquipment, RProcedure, RParameters, RQuestions, RTroubleshooting]

  const ParameterText: string :=
    "• 电源电压：5V\n• 输入信号频率：1kHz\n• 输入信号幅度：1Vpp\n• 示波器时基：1ms/div\n• 示波器电压档位：1V/div"
  const TroubleshootingText: string :=
    "• 电路连接错误：检查连线是否牢固\n• 电源电压不正确：确认电源设置\n• 示波器无波形：检查探头连接\n• 测量结果异常：验证器件是否损坏"

  /** `courses.flatMap(course => course.experiments)` */
  function AllExperiments(courses: seq<Course>): seq<Experiment>
    decreases |courses|
  {
    if courses == [] then [] else courses[0].experiments + AllExperiments(courses[1..])
  }

  /** `find(exp => exp.id === id)`: the first experiment with the id. */
  function FindById(es: seq<Experiment>, id: string): (r: Option<Experiment>)
    ensures r.None? <==> forall i :: 0 <= i < |es| ==> es[i].id != id
    ensures r.Some? ==> exists k :: 0 <= k < |es| && es[k] == r.value && r.value.id == id
                                     && forall j :: 0 <= j < k ==> es[j].id != id
    decreases |es|
  {
    if es == [] then None
    else if es[0].id == id then Some(es[0])
    else
      var r := FindById(es[1..], id);
      assert r.Some? ==> exists k :: 0 <= k < |es| && es[k] == r.value && forall j :: 0 <= j < k ==> es[j].id != id by {
        if r.Some? {
          var k :| 0 <= k < |es[1..]| && es[1..][k] == r.value && forall j :: 0 <= j < k ==> es[1..][j].id != id;
          assert es[k + 1] == r.value;
          assert forall j :: 1 <= j < k + 1 ==> es[j].id == es[1..][j - 1].id;
        }
      }
      r
  }

  /** The first manual section of a type. */
  function FirstOfType(sections: seq<ManualSection>, t: SectionType): (r: Option<ManualSection>)
    ensures r.Some? ==> r.value in sections && r.value.kind == t
    ensures r.Some? ==> exists i :: 0 <= i < |sections| && sections[i] == r.value
                                    && forall j :: 0 <= j < i ==> sections[j].kind != t
    ensures r.None? <==> forall i :: 0 <= i < |sections| ==> sections[i].kind != t
    decreases |sections|
  {
    if sections == [] then None
    else if sections[0].kind == t then Some(sections[0])
    else
      var r := FirstOfType(sections[1..], t);
      assert r.Some? ==> exists i :: 0 <= i < |sections| && sections[i] == r.value
                                     && forall j :: 0 <= j < i ==> sections[j].kind != t by {
        if r.Some? {
          var i :| 0 <= i < |sections[1..]| && sections[1..][i] == r.value
                   && forall j :: 0 <= j < i ==> sections[1..][j].kind != t;
          assert sections[i + 1] == r.value;
          assert forall j :: 1 <= j < i + 1 ==> sections[j].kind == sections[1..][j - 1].kind;
        }
      }
      r
  }

  /** Position `i` holds the first section of type `t`. */
  predicate FirstAt(sections: seq<ManualSection>, t: SectionType, i: int) {
    0 <= i < |sections| && sections[i].kind == t && forall j :: 0 <= j < i ==> sections[j].kind != t
  }

  /** `sections.find(s => s.type === t)?.content || fallback`: a missing
      section and an empty content both give the fallback. */
  function SectionText(sections: seq<ManualSection>, t: SectionType, fallback: string): (r: string)
    ensures r == fallback || (exists s :: s in sections && s.kind == t && s.content == r && r != "")
    ensures (forall i :: 0 <= i < |sections| ==> sections[i].kind != t) ==> r == fallback
    ensures forall i :: FirstAt(sections, t, i) ==> r == if sections[i].content != "" then sections[i].content else fallback
  {
    var s := FirstOfType(sections, t);
    if s.Some? && s.value.content != "" then s.value.content else fallback
  }

  function Bullets(equipment: seq<string>): (lines: seq<string>)
    ensures |lines| == |equipment| && forall k :: 0 <= k < |equipment| ==> lines[k] == "• " + equipment[k]
  {
    seq(|equipment|, i requires 0 <= i < |equipment| => "• " + equipment[i])
  }

  /** The equipment section: one `• item` line per item. */
  function EquipmentText(equipment: seq<string>): (r: string)
    ensures forall k :: 0 <= k < |equipment| ==> Contains(r, "• " + equipment[k])
    ensures equipment == [] ==> r == ""
    ensures |equipment| == 1 ==> r == "• " + equipment[0]
    ensures |equipment| > 1 ==> r == "• " + equipment[0] + "\n" + EquipmentText(equipment[1..])
  {
    assert |equipment| > 1 ==> Bullets(equipment)[1..] == Bullets(equipment[1..]);
    forall k | 0 <= k < |equipment|
      ensures Contains(Join(Bullets(equipment), "\n"), "• " + equipment[k])
    {
      JoinContains(Bullets(equipment), "\n", k);
    }
    Join(Bullets(equipment), "\n")
  }

  /** The sections' titles, in report order. */
  const ReportTitles: seq<string> := ["实验目的", "核心原理", "所需器材", "实验步骤", "关键参数设置", "思考题", "常见问题预判"]

  /** The seven sections of a report, in their fixed order; the manual's
      sections supply four of them, each with its fallback. */
  function ReportSections(e: Experiment): (r: seq<ReportSection>)
    ensures |r| == 7 && forall i :: 0 <= i < 7 ==> r[i].kind == ReportOrder[i] && r[i].title == ReportTitles[i]
    ensures r[0].content == SectionText(e.manual.sections, Objective, "掌握实验的基本原理和方法")
    ensures r[1].content == SectionText(e.manual.sections, Theory, "相关理论知识")
    ensures r[2].content == EquipmentText(e.equipment)
    ensures r[3].content == SectionText(e.manual.sections, Procedure, "按照实验手册进行操作")
    ensures r[4].content == ParameterText
    ensures r[5].content == SectionText(e.manual.sections, Questions, "思考实验中的关键问题")
    ensures r[6].content == TroubleshootingText
  {
    var m := e.manual.sections;
    var r := [
      ReportSection("report-obj-1", ReportTitles[0], SectionText(m, Objective, "掌握实验的基本原理和方法"), RObjective),
      ReportSection("report-theory-1", ReportTitles[1], SectionText(m, Theory, "相关理论知识"), RTheory),
      ReportSection("report-equipment-1", ReportTitles[2], EquipmentText(e.equipment), REquipment),
      ReportSection("report-procedure-1", ReportTitles[3], SectionText(m, Procedure, "按照实验手册进行操作"), RProcedure),
      ReportSection("report-parameters-1", ReportTitles[4], ParameterText, RParameters),
      ReportSection("report-questions-1", ReportTitles[5], SectionText(m, Questions, "思考实验中的关键问题"), RQuestions),
      ReportSection("report-troubleshooting-1", ReportTitles[6], TroubleshootingText, RTroubleshooting) ];
    assert forall i :: 0 <= i < 7 ==> r[i].kind == ReportOrder[i] && r[i].title == ReportTitles[i] by {
      forall i | 0 <= i < 7 ensures r[i].kind == ReportOrder[i] && r[i].title == ReportTitles[i] {
        if i == 0 {} else if i == 1 {} else if i == 2 {} else if i == 3 {} else if i == 4 {} else if i == 5 {} else {}
      }
    }
    r
  }

  /** One section in the report's text. */
  function SectionBlock(s: ReportSection): string {
    "## " + s.title + "\n\n" + s.content
  }

  function Blocks(sections: seq<ReportSection>): (blocks: seq<string>)
    ensures |blocks| == |sections| && forall k :: 0 <= k < |sections| ==> blocks[k] == SectionBlock(sections[k])
  {
    seq(|sections|, i requires 0 <= i < |sections| => SectionBlock(sections[i]))
  }

  /** The report's text: the sections' blocks joined by blank lines, the
      first heading first. */
  function ReportContent(sections: seq<ReportSection>): (r: string)
    ensures forall k :: 0 <= k < |sections| ==> Contains(r, SectionBlock(sections[k]))
    ensures |sections| > 0 ==> StartsWith(r, "## " + sections[0].title + "\n\n")
    ensures sections == [] ==> r == ""
    ensures |sections| == 1 ==> r == SectionBlock(sections[0])
    ensures |sections| > 1 ==> r == SectionBlock(sections[0]) + "\n\n" + ReportContent(sections[1..])
  {
    assert |sections| > 1 ==> Blocks(sections)[1..] == Blocks(sections[1..]);
    forall k | 0 <= k < |sections|
      ensures Contains(Join(Blocks(sections), "\n\n"), SectionBlock(sections[k]))
    {
      JoinContains(Blocks(sections), "\n\n", k);
    }
    if |sections| > 0 then
      JoinStarts(Blocks(sections), "\n\n");
      var r := Join(Blocks(sections), "\n\n");
      var head := "## " + sections[0].title + "\n\n";
      assert Blocks(sections)[0] == head + sections[0].content;
      assert r[..|head|] == Blocks(sections)[0][..|head|];
      r
    else Join(Blocks(sections), "\n\n")
  }

  /** `generateMockPreviewReport(experimentId, tutorConfig)`, with the
      clock's readings supplied: `stamp` is `Date.now()`, `generatedAt` the
      ISO time. */
  function GeneratePreviewReport(courses: seq<Course>, experimentId: string, config: TutorConfig,
                                 stamp: string, generatedAt: string): (r: Result<PreviewReport>)
    ensures r.Err? <==> FindById(AllExperiments(courses), experimentId).None?
    ensures r.Err? ==> r.message == NoSuchExperiment
    ensures r.Ok? ==>
      var e := FindById(AllExperiments(courses), experimentId).value;
      && r.value.id == "report-" + experimentId + "-" + stamp
      && r.value.experimentId == experimentId && r.value.tutorConfig == config
      && r.value.sections == ReportSections(e)
      && r.value.content == ReportContent(r.value.sections)
      && r.value.generatedAt == generatedAt
  {
    var found := FindById(AllExperiments(courses), experimentId);
    if found.None? then Err(NoSuchExperiment)
    else
      var sections := ReportSections(found.value);
      Ok(PreviewReport("report-" + experimentId + "-" + stamp, experimentId, config,
                       ReportContent(sections), sections, generatedAt))
  }

  /** A report opens with the heading of its objective section (实验目的)
      and holds every section's block, the experiment's equipment among
      them. */
  lemma ReportText(courses: seq<Course>, experimentId: string, config: TutorConfig, stamp: string, generatedAt: string)
    requires FindById(AllExperiments(courses), experimentId).Some?
    ensures var r := GeneratePreviewReport(courses, experimentId, config, stamp, generatedAt).value;
      && StartsWith(r.content, "## " + ReportTitles[0] + "\n\n")
      && |r.sections| == 7
      && (forall k :: 0 <= k < 7 ==> Contains(r.content, SectionBlock(r.sections[k])))
      && r.content == SectionBlock(r.sections[0]) + "\n\n" + (SectionBlock(r.sections[1]) + "\n\n" +
           (SectionBlock(r.sections[2]) + "\n\n" + (SectionBlock(r.sections[3]) + "\n\n" +
           (SectionBlock(r.sections[4]) + "\n\n" + (SectionBlock(r.sections[5]) + "\n\n" +
            SectionBlock(r.sections[6]))))))
  {
    var e := FindById(AllExperiments(courses), experimentId).value;
    var sections := ReportSections(e);
    assert StartsWith(ReportContent(sections), "## " + sections[0].title + "\n\n");
    assert ReportContent(sections[5..]) == SectionBlock(sections[5]) + "\n\n" + SectionBlock(sections[6]) by {
      assert sections[5..][1..] == sections[6..];
    }
    assert ReportContent(sections[4..]) == SectionBlock(sections[4]) + "\n\n" + ReportContent(sections[5..]) by {
      assert sections[4..][1..] == sections[5..];
    }
    assert ReportContent(sections[3..]) == SectionBlock(sections[3]) + "\n\n" + ReportContent(sections[4..]) by {
      assert sections[3..][1..] == sections[4..];
    }
    assert ReportContent(sections[2..]) == SectionBlock(sections[2]) + "\n\n" + ReportContent(sections[3..]) by {
      assert sections[2..][1..] == sections[3..];
    }
    assert ReportContent(sections[1..]) == SectionBlock(sections[1]) + "\n\n" + ReportContent(sections[2..]) by {
      assert sections[1..][1..] == sections[2..];
    }
  }

  // ---------------------------------------------------------------------
  // the tutor reply

  /** A keyword group and its reply. */
  datatype Group = Group(keywords: seq<string>, response: string)

  const ScopeOpen: string := "根据当前实验《"
  const ScopeBody: string :=
    "》，示波器显示问题通常有以下几种可能：\n\n1. **探头连接问题**：检查探头是否正确连接到测试点\n2. **时基设置**：调整时基到合适的档位（建议1ms/div）\n3. **触发设置**：确保触发模式设置正确\n4. **电压档位**：调整垂直档位到合适范围\n\n建议先检查连线，然后逐步调整示波器参数。"
  const VoltageOpen: string := "在《"
  const VoltageBody: string :=
    "》实验中，电压测量的关键点：\n\n1. **选择正确档位**：根据预期电压选择合适的量程\n2. **正确连接**：红表笔接高电位，黑表笔接低电位\n3. **测量点确认**：确保测量点与电路图一致\n4. **读数方法**：等待数值稳定后读取\n\n如果测量值异常，请检查电路连接和元器件状态。"
  const ResistanceReply: string :=
    "电阻测量注意事项：\n\n1. **断电测量**：必须在断电状态下测量电阻\n2. **脱离电路**：最好将电阻从电路中取下测量\n3. **档位选择**：选择合适的电阻档位\n4. **接触良好**：确保表笔与电阻引脚接触良好\n\n标准电阻的误差通常在±5%以内。"

  /** The keyword groups, in the order they are tried. */
  function Groups(name: string): seq<Group> {
    [ Group(["示波器", "波形", "显示"], ScopeOpen + name + ScopeBody),
      Group(["电压", "测量", "万用表"], VoltageOpen + name + VoltageBody),
      Group(["电阻", "阻值", "测试"], ResistanceReply) ]
  }

  const DefaultOpen: string := "关于您的问题\""
  const DefaultMiddle: string := "\"，在《"
  const DefaultClose: string :=
    "》实验中，建议您：\n\n1. 仔细阅读实验手册相关章节\n2. 检查实验器材和连接\n3. 确认操作步骤是否正确\n4. 如果问题持续存在，请检查器件是否损坏\n\n您可以尝试描述更具体的现象，这样我能给出更准确的建议。"

  /** The reply when no group is hit: it quotes the question and names the
      experiment. */
  function DefaultReply(question: string, name: string): (r: string)
    ensures Contains(r, question) && Contains(r, name)
  {
    ContainsInside(DefaultOpen, question, DefaultMiddle + name + DefaultClose);
    assert DefaultOpen + question + DefaultMiddle + name + DefaultClose
        == DefaultOpen + question + (DefaultMiddle + name + DefaultClose);
    ContainsInside(DefaultOpen + question + DefaultMiddle, name, DefaultClose);
    DefaultOpen + question + DefaultMiddle + name + DefaultClose
  }

  /** Some keyword of the group occurs in the question (case-sensitively). */
  predicate Hits(g: Group, question: string) {
    exists k :: 0 <= k < |g.keywords| && Contains(question, g.keywords[k])
  }

  /** The linear search over the groups: the reply of the first group hit. */
  function FirstHit(groups: seq<Group>, question: string): (r: Option<string>)
    ensures r.None? <==> forall i :: 0 <= i < |groups| ==> !Hits(groups[i], question)
    ensures r.Some? ==> exists i :: 0 <= i < |groups| && Hits(groups[i], question) && r.value == groups[i].response
                                     && forall j :: 0 <= j < i ==> !Hits(groups[j], question)
    decreases |groups|
  {
    if groups == [] then None
    else if Hits(groups[0], question) then Some(groups[0].response)
    else
      var r := FirstHit(groups[1..], question);
      assert r.Some? ==> exists i :: 0 <= i < |groups| && Hits(groups[i], question) && r.value == groups[i].response
                                     && forall j :: 0 <= j < i ==> !Hits(groups[j], question) by {
        if r.Some? {
          var i :| 0 <= i < |groups[1..]| && Hits(groups[1..][i], question) && r.value == groups[1..][i].response
                   && forall j :: 0 <= j < i ==> !Hits(groups[1..][j], question);
          assert groups[i + 1] == groups[1..][i];
          assert forall j :: 1 <= j < i + 1 ==> groups[j] == groups[1..][j - 1];
        }
      }
      r
  }

  /** `generateMockAIResponse(question, experiment)`: the reply of the
      first group one of whose keywords the question contains, else the
      default reply. */
  function AIResponse(question: string, e: Experiment): (r: string)
    ensures (exists i :: 0 <= i < 3 && Hits(Groups(e.name)[i], question)) ==>
      exists i :: 0 <= i < 3 && Hits(Groups(e.name)[i], question) && r == Groups(e.name)[i].response
                  && forall j :: 0 <= j < i ==> !Hits(Groups(e.name)[j], question)
    ensures (forall i :: 0 <= i < 3 ==> !Hits(Groups(e.name)[i], question)) ==>
      Contains(r, question) && Contains(r, e.name)
  {
    var hit := FirstHit(Groups(e.name), question);
    if hit.Some? then hit.value else DefaultReply(question, e.name)
  }

  /** An oscilloscope question gets the oscilloscope reply, whatever else
      it mentions: the first group is checked first. */
  lemma OscilloscopeFirst(question: string, e: Experiment)
    requires Contains(question, "示波器")
    ensures AIResponse(question, e) == Groups(e.name)[0].response
  {
    assert Hits(Groups(e.name)[0], question) by {
      assert Groups(e.name)[0].keywords[0] == "示波器";
    }
  }
}
