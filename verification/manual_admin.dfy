/** The manual-file administration page (src/app/test/test_dbly/admin/page.tsx):
    one manual file per experiment at the start, a search and course
    filter, and the upload, edit and delete dialogs. The random file
    sizes, the clock's readings and the answer to the delete confirmation
    are parameters. */
module ManualAdmin {
  import opened Text
  import opened Collections
  import TD = TestDblyData
  import Search

  datatype ManualFile = ManualFile(
    id: string, experimentId: string, fileName: string, fileType: string,
    uploadDate: string, size: string, course: string, experiment: string)

  /** The fields of the upload and edit dialogs. */
  datatype UploadForm = UploadForm(experimentId: string, fileName: string, fileType: string, course: string, experiment: string)

  const EmptyForm: UploadForm := UploadForm("", "", "pdf", "", "")

  /** The course selection that shows every course. */
  const AllCourses: string := "all"

  /** The initial file of one experiment. */
  function InitialFile(c: TD.Course, e: TD.Experiment, size: string): ManualFile {
    ManualFile("file-" + e.id, e.id, e.name + ".pdf", "pdf", e.manual.lastUpdated, size, c.name, e.name)
  }

  function CourseFiles(c: TD.Course, sizeOf: TD.Experiment -> string): (r: seq<ManualFile>)
    ensures |r| == |c.experiments|
    ensures forall i :: 0 <= i < |r| ==> r[i] == InitialFile(c, c.experiments[i], sizeOf(c.experiments[i]))
  {
    seq(|c.experiments|, i requires 0 <= i < |c.experiments| => InitialFile(c, c.experiments[i], sizeOf(c.experiments[i])))
  }

  /** `initialFiles`: the courses' files, course after course. */
  function InitialFiles(courses: seq<TD.Course>, sizeOf: TD.Experiment -> string): (r: seq<ManualFile>)
    decreases |courses|
  {
    if courses == [] then [] else CourseFiles(courses[0], sizeOf) + InitialFiles(courses[1..], sizeOf)
  }

  /** There is exactly one initial file per experiment, in the order of the
      experiments, with id `file-<experiment id>`, name `<experiment
      name>.pdf` and type `pdf`. */
  lemma {:induction false} InitialFilesPerExperiment(courses: seq<TD.Course>, sizeOf: TD.Experiment -> string)
    ensures var files := InitialFiles(courses, sizeOf); var es := TD.AllExperiments(courses);
      && |files| == |es|
      && forall i :: 0 <= i < |files| ==>
           && files[i].experimentId == es[i].id && files[i].id == "file-" + es[i].id
           && files[i].fileName == es[i].name + ".pdf" && files[i].fileType == "pdf"
           && files[i].experiment == es[i].name && files[i].uploadDate == es[i].manual.lastUpdated
    decreases |courses|
  {
    if courses != [] {
      InitialFilesPerExperiment(courses[1..], sizeOf);
      var head := CourseFiles(courses[0], sizeOf);
      var tail := InitialFiles(courses[1..], sizeOf);
      var files: seq<ManualFile> := head + tail;
      var es := TD.AllExperiments(courses);
      assert es == courses[0].experiments + TD.AllExperiments(courses[1..]);
      forall i | 0 <= i < |files|
        ensures files[i].experimentId == es[i].id && files[i].id == "file-" + es[i].id
        ensures files[i].fileName == es[i].name + ".pdf" && files[i].fileType == "pdf"
        ensures files[i].experiment == es[i].name && files[i].uploadDate == es[i].manual.lastUpdated
      {
        if i >= |head| {
          assert files[i] == tail[i - |head|];
        }
      }
    }
  }

  /** The search and course conditions of `filteredFiles`. */
  predicate Shown(f: ManualFile, term: string, course: string) {
    && Search.Matches(f.fileName, f.experiment, term)
    && (course == AllCourses || f.course == course)
  }

  function ShownBy(term: string, course: string): ManualFile -> bool {
    (f: ManualFile) => Shown(f, term, course)
  }

  /** `filteredFiles` */
  function FilteredFiles(files: seq<ManualFile>, term: string, course: string): (r: seq<ManualFile>)
    ensures forall f :: f in r <==> f in files && Shown(f, term, course)
    ensures |r| <= |files|
  {
    Filter(files, ShownBy(term, course))
  }

  /** With an empty search and every course selected, all files are shown,
      in order. */
  lemma NoFilterShowsAll(files: seq<ManualFile>)
    ensures FilteredFiles(files, "", AllCourses) == files
  {
    forall f | f in files
      ensures ShownBy("", AllCourses)(f)
    {
      assert Lower("") == "";
      assert StartsWith(Lower(f.fileName), "");
    }
    FilterKeepsAll(files, ShownBy("", AllCourses));
  }

  /** A file of another course is never shown while a course is selected. */
  lemma OtherCourseHidden(files: seq<ManualFile>, term: string, course: string, f: ManualFile)
    requires course != AllCourses && f.course != course
    ensures f !in FilteredFiles(files, term, course)
  {
  }

  /** `{ ...file, ...uploadForm, uploadDate }`: the form's fields and the
      date overwrite the file's; id and size stay. */
  function Merge(file: ManualFile, form: UploadForm, today: string): (r: ManualFile)
    ensures r.id == file.id && r.size == file.size && r.uploadDate == today
    ensures FormOf(r) == form
  {
    file.(experimentId := form.experimentId, fileName := form.fileName, fileType := form.fileType,
          course := form.course, experiment := form.experiment, uploadDate := today)
  }

  /** The form `handleEdit` fills from a file. */
  function FormOf(file: ManualFile): UploadForm {
    UploadForm(file.experimentId, file.fileName, file.fileType, file.course, file.experiment)
  }

  /** Saving an edit without changing the form only renews the date. */
  lemma SaveUnchanged(file: ManualFile, today: string)
    ensures Merge(file, FormOf(file), today) == file.(uploadDate := today)
  {
  }

  /** `prev.map(file => file.id === id ? Merge(file) : file)` */
  function UpdateById(files: seq<ManualFile>, id: string, form: UploadForm, today: string): (r: seq<ManualFile>)
    ensures |r| == |files|
    ensures forall i :: 0 <= i < |files| ==> r[i] == if files[i].id == id then Merge(files[i], form, today) else files[i]
  {
    seq(|files|, i requires 0 <= i < |files| => if files[i].id == id then Merge(files[i], form, today) else files[i])
  }

  /** An update keeps the ids of the files, in order. */
  lemma UpdateKeepsIds(files: seq<ManualFile>, id: string, form: UploadForm, today: string)
    ensures forall i :: 0 <= i < |files| ==> UpdateById(files, id, form, today)[i].id == files[i].id
  {
  }

  function Unlike(id: string): ManualFile -> bool {
    (f: ManualFile) => f.id != id
  }

  /** `prev.filter(file => file.id !== fileId)` */
  function RemoveById(files: seq<ManualFile>, id: string): (r: seq<ManualFile>)
    ensures forall f :: f in r <==> f in files && f.id != id
  {
    Filter(files, Unlike(id))
  }

  /** `getFileTypeColor(fileType)` */
  function FileTypeColor(fileType: string): (r: string)
    ensures fileType == "pdf" <==> r == "bg-red-100 text-red-800"
    ensures fileType == "doc" || fileType == "docx" <==> r == "bg-blue-100 text-blue-800"
    ensures fileType == "md" <==> r == "bg-green-100 text-green-800"
    ensures fileType !in {"pdf", "doc", "docx", "md"} ==> r == "bg-gray-100 text-gray-800"
  {
    match fileType
    case "pdf" => "bg-red-100 text-red-800"
    case "doc" => "bg-blue-100 text-blue-800"
    case "docx" => "bg-blue-100 text-blue-800"
    case "md" => "bg-green-100 text-green-800"
    case _ => "bg-gray-100 text-gray-800"
  }

  /** The name of the experiment with an id, or `""`: `selectedExp?.name || ''`. */
  function ExperimentName(courses: seq<TD.Course>, id: string): (r: string)
    ensures r != "" ==> exists e :: e in TD.AllExperiments(courses) && e.id == id && e.name == r
    ensures (forall e :: e in TD.AllExperiments(courses) ==> e.id != id) ==> r == ""
    ensures TD.FindById(TD.AllExperiments(courses), id).Some? ==> r == TD.FindById(TD.AllExperiments(courses), id).value.name
  {
    var e := TD.FindById(TD.AllExperiments(courses), id);
    if e.Some? then e.value.name else ""
  }

  class AdminPage {
    var files: seq<ManualFile>
    var searchTerm: string
    var selectedCourse: string
    var uploadOpen: bool
    var editOpen: bool
    var selectedFile: Option<ManualFile>
    var form: UploadForm

    constructor ()
      ensures files == [] && searchTerm == "" && selectedCourse == AllCourses
      ensures !uploadOpen && !editOpen && selectedFile.None? && form == EmptyForm
    {
      files := [];
      searchTerm := "";
      selectedCourse := AllCourses;
      uploadOpen := false;
      editOpen := false;
      selectedFile := None;
      form := EmptyForm;
    }

    /** The mount effect: one file per experiment. */
    method Initialize(courses: seq<TD.Course>, sizeOf: TD.Experiment -> string)
      modifies this
      ensures files == InitialFiles(courses, sizeOf)
      ensures searchTerm == old(searchTerm) && selectedCourse == old(selectedCourse) && form == old(form)
      ensures selectedFile == old(selectedFile) && uploadOpen == old(uploadOpen) && editOpen == old(editOpen)
    {
      files := InitialFiles(courses, sizeOf);
    }

    /** `handleUpload()`: without an experiment or a file name nothing
      happens; otherwise exactly one file is appended from the form, the
      dialog closes and the form is reset. */
    method HandleUpload(stamp: string, today: string, size: string)
      modifies this
      ensures old(form).experimentId == "" || old(form).fileName == "" ==>
        files == old(files) && form == old(form) && uploadOpen == old(uploadOpen)
      ensures old(form).experimentId != "" && old(form).fileName != "" ==>
        var f := old(form);
        && files == old(files) + [ManualFile("file-" + stamp, f.experimentId, f.fileName, f.fileType, today, size, f.course, f.experiment)]
        && !uploadOpen && form == EmptyForm
      ensures searchTerm == old(searchTerm) && selectedCourse == old(selectedCourse)
      ensures selectedFile == old(selectedFile) && editOpen == old(editOpen)
    {
      if form.experimentId == "" || form.fileName == "" {
        return;
      }
      var f := form;
      files := files + [ManualFile("file-" + stamp, f.experimentId, f.fileName, f.fileType, today, size, f.course, f.experiment)];
      uploadOpen := false;
      form := EmptyForm;
    }

    /** `handleEdit(file)`: the file is selected, its fields fill the form
      and the edit dialog opens. */
    method HandleEdit(file: ManualFile)
      modifies this
      ensures selectedFile == Some(file) && form == FormOf(file) && editOpen
      ensures files == old(files) && searchTerm == old(searchTerm) && selectedCourse == old(selectedCourse)
      ensures uploadOpen == old(uploadOpen)
    {
      selectedFile := Some(file);
      form := FormOf(file);
      editOpen := true;
    }

    /** `handleUpdate()`: without a selected file nothing happens;
      otherwise every file with the selected id gets the form's fields and
      today's date, the others stay, and the dialog closes. The form is
      left as it is. */
    method HandleUpdate(today: string)
      modifies this
      ensures old(selectedFile).None? ==>
        files == old(files) && editOpen == old(editOpen) && selectedFile.None?
      ensures old(selectedFile).Some? ==>
        && files == UpdateById(old(files), old(selectedFile).value.id, old(form), today)
        && !editOpen && selectedFile.None?
      ensures form == old(form) && searchTerm == old(searchTerm) && selectedCourse == old(selectedCourse)
      ensures uploadOpen == old(uploadOpen)
    {
      if selectedFile.None? {
        return;
      }
      files := UpdateById(files, selectedFile.value.id, form, today);
      editOpen := false;
      selectedFile := None;
    }

    /** `handleDelete(fileId)`: the files with the id go only when the
      user confirms. */
    method HandleDelete(fileId: string, confirmed: bool)
      modifies this
      ensures confirmed ==> files == RemoveById(old(files), fileId)
      ensures !confirmed ==> files == old(files)
      ensures form == old(form) && searchTerm == old(searchTerm) && selectedCourse == old(selectedCourse)
      ensures selectedFile == old(selectedFile) && uploadOpen == old(uploadOpen) && editOpen == old(editOpen)
    {
      if confirmed {
        files := RemoveById(files, fileId);
      }
    }

    /** Choosing a course in the upload dialog clears the experiment. */
    method ChangeCourse(course: string)
      modifies this
      ensures form == old(form).(course := course, experiment := "", experimentId := "")
      ensures files == old(files) && searchTerm == old(searchTerm) && selectedCourse == old(selectedCourse)
      ensures selectedFile == old(selectedFile) && uploadOpen == old(uploadOpen) && editOpen == old(editOpen)
    {
      form := form.(course := course, experiment := "", experimentId := "");
    }

    /** Choosing an experiment in the upload dialog: its id and its name,
      or an empty name for an unknown id. */
    method ChooseExperiment(courses: seq<TD.Course>, id: string)
      modifies this
      ensures form == old(form).(experimentId := id, experiment := ExperimentName(courses, id))
      ensures files == old(files) && searchTerm == old(searchTerm) && selectedCourse == old(selectedCourse)
      ensures selectedFile == old(selectedFile) && uploadOpen == old(uploadOpen) && editOpen == old(editOpen)
    {
      form := form.(experimentId := id, experiment := ExperimentName(courses, id));
    }
  }
}
