/** The course catalogue of the experiment-teaching pages
    (src/app/test/dbly1/page.tsx): the login gate on the stored student,
    logout, the course search and the category labels. The JSON decoding
    of the stored record is a parameter. */
module Dbly1Catalog {
  import opened Text
  import opened Collections
  import D = Dbly1Data
  import L = StudentLogin
  import S = Search

  /** What the page does on entry: go to the login page, or greet the
      stored student. */
  datatype Gate = ToLogin | Welcome(student: L.StudentRecord)

  /** The mount effect: a missing or empty stored value, or one that does
      not decode, sends the visitor to the login page. */
  function Enter(items: map<string, string>, decode: string -> Option<L.StudentRecord>): (g: Gate)
    ensures g.Welcome? <==> L.StudentKey in items && items[L.StudentKey] != "" && decode(items[L.StudentKey]).Some?
    ensures g.Welcome? ==> Some(g.student) == decode(items[L.StudentKey])
  {
    if L.StudentKey !in items || items[L.StudentKey] == "" then ToLogin
    else
      var parsed := decode(items[L.StudentKey]);
      if parsed.None? then ToLogin else Welcome(parsed.value)
  }

  /** A login that stored a record lets the student in, when decoding
      inverts the encoding and the encoding is never empty. */
  lemma LoginThenEnter(items: map<string, string>, record: L.StudentRecord,
                       encode: L.StudentRecord -> string, decode: string -> Option<L.StudentRecord>)
    requires decode(encode(record)) == Some(record) && encode(record) != ""
    ensures Enter(items[L.StudentKey := encode(record)], decode) == Welcome(record)
  {
  }

  /** After logout nobody is let in. */
  lemma LogoutThenEnter(items: map<string, string>, decode: string -> Option<L.StudentRecord>)
    ensures Enter(items - {L.StudentKey}, decode) == ToLogin
  {
  }

  /** `handleLogout()`: the stored student is removed and the page goes to
      the login page. */
  method Logout(storage: L.Storage) returns (navigate: string)
    modifies storage
    ensures storage.items == old(storage.items) - {L.StudentKey}
    ensures navigate == L.LoginPath
  {
    storage.items := storage.items - {L.StudentKey};
    navigate := L.LoginPath;
  }

  /** The fields the course search looks at. */
  function NameAndDescription(): D.Course -> (string, string) {
    (c: D.Course) => (c.name, c.description)
  }

  /** `filteredCourses`: the search over the name and the description. */
  function FilteredCourses(courses: seq<D.Course>, term: string): (r: seq<D.Course>)
    ensures forall c :: c in r <==> c in courses && S.Matches(c.name, c.description, term)
    ensures term == "" ==> r == courses
  {
    S.Searched(courses, NameAndDescription(), term)
  }

  predicate Known(category: string) {
    category == "digital" || category == "analog" || category == "basic"
  }

  /** `getCategoryName(category)` */
  function CategoryName(category: string): (r: string)
    ensures r == "其他" <==> !Known(category)
    ensures category == "digital" ==> r == "数字电路"
    ensures category == "analog" ==> r == "模拟电路"
    ensures category == "basic" ==> r == "电路基础"
  {
    match category
    case "digital" => "数字电路"
    case "analog" => "模拟电路"
    case "basic" => "电路基础"
    case _ => "其他"
  }

  /** The colour family of a category. */
  function Hue(category: string): (h: string)
    ensures '-' !in h
    ensures h == "gray" <==> !Known(category)
  {
    match category
    case "digital" => "blue"
    case "analog" => "green"
    case "basic" => "purple"
    case _ => "gray"
  }

  /** The class list of a colour family, light and dark. */
  function Palette(h: string): string {
    "bg-" + (h + PaletteTail(h))
  }

  function PaletteTail(h: string): (t: string)
    ensures |t| > 0 && t[0] == '-'
  {
    "-100 text-" + h + "-800 dark:bg-" + h + "-900 dark:text-" + h + "-200"
  }

  /** Different colour families give different class lists. */
  lemma PaletteInjective(h1: string, h2: string)
    requires '-' !in h1 && '-' !in h2 && Palette(h1) == Palette(h2)
    ensures h1 == h2
  {
    assert Palette(h1)[3..] == h1 + PaletteTail(h1);
    assert Palette(h2)[3..] == h2 + PaletteTail(h2);
    HeadInjective(h1, PaletteTail(h1), h2, PaletteTail(h2), '-');
  }

  /** `getCategoryColor(category)`: e.g. `bg-blue-100 text-blue-800
      dark:bg-blue-900 dark:text-blue-200` for `digital`. */
  function CategoryColor(category: string): (r: string)
    ensures r == Palette("gray") <==> !Known(category)
  {
    if Palette(Hue(category)) == Palette("gray") then
      PaletteInjective(Hue(category), "gray");
      Palette(Hue(category))
    else Palette(Hue(category))
  }

  /** The three categories get three different labels and colours. */
  lemma CategoriesDistinct(a: string, b: string)
    requires Known(a) && Known(b) && a != b
    ensures CategoryName(a) != CategoryName(b) && CategoryColor(a) != CategoryColor(b)
  {
    if CategoryColor(a) == CategoryColor(b) {
      PaletteInjective(Hue(a), Hue(b));
    }
  }
}
