/** The student login of the experiment-teaching pages
    (src/app/test/dbly1/login/page.tsx): a validation chain over the name
    and the student number, then the student record is stored under a
    fixed key of the browser's local storage. The storage is an object
    holding a map; the JSON encoding of the record is a parameter. */
module StudentLogin {
  import opened Text

  const StudentKey: string := "dbly1-student"
  const HomePath: string := "/test/dbly1"
  const LoginPath: string := "/test/dbly1/login"

  const NameRequired: string := "请输入姓名"
  const NumberRequired: string := "请输入学号"
  const NumberMalformed: string := "学号格式不正确，请输入7位数字"
  const LoginFailed: string := "登录失败，请重试"

  /** The stored student; `loginTime` is the ISO time of the login. */
  datatype StudentRecord = StudentRecord(id: string, name: string, studentNumber: string, loginTime: string)

  /** `/^\d{7}$/`: exactly seven ASCII digits. */
  predicate SevenDigits(s: string) {
    |s| == 7 && forall i :: 0 <= i < |s| ==> '0' <= s[i] <= '9'
  }

  /** The validation chain of `handleLogin`: the error it stops with, or
      `None` when the input passes. The checks run in order, and the
      format check is made on the number as typed, untrimmed. */
  function Check(name: string, studentNumber: string): (r: Option<string>)
    ensures r.None? <==> Trim(name) != "" && Trim(studentNumber) != "" && SevenDigits(studentNumber)
    ensures Trim(name) == "" ==> r == Some(NameRequired)
    ensures Trim(name) != "" && Trim(studentNumber) == "" ==> r == Some(NumberRequired)
    ensures r == Some(NumberMalformed) <==> Trim(name) != "" && Trim(studentNumber) != "" && !SevenDigits(studentNumber)
  {
    if Trim(name) == "" then Some(NameRequired)
    else if Trim(studentNumber) == "" then Some(NumberRequired)
    else if !SevenDigits(studentNumber) then Some(NumberMalformed)
    else None
  }

  /** Seven digits have nothing to trim: a student number that passes is
      stored exactly as typed. */
  lemma DigitsUntrimmed(s: string)
    requires SevenDigits(s)
    ensures Trim(s) == s
  {
    assert TrimStart(s) == s;
    assert TrimEnd(s) == s;
  }

  /** The format check reads the untrimmed number: six digits and a
      space, which the seven-character field can hold, are not blank and
      still fail it. */
  lemma PaddedNumberFails(name: string, digits: string)
    requires Trim(name) != "" && SevenDigits(digits)
    ensures Check(name, digits[..6] + " ") == Some(NumberMalformed)
  {
    var s := digits[..6] + " ";
    assert !IsSpace(s[0]);
    TrimEmptyIffAllSpace(s);
    assert !SevenDigits(s);
  }

  /** The browser's local storage. */
  class Storage {
    var items: map<string, string>

    constructor (items: map<string, string>)
      ensures this.items == items
    {
      this.items := items;
    }
  }

  class LoginPage {
    var name: string
    var studentNumber: string
    var error: string
    var isLoading: bool
    const storage: Storage

    constructor (storage: Storage)
      ensures this.storage == storage
      ensures name == "" && studentNumber == "" && error == "" && !isLoading
    {
      this.storage := storage;
      name := "";
      studentNumber := "";
      error := "";
      isLoading := false;
    }

    /** `handleLogin(e)`, with the clock's readings (`stamp` for the id,
        `now` the ISO time) and whether storing fails as parameters. On
        success the trimmed record is stored and the page goes home; the
        loading flag is down on every exit. */
    method HandleLogin(stamp: string, now: string, encode: StudentRecord -> string, storeFails: bool)
      returns (navigate: Option<string>)
      modifies this, storage
      ensures !isLoading && name == old(name) && studentNumber == old(studentNumber)
      ensures Check(name, studentNumber).Some? ==>
        error == Check(name, studentNumber).value && storage.items == old(storage.items) && navigate.None?
      ensures Check(name, studentNumber).None? && storeFails ==>
        error == LoginFailed && storage.items == old(storage.items) && navigate.None?
      ensures Check(name, studentNumber).None? && !storeFails ==>
        var record := StudentRecord("student-" + stamp, Trim(name), Trim(studentNumber), now);
        && storage.items == old(storage.items)[StudentKey := encode(record)]
        && error == "" && navigate == Some(HomePath)
    {
      error := "";
      isLoading := true;
      var problem := Check(name, studentNumber);
      if problem.Some? {
        error := problem.value;
        isLoading := false;
        return None;
      }
      navigate := None;
      if storeFails {
        error := LoginFailed;
      } else {
        var record := StudentRecord("student-" + stamp, Trim(name), Trim(studentNumber), now);
        storage.items := storage.items[StudentKey := encode(record)];
        navigate := Some(HomePath);
      }
      isLoading := false;
    }
  }
}
