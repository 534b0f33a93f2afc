/**
 * The student-management screen: the students kept in the screen's own state, a form
 * for adding one, and a search box that filters the list.
 */
module Students {
  import opened Text
  import opened Seqs

  /** A student as the screen lists it. */
  datatype StudentEntry = StudentEntry(
    id: int,
    name: string,
    rollNumber: string,
    className: string,
    section: string,
    fatherName: string,
    motherName: string,
    phone: string,
    email: string,
    address: string,
    admissionDate: string)

  /** The text fields of the "Add New Student" form. */
  datatype StudentForm = StudentForm(
    name: string,
    rollNumber: string,
    className: string,
    section: string,
    fatherName: string,
    motherName: string,
    phone: string,
    email: string,
    address: string,
    admissionDate: string)

  /** The names of the form's fields. */
  datatype StudentField =
    Name | RollNumber | ClassName | Section | FatherName | MotherName | Phone | Email | Address | AdmissionDate

  const EmptyStudentForm := StudentForm("", "", "", "", "", "", "", "", "", "")

  /** The one student the screen starts with. */
  const SeedStudents := [
    StudentEntry(1, "John Doe", "STU001", "Class 10", "A", "Robert Doe", "Jane Doe", "+91 9876543210",
                 "john.doe@email.com", "123 Main St, City", "2024-04-01")
  ]

  function FieldValue(f: StudentForm, field: StudentField): string {
    match field
    case Name => f.name
    case RollNumber => f.rollNumber
    case ClassName => f.className
    case Section => f.section
    case FatherName => f.fatherName
    case MotherName => f.motherName
    case Phone => f.phone
    case Email => f.email
    case Address => f.address
    case AdmissionDate => f.admissionDate
  }

  /** `{ ...prev, [field]: value }`: the named field takes the value and every other field is kept. */
  function WithField(f: StudentForm, field: StudentField, value: string): (g: StudentForm)
    ensures FieldValue(g, field) == value
    ensures forall other :: other != field ==> FieldValue(g, other) == FieldValue(f, other)
  {
    match field
    case Name => f.(name := value)
    case RollNumber => f.(rollNumber := value)
    case ClassName => f.(className := value)
    case Section => f.(section := value)
    case FatherName => f.(fatherName := value)
    case MotherName => f.(motherName := value)
    case Phone => f.(phone := value)
    case Email => f.(email := value)
    case Address => f.(address := value)
    case AdmissionDate => f.(admissionDate := value)
  }

  /** Every field of the empty form is the empty string. */
  lemma EmptyFormIsBlank(field: StudentField)
    ensures FieldValue(EmptyStudentForm, field) == ""
  {
  }

  /** The student added from a form when `n` students are listed: all of the form, and id n + 1. */
  function NewStudent(n: nat, f: StudentForm): StudentEntry {
    StudentEntry(n + 1, f.name, f.rollNumber, f.className, f.section, f.fatherName, f.motherName, f.phone,
                 f.email, f.address, f.admissionDate)
  }

  /** The form a listed student was built from. */
  function FormOf(s: StudentEntry): StudentForm {
    StudentForm(s.name, s.rollNumber, s.className, s.section, s.fatherName, s.motherName, s.phone, s.email,
                s.address, s.admissionDate)
  }

  /** Adding copies every field of the form: reading the form back from the new student gives it again. */
  lemma NewStudentKeepsForm(n: nat, f: StudentForm)
    ensures FormOf(NewStudent(n, f)) == f
    ensures NewStudent(n, f).id == n + 1
    ensures forall field :: FieldValue(FormOf(NewStudent(n, f)), field) == FieldValue(f, field)
  {
  }

  function AddStudent(students: seq<StudentEntry>, f: StudentForm): seq<StudentEntry> {
    students + [NewStudent(|students|, f)]
  }

  /** The list after adding each of the forms in turn. */
  function AddStudents(students: seq<StudentEntry>, forms: seq<StudentForm>): seq<StudentEntry>
    decreases |forms|
  {
    if forms == [] then students else AddStudents(AddStudent(students, forms[0]), forms[1..])
  }

  function StudentIds(students: seq<StudentEntry>): seq<int> {
    seq(|students|, i requires 0 <= i < |students| => students[i].id)
  }

  /** Adding a student to a list numbered 1..n gives one numbered 1..n+1. */
  lemma AddStudentKeepsIdsNumbered(students: seq<StudentEntry>, f: StudentForm)
    requires NumberedFromOne(StudentIds(students))
    ensures NumberedFromOne(StudentIds(AddStudent(students, f)))
  {
    var after := AddStudent(students, f);
    forall i | 0 <= i < |after| ensures StudentIds(after)[i] == i + 1 {
      assert StudentIds(after)[i] == after[i].id;
      if i < |students| {
        assert after[i] == students[i];
        assert StudentIds(students)[i] == students[i].id;
      }
    }
  }

  /**
   * Starting from a list numbered 1..n, any sequence of additions keeps the ids exactly
   * 1..n+k, so no two students share an id.
   */
  lemma {:induction false} AddStudentsKeepIdsNumbered(students: seq<StudentEntry>, forms: seq<StudentForm>)
    requires NumberedFromOne(StudentIds(students))
    ensures |AddStudents(students, forms)| == |students| + |forms|
    ensures NumberedFromOne(StudentIds(AddStudents(students, forms)))
    ensures Distinct(StudentIds(AddStudents(students, forms)))
    decreases |forms|
  {
    if forms == [] {
      NumberedIdsAreFresh(StudentIds(students));
    } else {
      AddStudentKeepsIdsNumbered(students, forms[0]);
      AddStudentsKeepIdsNumbered(AddStudent(students, forms[0]), forms[1..]);
    }
  }

  /** The seed list is numbered 1, so it stays numbered under any additions. */
  lemma SeedThenAddsKeepIdsNumbered(forms: seq<StudentForm>)
    ensures NumberedFromOne(StudentIds(AddStudents(SeedStudents, forms)))
    ensures Distinct(StudentIds(AddStudents(SeedStudents, forms)))
  {
    assert NumberedFromOne(StudentIds(SeedStudents));
    AddStudentsKeepIdsNumbered(SeedStudents, forms);
  }

  /** The search: the lower-cased term occurs in the student's name, roll number or class. */
  predicate StudentMatches(s: StudentEntry, term: string) {
    || Contains(Lower(s.name), Lower(term))
    || Contains(Lower(s.rollNumber), Lower(term))
    || Contains(Lower(s.className), Lower(term))
  }

  /**
   * The listed students for a search term: those that match, in their order, each as
   * often as in the list.
   */
  function FilteredStudents(students: seq<StudentEntry>, searchTerm: string): (r: seq<StudentEntry>)
    ensures IsSubsequence(r, students)
    ensures forall s :: s in r <==> s in students && StudentMatches(s, searchTerm)
    ensures forall s :: multiset(r)[s] == if StudentMatches(s, searchTerm) then multiset(students)[s] else 0
  {
    Filter(students, s => StudentMatches(s, searchTerm))
  }

  /** An empty search lists every student. */
  lemma EmptySearchListsAllStudents(students: seq<StudentEntry>)
    ensures FilteredStudents(students, "") == students
  {
    assert Lower("") == "";
    forall i | 0 <= i < |students| ensures StudentMatches(students[i], "") {
      ContainsTrivial(Lower(students[i].name));
    }
    FilterKeepsAll(students, s => StudentMatches(s, ""));
  }

  /** A student's own roll number always finds them, whatever its case. */
  lemma RollNumberFindsStudent(students: seq<StudentEntry>, i: nat)
    requires i < |students|
    ensures students[i] in FilteredStudents(students, students[i].rollNumber)
  {
    ContainsTrivial(Lower(students[i].rollNumber));
  }

  /** The screen's state. */
  class StudentManagement {
    var students: seq<StudentEntry>
    var form: StudentForm
    var addDialogOpen: bool
    var searchTerm: string

    /** The ids are 1..n in list order. */
    predicate IdsNumbered()
      reads this
    {
      NumberedFromOne(StudentIds(students))
    }

    constructor ()
      ensures students == SeedStudents && form == EmptyStudentForm
      ensures !addDialogOpen && searchTerm == ""
      ensures IdsNumbered()
    {
      students := SeedStudents;
      form := EmptyStudentForm;
      addDialogOpen := false;
      searchTerm := "";
    }

    /** Typing into one form field changes that field and nothing else. */
    method HandleInputChange(field: StudentField, value: string)
      modifies this
      ensures form == WithField(old(form), field, value)
      ensures students == old(students) && addDialogOpen == old(addDialogOpen) && searchTerm == old(searchTerm)
    {
      form := WithField(form, field, value);
    }

    /**
     * Adds the form as a new student at the end of the list, with the next id and every
     * field of the form; then blanks the form and closes the dialog.
     */
    method HandleAddStudent()
      modifies this
      ensures students == AddStudent(old(students), old(form))
      ensures |students| == |old(students)| + 1 && students[..|old(students)|] == old(students)
      ensures students[|old(students)|].id == |old(students)| + 1
      ensures FormOf(students[|old(students)|]) == old(form)
      ensures form == EmptyStudentForm && !addDialogOpen && searchTerm == old(searchTerm)
      ensures old(IdsNumbered()) ==> IdsNumbered()
    {
      if IdsNumbered() {
        AddStudentKeepsIdsNumbered(students, form);
      }
      students := AddStudent(students, form);
      form := EmptyStudentForm;
      addDialogOpen := false;
    }

    /** Typing into the search box. */
    method SetSearchTerm(term: string)
      modifies this
      ensures searchTerm == term
      ensures students == old(students) && form == old(form) && addDialogOpen == old(addDialogOpen)
    {
      searchTerm := term;
    }

    /** The students the table shows. */
    function Shown(): seq<StudentEntry>
      reads this
    {
      FilteredStudents(students, searchTerm)
    }
  }
}
