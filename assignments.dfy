/**
 * Assignments and their submissions (assignment.py): two validated records,
 * and an assignment's list of submissions, which only grows.
 */
module Assignments {
  import opened Results

  /**
   * Python's truth test on a due date or a submission's content: the value is
   * present (not `None`) and not the empty string.
   */
  predicate Given(v: Option<string>)
  {
    v.Some? && v.value != []
  }

  /** The fields of a submission; `grade` is `None` until someone grades it. */
  datatype SubmissionRecord = SubmissionRecord(studentId: int, content: string, grade: Option<int>)

  /** What the `Submission` constructor checks before it stores its arguments. */
  predicate WellFormedSubmission(s: SubmissionRecord)
  {
    s.studentId > 0 && s.content != []
  }

  /** A `Submission` object: one exists only when its constructor's checks passed. */
  type Submission = s: SubmissionRecord | WellFormedSubmission(s) witness SubmissionRecord(1, "a", None)

  /** The two `ValueError`s the `Submission` constructor can raise. */
  datatype SubmissionError =
    | NonPositiveStudentId  // "Student ID must be a positive integer."
    | EmptyContent          // "Submission content cannot be empty."

  /**
   * The `Submission` constructor: the student identifier is checked first,
   * then the content; a new submission is ungraded.
   */
  function NewSubmission(studentId: int, content: Option<string>): (r: Result<Submission, SubmissionError>)
    ensures r.Ok? <==> studentId > 0 && Given(content)
    ensures r.Ok? ==> r.value.studentId == studentId && r.value.content == content.value
    ensures r.Ok? ==> r.value.grade == None
    ensures r == Err(NonPositiveStudentId) <==> studentId <= 0
    ensures r == Err(EmptyContent) <==> studentId > 0 && !Given(content)
  {
    if studentId <= 0 then Err(NonPositiveStudentId)
    else if !Given(content) then Err(EmptyContent)
    else Ok(SubmissionRecord(studentId, content.value, None))
  }

  /** The three `ValueError`s the `Assignment` constructor can raise. */
  datatype AssignmentError =
    | NonPositiveAssignmentId  // "Assignment ID must be a positive integer."
    | EmptyDueDate             // "Due date cannot be empty."
    | NonPositiveCourseId      // "Course ID must be a positive integer."

  /**
   * The checks of the `Assignment` constructor, in their order: identifier,
   * due date, course identifier. The first that fails names the error.
   */
  function CheckAssignment(assignmentId: int, dueDate: Option<string>, courseId: int): (r: Outcome<AssignmentError>)
    ensures r.Pass? <==> assignmentId > 0 && Given(dueDate) && courseId > 0
    ensures r == Fail(NonPositiveAssignmentId) <==> assignmentId <= 0
    ensures r == Fail(EmptyDueDate) <==> assignmentId > 0 && !Given(dueDate)
    ensures r == Fail(NonPositiveCourseId) <==> assignmentId > 0 && Given(dueDate) && courseId <= 0
  {
    if assignmentId <= 0 then Fail(NonPositiveAssignmentId)
    else if !Given(dueDate) then Fail(EmptyDueDate)
    else if courseId <= 0 then Fail(NonPositiveCourseId)
    else Pass
  }

  /** The argument of `submit`: a `Submission` object, or any other value. */
  datatype Submittable = SubmissionValue(submission: Submission) | OtherValue

  /** The one `ValueError` `submit` can raise. */
  datatype SubmitError = NotASubmission  // "Submission must be an instance of the Submission class."

  /**
   * An assignment of a course. Its identifier, due date and course identifier
   * are fixed when it is made; its submission list only grows.
   */
  class Assignment {
    const assignmentId: int
    const dueDate: string
    const courseId: int
    var submissionList: seq<Submission>

    /** The facts the constructor's checks establish; nothing can break them later. */
    ghost predicate Valid()
    {
      assignmentId > 0 && dueDate != [] && courseId > 0
    }

    /** Stores the checked arguments; the submission list starts empty. */
    constructor (assignmentId: int, dueDate: string, courseId: int)
      requires CheckAssignment(assignmentId, Some(dueDate), courseId) == Pass
      ensures Valid()
      ensures this.assignmentId == assignmentId && this.dueDate == dueDate && this.courseId == courseId
      ensures submissionList == []
    {
      this.assignmentId := assignmentId;
      this.dueDate := dueDate;
      this.courseId := courseId;
      submissionList := [];
    }

    /**
     * `submit`: reject anything that is not a `Submission`; otherwise append it.
     * There is no duplicate check: the same submission may be appended again.
     */
    method Submit(item: Submittable) returns (r: Outcome<SubmitError>)
      requires Valid()
      modifies this`submissionList
      ensures Valid()
      ensures r.Pass? <==> item.SubmissionValue?
      ensures r.Pass? ==> submissionList == old(submissionList) + [item.submission]
      ensures r.Fail? ==> r.error == NotASubmission && submissionList == old(submissionList)
    {
      if !item.SubmissionValue? {
        return Fail(NotASubmission);
      }
      submissionList := submissionList + [item.submission];
      r := Pass;
    }
  }

  /**
   * `Assignment(assignment_id, due_date, course_id)`: raise on the first check
   * that fails, otherwise a new assignment with the given fields and no
   * submissions.
   */
  method NewAssignment(assignmentId: int, dueDate: Option<string>, courseId: int)
    returns (r: Result<Assignment, AssignmentError>)
    ensures r.Ok? <==> assignmentId > 0 && Given(dueDate) && courseId > 0
    ensures r.Err? ==> Fail(r.error) == CheckAssignment(assignmentId, dueDate, courseId)
    ensures r.Ok? ==>
              fresh(r.value) && r.value.Valid() &&
              r.value.assignmentId == assignmentId && r.value.dueDate == dueDate.value &&
              r.value.courseId == courseId && r.value.submissionList == []
  {
    var check := CheckAssignment(assignmentId, dueDate, courseId);
    if check.Fail? {
      return Err(check.error);
    }
    var a := new Assignment(assignmentId, dueDate.value, courseId);
    r := Ok(a);
  }

  /**
   * Submitting the same submission twice keeps both copies, in order, and
   * leaves the assignment's own fields as they were.
   */
  method SubmitTwice(a: Assignment, s: Submission)
    requires a.Valid()
    modifies a
    ensures a.submissionList == old(a.submissionList) + [s, s]
  {
    var _ := a.Submit(SubmissionValue(s));
    var _ := a.Submit(SubmissionValue(s));
  }

  /**
   * A fresh assignment accepts a valid submission, then rejects a value that is
   * not a submission: it ends with exactly the one submission.
   */
  method SubmitThenReject() returns (accepted: seq<Submission>, rejected: Outcome<SubmitError>)
    ensures accepted == [SubmissionRecord(1, "Content", None)]
    ensures rejected == Fail(NotASubmission)
  {
    var made := NewAssignment(1, Some("2024-04-21"), 1);
    var sub := NewSubmission(1, Some("Content"));
    var a := made.value;
    var _ := a.Submit(SubmissionValue(sub.value));
    rejected := a.Submit(OtherValue);
    accepted := a.submissionList;
  }
}
