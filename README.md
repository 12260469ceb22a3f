# miniCanvas records, in Dafny

A model of the in-memory record keeping of a small course-management backend
("miniCanvas"): the user registry of `user.py` and the assignments and
submissions of `assignment.py`.

- `results.dfy` (module `Results`): `Option` for Python's `None`, `Result` and
  `Outcome` for a call that returns or raises `ValueError`.
- `users.dfy` (module `Users`): the `User` record and the `UserManager` class.
  A `User` is a subset type of `UserRecord`: a user object only exists once the
  constructor's checks have passed. `UserManager` keeps `counter` and
  `userList` as mutable fields. Its invariant `Valid()` says that identifiers
  in the list are strictly increasing and none exceeds `counter`. Identifiers
  need not be 1..n, because `generate_id` is public and may be called on its
  own. `find_users` is a loop proved against the specification function
  `Matching`, and lemmas about `Matching` state what a lookup returns.
- `assignments.dfy` (module `Assignments`): the `Submission` record (again a
  subset type), the `Assignment` class with its growing `submissionList`, and
  `NewAssignment`, which is the `Assignment` constructor with its error path.
  The constructor's checks run first. The Dafny `constructor` then stores the
  checked arguments.

Every `raise ValueError` becomes an `Err`/`Fail` carrying one enumerated
error per message. The order of the checks decides which error is reported,
and the contracts state that order. The due date and the submission content
are `Option<string>`: the source tests them with Python's truth test, which
rejects both `None` and `""`.

## Model

| member | source | states |
|---|---|---|
| `Users.CheckFields` | user.py:11-15 | passes iff name, password and type are non-empty and the type is student, teacher or admin; emptiness is reported before an unknown type |
| `Users.NewUser` | user.py:33-46 | `User(...)` succeeds iff id > 0, name and password non-empty and type in the three roles; the result holds exactly the arguments; each failure names the first check that fails |
| `Users.UserManager.constructor` | user.py:2-4 | a new registry is empty with counter 0 and satisfies the registry invariant |
| `Users.UserManager.GenerateId` | user.py:6-8 | the counter grows by exactly one and the new value is returned; the user list is untouched; the invariant is kept |
| `Users.UserManager.CreateAUser` | user.py:10-19 | gives exactly the outcome of `CheckFields` (an unknown type is `UnknownUserType`, an empty field `EmptyField`); fails iff a field is empty or the type is unknown, and then changes neither counter nor list; on success the counter grows by one and the list grows by exactly the new user, whose id is the new counter and exceeds every earlier id; the invariant (ids strictly increasing, at most counter) is kept |
| `Users.UserManager.FindUsers` | user.py:21-30 | returns `Matching(userList, ids)`: exactly the registered users whose id is in `ids`, no more of them than are registered; the registry is not changed |
| `Users.AscendingIdsAreDistinct` | user.py:17-19 | in a registry whose ids increase from each user to the next, every earlier id is smaller than every later one, so no id occurs twice |
| `Users.MatchingMembers` | user.py:26-28 | a user is in the lookup result iff it is registered and its id is among those asked for; unknown ids are dropped |
| `Users.MatchingLength` | user.py:25-30 | the lookup result is never longer than the registry |
| `Users.MatchingIsSubsequence` | user.py:26-28 | the lookup result is a subsequence of the registry, so it follows registry order |
| `Users.MatchingIgnoresQueryOrder` | user.py:27 | two queries with the same set of ids give the same result, whatever their order or repetitions |
| `Users.MatchingKeepsIdsAscending` | user.py:25-30 | on a registry in id order the lookup result is in id order too |
| `Users.GenerateIdAfterThreeUsers` | test_miniCanvas.py:8-22 | after three successful creations on a fresh registry, `generate_id` returns 4 |
| `Users.MatchingFirstTwoOfThree` | test_miniCanvas.py:39-50 | with users numbered 1, 2, 3, looking up ids 1 and 2 gives the first two users in that order |
| `Users.FindFirstTwoUsers` | test_miniCanvas.py:39-50 | on the three test users, `find_users([1, 2])` returns two users, Brianna then Maddy |
| `Assignments.NewSubmission` | assignment.py:25-35 | succeeds iff student id > 0 and content is present and non-empty; the stored id and content are the arguments and the grade is `None`; the id check comes first |
| `Assignments.CheckAssignment` | assignment.py:2-11 | passes iff assignment id > 0, due date present and non-empty, course id > 0; the first failing check, in that order, names the error |
| `Assignments.NewAssignment` | assignment.py:2-16 | fails iff a check fails, with that check's error; on success a new assignment holding the given id, due date and course id and an empty submission list |
| `Assignments.Assignment.constructor` | assignment.py:13-16 | stores the checked arguments and starts with no submissions |
| `Assignments.Assignment.Submit` | assignment.py:18-22 | keeps the assignment's validated fields valid; rejects anything that is not a `Submission` and leaves the list unchanged; otherwise appends it at the end, earlier entries untouched; id, due date and course id never change |
| `Assignments.SubmitTwice` | assignment.py:18-22 | submitting the same submission twice leaves two copies of it at the end of the list, since there is no duplicate check |
| `Assignments.SubmitThenReject` | test_miniCanvas.py:216-227 | a fresh assignment accepts `Submission(1, "Content")`, rejects a non-submission, and holds exactly that one submission |

## Left out

- `find_users`'s `TypeError` for a non-list argument (user.py:22-23) and the `isinstance(..., int)` checks: Dafny's static types rule these inputs out, so only the value conditions are modelled.
- `User.__str__` (user.py:48-49): presentation only.
- Passwords are opaque non-empty strings; there is no authentication.
- The grade of a submission is `Option<int>`: the source never sets it and gives it no type, so only "initially `None`" is modelled.
- The assignment's identifier, due date and course identifier are `const` fields: the source never writes them after construction.
- `Course` and `CourseManager` (course.py, imported by test_miniCanvas.py:3 and main.py:3) are not modelled: course.py is not part of this model, so course creation, lookup, student import, assignment creation and `sync_with_database` are left out.
- `main.py` is not part of this model: it is HTTP glue that calls `find_users` and the course manager and turns errors into 400/404 responses.
- Every rejected input raises `ValueError`; the model returns one enumerated error per message. `create_a_user` returns nothing, so `CreateAUser` returns only success or the error.
- `User` and `Submission` objects are modelled as immutable values: object identity and aliasing are not modelled (submitting one `Submission` object twice stores two references to it in the source, two equal values here). Nothing in these files mutates such an object after construction.
