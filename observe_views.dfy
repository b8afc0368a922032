/**
  The server's access rules for the observation API: which submissions a
  user sees, which assignments an observer sees, the assignment check on
  creating a submission, and the `me` endpoint. Tables are sequences of
  records; foreign keys are ids.
*/
module ObserveViews {
  import opened Js

  /** The columns of a user that the rules read or that `me` returns, with
      two that it must not return. */
  datatype User = User(id: int, username: string, email: string, password: string, isObserver: bool, isStaff: bool)

  /** An observer's assignment to polling units of one LGA. */
  datatype Assignment = Assignment(id: int, observer: int, lga: int, pollingUnits: set<int>)

  datatype Submission = Submission(id: int, observer: int, pollingUnit: int, formTemplate: int, responses: Json)

  /** The validated fields of a create request; the observer it names is
      never used. */
  datatype Draft = Draft(observer: int, pollingUnit: int, formTemplate: int, responses: Json)

  /** What `me` serialises: `['id', 'username', 'is_observer', 'is_staff']`. */
  datatype UserView = UserView(id: int, username: string, isObserver: bool, isStaff: bool)

  /** A view's answer: a value, or a PermissionDenied error with its detail. */
  datatype Answer<T> = Allowed(value: T) | PermissionDenied(detail: string)

  const ObserversOnly := "Only observers can access this."
  const NotAssigned := "You are not assigned to this polling unit."

  /** `Submission.objects.filter(observer=observer)` */
  function SubmissionsBy(submissions: seq<Submission>, observer: int): (r: seq<Submission>)
    ensures forall s :: s in r <==> s in submissions && s.observer == observer
    ensures |r| <= |submissions|
  {
    if |submissions| == 0 then []
    else
      var rest := SubmissionsBy(submissions[1..], observer);
      assert forall s :: s in submissions <==> s == submissions[0] || s in submissions[1..];
      if submissions[0].observer == observer then [submissions[0]] + rest else rest
  }

  /** `SubmissionViewSet.get_queryset` */
  function SubmissionQueryset(user: User, submissions: seq<Submission>): seq<Submission>
  {
    if user.isStaff then submissions else SubmissionsBy(submissions, user.id)
  }

  /** Staff see every submission; anyone else sees exactly their own. */
  lemma SubmissionVisibility(user: User, submissions: seq<Submission>)
    ensures user.isStaff ==> SubmissionQueryset(user, submissions) == submissions
    ensures forall s :: s in SubmissionQueryset(user, submissions)
                        <==> s in submissions && (user.isStaff || s.observer == user.id)
  {
  }

  /** `Assignment.objects.filter(observer=observer)` */
  function AssignmentsOf(assignments: seq<Assignment>, observer: int): (r: seq<Assignment>)
    ensures forall a :: a in r <==> a in assignments && a.observer == observer
  {
    if |assignments| == 0 then []
    else
      var rest := AssignmentsOf(assignments[1..], observer);
      assert forall a :: a in assignments <==> a == assignments[0] || a in assignments[1..];
      if assignments[0].observer == observer then [assignments[0]] + rest else rest
  }

  /** `ObserverAssignmentViewSet.get_queryset` */
  function ObserverAssignments(user: User, assignments: seq<Assignment>): (r: Answer<seq<Assignment>>)
    ensures r.PermissionDenied? <==> !user.isObserver
    ensures r.PermissionDenied? ==> r.detail == ObserversOnly
    ensures r.Allowed? ==> forall a :: a in r.value <==> a in assignments && a.observer == user.id
  {
    if !user.isObserver then PermissionDenied(ObserversOnly)
    else Allowed(AssignmentsOf(assignments, user.id))
  }

  /** `PollingUnit.objects.filter(assignment__observer=observer)` */
  function AssignedUnits(assignments: seq<Assignment>, observer: int): set<int>
  {
    set a, u | a in assignments && a.observer == observer && u in a.pollingUnits :: u
  }

  /** `SubmissionViewSet.perform_create`: the saved submission (with the
      id the database gives it) or the PermissionDenied error. */
  function PerformCreate(requester: User, draft: Draft, assignments: seq<Assignment>, newId: int): Answer<Submission>
  {
    if draft.pollingUnit !in AssignedUnits(assignments, requester.id) then PermissionDenied(NotAssigned)
    else Allowed(Submission(newId, requester.id, draft.pollingUnit, draft.formTemplate, draft.responses))
  }

  /** A create succeeds exactly when one of the requester's assignments
      covers the polling unit, and the saved submission's observer is the
      requester whatever observer the request named. */
  lemma CreateRules(requester: User, draft: Draft, assignments: seq<Assignment>, newId: int)
    ensures PerformCreate(requester, draft, assignments, newId).Allowed?
        <==> exists a :: a in assignments && a.observer == requester.id && draft.pollingUnit in a.pollingUnits
    ensures PerformCreate(requester, draft, assignments, newId).PermissionDenied? ==>
      PerformCreate(requester, draft, assignments, newId).detail == NotAssigned
    ensures PerformCreate(requester, draft, assignments, newId).Allowed? ==>
      var s := PerformCreate(requester, draft, assignments, newId).value;
      s.observer == requester.id && s.pollingUnit == draft.pollingUnit
      && s.formTemplate == draft.formTemplate && s.responses == draft.responses
  {
    if exists a :: a in assignments && a.observer == requester.id && draft.pollingUnit in a.pollingUnits {
      var a :| a in assignments && a.observer == requester.id && draft.pollingUnit in a.pollingUnits;
      assert draft.pollingUnit in AssignedUnits(assignments, requester.id);
    }
  }

  /** A submission a user creates is among the submissions that user then
      sees, staff or not. */
  lemma CreatedIsVisible(requester: User, draft: Draft, assignments: seq<Assignment>,
                                            newId: int, submissions: seq<Submission>)
    requires PerformCreate(requester, draft, assignments, newId).Allowed?
    ensures var s := PerformCreate(requester, draft, assignments, newId).value;
      s in SubmissionQueryset(requester, submissions + [s])
  {
    var s := PerformCreate(requester, draft, assignments, newId).value;
    SubmissionVisibility(requester, submissions + [s]);
  }

  /** `UserViewSet.me`: the requesting user through the user serializer. */
  function Me(user: User): UserView
  {
    UserView(user.id, user.username, user.isObserver, user.isStaff)
  }

  /** `me` returns exactly the four serialised columns of the requesting
      user: two users get the same answer exactly when those agree, so the
      email and password never show. */
  lemma MeExposesExactly(u: User, v: User)
    ensures Me(u) == Me(v) <==> u.id == v.id && u.username == v.username && u.isObserver == v.isObserver && u.isStaff == v.isStaff
    ensures Me(u) == Me(u.(email := v.email, password := v.password))
  {
  }
}
