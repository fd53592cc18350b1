/** Build requests and the events published about them (events.go, and the payload types of
    build_consumer.go). Timestamps are left out; ids are the strings that the service hashes. */
module Events {
  import opened Text

  datatype Request = Request(
    deploymentId: string, projectId: string, serviceId: string, serviceName: string, userId: string,
    payload: Payload)

  datatype Payload = Payload(
    repositoryUrl: string, cloneUrl: string, branch: string, serviceAlias: string,
    projectSlug: string, serviceSlug: string, containerPort: int)

  datatype BuildResult = BuildResult(imageTag: string, commitSha: string, builder: string)

  const NO_RESULT := BuildResult("", "", "")

  datatype EventType =
    | BuildSucceeded
    | BuildFailed
    | DeploymentBuildStarted
    | DeploymentBuildSucceeded
    | DeploymentBuildFailed
    | DeploymentBuildRetrying

  datatype Status = BuildingStatus | SucceededStatus | FailedStatus | RetryingStatus(attempt: int)

  function StatusText(s: Status): string {
    match s
    case BuildingStatus => "BUILDING"
    case SucceededStatus => "BUILD_SUCCEEDED"
    case FailedStatus => "BUILD_FAILED"
    case RetryingStatus(n) => "BUILD_RETRYING:" + Integer(n)
  }

  const STAGE := "build"
  const INFIX := ":build:"

  /** deploymentEventID before hashing. */
  function EventId(deploymentId: string, s: Status): string {
    deploymentId + ":" + STAGE + ":" + StatusText(s)
  }

  datatype Details =
    | Image(result: BuildResult, projectSlug: string, serviceSlug: string, containerPort: int)
    | Failure(result: BuildResult, message: string)
    | FailedImage(result: BuildResult, message: string, projectSlug: string, serviceSlug: string, containerPort: int)
    | Source(branch: string, repositoryUrl: string)
    | Again(attempt: int, message: string)

  datatype Event = Event(
    id: string, eventType: EventType, status: Status, deploymentId: string, projectId: string,
    serviceId: string, serviceName: string, userId: string, details: Details)

  /** The two events of a terminal result with their routing keys: what the ledger stores. */
  datatype Bundle = Bundle(serviceKey: string, service: Event, progressKey: string, progress: Event)

  function FirstNonEmpty(a: string, b: string): string {
    if a != "" then a else b
  }

  /** Only service events name the user. */
  function NewEvent(r: Request, t: EventType, s: Status, userId: string, d: Details): Event {
    Event(EventId(r.deploymentId, s), t, s, r.deploymentId, r.projectId, r.serviceId,
          FirstNonEmpty(r.serviceName, r.payload.serviceAlias), userId, d)
  }

  function BuiltDetails(r: Request, result: BuildResult): Details {
    Image(result, r.payload.projectSlug, r.payload.serviceSlug, r.payload.containerPort)
  }

  function NewBuildSucceeded(r: Request, result: BuildResult): Event {
    NewEvent(r, BuildSucceeded, SucceededStatus, r.userId, BuiltDetails(r, result))
  }

  function NewBuildFailed(r: Request, result: BuildResult, message: string): Event {
    NewEvent(r, BuildFailed, FailedStatus, r.userId, Failure(result, message))
  }

  function NewDeploymentBuildStarted(r: Request): Event {
    NewEvent(r, DeploymentBuildStarted, BuildingStatus, "", Source(r.payload.branch, r.payload.repositoryUrl))
  }

  function NewDeploymentBuildSucceeded(r: Request, result: BuildResult): Event {
    NewEvent(r, DeploymentBuildSucceeded, SucceededStatus, "", BuiltDetails(r, result))
  }

  function NewDeploymentBuildFailed(r: Request, result: BuildResult, message: string): Event {
    NewEvent(r, DeploymentBuildFailed, FailedStatus, "",
      FailedImage(result, message, r.payload.projectSlug, r.payload.serviceSlug, r.payload.containerPort))
  }

  function NewDeploymentBuildRetrying(r: Request, attempt: int, message: string): Event {
    NewEvent(r, DeploymentBuildRetrying, RetryingStatus(attempt), "", Again(attempt, message))
  }

  /** No status contains a lower-case letter, and all begin with 'B'. */
  lemma StatusAlphabet(s: Status)
    ensures |StatusText(s)| > 0 && StatusText(s)[0] == 'B'
    ensures forall i :: 0 <= i < |StatusText(s)| ==> StatusText(s)[i] != 'd'
  {
  }

  lemma StatusTextInjective(s: Status, t: Status)
    requires StatusText(s) == StatusText(t)
    ensures s == t
  {
    var prefix := "BUILD_RETRYING:";
    if s.RetryingStatus? && t.RetryingStatus? {
      assert Integer(s.attempt) == StatusText(s)[|prefix|..] == StatusText(t)[|prefix|..] == Integer(t.attempt);
      IntegerInjective(s.attempt, t.attempt);
    } else {
      SixthLetter(s);
      SixthLetter(t);
    }
  }

  /** The letters at positions 5 and 6 tell the four kinds of status apart. */
  lemma SixthLetter(s: Status)
    ensures |StatusText(s)| > 6
    ensures s == BuildingStatus <==> StatusText(s)[5] != '_'
    ensures s == SucceededStatus <==> StatusText(s)[5] == '_' && StatusText(s)[6] == 'S'
    ensures s == FailedStatus <==> StatusText(s)[5] == '_' && StatusText(s)[6] == 'F'
  {
  }

  /** Event ids can be decoded uniquely, whatever characters (':' included) the deployment id contains. */
  lemma EventIdInjective(id1: string, s1: Status, id2: string, s2: Status)
    ensures EventId(id1, s1) == EventId(id2, s2) <==> id1 == id2 && s1 == s2
  {
    if EventId(id1, s1) == EventId(id2, s2) {
      StatusAlphabet(s1);
      StatusAlphabet(s2);
      var t1, t2 := StatusText(s1), StatusText(s2);
      assert id1 + ":" + STAGE + ":" == id1 + INFIX && id2 + ":" + STAGE + ":" == id2 + INFIX;
      if |t1| <= |t2| {
        SplitUnique(id1, t1, id2, t2);
      } else {
        SplitUnique(id2, t2, id1, t1);
      }
      StatusTextInjective(s1, s2);
    }
  }

  /** The infix cannot reappear inside a status, so the last one splits the id. */
  lemma SplitUnique(id1: string, t1: string, id2: string, t2: string)
    requires id1 + INFIX + t1 == id2 + INFIX + t2
    requires |t1| <= |t2| && |t2| > 0 && t2[0] != ':'
    requires forall i :: 0 <= i < |t2| ==> t2[i] != 'd'
    ensures id1 == id2 && t1 == t2
  {
    var x := id1 + INFIX + t1;
    assert x[|id1| + 5] == 'd' && x[|id1| + 6] == ':';
    assert forall i :: |id2| + |INFIX| <= i < |x| ==> x[i] == t2[i - |id2| - |INFIX|];
    assert |t1| == |t2|;
    assert t1 == x[|x| - |t1|..];
    assert t2 == x[|x| - |t2|..];
    assert id1 == x[..|id1|] && id2 == x[..|id2|];
  }
}
