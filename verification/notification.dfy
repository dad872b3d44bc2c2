/**
 * The notification record: its fields, their initial values, the validating
 * setters of `priority` and `status`, and its JSON form.
 */
module NotificationRecord {
  import opened Outcomes

  const DefaultPriority: int := 3
  const Read: string := "read"
  const Unread: string := "unread"

  /**
   * Initial value of `maxAge`. The record declares the property as `int`
   * without an initialiser; the value the data-object layer then starts it at
   * is taken to be 0.
   */
  const DefaultMaxAge: int := 0

  datatype Notification = Notification(
    id: Option<string>,
    text: Option<string>,
    priority: int,
    status: string,
    dateCreated: Option<int>,
    maxAge: int)

  /**
   * Why an assignment failed: which setter rejected which value. Both setters
   * raise `new Exception(...)` inside the record's namespace, where no class
   * `Exception` exists, so at run time both fail alike with a class-not-found
   * error; the model only labels the cause.
   */
  datatype Error = InvalidPriority(badPriority: int) | InvalidStatus(badStatus: string)

  predicate ValidPriority(p: int) {
    1 <= p <= 5
  }

  predicate ValidStatus(s: string) {
    s == Read || s == Unread
  }

  /** What the setters guarantee of every record built through them. */
  predicate Valid(n: Notification) {
    ValidPriority(n.priority) && ValidStatus(n.status)
  }

  /** A freshly constructed record: every property at its initial value. */
  function New(): (n: Notification)
    ensures Valid(n)
    ensures n.priority == DefaultPriority && n.status == Unread && n.maxAge == DefaultMaxAge
    ensures n.id.None? && n.text.None? && n.dateCreated.None?
  {
    Notification(None, None, DefaultPriority, Unread, None, DefaultMaxAge)
  }

  /** One property assignment `$notification->field = value`. */
  datatype Assignment =
    | Id(newId: Option<string>)
    | Text(newText: Option<string>)
    | Priority(newPriority: int)
    | Status(newStatus: string)
    | DateCreated(newDateCreated: Option<int>)
    | MaxAge(newMaxAge: int)

  /** Whether the property's setter accepts the value. */
  predicate Accepts(a: Assignment) {
    match a
    case Priority(p) => ValidPriority(p)
    case Status(s) => ValidStatus(s)
    case _ => true
  }

  /** `n` holds the value `a` assigns, in the property `a` names. */
  predicate Holds(n: Notification, a: Assignment) {
    match a
    case Id(v) => n.id == v
    case Text(v) => n.text == v
    case Priority(v) => n.priority == v
    case Status(v) => n.status == v
    case DateCreated(v) => n.dateCreated == v
    case MaxAge(v) => n.maxAge == v
  }

  /** `m` agrees with `n` on every property `a` does not name. */
  predicate OthersKept(n: Notification, m: Notification, a: Assignment) {
    && (!a.Id? ==> m.id == n.id)
    && (!a.Text? ==> m.text == n.text)
    && (!a.Priority? ==> m.priority == n.priority)
    && (!a.Status? ==> m.status == n.status)
    && (!a.DateCreated? ==> m.dateCreated == n.dateCreated)
    && (!a.MaxAge? ==> m.maxAge == n.maxAge)
  }

  /**
   * Performs one assignment. A priority outside 1..5 or a status other than
   * `read`/`unread` throws; any other value is stored unchanged.
   */
  function Assign(n: Notification, a: Assignment): (r: Result<Notification, Error>)
    ensures r.Success? <==> Accepts(a)
    ensures r.Success? ==> Holds(r.value, a) && OthersKept(n, r.value, a)
    ensures r.Failure? && a.Priority? ==> r.error == InvalidPriority(a.newPriority)
    ensures r.Failure? && a.Status? ==> r.error == InvalidStatus(a.newStatus)
    ensures Valid(n) && r.Success? ==> Valid(r.value)
  {
    match a
    case Id(v) => Success(n.(id := v))
    case Text(v) => Success(n.(text := v))
    case Priority(v) =>
      if v < 1 || v > 5 then Failure(InvalidPriority(v)) else Success(n.(priority := v))
    case Status(v) =>
      if v != Read && v != Unread then Failure(InvalidStatus(v)) else Success(n.(status := v))
    case DateCreated(v) => Success(n.(dateCreated := v))
    case MaxAge(v) => Success(n.(maxAge := v))
  }

  /** A sequence of assignments, stopping at the first one that throws. */
  function AssignAll(n: Notification, assignments: seq<Assignment>): Result<Notification, Error>
    decreases |assignments|
  {
    if |assignments| == 0 then Success(n)
    else
      var m :- Assign(n, assignments[0]);
      AssignAll(m, assignments[1..])
  }

  /** The record invariant survives any run of successful assignments. */
  lemma {:induction false} AssignAllKeepsValid(n: Notification, assignments: seq<Assignment>)
    requires Valid(n)
    ensures AssignAll(n, assignments).Success? ==> Valid(AssignAll(n, assignments).value)
    decreases |assignments|
  {
    if |assignments| > 0 {
      var r := Assign(n, assignments[0]);
      if r.Success? {
        AssignAllKeepsValid(r.value, assignments[1..]);
      }
    }
  }

  /** A run of assignments succeeds exactly when every value in it is accepted. */
  lemma {:induction false} AssignAllSucceedsIffAccepted(n: Notification, assignments: seq<Assignment>)
    ensures AssignAll(n, assignments).Success? <==> forall i :: 0 <= i < |assignments| ==> Accepts(assignments[i])
    decreases |assignments|
  {
    if |assignments| > 0 {
      var r := Assign(n, assignments[0]);
      if r.Success? {
        AssignAllSucceedsIffAccepted(r.value, assignments[1..]);
        assert forall i :: 1 <= i < |assignments| ==> assignments[i] == assignments[1..][i - 1];
      }
    }
  }

  /**
   * The properties found in a stored JSON document, each `None` where PHP's
   * `isset` is false (the key is missing or holds null).
   */
  datatype JsonFields = JsonFields(
    id: Option<string>,
    text: Option<string>,
    priority: Option<int>,
    status: Option<string>,
    dateCreated: Option<int>,
    maxAge: Option<int>)

  /** A stored value: a JSON object, or anything `json_decode` does not turn into an array. */
  datatype StoredValue = JsonObject(fields: JsonFields) | NotAnObject

  /**
   * `toJSON()`: every property as a JSON object. Priority, status and `maxAge`
   * are never null, so they are always present; the nullable properties are
   * present exactly when set.
   */
  function ToJson(n: Notification): StoredValue {
    JsonObject(JsonFields(n.id, n.text, Some(n.priority), Some(n.status), n.dateCreated, Some(n.maxAge)))
  }
}
