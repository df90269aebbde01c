/**
 * The application store (frontend/src/store/useStore.js): one object whose
 * fields each action replaces. Reading and writing the stored role in
 * `localStorage` is outside the model: the stored value is a constructor
 * input and `SetUserRole` does not persist it. `Date.now()` is the input `now`.
 */
module Store {
  import opened Common

  /** `privacyBudget`. */
  datatype Budget = Budget(spent: real, total: real)

  /** An entry of `queryHistory`. */
  datatype QueryRecord = QueryRecord(title: string, epsilon: real)

  /** A notification: the caller's fields plus the id the store stamps on it. */
  datatype Notification = Notification(kind: string, message: string, id: int)

  /** The role read at start-up: the stored role when it is a non-empty string, else "admin". */
  function InitialRole(stored: Option<string>): (role: string)
    ensures role != ""
    ensures stored.Some? && stored.value != "" ==> role == stored.value
    ensures stored.None? || stored.value == "" ==> role == "admin"
  {
    if stored.Some? && stored.value != "" then stored.value else "admin"
  }

  /** `notifications.filter(n => n.id !== id)`. */
  function WithoutId(ns: seq<Notification>, id: int): (r: seq<Notification>)
    ensures forall n :: n in r <==> n in ns && n.id != id
    ensures |r| <= |ns|
  {
    Filter(ns, (n: Notification) => n.id != id)
  }

  /** Removing by id keeps the other notifications in their order, piece by piece. */
  lemma WithoutIdOfConcat(a: seq<Notification>, b: seq<Notification>, id: int)
    ensures WithoutId(a + b, id) == WithoutId(a, id) + WithoutId(b, id)
  {
    FilterConcat(a, b, (n: Notification) => n.id != id);
  }

  /** A list with no notification of that id is left unchanged. */
  lemma WithoutAbsentId(ns: seq<Notification>, id: int)
    requires forall i :: 0 <= i < |ns| ==> ns[i].id != id
    ensures WithoutId(ns, id) == ns
  {
    FilterAll(ns, (n: Notification) => n.id != id);
  }

  /**
   * Two notifications stamped in the same millisecond share an id: removing
   * one of them removes both.
   */
  lemma SameMillisecondNotifications(ns: seq<Notification>, a: Notification, b: Notification)
    requires a.id == b.id
    ensures WithoutId(ns + [a, b], a.id) == WithoutId(ns, a.id)
  {
    WithoutIdOfConcat(ns, [a, b], a.id);
    assert [a, b] == [a] + [b];
    WithoutIdOfConcat([a], [b], a.id);
    FilterSingleton(a, (n: Notification) => n.id != a.id);
    FilterSingleton(b, (n: Notification) => n.id != a.id);
  }

  /** The store. */
  class AppStore {
    var userRole: string
    var privacyBudget: Budget
    var queryHistory: seq<QueryRecord>
    var currentResult: Option<QueryRecord>
    var notifications: seq<Notification>

    /** `create(...)`: the stored role, 1.2 of 3.0 spent, nothing else. */
    constructor (storedRole: Option<string>)
      ensures userRole == InitialRole(storedRole)
      ensures privacyBudget == Budget(1.2, 3.0)
      ensures queryHistory == [] && currentResult == None && notifications == []
    {
      userRole := InitialRole(storedRole);
      privacyBudget := Budget(1.2, 3.0);
      queryHistory, currentResult, notifications := [], None, [];
    }

    /** `setUserRole`. */
    method SetUserRole(role: string)
      modifies this
      ensures userRole == role
      ensures privacyBudget == old(privacyBudget) && queryHistory == old(queryHistory)
      ensures currentResult == old(currentResult) && notifications == old(notifications)
    {
      userRole := role;
    }

    /** `updateBudget(spent)`: no check that spending grows or stays within the total. */
    method UpdateBudget(spent: real)
      modifies this
      ensures privacyBudget == Budget(spent, old(privacyBudget.total))
      ensures userRole == old(userRole) && queryHistory == old(queryHistory)
      ensures currentResult == old(currentResult) && notifications == old(notifications)
    {
      privacyBudget := privacyBudget.(spent := spent);
    }

    /** `addQuery`: append. */
    method AddQuery(q: QueryRecord)
      modifies this
      ensures queryHistory == old(queryHistory) + [q]
      ensures userRole == old(userRole) && privacyBudget == old(privacyBudget)
      ensures currentResult == old(currentResult) && notifications == old(notifications)
    {
      queryHistory := queryHistory + [q];
    }

    /** `clearQueryHistory`. */
    method ClearQueryHistory()
      modifies this
      ensures queryHistory == []
      ensures userRole == old(userRole) && privacyBudget == old(privacyBudget)
      ensures currentResult == old(currentResult) && notifications == old(notifications)
    {
      queryHistory := [];
    }

    /** `setCurrentResult`. */
    method SetCurrentResult(r: Option<QueryRecord>)
      modifies this
      ensures currentResult == r
      ensures userRole == old(userRole) && privacyBudget == old(privacyBudget)
      ensures queryHistory == old(queryHistory) && notifications == old(notifications)
    {
      currentResult := r;
    }

    /** `addNotification`: append the caller's fields stamped with the clock's value as id. */
    method AddNotification(kind: string, message: string, now: int)
      modifies this
      ensures notifications == old(notifications) + [Notification(kind, message, now)]
      ensures userRole == old(userRole) && privacyBudget == old(privacyBudget)
      ensures queryHistory == old(queryHistory) && currentResult == old(currentResult)
    {
      notifications := notifications + [Notification(kind, message, now)];
    }

    /** `removeNotification(id)`: drop every notification with that id. */
    method RemoveNotification(id: int)
      modifies this
      ensures notifications == WithoutId(old(notifications), id)
      ensures userRole == old(userRole) && privacyBudget == old(privacyBudget)
      ensures queryHistory == old(queryHistory) && currentResult == old(currentResult)
    {
      notifications := WithoutId(notifications, id);
    }
  }
}
