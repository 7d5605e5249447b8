/**
 * The state of the `BDRobotsApp` component (app/bd-robots-app/src/App.jsx)
 * and the handlers that change it. Each network request is replaced by its
 * outcome, given as a parameter. `fetchRobotEvents` is split at its `await`:
 * `BeginFetch` is the part that runs at once (also inside `handleLogin`,
 * which does not await the fetch), `CompleteFetch` the part that runs when
 * the response arrives.
 */
module Session {
  import opened Wrappers
  import opened Strings
  import opened ClientFilter
  import Mongo

  /**
   * The JSON body of a successful login response: `null` when no user has the
   * username, one user document (without `_id`), or the list of all users when
   * the username is empty.
   */
  datatype UserData = Null | User(user: Mongo.BDUser) | UserList(users: seq<Mongo.BDUser>)

  /**
   * What an awaited request produced: a response with `ok` and its parsed
   * body, a response without `ok` and its status, or a thrown error (network
   * failure, unparseable body) with its message.
   */
  datatype Outcome<T> = Ok(body: T) | HttpError(status: nat) | Thrown(message: string)

  const InvalidCredentials: string := "Invalid credentials"

  /** The message `fetchRobotEvents` throws for a response without `ok`. */
  function FetchErrorMessage(status: nat): string {
    "HTTP error! status: " + NatToString(status)
  }

  /** The fetch error message carries the response status, which can be read back from it. */
  lemma FetchErrorMessageStatus(status: nat)
    ensures var m := FetchErrorMessage(status);
            var p := |"HTTP error! status: "|;
            |m| > p && m[..p] == "HTTP error! status: " && ParseNat(m[p..]) == status
  {
    var m := FetchErrorMessage(status);
    assert m[|"HTTP error! status: "|..] == NatToString(status);
    ParseNatToString(status);
  }

  class BDRobotsApp {
    var user: UserData
    var authLoading: bool
    var authError: Option<string>
    var robotEvents: seq<RobotEvent>
    var loading: bool
    var error: Option<string>
    var filters: FilterSpec

    /** The filter object always has distinct keys with the five declared ones first. */
    ghost predicate Valid()
      reads this
    {
      WellFormed(filters)
    }

    /** The login screen shows while `user` is falsy; any object or array is truthy. */
    predicate LoggedIn()
      reads this
    {
      user != Null
    }

    /** The initial values of the `useState` hooks. */
    constructor ()
      ensures Valid()
      ensures user == Null && !authLoading && authError == None
      ensures robotEvents == [] && !loading && error == None
      ensures filters == EmptyFilters
    {
      user := Null;
      authLoading := false;
      authError := None;
      robotEvents := [];
      loading := false;
      error := None;
      filters := EmptyFilters;
      EmptyFiltersWellFormed();
    }

    /** `handleLogin`, given the outcome of the POST to the user endpoint. */
    method HandleLogin(response: Outcome<UserData>)
      requires Valid()
      modifies this
      ensures Valid()
      ensures !authLoading
      ensures robotEvents == old(robotEvents) && filters == old(filters)
      ensures response.Ok? ==>
                && user == response.body && authError == None
                && loading && error == None
      ensures response.HttpError? ==>
                && user == old(user) && authError == Some(InvalidCredentials)
                && loading == old(loading) && error == old(error)
      ensures response.Thrown? ==>
                && user == old(user) && authError == Some(response.message)
                && loading == old(loading) && error == old(error)
    {
      authLoading := true;
      authError := None;
      match response {
        case HttpError(_) =>
          authError := Some(InvalidCredentials);
        case Thrown(message) =>
          authError := Some(message);
        case Ok(userdata) =>
          user := userdata;
          BeginFetch();
      }
      authLoading := false;
    }

    /** `handleLogout`: forget the user and the fetched events; nothing else changes. */
    method HandleLogout()
      requires Valid()
      modifies this
      ensures Valid()
      ensures user == Null && robotEvents == []
      ensures authLoading == old(authLoading) && authError == old(authError)
      ensures loading == old(loading) && error == old(error) && filters == old(filters)
    {
      user := Null;
      robotEvents := [];
    }

    /** The part of `fetchRobotEvents` before its first `await`. */
    method BeginFetch()
      requires Valid()
      modifies this`loading, this`error
      ensures Valid()
      ensures loading && error == None
    {
      loading := true;
      error := None;
    }

    /** The part of `fetchRobotEvents` after the response (or the failure) arrives. */
    method CompleteFetch(response: Outcome<seq<RobotEvent>>)
      requires Valid()
      modifies this`robotEvents, this`error, this`loading
      ensures Valid()
      ensures !loading
      ensures response.Ok? ==> robotEvents == response.body && error == old(error)
      ensures response.HttpError? ==>
                robotEvents == old(robotEvents) && error == Some(FetchErrorMessage(response.status))
      ensures response.Thrown? ==>
                robotEvents == old(robotEvents) && error == Some(response.message)
    {
      match response {
        case Ok(data) =>
          robotEvents := data;
        case HttpError(status) =>
          error := Some(FetchErrorMessage(status));
        case Thrown(message) =>
          error := Some(message);
      }
      loading := false;
    }

    /**
     * `fetchRobotEvents` run to completion with no other fetch in between:
     * a success replaces the events verbatim and leaves no error; a failure
     * keeps the events held so far and records the error.
     */
    method FetchRobotEvents(response: Outcome<seq<RobotEvent>>)
      requires Valid()
      modifies this`robotEvents, this`error, this`loading
      ensures Valid()
      ensures !loading
      ensures response.Ok? ==> robotEvents == response.body && error == None
      ensures response.HttpError? ==>
                robotEvents == old(robotEvents) && error == Some(FetchErrorMessage(response.status))
      ensures response.Thrown? ==>
                robotEvents == old(robotEvents) && error == Some(response.message)
    {
      BeginFetch();
      CompleteFetch(response);
    }

    /** `handleFilterChange(key, value)`: only the property `key` changes. */
    method HandleFilterChange(key: string, value: string)
      requires Valid()
      modifies this`filters
      ensures Valid()
      ensures filters == SetFilter(old(filters), key, value)
      ensures Lookup(filters, key) == Some(value)
      ensures forall k :: k != key ==> Lookup(filters, k) == Lookup(old(filters), k)
    {
      SetFilterWellFormed(filters, key, value);
      filters := SetFilter(filters, key, value);
    }

    /** `handleClearFilters`: back to the initial object, every field empty. */
    method HandleClearFilters()
      requires Valid()
      modifies this`filters
      ensures Valid()
      ensures filters == EmptyFilters && IsCleared(filters)
    {
      EmptyFiltersWellFormed();
      EmptyFiltersCleared();
      filters := EmptyFilters;
    }

    /** `filteredRobotEvents` of the current state; `parseDate` stands for `new Date(...)`. */
    function FilteredView(parseDate: string -> Option<int>): (r: seq<RobotEvent>)
      reads this
      requires Valid()
      ensures forall e :: e in r <==> e in robotEvents && Matches(e, filters, parseDate)
    {
      assert Keys(filters)[0] == "robot";
      FilteredRobotEvents(robotEvents, filters, parseDate)
    }
  }
}
