/**
 * The client-side teams reducer: a pure transition over
 * `{ teams, isLoading, error }` for the three team actions, returning any
 * other action's state untouched.
 */
module TeamsReducer {
  import opened Wrappers

  /** The slice of client state the reducer owns; `error == None` is `null`. */
  datatype State<T> = State(teams: seq<T>, isLoading: bool, error: Option<string>)

  /** `FETCH_TEAMS`, `SET_TEAMS_ERROR`, `TOGGLE_TEAMS_LOADING`, or any other action type. */
  datatype Action<T> =
    | FetchTeams(fetched: seq<T>)
    | SetTeamsError(message: string)
    | ToggleTeamsLoading(on: bool)
    | Other(kind: string)

  /** The state before any action: no teams, not loading, no error. */
  function Initial<T>(): (s: State<T>)
    ensures s.teams == [] && !s.isLoading && s.error.None?
    ensures Consistent(s)
  {
    State([], false, None)
  }

  /** Loading and an error are never shown together. */
  predicate Consistent<T>(s: State<T>) {
    !(s.isLoading && s.error.Some?)
  }

  /** `reducer(state, action)`. */
  function Reduce<T>(s: State<T>, a: Action<T>): (r: State<T>)
    ensures a.Other? ==> r == s
    ensures !a.FetchTeams? ==> r.teams == s.teams
    ensures a.FetchTeams? ==> r.teams == a.fetched
    ensures a.FetchTeams? || a.SetTeamsError? ==> !r.isLoading
    ensures a.ToggleTeamsLoading? ==> r.isLoading == a.on
    ensures a.SetTeamsError? ==> r.error == Some(a.message)
    ensures a.FetchTeams? || a.ToggleTeamsLoading? ==> r.error.None?
    ensures Consistent(r) || a.Other?
  {
    match a
    case FetchTeams(fetched) => s.(teams := fetched, isLoading := false, error := None)
    case SetTeamsError(message) => s.(isLoading := false, error := Some(message))
    case ToggleTeamsLoading(on) => s.(error := None, isLoading := on)
    case Other(_) => s
  }

  /** `reducer(undefined, action)` starts from the initial state. */
  function ReduceFrom<T>(s: Option<State<T>>, a: Action<T>): (r: State<T>)
    ensures s.None? ==> r == Reduce(State([], false, None), a)
    ensures s.None? && a.Other? ==> r.teams == [] && !r.isLoading && r.error.None?
    ensures s.Some? ==> r == Reduce(s.value, a)
  {
    Reduce(s.GetOr(Initial()), a)
  }

  /** Applying the same action twice leaves the state as applying it once. */
  lemma ReduceIdempotent<T>(s: State<T>, a: Action<T>)
    ensures Reduce(Reduce(s, a), a) == Reduce(s, a)
  {
  }

  /** The store's state after the actions `acts`, dispatched in order from `s`. */
  function Run<T>(s: State<T>, acts: seq<Action<T>>): State<T>
    decreases |acts|
  {
    if acts == [] then s else Run(Reduce(s, acts[0]), acts[1..])
  }

  /** Dispatching one more action steps the state once more. */
  lemma {:induction false} RunSnoc<T>(s: State<T>, acts: seq<Action<T>>, a: Action<T>)
    ensures Run(s, acts + [a]) == Reduce(Run(s, acts), a)
    decreases |acts|
  {
    if acts == [] {
      assert acts + [a] == [a];
    } else {
      assert (acts + [a])[1..] == acts[1..] + [a];
      RunSnoc(Reduce(s, acts[0]), acts[1..], a);
    }
  }

  /** The team list most recently fetched among `acts`, or `fallback` if none was. */
  function LastFetched<T>(acts: seq<Action<T>>, fallback: seq<T>): seq<T>
  {
    if acts == [] then fallback
    else if acts[|acts| - 1].FetchTeams? then acts[|acts| - 1].fetched
    else LastFetched(acts[..|acts| - 1], fallback)
  }

  /** After any run the list shown is the one last fetched: nothing else writes `teams`. */
  lemma {:induction false} RunShowsLastFetched<T>(s: State<T>, acts: seq<Action<T>>)
    ensures Run(s, acts).teams == LastFetched(acts, s.teams)
    decreases |acts|
  {
    if acts != [] {
      var init, last := acts[..|acts| - 1], acts[|acts| - 1];
      assert acts == init + [last];
      RunSnoc(s, init, last);
      RunShowsLastFetched(s, init);
    }
  }

  /** From a consistent state, every run stays consistent; the initial state is one. */
  lemma {:induction false} RunKeepsConsistent<T>(s: State<T>, acts: seq<Action<T>>)
    requires Consistent(s)
    ensures Consistent(Run(s, acts))
    decreases |acts|
  {
    if acts != [] {
      RunKeepsConsistent(Reduce(s, acts[0]), acts[1..]);
    }
  }
}
