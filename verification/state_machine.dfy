/**
 * `StateMachine` (core/state_machine.py): the user workflow states, the
 * table of allowed transitions, and `StateManager`, which keeps each user's
 * state in a cache in front of the users table and caches per-user session
 * data. The users table is the map `stored` from user id to the state
 * column; the caches never expire in this model.
 */
module StateMachine {
  import opened Common

  datatype UserState =
    | Idle | Registering
    | WaitingForPhoto | AnalyzingPhoto | WaitingConfirmation | WaitingCorrection
    | ConfiguringWorkout | LoggingWorkout
    | CreatingContract | DoingCheckin
    | ViewingLesson | ExportingData

  /** `StateTransition.TRANSITIONS[from]`, in the table's order. */
  function Targets(from: UserState): seq<UserState>
  {
    match from
    case Idle => [Registering, WaitingForPhoto, AnalyzingPhoto, WaitingConfirmation, ConfiguringWorkout,
                  CreatingContract, DoingCheckin, ViewingLesson, ExportingData]
    case Registering => [Idle]
    case WaitingForPhoto => [AnalyzingPhoto, Idle]
    case AnalyzingPhoto => [WaitingConfirmation, Idle]
    case WaitingConfirmation => [Idle, WaitingCorrection]
    case WaitingCorrection => [WaitingConfirmation, Idle]
    case ConfiguringWorkout => [Idle]
    case LoggingWorkout => [Idle]
    case CreatingContract => [Idle]
    case DoingCheckin => [Idle]
    case ViewingLesson => [Idle]
    case ExportingData => [Idle]
  }

  /** `StateTransition.is_valid`: the target is listed for the source state. */
  predicate IsValid(from: UserState, to: UserState)
  {
    to in Targets(from)
  }

  /**
   * The table read as rules: from IDLE every state except IDLE,
   * WAITING_CORRECTION and LOGGING_WORKOUT; from any other state back to
   * IDLE; and the four steps of the photo flow.
   */
  lemma TransitionRules(from: UserState, to: UserState)
    ensures IsValid(from, to) <==>
      || (from == Idle && to != Idle && to != WaitingCorrection && to != LoggingWorkout)
      || (from != Idle && to == Idle)
      || (from, to) in {(WaitingForPhoto, AnalyzingPhoto), (AnalyzingPhoto, WaitingConfirmation),
                        (WaitingConfirmation, WaitingCorrection), (WaitingCorrection, WaitingConfirmation)}
  {
    match from
    case Idle =>
      assert to == Idle || to == WaitingCorrection || to == LoggingWorkout || to in Targets(Idle) by {
        match to
        case Registering => assert Targets(Idle)[0] == to;
        case WaitingForPhoto => assert Targets(Idle)[1] == to;
        case AnalyzingPhoto => assert Targets(Idle)[2] == to;
        case WaitingConfirmation => assert Targets(Idle)[3] == to;
        case ConfiguringWorkout => assert Targets(Idle)[4] == to;
        case CreatingContract => assert Targets(Idle)[5] == to;
        case DoingCheckin => assert Targets(Idle)[6] == to;
        case ViewingLesson => assert Targets(Idle)[7] == to;
        case ExportingData => assert Targets(Idle)[8] == to;
        case _ =>
      }
    case _ =>
  }

  /**
   * Every state but IDLE can go back to IDLE, no state lists itself, and
   * LOGGING_WORKOUT is no state's target.
   */
  lemma TableShape()
    ensures forall s :: s != Idle ==> IsValid(s, Idle)
    ensures forall s :: !IsValid(s, s)
    ensures forall s :: !IsValid(s, LoggingWorkout)
  {
    forall s
      ensures (s != Idle ==> IsValid(s, Idle)) && !IsValid(s, s) && !IsValid(s, LoggingWorkout)
    {
      TransitionRules(s, Idle);
      TransitionRules(s, s);
      TransitionRules(s, LoggingWorkout);
    }
  }

  /** Each consecutive pair of `path` is an allowed transition. */
  predicate ValidPath(path: seq<UserState>)
  {
    forall i :: 0 < i < |path| ==> IsValid(path[i - 1], path[i])
  }

  /** A run of validated transitions that does not start in LOGGING_WORKOUT never reaches it. */
  lemma LoggingWorkoutUnreachable(path: seq<UserState>)
    requires ValidPath(path) && |path| > 0 && path[0] != LoggingWorkout
    ensures LoggingWorkout !in path
  {
    TableShape();
    forall i | 0 <= i < |path|
      ensures path[i] != LoggingWorkout
    {
      if i > 0 {
        assert IsValid(path[i - 1], path[i]);
      }
    }
  }

  /** The transitions the test suite pins down. */
  lemma PinnedTransitions()
    ensures IsValid(Idle, AnalyzingPhoto)
    ensures IsValid(AnalyzingPhoto, WaitingConfirmation)
    ensures IsValid(WaitingConfirmation, WaitingCorrection)
    ensures IsValid(WaitingCorrection, Idle)
    ensures !IsValid(AnalyzingPhoto, Registering)
    ensures !IsValid(WaitingConfirmation, AnalyzingPhoto)
  {
    assert Targets(Idle)[2] == AnalyzingPhoto;
  }

  /** The per-user session dictionary: the keys the bot stores in it. */
  datatype SessionData = SessionData(sessionId: Option<string>, photoFileId: Option<string>,
                                     createdAt: Option<string>, correctionsCount: Option<int>)

  /** The empty dictionary, the only one that is falsy. */
  const EmptyData := SessionData(None, None, None, None)

  class StateManager {
    /** `state_cache`. */
    var stateCache: map<int, UserState>
    /** `session_cache`. */
    var sessionCache: map<int, SessionData>
    /** The `current_state` column of the users table, for the users that exist. */
    var stored: map<int, UserState>

    constructor (users: map<int, UserState>)
      ensures stateCache == map[] && sessionCache == map[] && stored == users
    {
      stateCache := map[];
      sessionCache := map[];
      stored := users;
    }

    /** The state `get_state` reports: the cached one, else the stored one, else IDLE. */
    function StateOf(user: int): UserState
      reads this
    {
      if user in stateCache then stateCache[user]
      else if user in stored then stored[user]
      else Idle
    }

    /** The cache after `get_state`: a stored state it had to read is now cached. */
    function CacheAfterLookup(user: int): map<int, UserState>
      reads this
    {
      if user in stateCache || user !in stored then stateCache else stateCache[user := stored[user]]
    }

    /** `get_state`: the same answer for every user before and after, only the cache may grow. */
    method GetState(user: int) returns (state: UserState)
      modifies this
      ensures state == old(StateOf(user))
      ensures stateCache == old(CacheAfterLookup(user))
      ensures stored == old(stored) && sessionCache == old(sessionCache)
      ensures forall u :: StateOf(u) == old(StateOf(u))
    {
      if user in stateCache {
        return stateCache[user];
      }
      if user in stored {
        state := stored[user];
        stateCache := stateCache[user := state];
        return state;
      }
      return Idle;
    }

    /**
     * `set_state`: refused, with the state left as it was, when validation is
     * on and the transition is not in the table; otherwise the new state is
     * cached and written to the user's row, if there is one.
     */
    method SetState(user: int, newState: UserState, validate: bool) returns (ok: bool)
      modifies this
      ensures ok == (!validate || IsValid(old(StateOf(user)), newState))
      ensures stateCache == if ok then old(stateCache)[user := newState] else old(CacheAfterLookup(user))
      ensures stored == if ok && user in old(stored) then old(stored)[user := newState] else old(stored)
      ensures sessionCache == old(sessionCache)
      ensures StateOf(user) == if ok then newState else old(StateOf(user))
      ensures forall u :: u != user ==> StateOf(u) == old(StateOf(u))
    {
      var current := GetState(user);
      if validate && !IsValid(current, newState) {
        return false;
      }
      stateCache := stateCache[user := newState];
      assert stateCache == old(stateCache)[user := newState];
      if user in stored {
        stored := stored[user := newState];
      }
      return true;
    }

    /** `reset_state`: IDLE, whatever the state was. */
    method ResetState(user: int)
      modifies this
      ensures StateOf(user) == Idle
      ensures stored == if user in old(stored) then old(stored)[user := Idle] else old(stored)
      ensures sessionCache == old(sessionCache)
      ensures forall u :: u != user ==> StateOf(u) == old(StateOf(u))
    {
      var _ := SetState(user, Idle, false);
    }

    /** `is_in_state`. */
    method IsInState(user: int, states: seq<UserState>) returns (b: bool)
      modifies this
      ensures b <==> old(StateOf(user)) in states
      ensures stateCache == old(CacheAfterLookup(user))
      ensures stored == old(stored) && sessionCache == old(sessionCache)
    {
      var current := GetState(user);
      b := current in states;
    }

    /** `require_state`: the same answer as `is_in_state`, with a log line when it fails. */
    method RequireState(user: int, states: seq<UserState>) returns (b: bool)
      modifies this
      ensures b <==> old(StateOf(user)) in states
      ensures stateCache == old(CacheAfterLookup(user))
      ensures stored == old(stored) && sessionCache == old(sessionCache)
    {
      b := IsInState(user, states);
      if !b {
        var _ := GetState(user);
      }
    }

    /** `get_session_data`. */
    function GetSessionData(user: int): (r: Option<SessionData>)
      reads this
      ensures r.Some? <==> user in sessionCache
    {
      if user in sessionCache then Some(sessionCache[user]) else None
    }

    /** `set_session_data`: the next read for this user returns `data`; no other entry changes. */
    method SetSessionData(user: int, data: SessionData)
      modifies this
      ensures sessionCache == old(sessionCache)[user := data]
      ensures stateCache == old(stateCache) && stored == old(stored)
      ensures GetSessionData(user) == Some(data)
      ensures forall u :: u != user ==> GetSessionData(u) == old(GetSessionData(u))
    {
      sessionCache := sessionCache[user := data];
    }

    /** `clear_session_data`: the next read for this user returns None; an absent entry is left alone. */
    method ClearSessionData(user: int)
      modifies this
      ensures sessionCache == old(sessionCache) - {user}
      ensures stateCache == old(stateCache) && stored == old(stored)
      ensures GetSessionData(user) == None
      ensures user !in old(sessionCache) ==> sessionCache == old(sessionCache)
      ensures forall u :: u != user ==> GetSessionData(u) == old(GetSessionData(u))
    {
      if user in sessionCache {
        sessionCache := sessionCache - {user};
      }
    }
  }
}
