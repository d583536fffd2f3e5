/**
 * `SessionManager` (core/session_manager.py): the life of a meal-analysis
 * session, from the photo to the confirmed analysis. The sessions table is
 * the map `sessions` from session id to row, with `order` the ids in the
 * order the rows were inserted (the table's `created_at` order); the
 * per-user cache is the `StateManager`'s session data. The clock arrives as
 * `now` (seconds, for expiry) and `stamp` (its ISO text), the random part
 * of a new id as `token`, and the JSON decoder of a stored corrections text
 * as `parse`.
 */
module SessionManager {
  import opened Common
  import opened Food
  import opened StateMachine

  /** One entry of the corrections list: `{text, timestamp}`. */
  datatype Correction = Correction(text: string, timestamp: string)

  /** The `corrections` column: a list written by this class, or text of unknown origin. */
  datatype StoredCorrections = Decoded(list: seq<Correction>) | Text(json: string)

  /** A row of the sessions table. */
  datatype Session = Session(
    sessionId: string, userId: int, photoFileId: string, status: string,
    initialAnalysis: Option<Analysis>, correctedAnalysis: Option<Analysis>, finalAnalysis: Option<Analysis>,
    corrections: Option<StoredCorrections>, correctionCount: int, confirmedAt: Option<string>, expiresAt: int)

  /** Seconds until a new session expires (`expires_in_minutes=30`). */
  const Lifetime := 30 * 60

  /** A non-empty dictionary: Python's truth value of a stored analysis. */
  predicate Truthy(a: Option<Analysis>)
  {
    a.Some? && a.value != NoKeys
  }

  /** What the sessions table's active-session query accepts. */
  predicate Active(s: Session, user: int, now: int)
  {
    s.userId == user && s.status != "completed" && s.expiresAt > now
  }

  /** The corrections list `save_correction` extends: None and unparsable text both start a new list. */
  function PriorCorrections(stored: Option<StoredCorrections>, parse: string -> Option<seq<Correction>>): (r: seq<Correction>)
    ensures stored.None? ==> r == []
    ensures stored.Some? && stored.value.Decoded? ==> r == stored.value.list
    ensures stored.Some? && stored.value.Text? && parse(stored.value.json).None? ==> r == []
  {
    match stored
    case None => []
    case Some(Decoded(list)) => list
    case Some(Text(json)) => GetOr(parse(json), [])
  }

  class SessionManager {
    var sessions: map<string, Session>
    var order: seq<string>
    const states: StateManager

    constructor (states: StateManager)
      ensures sessions == map[] && order == [] && this.states == states
    {
      sessions := map[];
      order := [];
      this.states := states;
    }

    /** `get_session`. */
    function GetSession(sessionId: string): (r: Option<Session>)
      reads this
      ensures r.Some? <==> sessionId in sessions
    {
      if sessionId in sessions then Some(sessions[sessionId]) else None
    }

    /**
     * The newest row among `ids` that the active-session query accepts: it
     * belongs to the user, is not completed and has not expired.
     */
    function LatestActiveIn(ids: seq<string>, user: int, now: int): (r: Option<Session>)
      reads this
      ensures r.Some? ==> Active(r.value, user, now)
      ensures r.Some? ==> exists i :: 0 <= i < |ids| && ids[i] in sessions && sessions[ids[i]] == r.value
      ensures r.None? ==> forall i :: 0 <= i < |ids| && ids[i] in sessions ==> !Active(sessions[ids[i]], user, now)
    {
      if |ids| == 0 then None
      else
        var id := ids[|ids| - 1];
        if id in sessions && Active(sessions[id], user, now) then Some(sessions[id])
        else
          var r := LatestActiveIn(ids[..|ids| - 1], user, now);
          assert forall i :: 0 <= i < |ids| - 1 ==> ids[..|ids| - 1][i] == ids[i];
          r
    }

    /**
     * `get_active_session`: the cached session when the cache names one
     * that exists and is not completed, else the table's newest active
     * session. A completed session is never the answer.
     */
    function GetActiveSession(user: int, now: int): (r: Option<Session>)
      reads this, states
      ensures r.Some? ==> r.value.status != "completed"
      ensures r.Some? ==> r.value in sessions.Values
      ensures r.None? ==> forall id :: id in order && id in sessions ==> !Active(sessions[id], user, now)
    {
      var cached := states.GetSessionData(user);
      if cached.Some? && cached.value.sessionId.Some? && cached.value.sessionId.value in sessions
         && sessions[cached.value.sessionId.value].status != "completed"
      then Some(sessions[cached.value.sessionId.value])
      else LatestActiveIn(order, user, now)
    }

    /** `get_current_analysis`: the corrected analysis when there is a non-empty one, else the initial one. */
    function GetCurrentAnalysis(sessionId: string): (r: Option<Analysis>)
      reads this
      ensures sessionId !in sessions ==> r.None?
      ensures sessionId in sessions && Truthy(sessions[sessionId].correctedAnalysis) ==>
                r == sessions[sessionId].correctedAnalysis
      ensures sessionId in sessions && !Truthy(sessions[sessionId].correctedAnalysis) ==>
                r == sessions[sessionId].initialAnalysis
    {
      match GetSession(sessionId)
      case None => None
      case Some(session) =>
        if Truthy(session.correctedAnalysis) then session.correctedAnalysis else session.initialAnalysis
    }

    /** `get_corrections_count`: the cached counter, 0 without a (non-empty) cache entry or counter. */
    function GetCorrectionsCount(user: int): (r: int)
      reads this, states
      ensures states.GetSessionData(user).None? ==> r == 0
      ensures states.GetSessionData(user).Some? && states.GetSessionData(user).value.correctionsCount.Some? ==>
                r == states.GetSessionData(user).value.correctionsCount.value
    {
      match states.GetSessionData(user)
      case None => 0
      case Some(cached) => if cached != EmptyData then GetOr(cached.correctionsCount, 0) else 0
    }

    /**
     * `create_session`: inserts a pending row that expires in 30 minutes and
     * caches the new id with a zero correction counter. The insert fails,
     * and nothing changes, when the id is already taken.
     */
    method CreateSession(user: int, photoFileId: string, token: string, now: int, stamp: string)
      returns (r: Option<string>)
      modifies this, states
      ensures r.Some? <==> "session_" + token !in old(sessions)
      ensures r.None? ==> sessions == old(sessions) && order == old(order)
                          && states.sessionCache == old(states.sessionCache)
      ensures r.Some? ==> r.value == "session_" + token
      ensures r.Some? ==> sessions == old(sessions)[r.value := Session(r.value, user, photoFileId, "pending", None, None,
                                                                         None, None, 0, None, now + Lifetime)]
      ensures r.Some? ==> order == old(order) + [r.value]
      ensures r.Some? ==> states.GetSessionData(user) == Some(SessionData(r, Some(photoFileId), Some(stamp), Some(0)))
      ensures r.Some? ==> GetCorrectionsCount(user) == 0
      ensures r.Some? ==> GetActiveSession(user, now) == Some(sessions[r.value])
      ensures states.stateCache == old(states.stateCache) && states.stored == old(states.stored)
    {
      var sessionId := "session_" + token;
      if sessionId in sessions {
        return None;
      }
      sessions := sessions[sessionId := Session(sessionId, user, photoFileId, "pending", None, None, None, None, 0,
                                                None, now + Lifetime)];
      order := order + [sessionId];
      states.SetSessionData(user, SessionData(Some(sessionId), Some(photoFileId), Some(stamp), Some(0)));
      r := Some(sessionId);
    }

    /** `save_initial_analysis`: the row gets the analysis and the status 'pending'; the update reports success even without a row. */
    method SaveInitialAnalysis(sessionId: string, analysis: Analysis) returns (ok: bool)
      modifies this
      ensures ok
      ensures sessions == if sessionId in old(sessions)
                          then old(sessions)[sessionId := old(sessions)[sessionId].(initialAnalysis := Some(analysis),
                                                                                     status := "pending")]
                          else old(sessions)
      ensures order == old(order)
    {
      if sessionId in sessions {
        sessions := sessions[sessionId := sessions[sessionId].(initialAnalysis := Some(analysis), status := "pending")];
      }
      return true;
    }

    /**
     * `save_correction`: False for an unknown session; otherwise one
     * `{text, timestamp}` entry is appended to the earlier list, the counter
     * becomes the new length, and the corrected analysis becomes current.
     */
    method SaveCorrection(sessionId: string, text: string, corrected: Analysis, stamp: string,
                          parse: string -> Option<seq<Correction>>) returns (ok: bool)
      modifies this
      ensures ok <==> sessionId in old(sessions)
      ensures !ok ==> sessions == old(sessions)
      ensures ok ==>
        var list := PriorCorrections(old(sessions)[sessionId].corrections, parse) + [Correction(text, stamp)];
        sessions == old(sessions)[sessionId := old(sessions)[sessionId].(correctedAnalysis := Some(corrected),
                                                                         corrections := Some(Decoded(list)),
                                                                         correctionCount := |list|)]
      ensures ok ==> sessions[sessionId].correctionCount == |PriorCorrections(old(sessions)[sessionId].corrections, parse)| + 1
      ensures ok && corrected != NoKeys ==> GetCurrentAnalysis(sessionId) == Some(corrected)
      ensures order == old(order)
    {
      if sessionId !in sessions {
        return false;
      }
      var corrections := PriorCorrections(sessions[sessionId].corrections, parse);
      corrections := corrections + [Correction(text, stamp)];
      sessions := sessions[sessionId := sessions[sessionId].(correctedAnalysis := Some(corrected),
                                                             corrections := Some(Decoded(corrections)),
                                                             correctionCount := |corrections|)];
      return true;
    }

    /**
     * `complete_session`: the row is marked completed with its final analysis,
     * so it is no longer anyone's active session; success is reported even
     * without a row.
     */
    method CompleteSession(sessionId: string, finalAnalysis: Analysis, stamp: string) returns (ok: bool)
      modifies this
      ensures ok
      ensures sessions == if sessionId in old(sessions)
                          then old(sessions)[sessionId := old(sessions)[sessionId].(finalAnalysis := Some(finalAnalysis),
                                                                                     status := "completed",
                                                                                     confirmedAt := Some(stamp))]
                          else old(sessions)
      ensures order == old(order)
      ensures sessionId in sessions ==> forall user, now :: GetActiveSession(user, now) != Some(sessions[sessionId])
    {
      if sessionId in sessions {
        sessions := sessions[sessionId := sessions[sessionId].(finalAnalysis := Some(finalAnalysis), status := "completed",
                                                               confirmedAt := Some(stamp))];
      }
      return true;
    }

    /**
     * `cancel_session`: False when the user has no active session; otherwise
     * that session is marked cancelled and the user's cache entry is cleared.
     */
    method CancelSession(user: int, now: int) returns (ok: bool)
      modifies this, states
      ensures ok <==> old(GetActiveSession(user, now)).Some?
      ensures !ok ==> sessions == old(sessions) && states.sessionCache == old(states.sessionCache)
      ensures ok ==>
        var id := old(GetActiveSession(user, now)).value.sessionId;
        sessions == if id in old(sessions) then old(sessions)[id := old(sessions)[id].(status := "cancelled")] else old(sessions)
      ensures ok ==> states.sessionCache == old(states.sessionCache) - {user}
      ensures order == old(order)
      ensures states.stateCache == old(states.stateCache) && states.stored == old(states.stored)
    {
      var session := GetActiveSession(user, now);
      if session.None? {
        return false;
      }
      var id := session.value.sessionId;
      if id in sessions {
        sessions := sessions[id := sessions[id].(status := "cancelled")];
      }
      states.ClearSessionData(user);
      return true;
    }

    /** `cleanup_expired`: deletes the rows whose expiry is before `now` and reports how many. */
    method CleanupExpired(now: int) returns (count: nat)
      modifies this
      ensures forall id :: id in sessions <==> id in old(sessions) && old(sessions)[id].expiresAt >= now
      ensures forall id :: id in sessions ==> sessions[id] == old(sessions)[id]
      ensures count == |set id | id in old(sessions) && old(sessions)[id].expiresAt < now|
      ensures order == old(order)
    {
      var expired := set id | id in sessions && sessions[id].expiresAt < now;
      sessions := sessions - expired;
      count := |expired|;
    }

    /** `increment_corrections`: adds 1 to the cached counter when the user has a cache entry, and nothing otherwise. */
    method IncrementCorrections(user: int)
      modifies states
      ensures old(states.GetSessionData(user)).Some? && old(states.GetSessionData(user)).value != EmptyData ==>
                GetCorrectionsCount(user) == old(GetCorrectionsCount(user)) + 1
      ensures old(states.GetSessionData(user)).None? || old(states.GetSessionData(user)).value == EmptyData ==>
                states.sessionCache == old(states.sessionCache)
      ensures forall u :: u != user ==> states.GetSessionData(u) == old(states.GetSessionData(u))
      ensures states.stateCache == old(states.stateCache) && states.stored == old(states.stored)
    {
      var cached := states.GetSessionData(user);
      if cached.Some? && cached.value != EmptyData {
        var updated := cached.value.(correctionsCount := Some(GetOr(cached.value.correctionsCount, 0) + 1));
        states.SetSessionData(user, updated);
      }
    }
  }
}
