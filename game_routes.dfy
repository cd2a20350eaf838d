/**
 * The game routes (backend/routes/gameRoutes.js): `/score` appends one entry
 * to the session user's `gameScores`; `/scores/:userId` reads them back.
 */
module GameRoutes {
  import opened Wrappers
  import opened Js
  import opened UserModel
  import opened Store

  const ScoreSavedText: string := "Score added successfully"

  /** POST /score: 401 without a session, 404 for a vanished user, else one entry appended. */
  ghost function ScoreResult(st: State, session: Session, score: JsValue, now: Time): (r: Result)
    ensures r.session == session && r.state.reports == st.reports
    ensures session.None? ==> r.res == Response(401, Fail(ErrorKey, NotLoggedIn))
    ensures session.Some? && session.value !in st.users ==> r.res == Response(404, Fail(ErrorKey, UserNotFound))
    ensures r.res.status == 200 <==> session.Some? && session.value in st.users
    ensures r.res.status != 200 ==> r.state == st
    ensures r.res.status == 200 ==>
      var u := st.users[session.value];
      && r.state.users == st.users[session.value := u.(gameScores := u.gameScores + [NewGameScore(now, score)])]
      && r.res.body == Note(ScoreSavedText)
  {
    if session.None? then
      Result(st, session, Response(401, Fail(ErrorKey, NotLoggedIn)))
    else if session.value !in st.users then
      Result(st, session, Response(404, Fail(ErrorKey, UserNotFound)))
    else
      var u := st.users[session.value];
      Result(st.(users := st.users[session.value := u.(gameScores := u.gameScores + [NewGameScore(now, score)])]),
             session, Response(200, Note(ScoreSavedText)))
  }

  /** GET /scores/:userId: needs no session; 404 for an unknown id, else the stored sequence as is. */
  function ScoresResult(st: State, userId: UserId): (r: Response)
    ensures userId !in st.users ==> r == Response(404, Fail(ErrorKey, UserNotFound))
    ensures userId in st.users ==> r == Response(200, ScoresBody(st.users[userId].gameScores))
  {
    if userId !in st.users then Response(404, Fail(ErrorKey, UserNotFound))
    else Response(200, ScoresBody(st.users[userId].gameScores))
  }

  /** A posted score reads back at the end of the list, after every earlier entry unchanged. */
  lemma ScoreThenScores(st: State, uid: UserId, score: JsValue, now: Time)
    requires uid in st.users
    ensures var after := ScoreResult(st, Some(uid), score, now).state;
      var r := ScoresResult(after, uid);
      && r.status == 200
      && |r.body.gameScores| == |st.users[uid].gameScores| + 1
      && r.body.gameScores[..|st.users[uid].gameScores|] == st.users[uid].gameScores
      && r.body.gameScores[|st.users[uid].gameScores|] == NewGameScore(now, score)
  {
    var before := st.users[uid].gameScores;
    var after := ScoreResult(st, Some(uid), score, now).state;
    assert after.users[uid].gameScores == before + [NewGameScore(now, score)];
    assert (before + [NewGameScore(now, score)])[..|before|] == before;
  }

  method PostScore(db: Database, session: Session, score: JsValue, now: Time) returns (res: Response)
    requires db.Valid()
    modifies db
    ensures db.Valid()
    ensures Result(db.Snapshot(), session, res) == ScoreResult(old(db.Snapshot()), session, score, now)
  {
    if session.None? {
      return Response(401, Fail(ErrorKey, NotLoggedIn));
    }
    var userId := session.value;
    if userId !in db.users {
      return Response(404, Fail(ErrorKey, UserNotFound));
    }
    var user := db.users[userId];
    user := user.(gameScores := user.gameScores + [NewGameScore(now, score)]);
    db.users := db.users[userId := user];
    res := Response(200, Note(ScoreSavedText));
  }

  method GetScores(db: Database, userId: UserId) returns (res: Response)
    ensures res == ScoresResult(db.Snapshot(), userId)
  {
    if userId !in db.users {
      return Response(404, Fail(ErrorKey, UserNotFound));
    }
    res := Response(200, ScoresBody(db.users[userId].gameScores));
  }
}
