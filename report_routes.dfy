/**
 * The report routes (backend/routes/reportRoutes.js): `/generated` saves a new
 * `Report` for the session user; `/:userId` lists one user's reports, newest
 * first.
 */
module ReportRoutes {
  import opened Wrappers
  import opened Js
  import opened UserModel
  import opened ReportModel
  import opened Store

  const ReportSavedText: string := "Report added successfully"

  // ---------------------------------------------------------------------------
  // The list query: `Report.find({ userId }).sort({ createdAt: -1 })`

  /** The reports of one owner, in collection order. */
  function OwnedBy(reports: seq<Report>, uid: UserId): (r: seq<Report>)
    ensures forall x | x in r :: x in reports && x.userId == uid
    ensures |r| <= |reports|
  {
    if reports == [] then []
    else
      var rest := OwnedBy(reports[1..], uid);
      assert reports == [reports[0]] + reports[1..];
      if reports[0].userId == uid then [reports[0]] + rest else rest
  }

  /** The filter keeps every report of that owner as often as it is stored, and nothing else. */
  lemma {:induction false} OwnedByCount(reports: seq<Report>, uid: UserId)
    ensures forall x :: multiset(OwnedBy(reports, uid))[x] == if x.userId == uid then multiset(reports)[x] else 0
  {
    if reports != [] {
      OwnedByCount(reports[1..], uid);
      assert reports == [reports[0]] + reports[1..];
      assert multiset(reports) == multiset{reports[0]} + multiset(reports[1..]);
    }
  }

  /** Newest first: no report is followed by a later one. */
  ghost predicate SortedDesc(s: seq<Report>) {
    forall i, j | 0 <= i < j < |s| :: s[i].createdAt >= s[j].createdAt
  }

  /** Puts `x` in front of the first report older than it. */
  function Insert(x: Report, s: seq<Report>): (r: seq<Report>)
    requires SortedDesc(s)
    ensures SortedDesc(r)
    ensures multiset(r) == multiset(s) + multiset{x}
    ensures |r| == |s| + 1 && (r[0] == x || (s != [] && r[0] == s[0]))
  {
    if s == [] || x.createdAt >= s[0].createdAt then
      [x] + s
    else
      var rest := Insert(x, s[1..]);
      assert s == [s[0]] + s[1..];
      HeadBeforeInsertion(x, s, rest);
      [s[0]] + rest
  }

  /** The head of `s`, newer than `x`, can lead the tail with `x` inserted. */
  lemma HeadBeforeInsertion(x: Report, s: seq<Report>, rest: seq<Report>)
    requires SortedDesc(s) && s != [] && x.createdAt < s[0].createdAt
    requires SortedDesc(rest) && multiset(rest) == multiset(s[1..]) + multiset{x}
    ensures SortedDesc([s[0]] + rest)
  {
    forall j | 0 <= j < |rest|
      ensures rest[j].createdAt <= s[0].createdAt
    {
      assert rest[j] in multiset(rest);
      if rest[j] != x {
        assert rest[j] in multiset(s[1..]);
        var i :| 0 <= i < |s[1..]| && s[1..][i] == rest[j];
        assert s[i + 1] == rest[j];
      }
    }
    var r := [s[0]] + rest;
    forall i, j | 0 <= i < j < |r|
      ensures r[i].createdAt >= r[j].createdAt
    {
      assert r[j] == rest[j - 1];
      if i > 0 {
        assert r[i] == rest[i - 1];
      }
    }
  }

  /** The descending sort by `createdAt`. */
  function NewestFirst(s: seq<Report>): (r: seq<Report>)
    ensures SortedDesc(r)
    ensures multiset(r) == multiset(s)
  {
    if s == [] then []
    else
      assert s == [s[0]] + s[1..];
      Insert(s[0], NewestFirst(s[1..]))
  }

  /** What the list endpoint sends for an existing user. */
  function ReportsOf(reports: seq<Report>, uid: UserId): seq<Report> {
    NewestFirst(OwnedBy(reports, uid))
  }

  /** The listed reports are exactly that user's, each as often as it is stored, newest first. */
  lemma ReportsOfSpec(reports: seq<Report>, uid: UserId)
    ensures SortedDesc(ReportsOf(reports, uid))
    ensures forall x :: multiset(ReportsOf(reports, uid))[x] == if x.userId == uid then multiset(reports)[x] else 0
    ensures forall x :: x in ReportsOf(reports, uid) <==> x in reports && x.userId == uid
  {
    var r := ReportsOf(reports, uid);
    OwnedByCount(reports, uid);
    forall x
      ensures x in r <==> x in reports && x.userId == uid
    {
      assert x in r <==> multiset(r)[x] > 0;
      assert x in reports <==> multiset(reports)[x] > 0;
    }
  }

  /** A report strictly newer than every other one of the list comes first. */
  lemma NewestIsFirst(s: seq<Report>, x: Report)
    requires x in s
    requires forall y | y in s && y != x :: y.createdAt < x.createdAt
    ensures NewestFirst(s)[0] == x
  {
    var r := NewestFirst(s);
    assert x in multiset(r);
    assert r[0] in multiset(s);
  }

  /** Filtering distributes over an append. */
  lemma {:induction false} OwnedByAppend(s: seq<Report>, x: Report, uid: UserId)
    ensures OwnedBy(s + [x], uid) == OwnedBy(s, uid) + (if x.userId == uid then [x] else [])
    decreases |s|
  {
    if s == [] {
      assert s + [x] == [x];
      assert OwnedBy([x], uid) == (if x.userId == uid then [x] else []) + OwnedBy([], uid);
    } else {
      var t := s + [x];
      assert t[0] == s[0] && t[1..] == s[1..] + [x];
      OwnedByAppend(s[1..], x, uid);
      var head := if s[0].userId == uid then [s[0]] else [];
      assert OwnedBy(t, uid) == head + OwnedBy(t[1..], uid);
      assert OwnedBy(s, uid) == head + OwnedBy(s[1..], uid);
    }
  }

  // ---------------------------------------------------------------------------
  // Specifications

  /**
   * POST /generated: 401 without a session, 404 for a vanished user, else one
   * report appended whose owner is the session user and whose metrics are the
   * body's. The body's `aiAnalysis` is never read: a new report carries none.
   */
  ghost function CreateResult(st: State, session: Session, body: ReportBody, now: Time): (r: Result)
    ensures r.session == session && r.state.users == st.users
    ensures session.None? ==> r.res == Response(401, Fail(ErrorKey, NotLoggedIn))
    ensures session.Some? && session.value !in st.users ==> r.res == Response(404, Fail(ErrorKey, UserNotFound))
    ensures r.res.status == 200 <==> session.Some? && session.value in st.users
    ensures r.res.status != 200 ==> r.state == st
    ensures r.res.status == 200 ==>
      && r.res.body.ReportSaved? && r.res.body.text == ReportSavedText
      && r.state.reports == st.reports + [r.res.body.report]
      && r.res.body.report.userId == session.value
      && r.res.body.report.metrics == body.metrics
      && r.res.body.report.aiAnalysis == None
      && r.res.body.report.createdAt == now == r.res.body.report.updatedAt
  {
    if session.None? then
      Result(st, session, Response(401, Fail(ErrorKey, NotLoggedIn)))
    else if session.value !in st.users then
      Result(st, session, Response(404, Fail(ErrorKey, UserNotFound)))
    else
      var report := Report(session.value, body.metrics, None, now, now);
      Result(st.(reports := st.reports + [report]), session, Response(200, ReportSaved(ReportSavedText, report)))
  }

  /** GET /:userId: needs no session; 404 for an unknown id, else that user's reports newest first. */
  function ListResult(st: State, uid: UserId): (r: Response)
    ensures uid !in st.users ==> r == Response(404, Fail(ErrorKey, UserNotFound))
    ensures uid in st.users ==> r == Response(200, ReportsBody(ReportsOf(st.reports, uid)))
  {
    if uid !in st.users then Response(404, Fail(ErrorKey, UserNotFound))
    else Response(200, ReportsBody(ReportsOf(st.reports, uid)))
  }

  /** Two submissions that differ only in `aiAnalysis` have the same outcome. */
  lemma AiAnalysisIgnored(st: State, session: Session, metrics: Metrics, a1: JsValue, a2: JsValue, now: Time)
    ensures CreateResult(st, session, ReportBody(metrics, a1), now) == CreateResult(st, session, ReportBody(metrics, a2), now)
  {
  }

  /** With a clock that moves forward, a report just created heads its owner's list. */
  lemma CreateThenList(st: State, uid: UserId, body: ReportBody, now: Time)
    requires uid in st.users
    requires forall x | x in st.reports :: x.createdAt < now
    ensures var c := CreateResult(st, Some(uid), body, now);
      var l := ListResult(c.state, uid);
      && l.status == 200 && |l.body.reports| == |OwnedBy(st.reports, uid)| + 1
      && l.body.reports[0] == c.res.body.report
  {
    var c := CreateResult(st, Some(uid), body, now);
    var report := c.res.body.report;
    var before := OwnedBy(st.reports, uid);
    OwnedByAppend(st.reports, report, uid);
    var owned := before + [report];
    forall y | y in owned && y != report
      ensures y.createdAt < report.createdAt
    {
      assert y in multiset(before);
    }
    NewestIsFirst(owned, report);
    assert |NewestFirst(owned)| == |multiset(owned)|;
  }

  // ---------------------------------------------------------------------------
  // Handlers

  method PostGenerated(db: Database, session: Session, body: ReportBody, now: Time) returns (res: Response)
    requires db.Valid()
    modifies db
    ensures db.Valid()
    ensures Result(db.Snapshot(), session, res) == CreateResult(old(db.Snapshot()), session, body, now)
  {
    if session.None? {
      return Response(401, Fail(ErrorKey, NotLoggedIn));
    }
    var userId := session.value;
    if userId !in db.users {
      return Response(404, Fail(ErrorKey, UserNotFound));
    }
    var newReport := Report(userId, body.metrics, None, now, now);
    db.reports := db.reports + [newReport];
    res := Response(200, ReportSaved(ReportSavedText, newReport));
  }

  method GetReports(db: Database, uid: UserId) returns (res: Response)
    ensures res == ListResult(db.Snapshot(), uid)
  {
    if uid !in db.users {
      return Response(404, Fail(ErrorKey, UserNotFound));
    }
    var reports := ReportsOf(db.reports, uid);
    res := Response(200, ReportsBody(reports));
  }
}
