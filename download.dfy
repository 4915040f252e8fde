/** The `download` command (knbackup/src/command/download.rs): log in, look up
    the children, and for each child walk the report pages by cursor,
    handing every non-empty page to the downloader. Server replies are
    scripted: `replies(k)` is the reply to the k-th page request of a child,
    `env(k)` the sends and I/O failures of the k-th image download. */
module DownloadCommand {
  import opened Wrappers
  import opened Ints
  import opened Fs
  import opened Records
  import opened Config
  import opened Options
  import opened Auth
  import opened Resource
  import opened ReportFiles
  import LoginCommand
  import ErrorTypes

  const DefaultConfigPath := "~/.knbackup/config.toml"
  const DefaultOutputDir := "./output"

  /** `DownloadArgs`. */
  class DownloadArgs {
    var clientId: Option<string>
    var userId: Option<string>
    var userPass: Option<string>
    var refreshToken: Option<string>
    var configPath: string
    var dateStart: Option<string>
    var dateEnd: Option<string>
    var outputDir: string
    var test: bool

    /** `DownloadArgs::new`: nothing given, the default config path and output directory. */
    constructor ()
      ensures clientId.None? && userId.None? && userPass.None? && refreshToken.None?
      ensures configPath == DefaultConfigPath && outputDir == DefaultOutputDir
      ensures dateStart.None? && dateEnd.None? && !test
    {
      clientId, userId, userPass, refreshToken := None, None, None, None;
      configPath := DefaultConfigPath;
      dateStart, dateEnd := None, None;
      outputDir := DefaultOutputDir;
      test := false;
    }

    /** `clone`. */
    constructor Copy(other: DownloadArgs)
      ensures clientId == other.clientId && userId == other.userId && userPass == other.userPass
      ensures refreshToken == other.refreshToken && configPath == other.configPath
      ensures dateStart == other.dateStart && dateEnd == other.dateEnd
      ensures outputDir == other.outputDir && test == other.test
    {
      clientId, userId, userPass, refreshToken := other.clientId, other.userId, other.userPass, other.refreshToken;
      configPath := other.configPath;
      dateStart, dateEnd := other.dateStart, other.dateEnd;
      outputDir := other.outputDir;
      test := other.test;
    }

    /** `update_profile`: the refresh token and the user id are taken from
        the profile only where the user gave none; nothing else changes. */
    method UpdateProfile(profile: Profile)
      modifies this
      ensures refreshToken == Fill(old(refreshToken), profile.refreshToken)
      ensures userId == Fill(old(userId), profile.userId)
      ensures clientId == old(clientId) && userPass == old(userPass) && configPath == old(configPath)
      ensures dateStart == old(dateStart) && dateEnd == old(dateEnd)
      ensures outputDir == old(outputDir) && test == old(test)
    {
      if refreshToken.None? && profile.refreshToken.Some? {
        refreshToken := profile.refreshToken;
      }
      if userId.None? && profile.userId.Some? {
        userId := profile.userId;
      }
    }
  }

  // ----- centers -----

  /** The center map after inserting the enrollments in order with
      `entry(..).or_insert(..)`. */
  function CenterMap(es: seq<Enrollment>): map<u64, string> {
    if es == [] then map[]
    else
      var m := CenterMap(es[..|es| - 1]);
      var e := es[|es| - 1];
      if e.centerId in m then m else m[e.centerId := e.centerName]
  }

  /** Every enrolled center is in the map, and nothing else is. */
  lemma {:induction false} CenterMapKeys(es: seq<Enrollment>)
    ensures CenterMap(es).Keys == set e | e in es :: e.centerId
  {
    if es != [] {
      var init := es[..|es| - 1];
      CenterMapKeys(init);
      assert es == init + [es[|es| - 1]];
    }
  }

  /** An enrollment whose center id no earlier enrollment has names the center. */
  lemma {:induction false} CenterMapFirstAt(es: seq<Enrollment>, k: nat)
    requires k < |es|
    requires forall j :: 0 <= j < k ==> es[j].centerId != es[k].centerId
    ensures es[k].centerId in CenterMap(es) && CenterMap(es)[es[k].centerId] == es[k].centerName
    decreases |es|
  {
    var init := es[..|es| - 1];
    if k < |es| - 1 {
      assert init[k] == es[k];
      assert forall j :: 0 <= j < k ==> init[j] == es[j];
      CenterMapFirstAt(init, k);
    } else {
      CenterMapKeys(init);
      assert es[k].centerId !in (set e | e in init :: e.centerId) by {
        forall e | e in init
          ensures e.centerId != es[k].centerId
        {
          var j :| 0 <= j < |init| && init[j] == e;
          assert es[j] == e;
        }
      }
    }
  }

  /** When several enrollments share a center id, the first one's name is kept. */
  lemma CenterMapFirstWins(es: seq<Enrollment>)
    ensures forall k :: 0 <= k < |es| && (forall j :: 0 <= j < k ==> es[j].centerId != es[k].centerId) ==>
              es[k].centerId in CenterMap(es) && CenterMap(es)[es[k].centerId] == es[k].centerName
  {
    forall k | 0 <= k < |es| && (forall j :: 0 <= j < k ==> es[j].centerId != es[k].centerId) {
      CenterMapFirstAt(es, k);
    }
  }

  /** The enrollment loop of `next`. */
  method BuildCenterMap(es: seq<Enrollment>) returns (m: map<u64, string>)
    ensures m == CenterMap(es)
  {
    m := map[];
    for i := 0 to |es|
      invariant m == CenterMap(es[..i])
    {
      assert es[..i + 1][..i] == es[..i];
      if es[i].centerId !in m {
        m := m[es[i].centerId := es[i].centerName];
      }
    }
    assert es[..|es|] == es;
  }

  /** A report's center name: the mapped name when its center is in the map,
      otherwise the empty name; never absent. */
  function CenterNameFor(center: Option<u64>, centers: map<u64, string>): (r: Option<string>)
    ensures r.Some?
    ensures center.Some? && center.value in centers ==> r.value == centers[center.value]
    ensures !(center.Some? && center.value in centers) ==> r.value == ""
  {
    var looked := if center.Some? && center.value in centers then Some(centers[center.value]) else None;
    if looked.Some? then looked else Some("")
  }

  // ----- the date filter -----

  const SeoulTz := "Asia/Seoul"

  /** The first query of a child: both dates as given; one date alone used as
      both start and end; no date, no filter. */
  function ReportQuery(dateStart: Option<string>, dateEnd: Option<string>): GetReportsParam {
    if dateStart.Some? && dateEnd.Some? then EmptyQuery.(dateStart := dateStart, dateEnd := dateEnd, tz := Some(SeoulTz))
    else if dateStart.Some? then EmptyQuery.(dateStart := dateStart, dateEnd := dateStart, tz := Some(SeoulTz))
    else if dateEnd.Some? then EmptyQuery.(dateStart := dateEnd, dateEnd := dateEnd, tz := Some(SeoulTz))
    else EmptyQuery
  }

  /** The query starts on the first page; it has both dates or neither; the
      time zone is "Asia/Seoul" exactly when some date was given; a given
      date is never dropped, and each query date is one of the given ones. */
  lemma DateFilterRules(dateStart: Option<string>, dateEnd: Option<string>)
    ensures var q := ReportQuery(dateStart, dateEnd);
            && q.page.None?
            && (q.dateStart.Some? <==> q.dateEnd.Some?)
            && (q.dateStart.Some? <==> dateStart.Some? || dateEnd.Some?)
            && (q.tz.Some? <==> dateStart.Some? || dateEnd.Some?)
            && (q.tz.Some? ==> q.tz.value == SeoulTz)
            && (dateStart.Some? ==> q.dateStart == dateStart)
            && (dateEnd.Some? ==> q.dateEnd == dateEnd)
            && (q.dateStart.Some? ==> q.dateStart == dateStart || q.dateStart == dateEnd)
            && (q.dateEnd.Some? ==> q.dateEnd == dateStart || q.dateEnd == dateEnd)
  {
  }

  // ----- reports to sources -----

  /** What the page loop knows about the child. */
  datatype ChildContext = ChildContext(childId: u64, childName: string, centers: map<u64, string>)

  function ToSource(ctx: ChildContext, report: ChildReport): DownloadSource {
    DownloadSource(ReportType, report.id, report.created, report.content, report.authorName,
                   CenterNameFor(report.center, ctx.centers), report.cls, report.className,
                   ctx.childId, ctx.childName, report.attachedImages)
  }

  /** One source per report, in page order. */
  function Sources(ctx: ChildContext, reports: seq<ChildReport>): (s: seq<DownloadSource>)
    ensures |s| == |reports|
    ensures forall k :: 0 <= k < |s| ==> s[k] == ToSource(ctx, reports[k])
  {
    if reports == [] then [] else Sources(ctx, reports[..|reports| - 1]) + [ToSource(ctx, reports[|reports| - 1])]
  }

  /** The loop over a page's reports. */
  method CollectSources(ctx: ChildContext, reports: seq<ChildReport>) returns (sources: seq<DownloadSource>)
    ensures sources == Sources(ctx, reports)
  {
    sources := [];
    for i := 0 to |reports|
      invariant sources == Sources(ctx, reports[..i])
    {
      assert reports[..i + 1][..i] == reports[..i];
      sources := sources + [ToSource(ctx, reports[i])];
    }
    assert reports[..|reports|] == reports;
  }

  // ----- the page walk -----

  type PageReply = Result<ChildReportResponse, ErrorTypes.AuthError>

  /** The loop stops once `loop_count` exceeds this. */
  const MaxLoops: nat := 10000

  /** The cursor after a successful page: the reply's `next`, but none after
      an empty page. */
  function NextCursor(page: ChildReportResponse): Option<string> {
    if page.results == [] then None else page.next
  }

  /** What a successful page hands to the downloader: its sources, unless it is empty. */
  function PageBatch(ctx: ChildContext, page: ChildReportResponse): seq<seq<DownloadSource>> {
    if page.results == [] then [] else [Sources(ctx, page.results)]
  }

  /** The queries sent, the batches handed to the downloader, and the result. */
  datatype Walk = Walk(queries: seq<GetReportsParam>, batches: seq<seq<DownloadSource>>,
                       result: Result<int, ErrorTypes.AuthError>)

  /** The page loop from the request with `loop_count == n` on, with query `q`. */
  function PageWalk(ctx: ChildContext, q: GetReportsParam, replies: nat -> PageReply, n: nat): Walk
    requires 1 <= n <= MaxLoops + 1
    decreases MaxLoops + 1 - n
  {
    match replies(n - 1)
    case Failure(e) => Walk([q], [], Failure(e))
    case Success(page) =>
      var batch := PageBatch(ctx, page);
      var cursor := NextCursor(page);
      if cursor.None? || n > MaxLoops then Walk([q], batch, Success(|page.results|))
      else
        var rest := PageWalk(ctx, q.(page := cursor), replies, n + 1);
        Walk([q] + rest.queries, batch + rest.batches,
             if rest.result.Success? then Success(|page.results| + rest.result.value) else rest.result)
  }

  /** The number of sources in a sequence of batches. */
  function TotalSize(batches: seq<seq<DownloadSource>>): nat {
    if batches == [] then 0 else TotalSize(batches[..|batches| - 1]) + |batches[|batches| - 1]|
  }

  lemma {:induction false} TotalSizeAppend(a: seq<seq<DownloadSource>>, b: seq<seq<DownloadSource>>)
    ensures TotalSize(a + b) == TotalSize(a) + TotalSize(b)
    decreases |b|
  {
    if b == [] {
      assert a + b == a;
    } else {
      assert (a + b)[..|a + b| - 1] == a + b[..|b| - 1];
      TotalSizeAppend(a, b[..|b| - 1]);
    }
  }

  /** Each query after the first carries the cursor of the reply to the
      query before it, and that reply was a success with a cursor; `first`
      numbers the request that sent `queries[0]`. */
  predicate CursorChain(queries: seq<GetReportsParam>, replies: nat -> PageReply, first: nat)
    decreases |queries|
  {
    |queries| <= 1
    || (&& replies(first).Success?
        && NextCursor(replies(first).value).Some?
        && queries[1].page == NextCursor(replies(first).value)
        && CursorChain(queries[1..], replies, first + 1))
  }

  /** The queries of the walk: it starts with `q`, each later query carries
      the cursor of the page before it, and with the fuse it sends at most
      10001 - (n - 1) requests. */
  lemma {:induction false} WalkQueries(ctx: ChildContext, q: GetReportsParam, replies: nat -> PageReply, n: nat)
    requires 1 <= n <= MaxLoops + 1
    ensures var w := PageWalk(ctx, q, replies, n);
            && 1 <= |w.queries| <= MaxLoops + 2 - n
            && w.queries[0] == q
            && CursorChain(w.queries, replies, n - 1)
    decreases MaxLoops + 1 - n
  {
    var w := PageWalk(ctx, q, replies, n);
    if replies(n - 1).Success? && !(NextCursor(replies(n - 1).value).None? || n > MaxLoops) {
      var q' := q.(page := NextCursor(replies(n - 1).value));
      WalkQueries(ctx, q', replies, n + 1);
      var rest := PageWalk(ctx, q', replies, n + 1);
      assert w.queries == [q] + rest.queries;
      assert w.queries[1..] == rest.queries;
    } else {
      assert w.queries == [q];
    }
  }

  /** Every query has the date filter of `q`. */
  predicate SameFilter(queries: seq<GetReportsParam>, q: GetReportsParam) {
    forall k :: 0 <= k < |queries| ==>
      queries[k].dateStart == q.dateStart && queries[k].dateEnd == q.dateEnd && queries[k].tz == q.tz
  }

  /** Only the page cursor changes from query to query: the date filter of
      `q` is kept throughout the walk. */
  lemma {:induction false} WalkKeepsFilter(ctx: ChildContext, q: GetReportsParam, replies: nat -> PageReply, n: nat)
    requires 1 <= n <= MaxLoops + 1
    ensures SameFilter(PageWalk(ctx, q, replies, n).queries, q)
    decreases MaxLoops + 1 - n
  {
    var w := PageWalk(ctx, q, replies, n);
    if replies(n - 1).Success? && !(NextCursor(replies(n - 1).value).None? || n > MaxLoops) {
      var q' := q.(page := NextCursor(replies(n - 1).value));
      WalkKeepsFilter(ctx, q', replies, n + 1);
      var rest := PageWalk(ctx, q', replies, n + 1);
      assert w.queries == [q] + rest.queries;
      assert forall k :: 1 <= k < |w.queries| ==> w.queries[k] == rest.queries[k - 1];
      assert SameFilter(rest.queries, q);
    } else {
      assert w.queries == [q];
    }
  }

  /** Where the walk stops: at the first reply that fails or has no cursor,
      or when the fuse blows; and it fails exactly when its last reply is an
      error, with that error. */
  lemma {:induction false} WalkStops(ctx: ChildContext, q: GetReportsParam, replies: nat -> PageReply, n: nat)
    requires 1 <= n <= MaxLoops + 1
    ensures var w := PageWalk(ctx, q, replies, n);
            var last := replies(n - 2 + |w.queries|);
            && |w.queries| >= 1
            && (last.Failure? || NextCursor(last.value).None? || n - 1 + |w.queries| == MaxLoops + 1)
            && (w.result.Failure? <==> last.Failure?)
            && (w.result.Failure? ==> w.result.error == last.error)
    decreases MaxLoops + 1 - n
  {
    if replies(n - 1).Success? {
      var cursor := NextCursor(replies(n - 1).value);
      if !(cursor.None? || n > MaxLoops) {
        var w := PageWalk(ctx, q, replies, n);
        var rest := PageWalk(ctx, q.(page := cursor), replies, n + 1);
        WalkStops(ctx, q.(page := cursor), replies, n + 1);
        assert w.queries == [q] + rest.queries;
        assert w.result.Failure? == rest.result.Failure?;
        assert w.result.Failure? ==> w.result.error == rest.result.error;
      }
    }
  }

  /** A successful walk counts exactly the sources it handed to the
      downloader, and it hands over no empty batch. */
  lemma {:induction false} WalkCount(ctx: ChildContext, q: GetReportsParam, replies: nat -> PageReply, n: nat)
    requires 1 <= n <= MaxLoops + 1
    ensures var w := PageWalk(ctx, q, replies, n);
            && (w.result.Success? ==> w.result.value == TotalSize(w.batches))
            && (forall k :: 0 <= k < |w.batches| ==> w.batches[k] != [])
    decreases MaxLoops + 1 - n
  {
    if replies(n - 1).Success? {
      var page := replies(n - 1).value;
      var batch := PageBatch(ctx, page);
      assert TotalSize(batch) == |page.results| by {
        if batch != [] { assert batch[..0] == []; }
      }
      var cursor := NextCursor(page);
      if !(cursor.None? || n > MaxLoops) {
        var q' := q.(page := cursor);
        WalkCount(ctx, q', replies, n + 1);
        var w := PageWalk(ctx, q, replies, n);
        var rest := PageWalk(ctx, q', replies, n + 1);
        assert w.batches == batch + rest.batches;
        TotalSizeAppend(batch, rest.batches);
        assert forall k :: |batch| <= k < |w.batches| ==> w.batches[k] == rest.batches[k - |batch|];
      }
    }
  }

  /** The batches of the `count` replies from `replies(first)` on, in order:
      each successful non-empty page gives one batch of its sources, an empty
      page or a failed reply gives none. */
  function Handed(ctx: ChildContext, replies: nat -> PageReply, first: nat, count: nat): seq<seq<DownloadSource>>
    decreases count
  {
    if count == 0 then []
    else
      (if replies(first).Success? then PageBatch(ctx, replies(first).value) else [])
      + Handed(ctx, replies, first + 1, count - 1)
  }

  /** Every non-empty page the walk fetched is handed to the downloader
      exactly once, as the sources of its reports, in page order, and
      nothing else is. */
  lemma {:induction false} WalkBatches(ctx: ChildContext, q: GetReportsParam, replies: nat -> PageReply, n: nat)
    requires 1 <= n <= MaxLoops + 1
    ensures var w := PageWalk(ctx, q, replies, n);
            w.batches == Handed(ctx, replies, n - 1, |w.queries|)
    decreases MaxLoops + 1 - n
  {
    var w := PageWalk(ctx, q, replies, n);
    if replies(n - 1).Success? {
      var page := replies(n - 1).value;
      var cursor := NextCursor(page);
      if cursor.None? || n > MaxLoops {
        assert |w.queries| == 1;
        assert PageBatch(ctx, page) + [] == PageBatch(ctx, page);
      } else {
        var rest := PageWalk(ctx, q.(page := cursor), replies, n + 1);
        WalkBatches(ctx, q.(page := cursor), replies, n + 1);
        assert |w.queries| == 1 + |rest.queries|;
      }
    } else {
      assert |w.queries| == 1;
    }
  }

  /** The walk so far (`queries`, `batches`, `count`) followed by the rest. */
  function Then(queries: seq<GetReportsParam>, batches: seq<seq<DownloadSource>>, count: int, rest: Walk): Walk {
    Walk(queries + rest.queries, batches + rest.batches,
         if rest.result.Success? then Success(count + rest.result.value) else rest.result)
  }

  /** One turn of the page loop after a successful reply: the walk so far
      grows by the query and the page's batch, and either ends there or goes
      on from the query carrying the page's cursor. */
  lemma ThenPage(ctx: ChildContext, replies: nat -> PageReply, n: nat, w0: Walk,
                 q0: GetReportsParam, queries0: seq<GetReportsParam>, batches0: seq<seq<DownloadSource>>, count0: int,
                 q: GetReportsParam, queries: seq<GetReportsParam>, batches: seq<seq<DownloadSource>>, count: int)
    requires 1 <= n <= MaxLoops + 1
    requires replies(n - 1).Success?
    requires w0 == Then(queries0, batches0, count0, PageWalk(ctx, q0, replies, n))
    requires queries == queries0 + [q0]
    requires batches == batches0 + PageBatch(ctx, replies(n - 1).value)
    requires count == count0 + |replies(n - 1).value.results|
    requires q == q0.(page := NextCursor(replies(n - 1).value))
    ensures q.page.None? || n > MaxLoops ==> w0 == Walk(queries, batches, Success(count))
    ensures !(q.page.None? || n > MaxLoops) ==> w0 == Then(queries, batches, count, PageWalk(ctx, q, replies, n + 1))
  {
    if !(q.page.None? || n > MaxLoops) {
      var rest := PageWalk(ctx, q, replies, n + 1);
      var batch := PageBatch(ctx, replies(n - 1).value);
      assert queries0 + ([q0] + rest.queries) == queries + rest.queries;
      assert batches0 + (batch + rest.batches) == batches + rest.batches;
    }
  }

  /** One turn of the page loop after an error reply: the walk ends with that error. */
  lemma ThenError(ctx: ChildContext, replies: nat -> PageReply, n: nat, w0: Walk,
                  q0: GetReportsParam, queries0: seq<GetReportsParam>, batches0: seq<seq<DownloadSource>>, count0: int,
                  queries: seq<GetReportsParam>)
    requires 1 <= n <= MaxLoops + 1
    requires replies(n - 1).Failure?
    requires w0 == Then(queries0, batches0, count0, PageWalk(ctx, q0, replies, n))
    requires queries == queries0 + [q0]
    ensures w0 == Walk(queries, batches0, Failure(replies(n - 1).error))
  {
    assert batches0 + [] == batches0;
  }

  // ----- carrying out the actions -----

  /** The scripted environment of one image download. */
  datatype FetchEnv = FetchEnv(sends: seq<SendOutcome>, faults: IoFaults)

  datatype Disk = Disk(dirs: set<Path>, files: map<Path, FileEntry>)

  /** The disk afterwards, the result of each image download, and the
      requests handed to the renderers, in order. */
  datatype Performed = Performed(disk: Disk, results: seq<Result<bool, ErrorTypes.AuthError>>, renders: seq<Action>)

  /** `download_image` for a download action, on a disk and in an environment. */
  function DownloadOn(d: Disk, a: Action, e: FetchEnv, now: FileTime): Download
    requires a.FetchImage?
  {
    DownloadSpec(d.dirs, d.files, a.fileSize, a.fileTime, a.path, e.sends, e.faults, now)
  }

  /** Carrying out one action: a download changes the disk as
      `download_image` does, with the environment `e`; a render is handed
      over and leaves the disk alone. */
  function Step(p: Performed, a: Action, e: FetchEnv, now: FileTime): Performed {
    if a.FetchImage? then
      var o := DownloadOn(p.disk, a, e, now);
      Performed(Disk(o.dirs, o.files), p.results + [o.result], p.renders)
    else Performed(p.disk, p.results, p.renders + [a])
  }

  /** Carrying out actions in order, the k-th download with `env(base + k)`. */
  function Perform(d: Disk, acts: seq<Action>, env: nat -> FetchEnv, base: nat, now: FileTime): Performed
    decreases |acts|
  {
    if acts == [] then Performed(d, [], [])
    else
      var p := Perform(d, acts[..|acts| - 1], env, base, now);
      Step(p, acts[|acts| - 1], env(base + |p.results|), now)
  }

  /** The number of downloads among some actions. */
  function FetchCount(acts: seq<Action>): nat {
    if acts == [] then 0 else FetchCount(acts[..|acts| - 1]) + (if acts[|acts| - 1].FetchImage? then 1 else 0)
  }

  /** Every download is attempted and reported, whatever the earlier ones
      returned, and every render is handed over, in order. */
  lemma {:induction false} EveryActionCarriedOut(d: Disk, acts: seq<Action>, env: nat -> FetchEnv, base: nat, now: FileTime)
    ensures |Perform(d, acts, env, base, now).results| == FetchCount(acts)
    ensures |Perform(d, acts, env, base, now).renders| == |acts| - FetchCount(acts)
    decreases |acts|
  {
    if acts != [] {
      EveryActionCarriedOut(d, acts[..|acts| - 1], env, base, now);
    }
  }

  /** Carrying out one more action. */
  lemma PerformSnoc(d: Disk, acts: seq<Action>, i: nat, env: nat -> FetchEnv, base: nat, now: FileTime,
                    before: Performed, after: Performed)
    requires i < |acts|
    requires before == Perform(d, acts[..i], env, base, now)
    requires after == Step(before, acts[i], env(base + |before.results|), now)
    ensures after == Perform(d, acts[..i + 1], env, base, now)
  {
    var s := acts[..i + 1];
    assert s[..|s| - 1] == acts[..i];
    assert Perform(d, s[..|s| - 1], env, base, now) == before;
    assert s[|s| - 1] == acts[i];
  }

  /** Later actions only add to what the earlier ones reported. */
  lemma {:induction false} PerformPrefix(d: Disk, acts: seq<Action>, j: nat, env: nat -> FetchEnv, base: nat, now: FileTime)
    requires j <= |acts|
    ensures Perform(d, acts[..j], env, base, now).results <= Perform(d, acts, env, base, now).results
    ensures Perform(d, acts[..j], env, base, now).renders <= Perform(d, acts, env, base, now).renders
    decreases |acts|
  {
    if j == |acts| {
      assert acts[..j] == acts;
    } else {
      var init := acts[..|acts| - 1];
      assert init[..j] == acts[..j];
      PerformPrefix(d, init, j, env, base, now);
    }
  }

  /** The download at position `i` is carried out on the disk the actions
      before it left, with the environment of its own turn among the
      downloads, and what it returns is reported at that turn. */
  lemma DownloadResultAt(d: Disk, acts: seq<Action>, i: nat, env: nat -> FetchEnv, base: nat, now: FileTime)
    requires i < |acts| && acts[i].FetchImage?
    ensures var before := Perform(d, acts[..i], env, base, now);
            var k := |before.results|;
            k == FetchCount(acts[..i]) && k < |Perform(d, acts, env, base, now).results| &&
            Perform(d, acts, env, base, now).results[k] == DownloadOn(before.disk, acts[i], env(base + k), now).result
  {
    var before := Perform(d, acts[..i], env, base, now);
    EveryActionCarriedOut(d, acts[..i], env, base, now);
    DownloadAppends(d, acts, i, env, base, now);
    PerformPrefix(d, acts, i + 1, env, base, now);
    PrefixAt(before.results, DownloadOn(before.disk, acts[i], env(base + |before.results|), now).result,
             Perform(d, acts, env, base, now).results);
  }

  /** The download at position `i` appends its own result. */
  lemma DownloadAppends(d: Disk, acts: seq<Action>, i: nat, env: nat -> FetchEnv, base: nat, now: FileTime)
    requires i < |acts| && acts[i].FetchImage?
    ensures var before := Perform(d, acts[..i], env, base, now);
            Perform(d, acts[..i + 1], env, base, now).results
              == before.results + [DownloadOn(before.disk, acts[i], env(base + |before.results|), now).result]
  {
    var before := Perform(d, acts[..i], env, base, now);
    var e := env(base + |before.results|);
    var after := Step(before, acts[i], e, now);
    PerformSnoc(d, acts, i, env, base, now, before, after);
    StepFetch(before, acts[i], e, now);
  }

  /** A download adds its own result after the earlier ones. */
  lemma StepFetch(p: Performed, a: Action, e: FetchEnv, now: FileTime)
    requires a.FetchImage?
    ensures Step(p, a, e, now).results == p.results + [DownloadOn(p.disk, a, e, now).result]
  {
  }

  lemma PrefixAt<T>(s: seq<T>, x: T, t: seq<T>)
    requires s + [x] <= t
    ensures |s| < |t| && t[|s|] == x
  {
    assert (s + [x])[|s|] == x;
  }

  /** One action of the loop below: a download goes to `download_image`, a
      render is handed over. */
  method PerformStep(fs: FileSystem, a: Action, e: FetchEnv, now: FileTime,
                     results0: seq<Result<bool, ErrorTypes.AuthError>>, renders0: seq<Action>)
    returns (results: seq<Result<bool, ErrorTypes.AuthError>>, renders: seq<Action>)
    modifies fs
    ensures Performed(Disk(fs.dirs, fs.files), results, renders)
            == Step(Performed(Disk(old(fs.dirs), old(fs.files)), results0, renders0), a, e, now)
  {
    if a.FetchImage? {
      var r, _ := DownloadImage(fs, a.url, a.fileSize, a.fileTime, a.path, e.sends, e.faults, now);
      results, renders := results0 + [r], renders0;
    } else {
      results, renders := results0, renders0 + [a];
    }
  }

  /** The loop of `step_child_report_sourece_download` over the actions of
      its sources. A failed download is logged and the next one goes ahead. */
  method PerformActions(fs: FileSystem, acts: seq<Action>, env: nat -> FetchEnv, base: nat, now: FileTime)
    returns (results: seq<Result<bool, ErrorTypes.AuthError>>, renders: seq<Action>)
    modifies fs
    ensures Performed(Disk(fs.dirs, fs.files), results, renders)
            == Perform(Disk(old(fs.dirs), old(fs.files)), acts, env, base, now)
  {
    ghost var d0 := Disk(fs.dirs, fs.files);
    results, renders := [], [];
    for i := 0 to |acts|
      invariant Performed(Disk(fs.dirs, fs.files), results, renders) == Perform(d0, acts[..i], env, base, now)
    {
      ghost var before := Performed(Disk(fs.dirs, fs.files), results, renders);
      results, renders := PerformStep(fs, acts[i], env(base + |results|), now, results, renders);
      PerformSnoc(d0, acts, i, env, base, now, before, Performed(Disk(fs.dirs, fs.files), results, renders));
    }
    assert acts[..|acts|] == acts;
  }

  /** `step_child_report_sourece_download`: each report's renders and
      downloads in turn. */
  method StepSourceDownload(fs: FileSystem, outputDir: string, test: bool, sources: seq<DownloadSource>,
                            env: nat -> FetchEnv, base: nat, now: FileTime)
    returns (results: seq<Result<bool, ErrorTypes.AuthError>>, renders: seq<Action>)
    modifies fs
    ensures Performed(Disk(fs.dirs, fs.files), results, renders)
            == Perform(Disk(old(fs.dirs), old(fs.files)), BatchActions(outputDir, sources, test), env, base, now)
  {
    results, renders := PerformActions(fs, BatchActions(outputDir, sources, test), env, base, now);
  }

  /** Handing batches to the downloader one after the other, the downloads
      numbered on from one batch to the next. */
  function PerformBatches(d: Disk, outputDir: string, batches: seq<seq<DownloadSource>>, test: bool,
                          env: nat -> FetchEnv, now: FileTime): Performed
  {
    if batches == [] then Performed(d, [], [])
    else
      var p := PerformBatches(d, outputDir, batches[..|batches| - 1], test, env, now);
      var pb := Perform(p.disk, BatchActions(outputDir, batches[|batches| - 1], test), env, |p.results|, now);
      Performed(pb.disk, p.results + pb.results, p.renders + pb.renders)
  }

  /** Handing one more batch to the downloader. */
  lemma PerformNextBatch(d: Disk, outputDir: string, batches: seq<seq<DownloadSource>>, sources: seq<DownloadSource>,
                         test: bool, env: nat -> FetchEnv, now: FileTime)
    ensures var p := PerformBatches(d, outputDir, batches, test, env, now);
            var pb := Perform(p.disk, BatchActions(outputDir, sources, test), env, |p.results|, now);
            PerformBatches(d, outputDir, batches + [sources], test, env, now)
            == Performed(pb.disk, p.results + pb.results, p.renders + pb.renders)
  {
    assert (batches + [sources])[..|batches|] == batches;
  }

  /** The body of the page loop for a non-empty page: the page's sources,
      handed to the downloader after those of the earlier pages. */
  method HandOverPage(fs: FileSystem, ctx: ChildContext, reports: seq<ChildReport>, outputDir: string, test: bool,
                      env: nat -> FetchEnv, now: FileTime, ghost d0: Disk, ghost batches: seq<seq<DownloadSource>>,
                      results: seq<Result<bool, ErrorTypes.AuthError>>, renders: seq<Action>)
    returns (sources: seq<DownloadSource>, results': seq<Result<bool, ErrorTypes.AuthError>>, renders': seq<Action>)
    requires Performed(Disk(fs.dirs, fs.files), results, renders) == PerformBatches(d0, outputDir, batches, test, env, now)
    modifies fs
    ensures sources == Sources(ctx, reports)
    ensures Performed(Disk(fs.dirs, fs.files), results', renders')
            == PerformBatches(d0, outputDir, batches + [sources], test, env, now)
  {
    sources := CollectSources(ctx, reports);
    PerformNextBatch(d0, outputDir, batches, sources, test, env, now);
    var rs, rd := StepSourceDownload(fs, outputDir, test, sources, env, |results|, now);
    results', renders' := results + rs, renders + rd;
  }

  /** One successful page: its reports are handed over unless there are none. */
  method TakePage(fs: FileSystem, ctx: ChildContext, page: ChildReportResponse, outputDir: string, test: bool,
                  env: nat -> FetchEnv, now: FileTime, ghost d0: Disk, ghost batches: seq<seq<DownloadSource>>,
                  results: seq<Result<bool, ErrorTypes.AuthError>>, renders: seq<Action>)
    returns (count: int, results': seq<Result<bool, ErrorTypes.AuthError>>, renders': seq<Action>)
    requires Performed(Disk(fs.dirs, fs.files), results, renders) == PerformBatches(d0, outputDir, batches, test, env, now)
    modifies fs
    ensures count == |page.results|
    ensures Performed(Disk(fs.dirs, fs.files), results', renders')
            == PerformBatches(d0, outputDir, batches + PageBatch(ctx, page), test, env, now)
  {
    if page.results != [] {
      var sources;
      sources, results', renders' := HandOverPage(fs, ctx, page.results, outputDir, test, env, now, d0, batches,
                                                  results, renders);
      count := |sources|;
    } else {
      count, results', renders' := 0, results, renders;
      assert batches + PageBatch(ctx, page) == batches;
    }
  }

  /** `step_child_report_download`: the page loop of one child, from the
      query of the date filter. Its queries, its result and the batches it hands
      over are those of `PageWalk`; the disk ends as carrying out those
      batches' actions leaves it. */
  method StepChildReportDownload(fs: FileSystem, ctx: ChildContext, dateStart: Option<string>, dateEnd: Option<string>,
                                 replies: nat -> PageReply, outputDir: string, test: bool,
                                 env: nat -> FetchEnv, now: FileTime)
    returns (r: Result<int, ErrorTypes.AuthError>, queries: seq<GetReportsParam>,
             results: seq<Result<bool, ErrorTypes.AuthError>>, renders: seq<Action>)
    modifies fs
    ensures var w := PageWalk(ctx, ReportQuery(dateStart, dateEnd), replies, 1);
            && r == w.result && queries == w.queries
            && Performed(Disk(fs.dirs, fs.files), results, renders)
               == PerformBatches(Disk(old(fs.dirs), old(fs.files)), outputDir, w.batches, test, env, now)
  {
    var result := 0;
    var q := ReportQuery(dateStart, dateEnd);
    ghost var w0 := PageWalk(ctx, q, replies, 1);
    ghost var d0 := Disk(fs.dirs, fs.files);
    ghost var batches: seq<seq<DownloadSource>> := [];
    var loopCount := 0;
    queries, results, renders := [], [], [];
    assert queries + w0.queries == w0.queries && batches + w0.batches == w0.batches;
    while true
      invariant 0 <= loopCount <= MaxLoops
      invariant w0 == Then(queries, batches, result, PageWalk(ctx, q, replies, loopCount + 1))
      invariant Performed(Disk(fs.dirs, fs.files), results, renders)
                == PerformBatches(d0, outputDir, batches, test, env, now)
      decreases MaxLoops - loopCount
    {
      loopCount := loopCount + 1;
      var reply := replies(loopCount - 1);
      ghost var q0, queries0, batches0, result0 := q, queries, batches, result;
      queries := queries + [q];
      if reply.Failure? {
        q := q.(page := None);
        ThenError(ctx, replies, loopCount, w0, q0, queries0, batches0, result0, queries);
        return Failure(reply.error), queries, results, renders;
      }
      var page := reply.value;
      q := q.(page := page.next);
      var count;
      count, results, renders := TakePage(fs, ctx, page, outputDir, test, env, now, d0, batches, results, renders);
      result := result + count;
      batches := batches + PageBatch(ctx, page);
      if page.results == [] {
        q := q.(page := None);
      }
      ThenPage(ctx, replies, loopCount, w0, q0, queries0, batches0, result0, q, queries, batches, result);

      if q.page.None? {
        break;
      }
      // a one-second pause between pages
      if loopCount > MaxLoops {
        break;
      }
    }
    r := Success(result);
  }

  // ----- the command -----

  /** A child's page walk: its own center map, the filtered first query. */
  function ChildWalk(c: Child, dateStart: Option<string>, dateEnd: Option<string>, replies: nat -> PageReply): Walk {
    PageWalk(ChildContext(c.id, c.name, CenterMap(c.enrollment)), ReportQuery(dateStart, dateEnd), replies, 1)
  }

  /** The disk the children loop leaves: child `i` walks its pages
      (`pages(i)`) and its batches are carried out (with `env(i)`) on the
      disk the earlier children left. */
  function ChildrenDisk(d: Disk, outputDir: string, test: bool, dateStart: Option<string>, dateEnd: Option<string>,
                        children: seq<Child>, pages: nat -> nat -> PageReply, env: nat -> nat -> FetchEnv,
                        now: FileTime): Disk
  {
    if children == [] then d
    else
      var i := |children| - 1;
      var before := ChildrenDisk(d, outputDir, test, dateStart, dateEnd, children[..i], pages, env, now);
      PerformBatches(before, outputDir, ChildWalk(children[i], dateStart, dateEnd, pages(i)).batches, test, env(i), now).disk
  }

  /** The results the children loop collects, one per child, in order. */
  function ChildrenResults(children: seq<Child>, dateStart: Option<string>, dateEnd: Option<string>,
                           pages: nat -> nat -> PageReply): seq<Result<int, ErrorTypes.AuthError>>
  {
    if children == [] then []
    else
      var i := |children| - 1;
      ChildrenResults(children[..i], dateStart, dateEnd, pages) + [ChildWalk(children[i], dateStart, dateEnd, pages(i)).result]
  }

  /** One child's error is logged and the loop goes on: every child gets
      its walk, and each child's result is its own walk's, whatever the
      other children's walks returned. */
  lemma {:induction false} ChildErrorsIsolated(children: seq<Child>, dateStart: Option<string>, dateEnd: Option<string>,
                                               pages: nat -> nat -> PageReply)
    ensures var r := ChildrenResults(children, dateStart, dateEnd, pages);
            && |r| == |children|
            && forall i :: 0 <= i < |children| ==> r[i] == ChildWalk(children[i], dateStart, dateEnd, pages(i)).result
  {
    var r := ChildrenResults(children, dateStart, dateEnd, pages);
    ChildrenResultsLength(children, dateStart, dateEnd, pages);
    forall i | 0 <= i < |children| ensures r[i] == ChildWalk(children[i], dateStart, dateEnd, pages(i)).result {
      ChildResultAt(children, dateStart, dateEnd, pages, i);
    }
  }

  lemma {:induction false} ChildrenResultsLength(children: seq<Child>, dateStart: Option<string>,
                                                 dateEnd: Option<string>, pages: nat -> nat -> PageReply)
    ensures |ChildrenResults(children, dateStart, dateEnd, pages)| == |children|
  {
    if children != [] {
      ChildrenResultsLength(children[..|children| - 1], dateStart, dateEnd, pages);
    }
  }

  lemma {:induction false} ChildResultAt(children: seq<Child>, dateStart: Option<string>, dateEnd: Option<string>,
                                         pages: nat -> nat -> PageReply, i: nat)
    requires i < |children|
    ensures |ChildrenResults(children, dateStart, dateEnd, pages)| == |children|
    ensures ChildrenResults(children, dateStart, dateEnd, pages)[i]
            == ChildWalk(children[i], dateStart, dateEnd, pages(i)).result
    decreases |children|
  {
    var n := |children| - 1;
    var init := children[..n];
    ChildrenResultsLength(init, dateStart, dateEnd, pages);
    if i < n {
      ChildResultAt(init, dateStart, dateEnd, pages, i);
      assert init[i] == children[i];
    }
  }

  /** The `for child in me.children` loop of `next`. */
  method StepChildren(fs: FileSystem, children: seq<Child>, outputDir: string, test: bool,
                      dateStart: Option<string>, dateEnd: Option<string>,
                      pages: nat -> nat -> PageReply, env: nat -> nat -> FetchEnv, now: FileTime)
    returns (childResults: seq<Result<int, ErrorTypes.AuthError>>)
    modifies fs
    ensures Disk(fs.dirs, fs.files)
            == ChildrenDisk(Disk(old(fs.dirs), old(fs.files)), outputDir, test, dateStart, dateEnd, children, pages, env, now)
    ensures childResults == ChildrenResults(children, dateStart, dateEnd, pages)
  {
    ghost var d0 := Disk(fs.dirs, fs.files);
    childResults := [];
    for i := 0 to |children|
      invariant Disk(fs.dirs, fs.files) == ChildrenDisk(d0, outputDir, test, dateStart, dateEnd, children[..i], pages, env, now)
      invariant childResults == ChildrenResults(children[..i], dateStart, dateEnd, pages)
    {
      assert children[..i + 1][..i] == children[..i];
      var child := children[i];
      var centers := BuildCenterMap(child.enrollment);
      var r, _, _, _ := StepChildReportDownload(fs, ChildContext(child.id, child.name, centers), dateStart, dateEnd,
                                                pages(i), outputDir, test, env(i), now);
      // an error is logged and the next child goes ahead
      childResults := childResults + [r];
    }
    assert children[..|children|] == children;
  }

  /** What a run reports besides its effect on the config files and the disk. */
  datatype DownloadRun = DownloadRun(
    preset: Option<string>,        // the refresh token stored in the SDK before logging in
    mode: LoginCommand.LoginMode,
    request: Option<TokenRequest>,
    saved: bool,                   // the profile was set and `save` was called
    invalidArgs: bool,             // "Error. Invalid args" was logged
    childResults: seq<Result<int, ErrorTypes.AuthError>>)

  /** `next`: log in once with the merged arguments; after a successful
      profile lookup, save the new profile and back up every child. */
  method Next(a: DownloadArgs, config: KnBackupConfig, sdk: KidsnoteAuthSdk, home: Option<string>,
              store: ConfigStore, fs: FileSystem, exchange: Exchange,
              myInfo: Result<MeInfo, ErrorTypes.AuthError>, pages: nat -> nat -> PageReply,
              env: nat -> nat -> FetchEnv, saveFaults: IoFaults, now: FileTime)
    returns (mode: LoginCommand.LoginMode, request: Option<TokenRequest>, saved: bool, invalidArgs: bool,
             childResults: seq<Result<int, ErrorTypes.AuthError>>)
    modifies config, sdk.config, store, fs
    ensures mode == LoginCommand.SelectLoginMode(a.refreshToken, a.userId, a.userPass)
    ensures mode.NoLogin? ==> request.None?
    ensures mode.RefreshLogin? && request.Some? ==> request.value.form == RefreshForm(mode.refreshToken)
    ensures mode.PasswordLogin? && request.Some? ==> request.value.form == PasswordForm(mode.userId, mode.password)
    ensures invalidArgs <==> mode.NoLogin? || !LoginCommand.ExchangeSucceeds(exchange)
    ensures saved <==> !invalidArgs && myInfo.Success?
    ensures saved ==>
              && store.files == Saved(old(store.files), ResolvePath(a.configPath, home),
                                      Some(Profile(Some(myInfo.value.username), Some(exchange.body.value.refreshToken))),
                                      saveFaults)
              && Disk(fs.dirs, fs.files)
                 == ChildrenDisk(Disk(old(fs.dirs), old(fs.files)), a.outputDir, a.test, a.dateStart, a.dateEnd,
                                 myInfo.value.children, pages, env, now)
              && childResults == ChildrenResults(myInfo.value.children, a.dateStart, a.dateEnd, pages)
    ensures !saved ==>
              store.files == old(store.files) && fs.dirs == old(fs.dirs) && fs.files == old(fs.files)
              && childResults == []
  {
    mode := LoginCommand.SelectLoginMode(a.refreshToken, a.userId, a.userPass);
    var authResult;
    request, authResult := LoginCommand.Authenticate(sdk, mode, exchange);
    saved, invalidArgs := false, false;
    childResults := [];
    if authResult.Some? {
      if myInfo.Success? {
        config.SetDefault(myInfo.value.username, authResult.value.refreshToken);
        config.Save(a.configPath, home, store, saveFaults);
        saved := true;
        childResults := StepChildren(fs, myInfo.value.children, a.outputDir, a.test, a.dateStart, a.dateEnd,
                                     pages, env, now);
      }
    } else {
      invalidArgs := true;
    }
  }

  /** The start of `run`: a copy of the arguments, with the refresh token
      and the user id the saved default profile supplies where they are
      missing. */
  method MergeArgs(args: DownloadArgs, home: Option<string>, store: ConfigStore)
    returns (a: DownloadArgs, config: KnBackupConfig)
    ensures fresh(a) && fresh(config)
    ensures var loaded := LoadDefault(args.configPath, home, store.files);
            && a.refreshToken == LoginCommand.MergedRefreshToken(args.refreshToken, loaded)
            && a.userId == LoginCommand.MergedUserId(args.userId, loaded)
    ensures a.clientId == args.clientId && a.userPass == args.userPass && a.configPath == args.configPath
    ensures a.dateStart == args.dateStart && a.dateEnd == args.dateEnd
    ensures a.outputDir == args.outputDir && a.test == args.test
  {
    a := new DownloadArgs.Copy(args);
    config := new KnBackupConfig.FromFile(a.configPath, home, store.files);
    if config.default.Some? {
      a.UpdateProfile(config.default.value);
    }
  }

  /** `DownloadCommand::run`: merge the arguments with the saved profile,
      set up the SDK, and go on with `next`. */
  method Run(args: DownloadArgs, home: Option<string>, store: ConfigStore, fs: FileSystem, exchange: Exchange,
             myInfo: Result<MeInfo, ErrorTypes.AuthError>, pages: nat -> nat -> PageReply,
             env: nat -> nat -> FetchEnv, saveFaults: IoFaults, now: FileTime)
    returns (run: DownloadRun)
    modifies store, fs
    ensures var loaded := LoadDefault(args.configPath, home, old(store.files));
            var rt := LoginCommand.MergedRefreshToken(args.refreshToken, loaded);
            && run.preset == rt
            && run.mode == LoginCommand.SelectLoginMode(rt, LoginCommand.MergedUserId(args.userId, loaded), args.userPass)
    ensures run.mode.NoLogin? ==> run.request.None?
    ensures run.mode.RefreshLogin? && run.request.Some? ==> run.request.value.form == RefreshForm(run.mode.refreshToken)
    ensures run.mode.PasswordLogin? && run.request.Some? ==>
              run.request.value.form == PasswordForm(run.mode.userId, run.mode.password)
    ensures run.invalidArgs <==> run.mode.NoLogin? || !LoginCommand.ExchangeSucceeds(exchange)
    ensures run.saved <==> !run.invalidArgs && myInfo.Success?
    ensures run.saved ==>
              && store.files == Saved(old(store.files), ResolvePath(args.configPath, home),
                                      Some(Profile(Some(myInfo.value.username), Some(exchange.body.value.refreshToken))),
                                      saveFaults)
              && Disk(fs.dirs, fs.files)
                 == ChildrenDisk(Disk(old(fs.dirs), old(fs.files)), args.outputDir, args.test, args.dateStart, args.dateEnd,
                                 myInfo.value.children, pages, env, now)
              && run.childResults == ChildrenResults(myInfo.value.children, args.dateStart, args.dateEnd, pages)
    ensures !run.saved ==>
              store.files == old(store.files) && fs.dirs == old(fs.dirs) && fs.files == old(fs.files)
              && run.childResults == []
  {
    var a, config := MergeArgs(args, home, store);
    var options := new KidsnoteOptions(a.clientId);
    var sdk := new KidsnoteAuthSdk(options);
    var preset := a.refreshToken;
    var mode, request, saved, invalidArgs, childResults :=
      Next(a, config, sdk, home, store, fs, exchange, myInfo, pages, env, saveFaults, now);
    run := DownloadRun(preset, mode, request, saved, invalidArgs, childResults);
  }
}
