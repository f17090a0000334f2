/** The upload path of index.js: `processUpload` (size guard, replication,
    then a bounded loop that inserts the record under a fresh identifier
    until the database takes it), the providers summary it returns, and
    `sendUploadResponse`. */
module Upload {
  import opened Values
  import opened Text
  import opened Identifier
  import opened Uploader
  import opened Store

  const MaxUploadSize := 200 * 1024 * 1024
  const MaxAttempts := 10
  const StoragePrefix := "cloudku"

  const LimitExceeded := "Upload limit exceeded (200MB max)"
  const UploadFailed := "Upload failed: "
  const Exhausted := "Failed to generate unique filename"

  /** What multer hands over: the client's file name, its declared type,
      its size, and the bytes read back from the temporary file. */
  datatype UploadedFile = UploadedFile(originalName: string, mimetype: string, size: nat, contents: seq<byte>)

  /** The parts of the HTTP request the public URL is built from. */
  datatype RequestInfo = RequestInfo(protocol: string, host: string)

  /** The `providers` object of the result: "success" or "failed" per
      backend, and the primary's name. */
  datatype ProvidersSummary = ProvidersSummary(cloudsky: string, catbox: string, primary: string)

  datatype UploadResult = UploadResult(url: string, filename: string, providers: ProvidersSummary)

  function PublicUrl(req: RequestInfo, fileName: string): string
  {
    req.protocol + "://" + req.host + "/f/" + fileName
  }

  /** The insert errors that count as an identifier collision and are
      retried: a truthy message mentioning "UNIQUE" or "constraint". */
  predicate IsCollision(message: string)
  {
    message != "" && (Includes(message, "UNIQUE") || Includes(message, "constraint"))
  }

  /** Any message carrying either marker is retried, whatever surrounds it. */
  lemma CollisionMarkers(before: string, after: string)
    ensures IsCollision(before + "UNIQUE" + after)
    ensures IsCollision(before + "constraint" + after)
  {
    IncludesInfix(before, "UNIQUE", after);
    IncludesInfix(before, "constraint", after);
  }

  /** Conversely, a message is retried only when it is non-empty and one
      of the two markers occurs in it. */
  lemma CollisionNeedsMarker(message: string)
    requires IsCollision(message)
    ensures message != ""
    ensures exists i | 0 <= i <= |message| ::
              StartsWith(message[i..], "UNIQUE") || StartsWith(message[i..], "constraint")
  {
    if Includes(message, "UNIQUE") {
      IncludesOccurrence(message, "UNIQUE");
    } else {
      IncludesOccurrence(message, "constraint");
    }
  }

  /** The markers are matched case-sensitively: a bare upper-case SQLite
      result code is not taken for a collision and is rethrown. */
  lemma UpperCaseCodeIsNoCollision()
    ensures !IsCollision("SQLITE_CONSTRAINT")
  {
    var code := "SQLITE_CONSTRAINT";
    assert forall k | 0 <= k < |code| :: code[k] != 'U' && code[k] != 'c';
    ExcludesWithoutLead(code, "UNIQUE");
    ExcludesWithoutLead(code, "constraint");
  }

  /** Which call to `crypto.randomBytes` supplies the name tried at insert
      number `attempt` (from 0). From the fifth collision on, each retry
      first draws an 8-character name that the next iteration overwrites,
      so one extra call is spent per retry. */
  function DrawIndex(attempt: nat): nat
  {
    if attempt <= 4 then attempt else 2 * attempt - 4
  }

  /** Every insert uses a draw of its own, later than the previous one's;
      from the sixth insert on, exactly one draw (the dead 8-symbol name)
      lies between two consecutive inserts. */
  lemma DrawsAreFresh(a: nat, b: nat)
    ensures a < b ==> DrawIndex(a) < DrawIndex(b)
    ensures b == a + 1 && b >= 5 ==> DrawIndex(b) == DrawIndex(a) + 2
    ensures b == a + 1 && b < 5 ==> DrawIndex(b) == DrawIndex(a) + 1
  {
  }

  /** The file name tried at insert number `attempt`. */
  function CandidateName(randomBytes: (nat, nat) -> seq<byte>, attempt: nat, ext: string): string
  {
    IdentifierOf(randomBytes(DrawIndex(attempt), 6)) + ext
  }

  /** Everything an insert needs besides the file name. */
  datatype CommitContext = CommitContext(file: UploadedFile, rep: Replication, fileId: string,
                                         req: RequestInfo, ext: string)

  /** The row inserted under `fileName`. */
  function RowFor(ctx: CommitContext, fileName: string): FileRecord
  {
    FileRecord(ctx.fileId, fileName, ctx.file.originalName, ctx.file.size, Some(ctx.file.mimetype),
               ctx.rep.cloudSkyUrl, ctx.rep.catboxUrl, ProviderName(ctx.rep.primaryProvider),
               PublicUrl(ctx.req, fileName))
  }

  /** `f(from), f(from + 1), ...` up to the attempt limit. */
  function AttemptsFrom<T>(f: nat -> T, from: nat): (s: seq<T>)
    requires from <= MaxAttempts
    ensures |s| == MaxAttempts - from
    decreases MaxAttempts - from
  {
    if from == MaxAttempts then [] else [f(from)] + AttemptsFrom(f, from + 1)
  }

  lemma {:induction false} AttemptsFromAt<T>(f: nat -> T, from: nat, k: nat)
    requires from + k < MaxAttempts
    ensures AttemptsFrom(f, from)[k] == f(from + k)
    decreases k
  {
    if k > 0 {
      AttemptsFromAt(f, from + 1, k - 1);
      assert AttemptsFrom(f, from)[k] == AttemptsFrom(f, from + 1)[k - 1];
    }
  }

  /** The row tried at each insert. */
  function CandidateRow(ctx: CommitContext, randomBytes: (nat, nat) -> seq<byte>): nat -> FileRecord
  {
    (attempt: nat) => RowFor(ctx, CandidateName(randomBytes, attempt, ctx.ext))
  }

  /** The rows the loop would try, insert by insert. */
  function Candidates(ctx: CommitContext, randomBytes: (nat, nat) -> seq<byte>): (rows: seq<FileRecord>)
    ensures |rows| == MaxAttempts
  {
    AttemptsFrom(CandidateRow(ctx, randomBytes), 0)
  }

  /** Row `attempt` of the candidates is the row under the name drawn for
      that insert. */
  lemma CandidateAt(ctx: CommitContext, randomBytes: (nat, nat) -> seq<byte>, attempt: nat)
    requires attempt < MaxAttempts
    ensures Candidates(ctx, randomBytes)[attempt] == RowFor(ctx, CandidateName(randomBytes, attempt, ctx.ext))
  {
    AttemptsFromAt(CandidateRow(ctx, randomBytes), 0, attempt);
  }

  /** An insert answer that makes the loop try again. */
  predicate Retried(answer: InsertAnswer)
  {
    answer.InsertThrew? && IsCollision(answer.message)
  }

  /** The rows the loop tries to insert and the row it commits (or the
      error it ends with). */
  datatype CommitRun = CommitRun(outcome: Result<FileRecord>, inserts: seq<FileRecord>)

  /** The insert loop from insert number `attempt` on: try the candidate
      row; stop on success, retry on a collision, give up on any other
      error or after `MaxAttempts` inserts. */
  function CommitFrom(rows: seq<FileRecord>,
                      dbExecute: (nat, FileRecord) -> InsertAnswer, attempt: nat): (run: CommitRun)
    requires attempt <= MaxAttempts && |rows| == MaxAttempts
    ensures |run.inserts| <= MaxAttempts - attempt
    ensures attempt < MaxAttempts <==> run.inserts != []
    ensures run.outcome.Success? ==> run.inserts != [] && run.outcome.value == run.inserts[|run.inserts| - 1]
    decreases MaxAttempts - attempt
  {
    if attempt == MaxAttempts then CommitRun(Failure(Exhausted), [])
    else
      var row := rows[attempt];
      var answer := dbExecute(attempt, row);
      if answer.Inserted? then CommitRun(Success(row), [row])
      else if Retried(answer) then
        var rest := CommitFrom(rows, dbExecute, attempt + 1);
        CommitRun(rest.outcome, [row] + rest.inserts)
      else CommitRun(Failure(answer.message), [row])
  }

  /** One turn of the loop: the candidate row goes in, is retried after a
      collision, or ends the loop with the database's error. */
  lemma CommitStep(rows: seq<FileRecord>,
                   dbExecute: (nat, FileRecord) -> InsertAnswer, attempt: nat)
    requires attempt < MaxAttempts && |rows| == MaxAttempts
    ensures var row := rows[attempt];
            var answer := dbExecute(attempt, row);
            && (answer.Inserted? ==> CommitFrom(rows, dbExecute, attempt) == CommitRun(Success(row), [row]))
            && (Retried(answer) ==>
                  var rest := CommitFrom(rows, dbExecute, attempt + 1);
                  CommitFrom(rows, dbExecute, attempt) == CommitRun(rest.outcome, [row] + rest.inserts))
            && (!answer.Inserted? && !Retried(answer) ==>
                  CommitFrom(rows, dbExecute, attempt) == CommitRun(Failure(answer.message), [row]))
  {
  }

  /** Insert `j` of the loop is the candidate row for attempt `attempt + j`. */
  lemma {:induction false} CommitInsertsCandidates(rows: seq<FileRecord>,
                                                   dbExecute: (nat, FileRecord) -> InsertAnswer, attempt: nat)
    requires attempt <= MaxAttempts && |rows| == MaxAttempts
    ensures forall j | 0 <= j < |CommitFrom(rows, dbExecute, attempt).inserts| ::
              CommitFrom(rows, dbExecute, attempt).inserts[j] == rows[attempt + j]
    decreases MaxAttempts - attempt
  {
    if attempt < MaxAttempts {
      var row := rows[attempt];
      var run := CommitFrom(rows, dbExecute, attempt);
      if Retried(dbExecute(attempt, row)) {
        CommitInsertsCandidates(rows, dbExecute, attempt + 1);
        var rest := CommitFrom(rows, dbExecute, attempt + 1);
        assert run.inserts == [row] + rest.inserts;
        forall j | 1 <= j < |run.inserts|
          ensures run.inserts[j] == rows[attempt + j]
        {
          assert run.inserts[j] == rest.inserts[j - 1];
        }
      }
    }
  }

  /** Every insert but the last was answered with a collision: nothing else
      makes the loop go on. */
  lemma {:induction false} CommitRetriesOnlyOnCollision(rows: seq<FileRecord>,
                                                        dbExecute: (nat, FileRecord) -> InsertAnswer, attempt: nat)
    requires attempt <= MaxAttempts && |rows| == MaxAttempts
    ensures forall j | 0 <= j < |CommitFrom(rows, dbExecute, attempt).inserts| - 1 ::
              Retried(dbExecute(attempt + j, CommitFrom(rows, dbExecute, attempt).inserts[j]))
    decreases MaxAttempts - attempt
  {
    if attempt < MaxAttempts {
      var row := rows[attempt];
      var run := CommitFrom(rows, dbExecute, attempt);
      if Retried(dbExecute(attempt, row)) {
        CommitRetriesOnlyOnCollision(rows, dbExecute, attempt + 1);
        var rest := CommitFrom(rows, dbExecute, attempt + 1);
        assert run.inserts == [row] + rest.inserts;
        forall j | 1 <= j < |run.inserts| - 1
          ensures Retried(dbExecute(attempt + j, run.inserts[j]))
        {
          assert run.inserts[j] == rest.inserts[j - 1];
        }
      }
    }
  }

  /** The loop has made the inserts `done` and resumes at insert
      `attempt`: what is left to run completes the whole run. */
  predicate ResumesAt(rows: seq<FileRecord>, dbExecute: (nat, FileRecord) -> InsertAnswer,
                      attempt: nat, done: seq<FileRecord>)
    requires attempt <= MaxAttempts && |rows| == MaxAttempts
  {
    var rest := CommitFrom(rows, dbExecute, attempt);
    CommitFrom(rows, dbExecute, 0) == CommitRun(rest.outcome, done + rest.inserts)
  }

  /** A collision moves the loop on to the next insert. */
  lemma ResumeAfterCollision(rows: seq<FileRecord>, dbExecute: (nat, FileRecord) -> InsertAnswer,
                             attempt: nat, done: seq<FileRecord>)
    requires attempt < MaxAttempts && |rows| == MaxAttempts
    requires ResumesAt(rows, dbExecute, attempt, done)
    requires Retried(dbExecute(attempt, rows[attempt]))
    ensures ResumesAt(rows, dbExecute, attempt + 1, done + [rows[attempt]])
  {
    CommitStep(rows, dbExecute, attempt);
    var rest := CommitFrom(rows, dbExecute, attempt + 1);
    assert done + ([rows[attempt]] + rest.inserts) == (done + [rows[attempt]]) + rest.inserts;
  }

  /** Any other answer ends the run with this insert. */
  lemma StopAfterAnswer(rows: seq<FileRecord>, dbExecute: (nat, FileRecord) -> InsertAnswer,
                        attempt: nat, done: seq<FileRecord>)
    requires attempt < MaxAttempts && |rows| == MaxAttempts
    requires ResumesAt(rows, dbExecute, attempt, done)
    requires !Retried(dbExecute(attempt, rows[attempt]))
    ensures dbExecute(attempt, rows[attempt]).Inserted? ==>
              CommitFrom(rows, dbExecute, 0) == CommitRun(Success(rows[attempt]), done + [rows[attempt]])
    ensures !dbExecute(attempt, rows[attempt]).Inserted? ==>
              CommitFrom(rows, dbExecute, 0) ==
                CommitRun(Failure(dbExecute(attempt, rows[attempt]).message), done + [rows[attempt]])
  {
    CommitStep(rows, dbExecute, attempt);
  }

  /** The number of the insert at which the loop, started at insert
      `attempt`, stops: the first one not answered with a collision, or
      the last one allowed. */
  function FinalAttempt(rows: seq<FileRecord>, dbExecute: (nat, FileRecord) -> InsertAnswer, attempt: nat): (f: nat)
    requires attempt < MaxAttempts && |rows| == MaxAttempts
    ensures attempt <= f < MaxAttempts
    decreases MaxAttempts - attempt
  {
    if Retried(dbExecute(attempt, rows[attempt])) && attempt + 1 < MaxAttempts
    then FinalAttempt(rows, dbExecute, attempt + 1)
    else attempt
  }

  /** The loop's outcome is decided by the answer to its last insert: the
      row is committed when it went in, a non-collision error is rethrown
      as it is, and a collision ends the loop only at the attempt limit,
      with the dedicated exhaustion error. */
  lemma {:induction false} CommitOutcomeFromLastInsert(rows: seq<FileRecord>,
                                                       dbExecute: (nat, FileRecord) -> InsertAnswer, attempt: nat)
    requires attempt < MaxAttempts && |rows| == MaxAttempts
    ensures var f := FinalAttempt(rows, dbExecute, attempt);
            |CommitFrom(rows, dbExecute, attempt).inserts| == f - attempt + 1
    ensures var f := FinalAttempt(rows, dbExecute, attempt);
            dbExecute(f, rows[f]).Inserted? ==> CommitFrom(rows, dbExecute, attempt).outcome == Success(rows[f])
    ensures var f := FinalAttempt(rows, dbExecute, attempt);
            var answer := dbExecute(f, rows[f]);
            !answer.Inserted? && !Retried(answer) ==> CommitFrom(rows, dbExecute, attempt).outcome == Failure(answer.message)
    ensures var f := FinalAttempt(rows, dbExecute, attempt);
            Retried(dbExecute(f, rows[f])) ==>
              f == MaxAttempts - 1 && CommitFrom(rows, dbExecute, attempt).outcome == Failure(Exhausted)
    decreases MaxAttempts - attempt
  {
    CommitStep(rows, dbExecute, attempt);
    if Retried(dbExecute(attempt, rows[attempt])) && attempt + 1 < MaxAttempts {
      CommitOutcomeFromLastInsert(rows, dbExecute, attempt + 1);
    }
  }

  /** A file name made of six identifier symbols and then `ext`. */
  predicate ShortName(name: string, ext: string)
  {
    && |name| == 6 + |ext|
    && name[6..] == ext
    && (forall k | 0 <= k < 6 :: IsLowerAlnum(name[k]))
  }

  /** Each candidate name is a 6-symbol identifier followed by the
      extension, and the row's public URL points at that name. */
  lemma CandidateRowShape(ctx: CommitContext, randomBytes: (nat, nat) -> seq<byte>, attempt: nat)
    requires forall k: nat, n: nat :: |randomBytes(k, n)| == n
    requires attempt < MaxAttempts
    ensures ShortName(Candidates(ctx, randomBytes)[attempt].filename, ctx.ext)
    ensures Candidates(ctx, randomBytes)[attempt].publicUrl ==
              PublicUrl(ctx.req, Candidates(ctx, randomBytes)[attempt].filename)
  {
    CandidateAt(ctx, randomBytes, attempt);
    var id := IdentifierOf(randomBytes(DrawIndex(attempt), 6));
    assert (id + ctx.ext)[6..] == ctx.ext;
  }

  /** Every inserted file name is a 6-symbol identifier followed by the
      original name's extension, even after the fifth collision. */
  lemma CommitNamesHaveSixSymbols(ctx: CommitContext, randomBytes: (nat, nat) -> seq<byte>,
                                  dbExecute: (nat, FileRecord) -> InsertAnswer)
    requires forall k: nat, n: nat :: |randomBytes(k, n)| == n
    ensures forall j | 0 <= j < |CommitFrom(Candidates(ctx, randomBytes), dbExecute, 0).inserts| ::
              && ShortName(CommitFrom(Candidates(ctx, randomBytes), dbExecute, 0).inserts[j].filename, ctx.ext)
              && CommitFrom(Candidates(ctx, randomBytes), dbExecute, 0).inserts[j].publicUrl ==
                   PublicUrl(ctx.req, CommitFrom(Candidates(ctx, randomBytes), dbExecute, 0).inserts[j].filename)
  {
    CommitInsertsCandidates(Candidates(ctx, randomBytes), dbExecute, 0);
    forall j | 0 <= j < |CommitFrom(Candidates(ctx, randomBytes), dbExecute, 0).inserts|
      ensures ShortName(CommitFrom(Candidates(ctx, randomBytes), dbExecute, 0).inserts[j].filename, ctx.ext)
      ensures CommitFrom(Candidates(ctx, randomBytes), dbExecute, 0).inserts[j].publicUrl ==
                PublicUrl(ctx.req, CommitFrom(Candidates(ctx, randomBytes), dbExecute, 0).inserts[j].filename)
    {
      CandidateRowShape(ctx, randomBytes, j);
    }
  }

  /** A store that reports a collision to every insert sees exactly
      `MaxAttempts` inserts, and the upload ends with the exhaustion error. */
  lemma AlwaysCollidingStore(rows: seq<FileRecord>, dbExecute: (nat, FileRecord) -> InsertAnswer)
    requires |rows| == MaxAttempts
    requires forall k: nat, row: FileRecord :: Retried(dbExecute(k, row))
    ensures CommitFrom(rows, dbExecute, 0).outcome == Failure(Exhausted)
    ensures |CommitFrom(rows, dbExecute, 0).inserts| == MaxAttempts
  {
    CommitOutcomeFromLastInsert(rows, dbExecute, 0);
  }

  /** The providers summary: a backend is reported as "success" when its URL
      field is truthy. */
  function Summary(rep: Replication): (s: ProvidersSummary)
    ensures s.cloudsky == "success" || s.cloudsky == "failed"
    ensures s.catbox == "success" || s.catbox == "failed"
  {
    ProvidersSummary(if Truthy(rep.cloudSkyUrl) then "success" else "failed",
                     if Truthy(rep.catboxUrl) then "success" else "failed",
                     ProviderName(rep.primaryProvider))
  }

  /** On a successful replication the summary reports each backend as its
      adapter actually ended, and names the primary the coordinator chose. */
  lemma SummaryReflectsAdapters(buffer: seq<byte>, mimetype: string, prefix: string, replies: ProviderReplies)
    requires Replicate(buffer, mimetype, prefix, replies).result.Success?
    ensures var cloudSky := UploadToCloudSky(buffer, mimetype, prefix, replies.sniffed, replies.now,
                                             replies.keySuffix, replies.presign, replies.put);
            var catbox := UploadToCatbox(buffer, replies.sniffed, replies.catbox);
            var s := Summary(Replicate(buffer, mimetype, prefix, replies).result.value);
            && (s.cloudsky == "success" <==> cloudSky.outcome.Success?)
            && (s.catbox == "success" <==> catbox.outcome.Success?)
            && (s.primary == "cloudsky" <==> cloudSky.outcome.Success?)
            && (s.primary == "catbox" <==> cloudSky.outcome.Failure?)
  {
    ReplicationReflectsAdapters(buffer, mimetype, prefix, replies);
  }

  /** What `processUpload` returns once the loop has ended. */
  function ResultOf(outcome: Result<FileRecord>, rep: Replication): Result<UploadResult>
  {
    match outcome
    case Success(row) => Success(UploadResult(row.publicUrl, row.filename, Summary(rep)))
    case Failure(m) => Failure(m)
  }

  /** The start of each turn of the insert loop: a fresh 6-symbol
      identifier plus the extension, and the row to insert under it. */
  method DrawCandidate(ctx: CommitContext, randomBytes: (nat, nat) -> seq<byte>, attempt: nat, draws: nat)
    returns (fileName: string, row: FileRecord)
    requires forall k: nat, n: nat :: |randomBytes(k, n)| == n
    requires attempt < MaxAttempts && draws == DrawIndex(attempt)
    ensures fileName == CandidateName(randomBytes, attempt, ctx.ext)
    ensures row == RowFor(ctx, fileName) && row == Candidates(ctx, randomBytes)[attempt]
  {
    var id := GenerateRandomString(6, randomBytes(draws, 6));
    fileName := id + ctx.ext;
    row := RowFor(ctx, fileName);
    CandidateAt(ctx, randomBytes, attempt);
  }

  /** The insert loop of `processUpload`: draw a 6-symbol identifier, insert
      the row under it, and retry on a collision, at most `MaxAttempts`
      times. From the fifth collision on, an 8-symbol name is drawn as
      well; the next turn draws a fresh 6-symbol name over it, so that
      name never reaches the database, but the draw is still spent. */
  method CommitRecord(ctx: CommitContext, randomBytes: (nat, nat) -> seq<byte>,
                      dbExecute: (nat, FileRecord) -> InsertAnswer)
    returns (outcome: Result<FileRecord>, inserts: seq<FileRecord>)
    requires forall k: nat, n: nat :: |randomBytes(k, n)| == n
    ensures CommitRun(outcome, inserts) == CommitFrom(Candidates(ctx, randomBytes), dbExecute, 0)
  {
    ghost var rows := Candidates(ctx, randomBytes);
    inserts := [];
    var attempts: nat := 0;
    var draws: nat := 0;

    while attempts < MaxAttempts
      invariant attempts <= MaxAttempts
      invariant |inserts| == attempts && draws == DrawIndex(attempts)
      invariant ResumesAt(rows, dbExecute, attempts, inserts)
    {
      var fileName, row := DrawCandidate(ctx, randomBytes, attempts, draws);
      draws := draws + 1;
      var answer := dbExecute(attempts, row);
      if answer.Inserted? || !IsCollision(answer.message) {
        StopAfterAnswer(rows, dbExecute, attempts, inserts);
        inserts := inserts + [row];
        if answer.Inserted? {
          return Success(row), inserts;
        }
        return Failure(answer.message), inserts;
      }
      ResumeAfterCollision(rows, dbExecute, attempts, inserts);
      inserts := inserts + [row];
      attempts := attempts + 1;
      if attempts >= 5 {
        var longId := GenerateRandomString(8, randomBytes(draws, 8));
        draws := draws + 1;
        fileName := longId + ctx.ext;
      }
    }
    assert CommitFrom(rows, dbExecute, attempts) == CommitRun(Failure(Exhausted), []);
    assert inserts + [] == inserts;
    return Failure(Exhausted), inserts;
  }

  /** `processUpload(file, req)`. The oracles stand for what the source
      obtains from outside: `fileExt` is `path.extname(originalname)`,
      `fileId` the uuid, `randomBytes(k, n)` the result of the `k`-th call
      `crypto.randomBytes(n)`, and `dbExecute(k, row)` the database's
      answer to the `k`-th INSERT. Besides the result, the method returns
      the requests sent to the backends and the rows it tried to insert. */
  method ProcessUpload(file: UploadedFile, req: RequestInfo, fileExt: string, replies: ProviderReplies,
                       fileId: string, randomBytes: (nat, nat) -> seq<byte>,
                       dbExecute: (nat, FileRecord) -> InsertAnswer)
    returns (outcome: Result<UploadResult>, requests: seq<ProviderRequest>, inserts: seq<FileRecord>)
    requires forall k: nat, n: nat :: |randomBytes(k, n)| == n
    ensures |inserts| <= MaxAttempts
    ensures file.size > MaxUploadSize ==> outcome == Failure(LimitExceeded) && requests == [] && inserts == []
    ensures file.size <= MaxUploadSize ==>
              var rep := Replicate(file.contents, file.mimetype, StoragePrefix, replies);
              && requests == rep.requests
              && (rep.result.Failure? ==> outcome == Failure(UploadFailed + BothFailed) && inserts == [])
              && (rep.result.Success? ==>
                    var run := CommitFrom(Candidates(CommitContext(file, rep.result.value, fileId, req, fileExt),
                                                        randomBytes), dbExecute, 0);
                    inserts == run.inserts && outcome == ResultOf(run.outcome, rep.result.value))
    ensures outcome.Success? ==>
              && inserts != []
              && outcome.value.filename == inserts[|inserts| - 1].filename
              && outcome.value.url == inserts[|inserts| - 1].publicUrl
  {
    if file.size > MaxUploadSize {
      return Failure(LimitExceeded), [], [];
    }

    var replication;
    replication, requests := UploadToMultipleProviders(file.contents, file.mimetype, StoragePrefix, replies);
    if replication.Failure? {
      return Failure(UploadFailed + replication.error), requests, [];
    }
    var rep := replication.value;
    var committed;
    committed, inserts := CommitRecord(CommitContext(file, rep, fileId, req, fileExt), randomBytes, dbExecute);
    match committed
    case Failure(message) =>
      outcome := Failure(message);
    case Success(row) =>
      outcome := Success(UploadResult(row.publicUrl, row.filename, Summary(rep)));
  }

  // ---------------------------------------------------------------------
  // sendUploadResponse

  /** The JSON body of a successful upload. */
  datatype UploadJson = UploadJson(status: string, url: string, filename: string, originalName: string)

  /** Either a 200 JSON reply or the rendered `index` page. */
  datatype UploadReply =
    | JsonReply(httpStatus: nat, body: UploadJson)
    | RenderedPage(view: string, uploadedUrl: string, uploadedFile: string)

  /** `sendUploadResponse(req, res, result, uploadedFile)`: JSON when the
      Accept header mentions application/json or the path mentions
      api.php, the HTML page otherwise; both carry the same public URL. */
  function SendUploadResponse(accept: Option<string>, path: string, result: UploadResult,
                              uploadedFile: string): (reply: UploadReply)
    ensures reply.JsonReply? <==>
              (Truthy(accept) && Includes(accept.value, "application/json")) || Includes(path, "api.php")
    ensures reply.JsonReply? ==>
              reply == JsonReply(200, UploadJson("success", result.url, result.filename, uploadedFile))
    ensures reply.RenderedPage? ==> reply == RenderedPage("index", result.url, uploadedFile)
  {
    var acceptsJson := Truthy(accept) && Includes(accept.value, "application/json");
    if acceptsJson || Includes(path, "api.php") then
      JsonReply(200, UploadJson("success", result.url, result.filename, uploadedFile))
    else
      RenderedPage("index", result.url, uploadedFile)
  }

  /** A client gets the JSON reply whenever its Accept header names
      application/json among other types, or the request came in on a
      path containing api.php, whatever else the header says. */
  lemma JsonWhenAsked(types: string, otherTypes: string, path: string, apiPrefix: string, apiSuffix: string,
                      accept: Option<string>, result: UploadResult, uploadedFile: string)
    ensures SendUploadResponse(Some(types + "application/json" + otherTypes), path, result, uploadedFile)
         == JsonReply(200, UploadJson("success", result.url, result.filename, uploadedFile))
    ensures SendUploadResponse(accept, apiPrefix + "api.php" + apiSuffix, result, uploadedFile)
         == JsonReply(200, UploadJson("success", result.url, result.filename, uploadedFile))
  {
    IncludesInfix(types, "application/json", otherTypes);
    IncludesInfix(apiPrefix, "api.php", apiSuffix);
  }
}
