/**
 * The web service (main.py): the upload handler, which validates the
 * request, parses the deck, runs the evaluation and stores the report, and
 * the result handler, which answers from the in-memory cache or from the
 * stored report. The reports directory is a map from file path to record;
 * the uploaded bytes are represented by what the two document libraries
 * make of them.
 */
module Server {
  import opened Wrappers
  import opened PyStr
  import GroqClient
  import Parsers
  import Crew

  const UploadDir := "uploads"
  const ReportsDir := "reports"

  /** The form fields of an upload. */
  datatype Form = Form(
    companyName: string,
    sector: string,
    stage: string,
    fundingAsk: string,
    fundThesis: string,
    contactEmail: string)

  /** An upload request: the client's file name (absent or empty when none was sent), the form, the file. */
  datatype UploadRequest = UploadRequest(filename: Option<string>, form: Form, file: Parsers.FileViews)

  /**
   * What the handler reads from its environment: the `GROQ_API_KEY`
   * variable, the remote model behind that key, the library behaviour,
   * and Python's `round(x, 2)`.
   */
  datatype Env = Env(
    groqApiKey: Option<string>,
    service: GroqClient.Service,
    rt: GroqClient.Runtime,
    round2: real -> real)

  /** A stored evaluation: the crew's result with its id, timestamp and file name added. */
  datatype Record = Record(evaluation: Crew.Evaluation, evaluationId: string, timestamp: string, filename: string)

  /** What a handler answers: the upload's JSON body, a stored record, or an HTTPException. */
  datatype Reply =
    | Uploaded(evaluationId: string, result: Record)
    | Found(record: Record)
    | HttpError(status: int, detail: string)

  /** POSIX `os.path.join(dir, name)`: an absolute `name` replaces `dir`. */
  function PathJoin(dir: string, name: string): (r: string)
    ensures name != [] && name[0] == '/' ==> r == name
    ensures (name == [] || name[0] != '/') && dir != [] && dir[|dir| - 1] != '/' ==> r == dir + "/" + name
    ensures (name == [] || name[0] != '/') && (dir == [] || dir[|dir| - 1] == '/') ==> r == dir + name
  {
    if name != [] && name[0] == '/' then name
    else if dir == [] || dir[|dir| - 1] == '/' then dir + name
    else dir + "/" + name
  }

  /** Where the upload is saved: `uploads/<id><ext>`. */
  function UploadPath(id: string, ext: string): string {
    PathJoin(UploadDir, id + ext)
  }

  /** Where the report is stored: `reports/<id>.json`. */
  function ReportPath(id: string): string {
    PathJoin(ReportsDir, id + ".json")
  }

  /** The extensions the upload handler accepts. */
  predicate Accepted(ext: string) {
    ext == ".pdf" || ext == ".pptx"
  }

  /**
   * The three refusals before anything is written, in the handler's order:
   * no API key (500), no file name (400), an extension other than ".pdf"
   * or ".pptx" after lower-casing (400). `None` means the request passes.
   */
  function CheckUpload(apiKey: Option<string>, filename: Option<string>): (r: Option<Reply>)
    ensures r.Some? ==> r.value.HttpError?
    ensures r.None? <==>
      apiKey.Some? && apiKey.value != "" && filename.Some? && filename.value != "" && Accepted(LowerExt(filename.value))
    ensures (apiKey.None? || apiKey.value == "") ==> r == Some(HttpError(500, "GROQ_API_KEY not configured"))
    ensures apiKey.Some? && apiKey.value != "" && (filename.None? || filename.value == "") ==>
      r == Some(HttpError(400, "No filename provided"))
    ensures apiKey.Some? && apiKey.value != "" && filename.Some? && filename.value != "" && !Accepted(LowerExt(filename.value)) ==>
      r == Some(HttpError(400, "Only PDF and PPTX files are supported"))
  {
    if apiKey.None? || apiKey.value == "" then Some(HttpError(500, "GROQ_API_KEY not configured"))
    else if filename.None? || filename.value == "" then Some(HttpError(400, "No filename provided"))
    else if !Accepted(LowerExt(filename.value)) then Some(HttpError(400, "Only PDF and PPTX files are supported"))
    else None
  }

  /** The deck dictionary handed to the crew. */
  function DeckData(form: Form, content: string): map<string, string> {
    map[
      "company_name" := form.companyName,
      "sector" := form.sector,
      "stage" := form.stage,
      "funding_ask" := form.fundingAsk,
      "fund_thesis" := form.fundThesis,
      "content" := content]
  }

  /** The detail of the 500 the handler raises for anything that fails after the checks. */
  function Failed(message: string): Reply {
    HttpError(500, "Evaluation failed: " + message)
  }

  /**
   * What `upload_deck` answers, for a given evaluation id, timestamp, and
   * outcome of writing the report (`writeError`, the message of what the
   * write raised).
   */
  function UploadOutcome(env: Env, req: UploadRequest, id: string, timestamp: string, writeError: Option<string>): Reply {
    match CheckUpload(env.groqApiKey, req.filename)
    case Some(refusal) => refusal
    case None =>
      var filename := req.filename.value;
      var path := UploadPath(id, LowerExt(filename));
      match Parsers.ParseDocument(path, req.file)
      case Failure(e) => Failed(Parsers.ParseErrorMessage(e))
      case Success(doc) =>
        match Crew.Evaluate(DeckData(req.form, doc.content),
                            Crew.GroqScorer(env.service, env.rt), Crew.GroqDecider(env.service, env.rt), env.round2)
        case Failure(m) => Failed(m)
        case Success(evaluation) =>
          if writeError.Some? then Failed(writeError.value)
          else Uploaded(id, Record(evaluation, id, timestamp, filename))
  }

  /** What `get_result` answers: the cached record, else the stored report, else 404. */
  function Lookup(cache: map<string, Record>, reports: map<string, Record>, id: string): Reply {
    if id in cache then Found(cache[id])
    else if ReportPath(id) in reports then Found(reports[ReportPath(id)])
    else HttpError(404, "Evaluation not found")
  }

  /** Every cached record is the one stored in its report. */
  predicate CacheMirrorsReports(cache: map<string, Record>, reports: map<string, Record>) {
    forall id :: id in cache ==> ReportPath(id) in reports && reports[ReportPath(id)] == cache[id]
  }

  /**
   * The part of `upload_deck` inside its `try`: parse the saved file, run
   * the crew, and (when the report is written) build the record.
   */
  method Attempt(env: Env, req: UploadRequest, filePath: string, id: string, timestamp: string, writeError: Option<string>)
    returns (reply: Reply)
    requires CheckUpload(env.groqApiKey, req.filename).None?
    requires filePath == UploadPath(id, LowerExt(req.filename.value))
    ensures reply == UploadOutcome(env, req, id, timestamp, writeError)
  {
    var parsed := Parsers.ParseDocument(filePath, req.file);
    if parsed.Failure? {
      return Failed(Parsers.ParseErrorMessage(parsed.error));
    }
    var deckData := DeckData(req.form, parsed.value.content);
    var evaluation, _ := Crew.EvaluatePitchDeck(deckData,
      Crew.GroqScorer(env.service, env.rt), Crew.GroqDecider(env.service, env.rt), env.round2);
    if evaluation.Failure? {
      return Failed(evaluation.error);
    }
    var record := Record(evaluation.value, id, timestamp, req.filename.value);
    if writeError.Some? {
      return Failed(writeError.value);
    }
    reply := Uploaded(id, record);
  }

  /** The process state: `evaluation_cache` and the reports directory. */
  class App {
    var cache: map<string, Record>
    var reports: map<string, Record>

    ghost predicate Valid()
      reads this
    {
      CacheMirrorsReports(cache, reports)
    }

    /** A fresh process over an existing reports directory: the cache starts empty. */
    constructor(reports: map<string, Record>)
      ensures Valid()
      ensures cache == map[] && this.reports == reports
    {
      cache := map[];
      this.reports := reports;
    }

    /**
     * `upload_deck`: on success the report is written and then the record
     * cached, both under the new id; every refusal and failure leaves both
     * unchanged.
     */
    method Upload(env: Env, req: UploadRequest, id: string, timestamp: string, writeError: Option<string>)
      returns (reply: Reply)
      requires Valid()
      modifies this
      ensures Valid()
      ensures reply == UploadOutcome(env, req, id, timestamp, writeError)
      ensures reply.Uploaded? ==>
        reports == old(reports)[ReportPath(id) := reply.result] && cache == old(cache)[id := reply.result]
      ensures !reply.Uploaded? ==> reports == old(reports) && cache == old(cache)
      ensures old(cache).Keys <= cache.Keys
    {
      var refusal := CheckUpload(env.groqApiKey, req.filename);
      if refusal.Some? {
        return refusal.value;
      }
      var filename := req.filename.value;
      var fileExt := LowerExt(filename);
      var filePath := UploadPath(id, fileExt);
      reply := Attempt(env, req, filePath, id, timestamp, writeError);
      if reply.Uploaded? {
        UploadThenLookup(cache, reports, id, reply.result);
        reports := reports[ReportPath(id) := reply.result];
        cache := cache[id := reply.result];
      }
    }

    /**
     * `get_result`: the cache answers first; a record found only in the
     * reports directory is cached on the way out; nothing else changes.
     */
    method Get(id: string) returns (reply: Reply)
      requires Valid()
      modifies this
      ensures Valid()
      ensures reply == Lookup(old(cache), old(reports), id)
      ensures reports == old(reports)
      ensures id !in old(cache) && ReportPath(id) in reports ==> cache == old(cache)[id := reports[ReportPath(id)]]
      ensures id in old(cache) || ReportPath(id) !in reports ==> cache == old(cache)
      ensures old(cache).Keys <= cache.Keys
    {
      if id in cache {
        return Found(cache[id]);
      }
      var reportPath := ReportPath(id);
      if reportPath in reports {
        var result := reports[reportPath];
        cache := cache[id := result];
        return Found(result);
      }
      return HttpError(404, "Evaluation not found");
    }
  }

  // ---------------------------------------------------------------- lemmas

  /** Distinct ids have distinct report paths (an absolute one never equals one under `reports/`). */
  lemma ReportPathInjective(a: string, b: string)
    requires ReportPath(a) == ReportPath(b)
    ensures a == b
  {
    var p := ReportPath(a);
    var absA := a != [] && a[0] == '/';
    var absB := b != [] && b[0] == '/';
    if absA && absB {
      assert a == p[..|a|];
    } else if !absA && !absB {
      assert p == "reports/" + (a + ".json") == "reports/" + (b + ".json");
      assert a == p[8..8 + |a|];
    }
  }

  /** While the cache mirrors the reports, answering from the cache is the same as reading the report. */
  lemma CacheIsTransparent(cache: map<string, Record>, reports: map<string, Record>, id: string)
    requires CacheMirrorsReports(cache, reports)
    ensures Lookup(cache, reports, id) ==
      if ReportPath(id) in reports then Found(reports[ReportPath(id)]) else HttpError(404, "Evaluation not found")
  {
  }

  /**
   * An id shaped like `str(uuid.uuid4())` has no dot and no slash, so the
   * upload path keeps exactly the accepted extension and the dispatcher
   * picks the parser the handler checked for.
   */
  lemma UploadPathKeepsExtension(id: string, ext: string)
    requires id != [] && '.' !in id && '/' !in id
    requires Accepted(ext)
    ensures LowerExt(UploadPath(id, ext)) == ext
  {
    var root := "uploads/" + id;
    assert UploadPath(id, ext) == root + ext;
    UploadRootHasName(id);
    AcceptedExtensionShape(ext);
    SplitextAppend(root, ext);
  }

  /** An accepted extension is one dot followed by lower-case letters. */
  lemma AcceptedExtensionShape(ext: string)
    requires Accepted(ext)
    ensures |ext| >= 1 && ext[0] == '.' && '/' !in ext
    ensures forall k :: 1 <= k < |ext| ==> ext[k] != '.'
    ensures Lower(ext) == ext
  {
    assert Lower(ext) == ext;
  }

  /** `uploads/<id>` ends in a component with a non-dot character when the id is non-empty and dot- and slash-free. */
  lemma UploadRootHasName(id: string)
    requires id != [] && '.' !in id && '/' !in id
    ensures HasNonDot("uploads/" + id, RFind("uploads/" + id, '/') + 1, |"uploads/" + id|)
  {
    var root := "uploads/" + id;
    forall k | 7 < k < |root|
      ensures root[k] != '/'
    {
      assert root[k] == id[k - 8];
    }
    assert root[7] == '/';
    RFindUnique(root, '/', 7);
    assert root[8] == id[0];
  }

  /** After the checks pass, an upload never meets the parser's unsupported-format error. */
  lemma AcceptedUploadIsParsed(env: Env, req: UploadRequest, id: string)
    requires id != [] && '.' !in id && '/' !in id
    requires CheckUpload(env.groqApiKey, req.filename).None?
    ensures var r := Parsers.ParseDocument(UploadPath(id, LowerExt(req.filename.value)), req.file);
      !(r.Failure? && r.error.UnsupportedFormat?)
  {
    UploadPathKeepsExtension(id, LowerExt(req.filename.value));
  }

  /**
   * A successful upload's record is the crew's evaluation of the parsed
   * content and the form, tagged with the id, the timestamp and the
   * client's own file name (not lower-cased).
   */
  lemma UploadedRecord(env: Env, req: UploadRequest, id: string, timestamp: string, writeError: Option<string>)
    requires UploadOutcome(env, req, id, timestamp, writeError).Uploaded?
    ensures var reply := UploadOutcome(env, req, id, timestamp, writeError);
      var path := UploadPath(id, LowerExt(req.filename.value));
      var doc := Parsers.ParseDocument(path, req.file);
      && CheckUpload(env.groqApiKey, req.filename).None?
      && writeError.None?
      && doc.Success?
      && reply.evaluationId == id
      && reply.result.evaluationId == id
      && reply.result.timestamp == timestamp
      && reply.result.filename == req.filename.value
      && Crew.Evaluate(DeckData(req.form, doc.value.content),
           Crew.GroqScorer(env.service, env.rt), Crew.GroqDecider(env.service, env.rt), env.round2)
         == Success(reply.result.evaluation)
  {
  }

  /** A request refused by the checks answers with that refusal, whatever the file and the backend. */
  lemma RefusalsComeFirst(env: Env, req: UploadRequest, id: string, timestamp: string, writeError: Option<string>)
    requires CheckUpload(env.groqApiKey, req.filename).Some?
    ensures UploadOutcome(env, req, id, timestamp, writeError) == CheckUpload(env.groqApiKey, req.filename).value
    ensures UploadOutcome(env, req, id, timestamp, writeError).HttpError?
    ensures UploadOutcome(env, req, id, timestamp, writeError).status in {400, 500}
  {
  }

  /**
   * Once the checks pass, an upload either succeeds or answers 500
   * "Evaluation failed: <message>", where the message is that of the parse
   * error, of the crew's exception, or of the failed report write, in that
   * order of precedence.
   */
  lemma FailuresAreReported(env: Env, req: UploadRequest, id: string, timestamp: string, writeError: Option<string>)
    requires CheckUpload(env.groqApiKey, req.filename).None?
    ensures var r := UploadOutcome(env, req, id, timestamp, writeError);
      r.Uploaded? || (r.HttpError? && r.status == 500 && |r.detail| >= 19 && r.detail[..19] == "Evaluation failed: ")
    ensures var doc := Parsers.ParseDocument(UploadPath(id, LowerExt(req.filename.value)), req.file);
      doc.Failure? ==> UploadOutcome(env, req, id, timestamp, writeError) == Failed(Parsers.ParseErrorMessage(doc.error))
    ensures var doc := Parsers.ParseDocument(UploadPath(id, LowerExt(req.filename.value)), req.file);
      doc.Success? ==>
        var e := Crew.Evaluate(DeckData(req.form, doc.value.content),
          Crew.GroqScorer(env.service, env.rt), Crew.GroqDecider(env.service, env.rt), env.round2);
        && (e.Failure? ==> UploadOutcome(env, req, id, timestamp, writeError) == Failed(e.error))
        && (e.Success? && writeError.Some? ==> UploadOutcome(env, req, id, timestamp, writeError) == Failed(writeError.value))
  {
  }

  /** A report that cannot be written turns the upload into a 500 carrying the write's message. */
  lemma WriteFailureIsReported(env: Env, req: UploadRequest, id: string, timestamp: string, message: string)
    requires UploadOutcome(env, req, id, timestamp, None).Uploaded?
    ensures UploadOutcome(env, req, id, timestamp, Some(message)) == HttpError(500, "Evaluation failed: " + message)
  {
    UploadedRecord(env, req, id, timestamp, None);
    FailuresAreReported(env, req, id, timestamp, Some(message));
  }

  /**
   * After a successful upload the result is found under its id, both by
   * the running process and by a fresh one that starts with an empty
   * cache over the same reports.
   */
  lemma UploadThenLookup(cache: map<string, Record>, reports: map<string, Record>, id: string, rec: Record)
    requires CacheMirrorsReports(cache, reports)
    ensures CacheMirrorsReports(cache[id := rec], reports[ReportPath(id) := rec])
    ensures Lookup(cache[id := rec], reports[ReportPath(id) := rec], id) == Found(rec)
    ensures Lookup(map[], reports[ReportPath(id) := rec], id) == Found(rec)
  {
    forall k | k in cache[id := rec]
      ensures ReportPath(k) in reports[ReportPath(id) := rec]
      ensures reports[ReportPath(id) := rec][ReportPath(k)] == cache[id := rec][k]
    {
      if k != id && ReportPath(k) == ReportPath(id) {
        ReportPathInjective(k, id);
      }
    }
  }

  /** An upload under one id does not change what another id answers. */
  lemma UploadLeavesOtherIds(cache: map<string, Record>, reports: map<string, Record>, id: string, other: string, rec: Record)
    requires CacheMirrorsReports(cache, reports)
    requires other != id
    ensures Lookup(cache[id := rec], reports[ReportPath(id) := rec], other) == Lookup(cache, reports, other)
  {
    if ReportPath(other) == ReportPath(id) {
      ReportPathInjective(other, id);
    }
  }
}
