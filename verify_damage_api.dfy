/** The damage-verification endpoint (`pages/api/verify-damage.js`): a fixed
    pipeline that validates the multipart form, uploads the before image and
    then the after image to the `damage-reports` bucket under the rental id,
    runs the verification agent on the two public URLs, and inserts one
    `damage_reports` row. Each step can fail, and a failure stops the
    pipeline; uploads already made are left in place. */
module VerifyDamageApi {
  import opened Common
  import opened Tables
  import Text
  import AgentProcess

  /** An uploaded file as the form parser describes it. */
  datatype File = File(content: Bytes, originalFilename: string, mimetype: string)

  /** A parsed form entry: missing, one value, or an array of values. */
  datatype Multi<T> = Absent | One(value: T) | Many(values: seq<T>)

  /** The multipart form, or the parser's error message. */
  datatype Form =
    | ParseFailed(message: string)
    | Form(beforeImage: Multi<File>, afterImage: Multi<File>, rentalId: Multi<string>,
           reporterId: Multi<string>, description: Multi<string>)

  /** What `JSON.parse(agentResult)` destructures into
      `{ verification_score, damage_heatmap_url }`, or the exception's message. */
  datatype Verdict = Verdict(score: Value, heatmapUrl: Value) | NotJson(message: string)

  /** Everything the handler receives from outside: the two generated uuids,
      the storage failures (if any) of the two uploads, the project URL, the
      agent run and JSON parsing, the insert failure (if any) and the id the
      store gives the new row. */
  datatype Env = Env(uuidBefore: string, uuidAfter: string,
                     uploadBeforeFailure: Option<string>, uploadAfterFailure: Option<string>,
                     projectUrl: string, run: AgentProcess.Run, parse: string -> Verdict,
                     insertFailure: Option<string>, reportId: string)

  datatype Image = Before | After

  /** Steps visible outside the handler, in the order they were attempted. */
  datatype Effect =
    | Upload(image: Image, path: string)
    | SpawnAgent(beforeUrl: string, afterUrl: string)
    | InsertReport(row: Dict)

  datatype Body = Error(error: string) | Report(row: Dict)

  datatype Response = Response(code: int, body: Body)

  /** One upload: its public URL, or the error message. */
  datatype Uploaded = Uploaded(path: string, url: string) | UploadFailed(message: string)

  /** An upload's result, the bucket afterwards and the effects it had. */
  datatype Stored = Stored(outcome: Uploaded, blobs: map<string, Bytes>, effects: seq<Effect>)

  /** The whole request: response, effects, bucket and table afterwards. */
  datatype Result = Result(response: Response, effects: seq<Effect>,
                           blobs: map<string, Bytes>, reports: seq<Dict>)

  /** Both uploads' URLs, or the first failure's message, with the effects
      and the bucket afterwards. */
  datatype Both =
    | BothStored(beforeUrl: string, afterUrl: string, effects: seq<Effect>, blobs: map<string, Bytes>)
    | NotStored(message: string, effects: seq<Effect>, blobs: map<string, Bytes>)

  const Bucket := "damage-reports"
  const DefaultDescription := "Damage report"
  const MissingFieldsText := "Missing required fields: beforeImage, afterImage, rental_id, and reporter_id are required."
  const DuplicateObjectText := "The resource already exists"
  /** What reading `file.filepath` of `undefined` (an empty file array) throws. */
  const UndefinedFileText := "Cannot read properties of undefined (reading 'filepath')"

  /** `Array.isArray(v) ? v[0] : v`; an empty array yields undefined. */
  function First<T>(m: Multi<T>): (r: Option<T>)
    ensures m.One? ==> r == Some(m.value)
    ensures m.Absent? ==> r.None?
    ensures m.Many? ==> (r.Some? <==> m.values != [])
    ensures m.Many? && m.values != [] ==> r.value == m.values[0]
  {
    match m
    case Absent => None
    case One(v) => Some(v)
    case Many(vs) => if vs == [] then None else Some(vs[0])
  }

  /** The object path `${rentalId}/${uuid}-${originalFilename}`. */
  function ObjectPath(rentalId: string, uuid: string, filename: string): (p: string)
    ensures Text.IsPrefix(rentalId + "/", p)
  {
    rentalId + "/" + uuid + "-" + filename
  }

  /** The bucket's public URL for a path. */
  function PublicUrl(projectUrl: string, path: string): string
  {
    projectUrl + "/storage/v1/object/public/" + Bucket + "/" + path
  }

  /** `uploadFileToSupabase(file, rentalId)` with `upsert: false`: a new object
      at the rental's path, never an overwrite. */
  function Store(blobs: map<string, Bytes>, image: Image, file: Option<File>, rentalId: string,
                 uuid: string, failure: Option<string>, projectUrl: string): (s: Stored)
    ensures Extends(blobs, s.blobs, rentalId)
    ensures s.outcome.UploadFailed? ==> s.blobs == blobs
    ensures s.outcome.Uploaded? ==>
              file.Some? && s.outcome.path == ObjectPath(rentalId, uuid, file.value.originalFilename) &&
              s.outcome.path !in blobs && s.blobs == blobs[s.outcome.path := file.value.content] &&
              s.outcome.url == PublicUrl(projectUrl, s.outcome.path)
    ensures file.None? ==> s.effects == [] && s.outcome == UploadFailed(UndefinedFileText)
    ensures file.Some? ==> s.effects == [Upload(image, ObjectPath(rentalId, uuid, file.value.originalFilename))]
    ensures file.Some? && failure.Some? ==> s.outcome == UploadFailed("Supabase upload failed: " + failure.value)
    ensures file.Some? && failure.None? ==>
              (s.outcome.Uploaded? <==> ObjectPath(rentalId, uuid, file.value.originalFilename) !in blobs)
    ensures file.Some? && failure.None? && ObjectPath(rentalId, uuid, file.value.originalFilename) in blobs ==>
              s.outcome == UploadFailed("Supabase upload failed: " + DuplicateObjectText)
  {
    match file
    case None => Stored(UploadFailed(UndefinedFileText), blobs, [])
    case Some(f) =>
      var path := ObjectPath(rentalId, uuid, f.originalFilename);
      if failure.Some? then
        Stored(UploadFailed("Supabase upload failed: " + failure.value), blobs, [Upload(image, path)])
      else if path in blobs then
        Stored(UploadFailed("Supabase upload failed: " + DuplicateObjectText), blobs, [Upload(image, path)])
      else
        Stored(Uploaded(path, PublicUrl(projectUrl, path)), blobs[path := f.content], [Upload(image, path)])
  }

  /** The row inserted into `damage_reports`. */
  function ReportRow(rentalId: string, reporterId: string, description: Option<string>,
                     beforeUrl: string, afterUrl: string, score: Value, heatmapUrl: Value): (row: Dict)
    ensures "rental_id" in row && row["rental_id"] == Str(rentalId)
    ensures "reporter_id" in row && row["reporter_id"] == Str(reporterId)
    ensures "description" in row &&
            row["description"] == Str(if Present(description) then description.value else DefaultDescription)
    ensures "image_before_url" in row && row["image_before_url"] == Str(beforeUrl)
    ensures "image_after_url" in row && row["image_after_url"] == Str(afterUrl)
    ensures "verified_by_agent" in row && row["verified_by_agent"] == Bool(true)
    ensures "status" in row && row["status"] == Str("pending")
  {
    var fixed := map[
      "rental_id" := Str(rentalId),
      "reporter_id" := Str(reporterId),
      "description" := Str(if Present(description) then description.value else DefaultDescription),
      "image_before_url" := Str(beforeUrl),
      "image_after_url" := Str(afterUrl),
      "verified_by_agent" := Bool(true),
      "status" := Str("pending")];
    var scored := if score.Undefined? then fixed else fixed["verification_score" := score];
    if heatmapUrl.Undefined? then scored else scored["damage_heatmap_url" := heatmapUrl]
  }

  /** Position of a step in the pipeline. */
  function Rank(e: Effect): nat
  {
    match e
    case Upload(image, _) => if image == Before then 0 else 1
    case SpawnAgent(_, _) => 2
    case InsertReport(_) => 3
  }

  /** Steps happen in pipeline order, each at most once: every step ranks
      above the one before it. */
  predicate InOrder(effects: seq<Effect>)
  {
    forall i :: 0 < i < |effects| ==> Rank(effects[i - 1]) < Rank(effects[i])
  }

  predicate AgentSpawned(effects: seq<Effect>)
  {
    exists i :: 0 <= i < |effects| && effects[i].SpawnAgent?
  }

  /** The required form entries: both files given, and non-empty rental and
      reporter ids after taking the first element of an array. */
  predicate FieldsPresent(f: Form)
    requires f.Form?
  {
    !f.beforeImage.Absent? && !f.afterImage.Absent? &&
    Present(First(f.rentalId)) && Present(First(f.reporterId))
  }

  /** The last two steps: the agent run on the two URLs, then the insert. */
  datatype Tail = Tail(response: Response, effects: seq<Effect>, reports: seq<Dict>)

  function AgentStage(rentalId: string, reporterId: string, description: Option<string>,
                      beforeUrl: string, afterUrl: string, env: Env, reports: seq<Dict>): (t: Tail)
    ensures |t.effects| >= 1 && t.effects[0] == SpawnAgent(beforeUrl, afterUrl)
    ensures |t.effects| <= 2 && (|t.effects| == 2 ==> t.effects[1].InsertReport?)
    ensures Rank(t.effects[0]) == 2 && (|t.effects| == 2 ==> Rank(t.effects[1]) == 3)
    ensures |t.effects| == 2 ==>
              AgentOutput(env).Verdict? &&
              t.effects[1] == InsertReport(ReportRow(rentalId, reporterId, description, beforeUrl, afterUrl,
                                                     AgentOutput(env).score, AgentOutput(env).heatmapUrl))
    ensures t.response.code in {200, 500}
    ensures t.reports != reports <==> t.response.code == 200
    ensures t.response.code == 200 ==>
              env.run.exitCode == 0 && |t.effects| == 2 && t.reports == reports + [t.effects[1].row] &&
              t.response.body == Report(t.effects[1].row["report_id" := Str(env.reportId)])
    ensures t.reports == reports ==> t.response.code == 500
    ensures env.run.exitCode == 0 && AgentOutput(env).NotJson? ==>
              t == Tail(Response(500, Error(AgentOutput(env).message)), [SpawnAgent(beforeUrl, afterUrl)], reports)
    ensures env.run.exitCode == 0 && AgentOutput(env).Verdict? && env.insertFailure.Some? ==>
              |t.effects| == 2 && t.reports == reports &&
              t.response == Response(500, Error("Database insert failed: " + env.insertFailure.value))
    ensures env.run.exitCode == 0 && AgentOutput(env).Verdict? && env.insertFailure.None? ==>
              t.response.code == 200
    ensures env.run.exitCode != 0 ==>
              t == Tail(Response(500, Error("Verification agent failed with exit code " +
                                            Text.IntText(env.run.exitCode) + ".")),
                        [SpawnAgent(beforeUrl, afterUrl)], reports)
  {
    var spawned := [SpawnAgent(beforeUrl, afterUrl)];
    if env.run.exitCode != 0 then
      Tail(Response(500, Error("Verification agent failed with exit code " +
                               Text.IntText(env.run.exitCode) + ".")), spawned, reports)
    else
      match AgentOutput(env)
      case NotJson(m) => Tail(Response(500, Error(m)), spawned, reports)
      case Verdict(score, heatmapUrl) =>
        var row := ReportRow(rentalId, reporterId, description, beforeUrl, afterUrl, score, heatmapUrl);
        if env.insertFailure.Some? then
          Tail(Response(500, Error("Database insert failed: " + env.insertFailure.value)),
               spawned + [InsertReport(row)], reports)
        else
          Tail(Response(200, Report(row["report_id" := Str(env.reportId)])),
               spawned + [InsertReport(row)], reports + [row])
  }

  /** Uploads keep every existing object and add objects only under the
      rental's folder. */
  predicate Extends(blobs: map<string, Bytes>, later: map<string, Bytes>, rentalId: string)
  {
    (forall k :: k in blobs ==> k in later && later[k] == blobs[k]) &&
    (forall k :: k in later && k !in blobs ==> Text.IsPrefix(rentalId + "/", k))
  }

  lemma ExtendsTransitive(blobs: map<string, Bytes>, mid: map<string, Bytes>, last: map<string, Bytes>,
                          rentalId: string)
    requires Extends(blobs, mid, rentalId) && Extends(mid, last, rentalId)
    ensures Extends(blobs, last, rentalId)
  {
  }

  /** What `JSON.parse` makes of the agent's accumulated output. */
  function AgentOutput(env: Env): Verdict
  {
    env.parse(AgentProcess.Concat(env.run.stdout))
  }

  /** The object path an upload of `f` would get. */
  function PathFor(rentalId: string, uuid: string, f: Option<File>): string
  {
    if f.Some? then ObjectPath(rentalId, uuid, f.value.originalFilename) else ""
  }

  /** The public URLs the agent receives for the two images. */
  function BeforeUrl(rentalId: string, before: Option<File>, env: Env): string
  {
    PublicUrl(env.projectUrl, PathFor(rentalId, env.uuidBefore, before))
  }

  function AfterUrl(rentalId: string, after: Option<File>, env: Env): string
  {
    PublicUrl(env.projectUrl, PathFor(rentalId, env.uuidAfter, after))
  }

  /** Both images were stored as new objects: the before image at its path,
      then the after image at a different path, neither of which existed. */
  predicate UploadedBoth(blobs: map<string, Bytes>, later: map<string, Bytes>, effects: seq<Effect>,
                         before: Option<File>, after: Option<File>, rentalId: string, env: Env)
  {
    var p0 := PathFor(rentalId, env.uuidBefore, before);
    var p1 := PathFor(rentalId, env.uuidAfter, after);
    before.Some? && after.Some? &&
    effects == [Upload(Before, p0), Upload(After, p1)] &&
    p0 !in blobs && p1 !in blobs && p0 != p1 &&
    later == blobs[p0 := before.value.content][p1 := after.value.content]
  }

  /** The before image's upload succeeds: the file is there, the store
      reports no error and its path is new. */
  predicate BeforeStored(blobs: map<string, Bytes>, before: Option<File>, rentalId: string, env: Env)
  {
    before.Some? && env.uploadBeforeFailure.None? && PathFor(rentalId, env.uuidBefore, before) !in blobs
  }

  /** Both uploads succeed: both files are there, the store reports no
      error, and the two paths are distinct and new. */
  predicate UploadsSucceed(blobs: map<string, Bytes>, before: Option<File>, after: Option<File>,
                           rentalId: string, env: Env)
  {
    BeforeStored(blobs, before, rentalId, env) && after.Some? && env.uploadAfterFailure.None? &&
    PathFor(rentalId, env.uuidAfter, after) !in blobs &&
    PathFor(rentalId, env.uuidAfter, after) != PathFor(rentalId, env.uuidBefore, before)
  }

  /** The before image's upload succeeds exactly when `BeforeStored` holds. */
  lemma StoreBefore(blobs: map<string, Bytes>, before: Option<File>, rentalId: string, env: Env, s1: Stored)
    requires s1 == Store(blobs, Before, before, rentalId, env.uuidBefore, env.uploadBeforeFailure, env.projectUrl)
    ensures s1.outcome.Uploaded? <==> BeforeStored(blobs, before, rentalId, env)
    ensures s1.effects == (if before.Some? then [Upload(Before, PathFor(rentalId, env.uuidBefore, before))] else [])
  {
  }

  /** After a stored before image, the after image's upload succeeds
      exactly when both uploads do. */
  lemma StoreAfter(blobs: map<string, Bytes>, before: Option<File>, after: Option<File>, rentalId: string,
                   env: Env, s1: Stored, s2: Stored)
    requires s1 == Store(blobs, Before, before, rentalId, env.uuidBefore, env.uploadBeforeFailure, env.projectUrl)
    requires s1.outcome.Uploaded?
    requires s2 == Store(s1.blobs, After, after, rentalId, env.uuidAfter, env.uploadAfterFailure, env.projectUrl)
    ensures s2.outcome.Uploaded? <==> UploadsSucceed(blobs, before, after, rentalId, env)
    ensures s2.effects == (if after.Some? then [Upload(After, PathFor(rentalId, env.uuidAfter, after))] else [])
  {
    StoreBefore(blobs, before, rentalId, env, s1);
  }

  /** Two successful uploads store both images as new objects. */
  lemma BothStoredFacts(blobs: map<string, Bytes>, before: Option<File>, after: Option<File>,
                        rentalId: string, env: Env, s1: Stored, s2: Stored)
    requires s1 == Store(blobs, Before, before, rentalId, env.uuidBefore, env.uploadBeforeFailure, env.projectUrl)
    requires s2 == Store(s1.blobs, After, after, rentalId, env.uuidAfter, env.uploadAfterFailure, env.projectUrl)
    requires s1.outcome.Uploaded? && s2.outcome.Uploaded?
    ensures UploadedBoth(blobs, s2.blobs, s1.effects + s2.effects, before, after, rentalId, env)
    ensures s1.outcome.url == BeforeUrl(rentalId, before, env) && s2.outcome.url == AfterUrl(rentalId, after, env)
  {
    assert s1.outcome.path in s1.blobs;
  }

  /** The two uploads, before image first; the second is not attempted
      when the first fails. */
  function Uploads(blobs: map<string, Bytes>, before: Option<File>, after: Option<File>,
                   rentalId: string, env: Env): (u: Both)
    ensures Extends(blobs, u.blobs, rentalId)
    ensures InOrder(u.effects) && !AgentSpawned(u.effects)
    ensures u.BothStored? ==>
              UploadedBoth(blobs, u.blobs, u.effects, before, after, rentalId, env) &&
              u.beforeUrl == BeforeUrl(rentalId, before, env) && u.afterUrl == AfterUrl(rentalId, after, env)
    ensures u.BothStored? <==> UploadsSucceed(blobs, before, after, rentalId, env)
    ensures !BeforeStored(blobs, before, rentalId, env) ==>
              u.NotStored? && u.blobs == blobs &&
              u.effects == (if before.Some? then [Upload(Before, PathFor(rentalId, env.uuidBefore, before))] else []) &&
              u.message == Store(blobs, Before, before, rentalId, env.uuidBefore, env.uploadBeforeFailure,
                                 env.projectUrl).outcome.message
    ensures BeforeStored(blobs, before, rentalId, env) && !UploadsSucceed(blobs, before, after, rentalId, env) ==>
              var stored := blobs[PathFor(rentalId, env.uuidBefore, before) := before.value.content];
              u.NotStored? && u.blobs == stored &&
              u.message == Store(stored, After, after, rentalId, env.uuidAfter, env.uploadAfterFailure,
                                 env.projectUrl).outcome.message
    ensures BeforeStored(blobs, before, rentalId, env) ==>
              u.effects == [Upload(Before, PathFor(rentalId, env.uuidBefore, before))] +
                           (if after.Some? then [Upload(After, PathFor(rentalId, env.uuidAfter, after))] else [])
  {
    var s1 := Store(blobs, Before, before, rentalId, env.uuidBefore, env.uploadBeforeFailure, env.projectUrl);
    StoreBefore(blobs, before, rentalId, env, s1);
    if s1.outcome.UploadFailed? then
      assert forall i :: 0 <= i < |s1.effects| ==> s1.effects[i].Upload?;
      NotStored(s1.outcome.message, s1.effects, s1.blobs)
    else
      var s2 := Store(s1.blobs, After, after, rentalId, env.uuidAfter, env.uploadAfterFailure, env.projectUrl);
      StoreAfter(blobs, before, after, rentalId, env, s1, s2);
      ExtendsTransitive(blobs, s1.blobs, s2.blobs, rentalId);
      var effects := s1.effects + s2.effects;
      assert forall i :: 0 <= i < |effects| ==> effects[i].Upload?;
      if s2.outcome.UploadFailed? then
        NotStored(s2.outcome.message, effects, s2.blobs)
      else
        BothStoredFacts(blobs, before, after, rentalId, env, s1, s2);
        BothStored(s1.outcome.url, s2.outcome.url, effects, s2.blobs)
  }

  /** The two uploads followed by the agent stage keep the pipeline order
      and include the agent run. */
  lemma UploadsThenAgent(uploads: seq<Effect>, tail: seq<Effect>)
    requires |uploads| == 2 && Rank(uploads[0]) == 0 && Rank(uploads[1]) == 1
    requires 1 <= |tail| <= 2 && tail[0].SpawnAgent? && Rank(tail[0]) == 2
    requires |tail| == 2 ==> Rank(tail[1]) == 3
    ensures InOrder(uploads + tail) && AgentSpawned(uploads + tail)
    ensures |uploads + tail| >= 3 && (uploads + tail)[..2] == uploads
    ensures (uploads + tail)[0] == uploads[0] && (uploads + tail)[1] == uploads[1]
    ensures (uploads + tail)[2] == tail[0]
  {
    var all := uploads + tail;
    assert all[2] == tail[0];
    assert |all| == 4 ==> all[3] == tail[1];
  }

  /** The pipeline after validation: upload before, upload after, then the
      agent and the insert. Steps happen in that order, each at most once. */
  function Pipeline(rentalId: string, reporterId: string, description: Option<string>,
                    before: Option<File>, after: Option<File>, env: Env,
                    blobs: map<string, Bytes>, reports: seq<Dict>): (r: Result)
    ensures r.response.code in {200, 500}
    ensures Extends(blobs, r.blobs, rentalId)
    ensures InOrder(r.effects)
    ensures AgentSpawned(r.effects) ==>
              |r.effects| >= 3 && UploadedBoth(blobs, r.blobs, r.effects[..2], before, after, rentalId, env) &&
              r.effects[2] == SpawnAgent(BeforeUrl(rentalId, before, env), AfterUrl(rentalId, after, env))
    ensures r.reports != reports <==> r.response.code == 200
    ensures r.response.code == 200 ==>
              AgentSpawned(r.effects) && env.run.exitCode == 0 && AgentOutput(env).Verdict? &&
              r.reports == reports + [ReportRow(rentalId, reporterId, description,
                                                BeforeUrl(rentalId, before, env), AfterUrl(rentalId, after, env),
                                                AgentOutput(env).score, AgentOutput(env).heatmapUrl)]
    ensures !UploadsSucceed(blobs, before, after, rentalId, env) ==>
              r.response == Response(500, Error(Uploads(blobs, before, after, rentalId, env).message)) &&
              !AgentSpawned(r.effects) && r.reports == reports &&
              r.blobs == Uploads(blobs, before, after, rentalId, env).blobs
    ensures BeforeStored(blobs, before, rentalId, env) && !UploadsSucceed(blobs, before, after, rentalId, env) ==>
              r.blobs == blobs[PathFor(rentalId, env.uuidBefore, before) := before.value.content]
    ensures UploadsSucceed(blobs, before, after, rentalId, env) ==>
              var t := AgentStage(rentalId, reporterId, description,
                                  BeforeUrl(rentalId, before, env), AfterUrl(rentalId, after, env), env, reports);
              r.response == t.response && r.reports == t.reports
    ensures (UploadsSucceed(blobs, before, after, rentalId, env) && env.run.exitCode == 0 &&
             AgentOutput(env).Verdict? && env.insertFailure.None?) ==> r.response.code == 200
  {
    match Uploads(blobs, before, after, rentalId, env)
    case NotStored(message, effects, stored) =>
      Result(Response(500, Error(message)), effects, stored, reports)
    case BothStored(beforeUrl, afterUrl, effects, stored) =>
      var t := AgentStage(rentalId, reporterId, description, beforeUrl, afterUrl, env, reports);
      var all := effects + t.effects;
      UploadsThenAgent(effects, t.effects);
      Result(t.response, all, stored, t.reports)
  }

  /** The handler, as a function of the bucket and the table before the
      request. */
  function VerifyDamage(httpMethod: string, form: Form, env: Env,
                        blobs: map<string, Bytes>, reports: seq<Dict>): (r: Result)
    ensures r.response.code == 405 <==> httpMethod != "POST"
    ensures r.response.code == 400 <==> httpMethod == "POST" && form.Form? && !FieldsPresent(form)
    ensures r.response.code in {200, 400, 405, 500}
    ensures r.response.code in {400, 405} ==> r.effects == [] && r.blobs == blobs && r.reports == reports
    ensures httpMethod == "POST" && form.ParseFailed? ==>
              r == Result(Response(500, Error("Form parsing failed: " + form.message)), [], blobs, reports)
    ensures httpMethod == "POST" && form.Form? && FieldsPresent(form) ==>
              r == Pipeline(First(form.rentalId).value, First(form.reporterId).value, First(form.description),
                            First(form.beforeImage), First(form.afterImage), env, blobs, reports)
    ensures forall k :: k in r.blobs && k !in blobs ==>
              form.Form? && Present(First(form.rentalId)) &&
              Text.IsPrefix(First(form.rentalId).value + "/", k)
  {
    if httpMethod != "POST" then
      Result(Response(405, Error("Method Not Allowed")), [], blobs, reports)
    else
      match form
      case ParseFailed(m) =>
        Result(Response(500, Error("Form parsing failed: " + m)), [], blobs, reports)
      case Form(before, after, rid, rep, desc) =>
        if !FieldsPresent(form) then
          Result(Response(400, Error(MissingFieldsText)), [], blobs, reports)
        else
          Pipeline(First(rid).value, First(rep).value, First(desc), First(before), First(after),
                   env, blobs, reports)
  }

  /** `uploadFileToSupabase`: reads the file and uploads it to the bucket. */
  method UploadFile(db: Db, image: Image, file: Option<File>, rentalId: string, uuid: string,
                    failure: Option<string>, projectUrl: string)
    returns (outcome: Uploaded, effects: seq<Effect>)
    modifies db`blobs
    ensures Stored(outcome, db.blobs, effects) ==
            Store(old(db.blobs), image, file, rentalId, uuid, failure, projectUrl)
  {
    if file.None? {
      return UploadFailed(UndefinedFileText), [];
    }
    var path := ObjectPath(rentalId, uuid, file.value.originalFilename);
    effects := [Upload(image, path)];
    if failure.Some? {
      outcome := UploadFailed("Supabase upload failed: " + failure.value);
    } else if path in db.blobs {
      outcome := UploadFailed("Supabase upload failed: " + DuplicateObjectText);
    } else {
      db.blobs := db.blobs[path := file.value.content];
      outcome := Uploaded(path, PublicUrl(projectUrl, path));
    }
  }

  /** Uploads the before image, then the after image unless the first
      upload failed. */
  method UploadBoth(db: Db, before: Option<File>, after: Option<File>, rentalId: string, env: Env)
    returns (u: Both)
    modifies db`blobs
    ensures u == Uploads(old(db.blobs), before, after, rentalId, env) && db.blobs == u.blobs
  {
    var first, e1 := UploadFile(db, Before, before, rentalId, env.uuidBefore,
                                env.uploadBeforeFailure, env.projectUrl);
    if first.UploadFailed? {
      return NotStored(first.message, e1, db.blobs);
    }
    var second, e2 := UploadFile(db, After, after, rentalId, env.uuidAfter,
                                 env.uploadAfterFailure, env.projectUrl);
    if second.UploadFailed? {
      return NotStored(second.message, e1 + e2, db.blobs);
    }
    u := BothStored(first.url, second.url, e1 + e2, db.blobs);
  }

  /** The agent run and the insert: the agent's output is accumulated chunk
      by chunk, and the row is appended to `damage_reports` on success. */
  method RunAgentAndInsert(db: Db, rentalId: string, reporterId: string, description: Option<string>,
                           beforeUrl: string, afterUrl: string, env: Env)
    returns (response: Response, effects: seq<Effect>)
    modifies db`damageReports
    ensures Tail(response, effects, db.damageReports) ==
            AgentStage(rentalId, reporterId, description, beforeUrl, afterUrl, env, old(db.damageReports))
  {
    effects := [SpawnAgent(beforeUrl, afterUrl)];
    var agentResult := AgentProcess.Accumulate(env.run.stdout);
    var agentError := AgentProcess.Accumulate(env.run.stderr);
    if env.run.exitCode != 0 {
      return Response(500, Error("Verification agent failed with exit code " +
                                 Text.IntText(env.run.exitCode) + ".")), effects;
    }
    match env.parse(agentResult)
    case NotJson(m) =>
      response := Response(500, Error(m));
    case Verdict(score, heatmapUrl) =>
      var row := ReportRow(rentalId, reporterId, description, beforeUrl, afterUrl, score, heatmapUrl);
      effects := effects + [InsertReport(row)];
      if env.insertFailure.Some? {
        response := Response(500, Error("Database insert failed: " + env.insertFailure.value));
      } else {
        db.damageReports := db.damageReports + [row];
        response := Response(200, Report(row["report_id" := Str(env.reportId)]));
      }
  }

  /** The handler: validates, uploads both images, runs the agent and inserts
      the report row, stopping at the first failure. */
  method HandleVerifyDamage(db: Db, httpMethod: string, form: Form, env: Env)
    returns (response: Response, effects: seq<Effect>)
    modifies db`blobs, db`damageReports
    ensures Result(response, effects, db.blobs, db.damageReports) ==
            VerifyDamage(httpMethod, form, env, old(db.blobs), old(db.damageReports))
  {
    if httpMethod != "POST" {
      return Response(405, Error("Method Not Allowed")), [];
    }
    if form.ParseFailed? {
      return Response(500, Error("Form parsing failed: " + form.message)), [];
    }
    if !FieldsPresent(form) {
      return Response(400, Error(MissingFieldsText)), [];
    }
    var rentalId := First(form.rentalId).value;
    var uploads := UploadBoth(db, First(form.beforeImage), First(form.afterImage), rentalId, env);
    effects := uploads.effects;
    if uploads.NotStored? {
      return Response(500, Error(uploads.message)), effects;
    }
    var e3;
    response, e3 := RunAgentAndInsert(db, rentalId, First(form.reporterId).value, First(form.description),
                                      uploads.beforeUrl, uploads.afterUrl, env);
    effects := effects + e3;
  }
}
