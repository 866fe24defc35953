/**
 * `slack_webhook` and `verify_slack_signature`: which response an HTTP request gets, and, for a
 * payment message, the ordered effects on the Drive store, the sheet and the Slack thread.
 * The HMAC-SHA256 digest is a function parameter `hmac(secret, message)`; the clock is an integer
 * number of seconds; Slack calls are recorded in a trace and never fail.
 */
module Webhook {
  import opened Wrappers
  import opened Strings
  import opened Calendar
  import opened Extraction
  import opened Naming
  import opened Drive
  import opened Attachments
  import opened Ledger

  /** The environment settings the handler reads; `""` is an unset variable. */
  datatype Config = Config(signingSecret: string, channelFilter: string, rootFolder: FileId)

  /** A Slack `event` object; `None` is a key it does not carry. */
  datatype Event = Event(kind: Option<string>, botId: Option<string>, subtype: Option<string>,
                         channel: Option<string>, text: Option<string>, files: seq<SlackFile>,
                         ts: Option<string>)

  /** The JSON object of the body; `otherKeys` says whether it carries keys besides these three. */
  datatype Payload = Payload(kind: Option<string>, challenge: Option<string>, event: Option<Event>,
                             otherKeys: bool)

  /**
   * An HTTP request. A header the request does not carry reads as `""`; `payload` is `None` when
   * the body is not valid JSON.
   */
  datatype Request = Request(httpMethod: string, timestampHeader: string, signatureHeader: string,
                             retryHeader: string, body: string, payload: Option<Payload>)

  /**
   * What the handler answers. `ServerError` is the 500 of an exception outside the `try` block:
   * the `KeyError` of a challenge-less `url_verification`, or one the signature check raises.
   */
  datatype HttpResponse = HealthCheck | Unauthorized | ChallengeEcho(challenge: string) | ServerError | OkBody

  /** The gate's verdict: answer at once, or process a payment message and answer `{"ok": True}`. */
  datatype Decision = Respond(response: HttpResponse)
                    | Process(channel: string, ts: string, fields: Fields, files: seq<SlackFile>)

  /** The replay window of the signature check, in seconds. */
  const MaxAge := 60 * 5

  /** `int(timestamp)`, restricted to an optional sign followed by ASCII digits. */
  function ParseInt(s: string): (r: Option<int>)
    ensures r.Some? ==> s != [] && s != "+" && s != "-"
    ensures r.Some? <==> s != [] && (forall i :: 1 <= i < |s| ==> IsDigit(s[i]))
                         && (IsDigit(s[0]) || ((s[0] == '-' || s[0] == '+') && |s| >= 2))
    ensures r.Some? ==> (r.value < 0 ==> s[0] == '-')
  {
    if s == [] then None
    else if s[0] == '-' || s[0] == '+' then
      var digits := s[1..];
      if digits != [] && forall i :: 0 <= i < |digits| ==> IsDigit(digits[i]) then
        var v: int := DecimalValue(digits);
        Some(if s[0] == '-' then -v else v)
      else None
    else if forall i :: 0 <= i < |s| ==> IsDigit(s[i]) then Some(DecimalValue(s))
    else None
  }

  /** A decimal numeral, with or without a sign, reads back as its value. */
  lemma ParseIntDecimal(n: nat)
    ensures ParseInt(NatToDecimal(n)) == Some(n)
    ensures ParseInt("-" + NatToDecimal(n)) == Some(-(n as int))
    ensures ParseInt("+" + NatToDecimal(n)) == Some(n)
  {
    var d := NatToDecimal(n);
    assert ("-" + d)[1..] == d;
    assert ("+" + d)[1..] == d;
  }

  function Abs(x: int): nat {
    if x < 0 then -x else x
  }

  /** The signature Slack sends for this request: `v0=` and the hex digest of `v0:{timestamp}:{body}`. */
  function ExpectedSignature(secret: string, req: Request, hmac: (string, string) -> string): string {
    "v0=" + hmac(secret, "v0:" + req.timestampHeader + ":" + req.body)
  }

  /** How `verify_slack_signature` ends: it returns `True`, returns `False`, or raises out of `slack_webhook`. */
  datatype Verdict = Pass | Reject | Raise

  /**
   * The least magnitude of an `int` that `time.time() - int(timestamp)` cannot convert to a float:
   * 2^1024 - 2^970, which rounds up to 2^1024 and raises `OverflowError`.
   */
  const FloatOverflow: nat := 179769313486231580793728971405303415079934132710037826936173778980444968292764750946649017977587207096330286416692887910946555547851940402630657488671505820681908902000708383676273854845817711531764475730270069855571366959622842914819860834936475292719074168444365510704342711559699508093042880177904174497792

  /** `hmac.compare_digest` on two `str` raises `TypeError` unless both are ASCII. */
  predicate IsAscii(s: string) {
    forall i :: 0 <= i < |s| ==> s[i] as int < 128
  }

  /**
   * `verify_slack_signature`, with the clock reading `now` in whole seconds. `ValueError` from
   * `int()` is caught and rejects; `OverflowError` from the subtraction and `TypeError` from the
   * comparison are not caught.
   */
  function SignatureCheck(cfg: Config, req: Request, now: int, hmac: (string, string) -> string): (v: Verdict)
    ensures cfg.signingSecret == "" || req.timestampHeader == "" || req.signatureHeader == "" ==> v == Pass
    ensures (cfg.signingSecret != "" && req.timestampHeader != "" && req.signatureHeader != ""
             && ParseInt(req.timestampHeader).None?) ==> v == Reject
    ensures v == Pass && cfg.signingSecret != "" && req.timestampHeader != "" && req.signatureHeader != "" ==>
              ParseInt(req.timestampHeader).Some? && Abs(now - ParseInt(req.timestampHeader).value) <= MaxAge
              && req.signatureHeader == ExpectedSignature(cfg.signingSecret, req, hmac)
  {
    if cfg.signingSecret == "" then Pass
    else if req.timestampHeader == "" || req.signatureHeader == "" then Pass
    else
      match ParseInt(req.timestampHeader)
      case None => Reject
      case Some(t) =>
        var expected := ExpectedSignature(cfg.signingSecret, req, hmac);
        if Abs(t) >= FloatOverflow then Raise
        else if Abs(now - t) > MaxAge then Reject
        else if !IsAscii(expected) || !IsAscii(req.signatureHeader) then Raise
        else if expected == req.signatureHeader then Pass
        else Reject
  }

  /** `verify_slack_signature(request)` returned `True`. */
  predicate SignatureOk(cfg: Config, req: Request, now: int, hmac: (string, string) -> string) {
    SignatureCheck(cfg, req, now, hmac) == Pass
  }

  /**
   * For a signed request whose timestamp is the numeral of `n`: a number too large for a float
   * raises; otherwise a timestamp more than five minutes from the clock is rejected, and within
   * the window a non-ASCII signature raises and an ASCII one passes exactly when it is the
   * expected one.
   */
  lemma SignatureOfNumeral(cfg: Config, req: Request, now: int, hmac: (string, string) -> string, n: nat)
    requires cfg.signingSecret != "" && req.signatureHeader != "" && req.timestampHeader == NatToDecimal(n)
    ensures n >= FloatOverflow ==> SignatureCheck(cfg, req, now, hmac) == Raise
    ensures n < FloatOverflow && (now < n - MaxAge || n + MaxAge < now) ==> SignatureCheck(cfg, req, now, hmac) == Reject
    ensures n < FloatOverflow && n - MaxAge <= now <= n + MaxAge && IsAscii(ExpectedSignature(cfg.signingSecret, req, hmac)) ==>
              (SignatureCheck(cfg, req, now, hmac) == Raise <==> exists i :: 0 <= i < |req.signatureHeader| && req.signatureHeader[i] as int >= 128)
              && (SignatureCheck(cfg, req, now, hmac) == Pass <==> req.signatureHeader == ExpectedSignature(cfg.signingSecret, req, hmac))
  {
    ParseIntDecimal(n);
    SignatureOfValue(cfg, req, now, hmac, n);
  }

  /** The signature check of a signed request whose timestamp reads as `t`. */
  lemma SignatureOfValue(cfg: Config, req: Request, now: int, hmac: (string, string) -> string, t: int)
    requires cfg.signingSecret != "" && req.signatureHeader != "" && req.timestampHeader != ""
    requires ParseInt(req.timestampHeader) == Some(t)
    ensures Abs(t) >= FloatOverflow ==> SignatureCheck(cfg, req, now, hmac) == Raise
    ensures Abs(t) < FloatOverflow && Abs(now - t) > MaxAge ==> SignatureCheck(cfg, req, now, hmac) == Reject
    ensures Abs(t) < FloatOverflow && Abs(now - t) <= MaxAge && IsAscii(ExpectedSignature(cfg.signingSecret, req, hmac)) ==>
              (SignatureCheck(cfg, req, now, hmac) == Raise <==> !IsAscii(req.signatureHeader))
              && (SignatureCheck(cfg, req, now, hmac) == Pass <==> req.signatureHeader == ExpectedSignature(cfg.signingSecret, req, hmac))
  {
  }

  /** Python truthiness of the decoded body: present and a non-empty object. */
  predicate PayloadTruthy(p: Option<Payload>) {
    p.Some? && (p.value.kind.Some? || p.value.challenge.Some? || p.value.event.Some? || p.value.otherKeys)
  }

  /** The event checks of `slack_webhook`: a user's `message`, of no subtype or `file_share`, in the configured channel. */
  predicate IsUserMessage(cfg: Config, e: Event) {
    e.kind == Some("message")
    && !Truthy(e.botId)
    && (!Truthy(e.subtype) || e.subtype == Some("file_share"))
    && (cfg.channelFilter == "" || OrEmpty(e.channel) == cfg.channelFilter)
  }

  /** `event.get(key, "")`. */
  function OrEmpty(v: Option<string>): string {
    match v case Some(s) => s case None => ""
  }

  /** The branches of `slack_webhook` up to the `try`, in the order the source tests them. */
  function Gate(cfg: Config, req: Request, now: int, hmac: (string, string) -> string): (d: Decision)
    ensures d.Process? ==> HasRequiredFields(d.fields)
  {
    if req.httpMethod == "GET" then Respond(HealthCheck)
    else
      var verdict := SignatureCheck(cfg, req, now, hmac);
      if verdict == Raise then Respond(ServerError)
      else if verdict == Reject then Respond(Unauthorized)
      else PastSignature(cfg, req)
  }

  /** The rest of the gate, once the signature is accepted. */
  function PastSignature(cfg: Config, req: Request): (d: Decision)
    ensures d.Process? ==> HasRequiredFields(d.fields)
  {
    if !PayloadTruthy(req.payload) then Respond(OkBody)
    else
      var data := req.payload.value;
      if data.kind == Some("url_verification") then
        (match data.challenge case Some(c) => Respond(ChallengeEcho(c)) case None => Respond(ServerError))
      else if req.retryHeader != "" then Respond(OkBody)
      else if data.event.None? || !IsUserMessage(cfg, data.event.value) then Respond(OkBody)
      else
        var e := data.event.value;
        var fields := ExtractFields(OrEmpty(e.text));
        if !HasRequiredFields(fields) then Respond(OkBody)
        else Process(OrEmpty(e.channel), OrEmpty(e.ts), fields, e.files)
  }

  /**
   * A request is processed exactly when it is a signed POST whose JSON is not a URL verification,
   * is not a retry, carries a user message for the configured channel, and whose text holds a
   * date and an amount; the message's own channel, timestamp, fields and files are what is processed.
   */
  lemma GateProcessIff(cfg: Config, req: Request, now: int, hmac: (string, string) -> string)
    ensures Gate(cfg, req, now, hmac).Process? <==>
              req.httpMethod != "GET" && SignatureOk(cfg, req, now, hmac) && PayloadTruthy(req.payload)
              && req.payload.value.kind != Some("url_verification") && req.retryHeader == ""
              && req.payload.value.event.Some? && IsUserMessage(cfg, req.payload.value.event.value)
              && HasRequiredFields(ExtractFields(OrEmpty(req.payload.value.event.value.text)))
    ensures Gate(cfg, req, now, hmac).Process? ==>
              var e := req.payload.value.event.value;
              Gate(cfg, req, now, hmac) == Process(OrEmpty(e.channel), OrEmpty(e.ts), ExtractFields(OrEmpty(e.text)), e.files)
  {
    if req.httpMethod != "GET" && SignatureOk(cfg, req, now, hmac) {
      assert Gate(cfg, req, now, hmac) == PastSignature(cfg, req);
      PastSignatureProcessIff(cfg, req);
    }
  }

  lemma PastSignatureProcessIff(cfg: Config, req: Request)
    ensures PastSignature(cfg, req).Process? <==>
              PayloadTruthy(req.payload)
              && req.payload.value.kind != Some("url_verification") && req.retryHeader == ""
              && req.payload.value.event.Some? && IsUserMessage(cfg, req.payload.value.event.value)
              && HasRequiredFields(ExtractFields(OrEmpty(req.payload.value.event.value.text)))
    ensures PastSignature(cfg, req).Process? ==>
              var e := req.payload.value.event.value;
              PastSignature(cfg, req) == Process(OrEmpty(e.channel), OrEmpty(e.ts), ExtractFields(OrEmpty(e.text)), e.files)
  {
  }

  /** A retry, a bot's message or a message in another channel is never processed. */
  lemma GateIgnores(cfg: Config, req: Request, now: int, hmac: (string, string) -> string)
    requires req.retryHeader != ""
          || (req.payload.Some? && req.payload.value.event.Some? && Truthy(req.payload.value.event.value.botId))
          || (req.payload.Some? && req.payload.value.event.Some? && cfg.channelFilter != ""
              && OrEmpty(req.payload.value.event.value.channel) != cfg.channelFilter)
    ensures !Gate(cfg, req, now, hmac).Process?
  {
  }

  /** A POST is answered 403 exactly when the signature check returns `False`, and 500 whenever it raises. */
  lemma GateSignature(cfg: Config, req: Request, now: int, hmac: (string, string) -> string)
    requires req.httpMethod != "GET"
    ensures Gate(cfg, req, now, hmac) == Respond(Unauthorized) <==> SignatureCheck(cfg, req, now, hmac) == Reject
    ensures SignatureCheck(cfg, req, now, hmac) == Raise ==> Gate(cfg, req, now, hmac) == Respond(ServerError)
  {
  }

  /** One Slack Web API call the handler makes. */
  datatype SlackCall = Reaction(channel: string, ts: string, emoji: string)
                     | Reply(channel: string, ts: string, text: string)

  /** The effects of processing one message, in the order they happen. */
  datatype Step = HeadersChecked | FolderReady(folder: FileId) | FileUploaded(file: FileId) | RowAppended
                | Notified(call: SlackCall)

  /** Everything outside the handler that one processing run meets: the faults each remote call raises and the clock. */
  datatype World = World(servicesFault: Option<string>, headerReadFault: Option<string>, headerWriteFault: Option<string>,
                         folderFaults: FolderFaults, linkOf: FileId -> Option<string>, monthClock: Date,
                         fetch: string -> HttpOutcome, uploadFault: nat -> Option<string>,
                         appendFault: Option<string>, rowClock: DateTime)

  predicate ValidWorld(w: World) {
    ValidDate(w.monthClock) && ValidDateTime(w.rowClock)
  }

  const SuccessEmoji := "white_check_mark"
  const FailureEmoji := "x"

  const SuccessHead := "*Lancamento registrado!*\nPasta: "
  const CountTail := " arquivo(s) salvos"
  const NoFilesTail := "Nenhum comprovante anexado"
  const ErrorHead := "Erro ao processar lancamento: "

  /** The thread reply after a recorded entry. */
  function SuccessReply(link: string, fileCount: nat): (r: string)
    ensures |r| > |SuccessHead| + |link| && r[..|SuccessHead| + |link| + 1] == SuccessHead + link + "\n"
    ensures fileCount == 0 ==> r[|SuccessHead| + |link| + 1..] == NoFilesTail
    ensures fileCount > 0 ==> |r| > |SuccessHead| + |link| + 1 + |CountTail| && r[|r| - |CountTail|..] == CountTail
  {
    SuccessHead + link + "\n" + (if fileCount > 0 then NatToDecimal(fileCount) + CountTail else NoFilesTail)
  }

  /** The count in a success reply reads back as the number of files saved. */
  lemma SuccessReplyCount(link: string, fileCount: nat)
    requires fileCount > 0
    ensures var r := SuccessReply(link, fileCount);
            var count := r[|SuccessHead| + |link| + 1..|r| - |CountTail|];
            count != [] && (forall i :: 0 <= i < |count| ==> IsDigit(count[i])) && DecimalValue(count) == fileCount
  {
    var r := SuccessReply(link, fileCount);
    assert r == SuccessHead + link + "\n" + NatToDecimal(fileCount) + CountTail;
    assert r[|SuccessHead| + |link| + 1..|r| - |CountTail|] == NatToDecimal(fileCount);
  }

  /** The thread reply after an exception: the fixed prefix and the exception's text. */
  function ErrorReply(message: string): (r: string)
    ensures |r| == |ErrorHead| + |message| && r[..|ErrorHead|] == ErrorHead && r[|ErrorHead|..] == message
  {
    ErrorHead + message
  }

  /** The downloads a run uploads: none when the message has no files. */
  function Downloads(files: seq<SlackFile>, fetch: string -> HttpOutcome): Result<seq<Download>> {
    if files == [] then Success([]) else DownloadAll(files, fetch)
  }

  /** No step of `trace` is a row append. */
  predicate NoRowAppended(trace: seq<Step>) {
    forall k :: 0 <= k < |trace| ==> !trace[k].RowAppended?
  }

  lemma ConcatAssoc<T>(a: seq<T>, b: seq<T>, c: seq<T>)
    ensures a + (b + c) == (a + b) + c
  {
  }

  lemma PrefixTwo<T>(a: T, b: T, rest: seq<T>)
    ensures [a] + ([b] + rest) == [a, b] + rest
  {
  }

  lemma NoRowAppendedConcat(a: seq<Step>, b: seq<Step>)
    requires NoRowAppended(a) && NoRowAppended(b)
    ensures NoRowAppended(a + b)
  {
  }

  /** The last two steps of a trace extended by at least two steps are the extension's last two. */
  lemma LastTwoOfConcat(a: seq<Step>, b: seq<Step>)
    requires |b| >= 2
    ensures (a + b)[|a + b| - 2..] == b[|b| - 2..]
  {
  }

  /** The steps recording uploads of `ids`. */
  function UploadSteps(ids: seq<FileId>): (r: seq<Step>)
    ensures |r| == |ids| && forall k :: 0 <= k < |ids| ==> r[k] == FileUploaded(ids[k])
    ensures NoRowAppended(r)
  {
    if ids == [] then [] else UploadSteps(ids[..|ids| - 1]) + [FileUploaded(ids[|ids| - 1])]
  }

  /** The first fault among `fault(k)` for `from <= k < n`. */
  function FirstFault(fault: nat -> Option<string>, from: nat, n: nat): (r: Option<string>)
    ensures r.None? <==> forall k :: from <= k < n ==> fault(k).None?
    ensures r.Some? ==> exists k :: from <= k < n && fault(k) == r
    decreases n - from
  {
    if from >= n then None
    else if fault(from).Some? then fault(from)
    else FirstFault(fault, from + 1, n)
  }

  /** The position of the first fault among `fault(k)` for `from <= k < n`, or `n` when there is none. */
  function FirstFaultIndex(fault: nat -> Option<string>, from: nat, n: nat): (k: nat)
    requires from <= n
    ensures from <= k <= n
    ensures forall j :: from <= j < k ==> fault(j).None?
    ensures k < n ==> fault(k).Some?
    decreases n - from
  {
    if from == n then n
    else if fault(from).Some? then from
    else FirstFaultIndex(fault, from + 1, n)
  }

  /** Uploads that succeed up to `j` and raise at `j` fail with the fault of `j`; uploads that all succeed give no fault. */
  lemma {:induction false} FirstFaultAt(fault: nat -> Option<string>, from: nat, j: nat, n: nat)
    requires from <= j <= n
    requires forall k :: from <= k < j ==> fault(k).None?
    ensures j < n && fault(j).Some? ==> FirstFault(fault, from, n) == fault(j)
    ensures j == n ==> FirstFault(fault, from, n) == None
    decreases j - from
  {
    if from < j {
      FirstFaultAt(fault, from + 1, j, n);
    }
  }

  /**
   * The exception a processing run ends in, if any, in the order the `try` block meets the remote
   * calls: the services, the month folder, the entry folder, its link, the downloads, each upload,
   * the row append. The header check swallows its own errors.
   */
  function FailureOf(w: World, files: seq<SlackFile>): (r: Option<string>)
    ensures r.None? <==>
              w.servicesFault.None? && w.folderFaults == FolderFaults(None, None, None)
              && Downloads(files, w.fetch).Success?
              && (forall k :: 0 <= k < |Downloads(files, w.fetch).value| ==> w.uploadFault(k).None?)
              && w.appendFault.None?
    ensures w.servicesFault.Some? ==> r == w.servicesFault
  {
    if w.servicesFault.Some? then w.servicesFault
    else if FirstFolderFault(w.folderFaults).Some? then FirstFolderFault(w.folderFaults)
    else RecordFailure(w, files)
  }

  /** The exception the steps after the folders end in, if any: downloads, each upload, the row append. */
  function RecordFailure(w: World, files: seq<SlackFile>): (r: Option<string>)
    ensures r.None? <==>
              Downloads(files, w.fetch).Success?
              && (forall k :: 0 <= k < |Downloads(files, w.fetch).value| ==> w.uploadFault(k).None?)
              && w.appendFault.None?
    ensures Downloads(files, w.fetch).Failure? ==> r == Some(Downloads(files, w.fetch).error)
  {
    if Downloads(files, w.fetch).Failure? then Some(Downloads(files, w.fetch).error)
    else if FirstFault(w.uploadFault, 0, |Downloads(files, w.fetch).value|).Some? then
      FirstFault(w.uploadFault, 0, |Downloads(files, w.fetch).value|)
    else w.appendFault
  }

  /** How a processing run ended: the entry recorded with its folder, link and uploaded files, or the exception's text. */
  datatype Outcome = Recorded(folder: FileId, link: string, uploaded: seq<FileId>) | Failed(message: string)

  /** The reaction and the thread reply that close a run. */
  function Notifications(channel: string, ts: string, outcome: Outcome): (r: seq<Step>)
    ensures |r| == 2 && NoRowAppended(r)
    ensures r[0] == Notified(Reaction(channel, ts, if outcome.Recorded? then SuccessEmoji else FailureEmoji))
    ensures outcome.Recorded? ==> r[1] == Notified(Reply(channel, ts, SuccessReply(outcome.link, |outcome.uploaded|)))
    ensures outcome.Failed? ==> r[1] == Notified(Reply(channel, ts, ErrorReply(outcome.message)))
  {
    match outcome
    case Recorded(_, link, uploaded) =>
      [Notified(Reaction(channel, ts, SuccessEmoji)), Notified(Reply(channel, ts, SuccessReply(link, |uploaded|)))]
    case Failed(message) =>
      [Notified(Reaction(channel, ts, FailureEmoji)), Notified(Reply(channel, ts, ErrorReply(message)))]
  }

  /** The downloads a run uploads: none when the downloads raise. */
  function DownloadedFiles(files: seq<SlackFile>, fetch: string -> HttpOutcome): seq<Download> {
    match Downloads(files, fetch) case Success(ds) => ds case Failure(_) => []
  }

  /** How many files a run uploads once its folders exist: the downloads before the first upload that raises. */
  function UploadCount(files: seq<SlackFile>, w: World): (n: nat)
    ensures n <= |DownloadedFiles(files, w.fetch)|
  {
    FirstFaultIndex(w.uploadFault, 0, |DownloadedFiles(files, w.fetch)|)
  }

  /** The ids Drive hands out to `n` new files, one after another from `next`. */
  function FreshIds(next: FileId, n: nat): (r: seq<FileId>)
    ensures |r| == n && forall k :: 0 <= k < n ==> r[k] == next + k
  {
    if n == 0 then [] else FreshIds(next, n - 1) + [next + n - 1]
  }

  /** One more upload keeps the store as `UploadAll` describes it. */
  lemma UploadExtends(base: seq<Entry>, ids: seq<FileId>, id: FileId, folder: FileId, downloads: seq<Download>,
                      after: seq<Entry>)
    requires |ids| < |downloads|
    requires var d := downloads[|ids|];
             after == base + UploadedEntries(ids, folder, downloads) + [Entry(id, d.name, folder, d.mimetype, false, d.content)]
    ensures after == base + UploadedEntries(ids + [id], folder, downloads)
  {
    var d := downloads[|ids|];
    UploadedEntriesSnoc(ids, id, folder, downloads);
    ConcatAssoc(base, UploadedEntries(ids, folder, downloads), [Entry(id, d.name, folder, d.mimetype, false, d.content)]);
  }

  /** Ids counted up from `start` are the fresh ids from `start`. */
  lemma FreshIdsOf(ids: seq<FileId>, start: FileId)
    requires forall k :: 0 <= k < |ids| ==> ids[k] == start + k
    ensures ids == FreshIds(start, |ids|)
  {
  }

  /** The `for` loop of uploads, stopping at the first upload that raises. */
  method UploadAll(drive: DriveStore, folder: FileId, downloads: seq<Download>, uploadFault: nat -> Option<string>)
    returns (err: Option<string>, ids: seq<FileId>)
    requires drive.Valid() && folder < drive.nextId
    modifies drive
    ensures drive.Valid()
    ensures |ids| <= |downloads| && drive.entries == old(drive.entries) + UploadedEntries(ids, folder, downloads)
    ensures ids == FreshIds(old(drive.nextId), |ids|) && drive.nextId == old(drive.nextId) + |ids|
    ensures forall k :: 0 <= k < |ids| ==> uploadFault(k).None?
    ensures err.None? ==> |ids| == |downloads|
    ensures err.Some? ==> |ids| < |downloads| && err == uploadFault(|ids|)
  {
    ids := [];
    err := None;
    var i := 0;
    while i < |downloads|
      invariant 0 <= i <= |downloads| && |ids| == i && drive.Valid() && folder < drive.nextId
      invariant drive.entries == old(drive.entries) + UploadedEntries(ids, folder, downloads)
      invariant (forall k :: 0 <= k < i ==> ids[k] == old(drive.nextId) + k) && drive.nextId == old(drive.nextId) + i
      invariant forall k :: 0 <= k < i ==> uploadFault(k).None?
    {
      var d := downloads[i];
      var r := drive.UploadFile(folder, d.content, d.name, d.mimetype, uploadFault(i));
      if r.Failure? {
        FreshIdsOf(ids, old(drive.nextId));
        return Some(r.error), ids;
      }
      UploadExtends(old(drive.entries), ids, r.value, folder, downloads, drive.entries);
      ids := ids + [r.value];
      i := i + 1;
    }
    FreshIdsOf(ids, old(drive.nextId));
  }

  /** Downloads and uploads of `files` into `folder`: the first exception, or the ids of the uploaded files. */
  method TransferFiles(files: seq<SlackFile>, folder: FileId, drive: DriveStore, w: World)
    returns (err: Option<string>, ids: seq<FileId>)
    requires drive.Valid() && folder < drive.nextId
    modifies drive
    ensures drive.Valid()
    ensures ids == FreshIds(old(drive.nextId), UploadCount(files, w)) && drive.nextId == old(drive.nextId) + |ids|
    ensures drive.entries == old(drive.entries) + UploadedEntries(ids, folder, DownloadedFiles(files, w.fetch))
    ensures Downloads(files, w.fetch).Failure? ==>
              err == Some(Downloads(files, w.fetch).error) && ids == [] && drive.entries == old(drive.entries)
    ensures Downloads(files, w.fetch).Success? ==>
              err == FirstFault(w.uploadFault, 0, |Downloads(files, w.fetch).value|)
              && |ids| <= |Downloads(files, w.fetch).value|
              && drive.entries == old(drive.entries) + UploadedEntries(ids, folder, Downloads(files, w.fetch).value)
              && (err.None? ==> |ids| == |Downloads(files, w.fetch).value|)
  {
    if files == [] {
      FirstFaultAt(w.uploadFault, 0, 0, 0);
      return None, [];
    }
    var downloaded := DownloadSlackFiles(files, w.fetch);
    if downloaded.Failure? {
      return Some(downloaded.error), [];
    }
    err, ids := UploadAll(drive, folder, downloaded.value, w.uploadFault);
    FirstFaultAt(w.uploadFault, 0, |ids|, |downloaded.value|);
    assert |ids| == FirstFaultIndex(w.uploadFault, 0, |downloaded.value|);
  }

  /** The Drive entries the uploads of the first `|ids|` downloads create. */
  function UploadedEntries(ids: seq<FileId>, folder: FileId, downloads: seq<Download>): (r: seq<Entry>)
    requires |ids| <= |downloads|
    ensures |r| == |ids|
  {
    if ids == [] then []
    else
      var k := |ids| - 1;
      UploadedEntries(ids[..k], folder, downloads) + [Entry(ids[k], downloads[k].name, folder, downloads[k].mimetype, false, downloads[k].content)]
  }

  /** The `k`-th upload created a file with the `k`-th download's name, mimetype and content, in the folder. */
  lemma {:induction false} UploadedEntriesAt(ids: seq<FileId>, folder: FileId, downloads: seq<Download>, k: nat)
    requires |ids| <= |downloads| && k < |ids|
    ensures UploadedEntries(ids, folder, downloads)[k]
            == Entry(ids[k], downloads[k].name, folder, downloads[k].mimetype, false, downloads[k].content)
  {
    var n := |ids| - 1;
    if k < n {
      UploadedEntriesAt(ids[..n], folder, downloads, k);
    }
  }

  lemma UploadedEntriesSnoc(ids: seq<FileId>, id: FileId, folder: FileId, downloads: seq<Download>)
    requires |ids| < |downloads|
    ensures UploadedEntries(ids + [id], folder, downloads)
            == UploadedEntries(ids, folder, downloads)
               + [Entry(id, downloads[|ids|].name, folder, downloads[|ids|].mimetype, false, downloads[|ids|].content)]
  {
    assert (ids + [id])[..|ids|] == ids;
  }

  /** The store ends with one uploaded file per download of the run, in the entry folder. */
  predicate UploadsAtEnd(entries: seq<Entry>, outcome: Outcome, downloads: Result<seq<Download>>)
    requires outcome.Recorded?
  {
    downloads.Success? && |outcome.uploaded| == |downloads.value| <= |entries|
    && entries[|entries| - |outcome.uploaded|..] == UploadedEntries(outcome.uploaded, outcome.folder, downloads.value)
  }

  lemma UploadsAtEndOfAppend(prefix: seq<Entry>, outcome: Outcome, downloads: Result<seq<Download>>)
    requires outcome.Recorded? && downloads.Success? && |outcome.uploaded| == |downloads.value|
    ensures UploadsAtEnd(prefix + UploadedEntries(outcome.uploaded, outcome.folder, downloads.value), outcome, downloads)
  {
    var added := UploadedEntries(outcome.uploaded, outcome.folder, downloads.value);
    assert (prefix + added)[|prefix + added| - |added|..] == added;
  }

  /**
   * What the Drive store shows after a recorded run: the entry folder is the one the lookups
   * resolve for the month and entry names, its link is the one Drive reports, and the store ends
   * with the uploaded files.
   */
  predicate FiledIn(entries: seq<Entry>, root: FileId, monthName: string, entryName: string, files: seq<SlackFile>,
                    w: World, outcome: Outcome)
    requires outcome.Recorded?
  {
    outcome.link == LinkText(w.linkOf(outcome.folder))
    && InFolderPath(entries, root, monthName, entryName, outcome.folder)
    && UploadsAtEnd(entries, outcome, Downloads(files, w.fetch))
  }

  /** The steps of a run that recorded its entry, after the header check: folder, uploads, row, notifications. */
  function FiledSteps(channel: string, ts: string, outcome: Outcome): seq<Step>
    requires outcome.Recorded?
  {
    [FolderReady(outcome.folder)] + RecordedSteps(channel, ts, outcome)
  }

  /** The steps of a run that recorded its entry, after the folders: uploads, row, notifications. */
  function RecordedSteps(channel: string, ts: string, outcome: Outcome): seq<Step>
    requires outcome.Recorded?
  {
    UploadSteps(outcome.uploaded) + [RowAppended] + Notifications(channel, ts, outcome)
  }

  /** The steps after the folders: the uploads, the row when the entry is recorded, then the notifications. */
  function AfterFolders(uploaded: seq<FileId>, channel: string, ts: string, outcome: Outcome): seq<Step> {
    UploadSteps(uploaded) + (if outcome.Recorded? then [RowAppended] else []) + Notifications(channel, ts, outcome)
  }

  // A processing run as a function of the store it starts from (`entries`, and `next`, the next
  // id Drive hands out), the folder names, the message's files and the world.

  /** The ids of the files a run uploads: fresh ids after those of the folders it creates. */
  function RunUploads(entries: seq<Entry>, next: FileId, root: FileId, monthName: string, entryName: string,
                      files: seq<SlackFile>, w: World): seq<FileId>
  {
    FreshIds(next + |PathCreates(entries, next, root, monthName, entryName)|, UploadCount(files, w))
  }

  /**
   * How the steps after the folders end, for uploads numbered from `next`: the first exception,
   * or the entry recorded in `folder` with every download uploaded.
   */
  function RecordOutcome(folder: FileId, link: string, next: FileId, files: seq<SlackFile>, w: World): Outcome {
    match RecordFailure(w, files)
    case Some(message) => Failed(message)
    case None => Recorded(folder, link, FreshIds(next, UploadCount(files, w)))
  }

  /** How a run ends: the services, then the folder steps, then the steps after the folders. */
  function RunOutcome(entries: seq<Entry>, next: FileId, root: FileId, monthName: string, entryName: string,
                      files: seq<SlackFile>, w: World): Outcome
  {
    if w.servicesFault.Some? then Failed(w.servicesFault.value)
    else if FirstFolderFault(w.folderFaults).Some? then Failed(FirstFolderFault(w.folderFaults).value)
    else
      var folder := PathFolder(entries, next, root, monthName, entryName);
      RecordOutcome(folder, LinkText(w.linkOf(folder)), next + |PathCreates(entries, next, root, monthName, entryName)|,
                    files, w)
  }

  /**
   * The entries a run appends to the store: nothing when the services fail, what the folder steps
   * add when one of them raises, and otherwise the missing folders followed by the files uploaded
   * before any fault.
   */
  function RunEntries(entries: seq<Entry>, next: FileId, root: FileId, monthName: string, entryName: string,
                      files: seq<SlackFile>, w: World): seq<Entry>
  {
    if w.servicesFault.Some? then []
    else if FirstFolderFault(w.folderFaults).Some? then
      FolderStepEntries(entries, next, root, monthName, entryName, w.folderFaults)
    else
      PathCreates(entries, next, root, monthName, entryName)
      + UploadedEntries(RunUploads(entries, next, root, monthName, entryName, files, w),
                        PathFolder(entries, next, root, monthName, entryName), DownloadedFiles(files, w.fetch))
  }

  /** The steps of a run: header check, folder, uploads and row as far as the run gets, then the notifications. */
  function RunSteps(entries: seq<Entry>, next: FileId, root: FileId, monthName: string, entryName: string,
                    channel: string, ts: string, files: seq<SlackFile>, w: World): seq<Step>
  {
    var outcome := RunOutcome(entries, next, root, monthName, entryName, files, w);
    if w.servicesFault.Some? then Notifications(channel, ts, outcome)
    else if FirstFolderFault(w.folderFaults).Some? then [HeadersChecked] + Notifications(channel, ts, outcome)
    else
      [HeadersChecked, FolderReady(PathFolder(entries, next, root, monthName, entryName))]
      + AfterFolders(RunUploads(entries, next, root, monthName, entryName, files, w), channel, ts, outcome)
  }

  /** The sheet after a run: the header check unless the services fail, then the row of a recorded entry. */
  function RunRows(rows: seq<seq<string>>, fields: Fields, w: World, outcome: Outcome): seq<seq<string>>
    requires ValidWorld(w)
  {
    if w.servicesFault.Some? then rows
    else
      var headed := HeadersAfter(rows, w.headerReadFault, w.headerWriteFault);
      if outcome.Recorded? then headed + [LedgerRow(fields, outcome.link, Timestamp(w.rowClock))] else headed
  }

  /** Every id and parent of the store lies below `next`, and so does the root. */
  predicate IssuedBelow(entries: seq<Entry>, next: FileId, root: FileId) {
    root < next && forall i :: 0 <= i < |entries| ==> entries[i].id < next && entries[i].parent < next
  }

  /**
   * A run fails exactly when some remote call raises, and then with the first exception; every run
   * ends with its reaction and reply, and a failed run appends no row.
   */
  lemma RunEndsNotified(entries: seq<Entry>, next: FileId, root: FileId, monthName: string, entryName: string,
                        channel: string, ts: string, files: seq<SlackFile>, w: World)
    ensures var outcome := RunOutcome(entries, next, root, monthName, entryName, files, w);
            (outcome.Failed? <==> FailureOf(w, files).Some?)
            && (outcome.Failed? ==> outcome.message == FailureOf(w, files).value)
    ensures var steps := RunSteps(entries, next, root, monthName, entryName, channel, ts, files, w);
            var outcome := RunOutcome(entries, next, root, monthName, entryName, files, w);
            |steps| >= 2 && steps[|steps| - 2..] == Notifications(channel, ts, outcome)
            && (outcome.Failed? ==> NoRowAppended(steps))
  {
    RunFailsAsFailureOf(entries, next, root, monthName, entryName, files, w);
    RunStepsEndNotified(entries, next, root, monthName, entryName, channel, ts, files, w);
  }

  /** The first half of `RunEndsNotified`: a run fails exactly when some step raises, with that step's message. */
  lemma RunFailsAsFailureOf(entries: seq<Entry>, next: FileId, root: FileId, monthName: string, entryName: string,
                            files: seq<SlackFile>, w: World)
    ensures var outcome := RunOutcome(entries, next, root, monthName, entryName, files, w);
            (outcome.Failed? <==> FailureOf(w, files).Some?)
            && (outcome.Failed? ==> outcome.message == FailureOf(w, files).value)
  {
    if w.servicesFault.None? && FirstFolderFault(w.folderFaults).None? {
      var folder := PathFolder(entries, next, root, monthName, entryName);
      var n := next + |PathCreates(entries, next, root, monthName, entryName)|;
      assert RunOutcome(entries, next, root, monthName, entryName, files, w)
             == RecordOutcome(folder, LinkText(w.linkOf(folder)), n, files, w);
      assert FailureOf(w, files) == RecordFailure(w, files);
    }
  }

  /** The second half of `RunEndsNotified`: the notifications come last, and a failed run appends no row. */
  lemma RunStepsEndNotified(entries: seq<Entry>, next: FileId, root: FileId, monthName: string, entryName: string,
                            channel: string, ts: string, files: seq<SlackFile>, w: World)
    ensures var steps := RunSteps(entries, next, root, monthName, entryName, channel, ts, files, w);
            var outcome := RunOutcome(entries, next, root, monthName, entryName, files, w);
            |steps| >= 2 && steps[|steps| - 2..] == Notifications(channel, ts, outcome)
            && (outcome.Failed? ==> NoRowAppended(steps))
  {
    var outcome := RunOutcome(entries, next, root, monthName, entryName, files, w);
    var note := Notifications(channel, ts, outcome);
    if w.servicesFault.None? {
      if FirstFolderFault(w.folderFaults).Some? {
        RunFoldersRaise(entries, next, root, monthName, entryName, channel, ts, files, w);
        LastTwoOfConcat([HeadersChecked], note);
        NoRowAppendedConcat([HeadersChecked], note);
      } else {
        RunPastFoldersEnd(entries, next, root, monthName, entryName, channel, ts, files, w);
      }
    }
  }

  lemma RunPastFoldersEnd(entries: seq<Entry>, next: FileId, root: FileId, monthName: string, entryName: string,
                          channel: string, ts: string, files: seq<SlackFile>, w: World)
    requires w.servicesFault.None? && FirstFolderFault(w.folderFaults).None?
    ensures var steps := RunSteps(entries, next, root, monthName, entryName, channel, ts, files, w);
            var outcome := RunOutcome(entries, next, root, monthName, entryName, files, w);
            |steps| >= 2 && steps[|steps| - 2..] == Notifications(channel, ts, outcome)
            && (outcome.Failed? ==> NoRowAppended(steps))
  {
    var steps := RunSteps(entries, next, root, monthName, entryName, channel, ts, files, w);
    var folder := PathFolder(entries, next, root, monthName, entryName);
    var n: FileId := next + |PathCreates(entries, next, root, monthName, entryName)|;
    var outcome := RecordOutcome(folder, LinkText(w.linkOf(folder)), n, files, w);
    RunPastFolders(entries, next, root, monthName, entryName, channel, ts, files, w, folder, LinkText(w.linkOf(folder)), n);
    var uploads := FreshIds(n, UploadCount(files, w));
    var rest := AfterFolders(uploads, channel, ts, outcome);
    AfterFoldersEnds(uploads, channel, ts, outcome);
    EndsAfterFolders(steps, folder, rest, Notifications(channel, ts, outcome), outcome.Failed?);
  }

  /** A trace that starts with the two folder steps ends as the rest of it does. */
  lemma EndsAfterFolders(steps: seq<Step>, folder: FileId, rest: seq<Step>, note: seq<Step>, failed: bool)
    requires steps == [HeadersChecked, FolderReady(folder)] + rest
    requires |rest| >= 2 && rest[|rest| - 2..] == note && (failed ==> NoRowAppended(rest))
    ensures |steps| >= 2 && steps[|steps| - 2..] == note && (failed ==> NoRowAppended(steps))
  {
    LastTwoOfConcat([HeadersChecked, FolderReady(folder)], rest);
    if failed {
      NoRowAppendedConcat([HeadersChecked, FolderReady(folder)], rest);
    }
  }

  /** The steps after the folders end with the two notifications, and hold no row when the run fails. */
  lemma AfterFoldersEnds(uploaded: seq<FileId>, channel: string, ts: string, outcome: Outcome)
    ensures var steps := AfterFolders(uploaded, channel, ts, outcome);
            |steps| >= 2 && steps[|steps| - 2..] == Notifications(channel, ts, outcome)
            && (outcome.Failed? ==> NoRowAppended(steps))
  {
    var note := Notifications(channel, ts, outcome);
    var front := UploadSteps(uploaded) + (if outcome.Recorded? then [RowAppended] else []);
    LastTwoOfConcat(front, note);
    if outcome.Failed? {
      assert front == UploadSteps(uploaded);
      NoRowAppendedConcat(front, note);
    }
  }

  /**
   * When the services or a folder step raise, the run uploads nothing and appends no row: the
   * store gains at most the two folders, and nothing at all when the services or the month lookup
   * raise.
   */
  lemma RunFolderFault(entries: seq<Entry>, next: FileId, root: FileId, monthName: string, entryName: string,
                       channel: string, ts: string, files: seq<SlackFile>, w: World)
    requires w.servicesFault.Some? || FirstFolderFault(w.folderFaults).Some?
    ensures var steps := RunSteps(entries, next, root, monthName, entryName, channel, ts, files, w);
            (forall k :: 0 <= k < |steps| ==> !steps[k].FileUploaded? && !steps[k].RowAppended? && !steps[k].FolderReady?)
    ensures var added := RunEntries(entries, next, root, monthName, entryName, files, w);
            |added| <= 2 && (forall k :: 0 <= k < |added| ==> added[k].mimeType == FolderMimeType)
            && (w.servicesFault.Some? || w.folderFaults.month.Some? ==> added == [])
  {
    var added := RunEntries(entries, next, root, monthName, entryName, files, w);
    assert added <= PathCreates(entries, next, root, monthName, entryName);
  }

  /**
   * When the folders exist and the `k`-th upload is the first to raise, the run fails with that
   * upload's error, after uploading exactly the first `k` downloads into the entry folder.
   */
  lemma RunUploadFault(entries: seq<Entry>, next: FileId, root: FileId, monthName: string, entryName: string,
                       channel: string, ts: string, files: seq<SlackFile>, w: World, k: nat)
    requires w.servicesFault.None? && FirstFolderFault(w.folderFaults).None?
    requires Downloads(files, w.fetch).Success? && k < |Downloads(files, w.fetch).value|
    requires w.uploadFault(k).Some? && forall j :: 0 <= j < k ==> w.uploadFault(j).None?
    ensures RunOutcome(entries, next, root, monthName, entryName, files, w) == Failed(w.uploadFault(k).value)
    ensures var created := PathCreates(entries, next, root, monthName, entryName);
            var uploaded := FreshIds(next + |created|, k);
            RunEntries(entries, next, root, monthName, entryName, files, w)
              == created + UploadedEntries(uploaded, PathFolder(entries, next, root, monthName, entryName),
                                           Downloads(files, w.fetch).value)
            && RunSteps(entries, next, root, monthName, entryName, channel, ts, files, w)
               == [HeadersChecked, FolderReady(PathFolder(entries, next, root, monthName, entryName))]
                  + UploadSteps(uploaded) + Notifications(channel, ts, Failed(w.uploadFault(k).value))
  {
    var n := |Downloads(files, w.fetch).value|;
    FirstFaultAt(w.uploadFault, 0, k, n);
    assert UploadCount(files, w) == k;
  }

  /** A download that raises uploads nothing: the run fails with its error once the folders exist. */
  lemma RunDownloadFault(entries: seq<Entry>, next: FileId, root: FileId, monthName: string, entryName: string,
                         channel: string, ts: string, files: seq<SlackFile>, w: World)
    requires w.servicesFault.None? && FirstFolderFault(w.folderFaults).None? && Downloads(files, w.fetch).Failure?
    ensures RunOutcome(entries, next, root, monthName, entryName, files, w) == Failed(Downloads(files, w.fetch).error)
    ensures RunEntries(entries, next, root, monthName, entryName, files, w) == PathCreates(entries, next, root, monthName, entryName)
    ensures RunSteps(entries, next, root, monthName, entryName, channel, ts, files, w)
            == [HeadersChecked, FolderReady(PathFolder(entries, next, root, monthName, entryName))]
               + Notifications(channel, ts, Failed(Downloads(files, w.fetch).error))
  {
    var folder := PathFolder(entries, next, root, monthName, entryName);
    var n := next + |PathCreates(entries, next, root, monthName, entryName)|;
    assert UploadCount(files, w) == 0;
    RunPastFolders(entries, next, root, monthName, entryName, channel, ts, files, w, folder, LinkText(w.linkOf(folder)), n);
    assert AfterFolders([], channel, ts, Failed(Downloads(files, w.fetch).error))
           == Notifications(channel, ts, Failed(Downloads(files, w.fetch).error));
  }

  /**
   * A recorded run files its entry in the folder the lookups resolve, with the link Drive reports,
   * uploads every download, and takes the steps header check, folder, uploads, row, notifications.
   */
  lemma RunRecorded(entries: seq<Entry>, next: FileId, root: FileId, monthName: string, entryName: string,
                    channel: string, ts: string, files: seq<SlackFile>, w: World)
    requires IssuedBelow(entries, next, root)
    requires RunOutcome(entries, next, root, monthName, entryName, files, w).Recorded?
    ensures var outcome := RunOutcome(entries, next, root, monthName, entryName, files, w);
            FiledIn(entries + RunEntries(entries, next, root, monthName, entryName, files, w),
                    root, monthName, entryName, files, w, outcome)
            && RunSteps(entries, next, root, monthName, entryName, channel, ts, files, w)
               == [HeadersChecked] + FiledSteps(channel, ts, outcome)
  {
    RunRecordedFiled(entries, next, root, monthName, entryName, files, w);
    RunRecordedSteps(entries, next, root, monthName, entryName, channel, ts, files, w);
  }

  /** The entries half of `RunRecorded`. */
  lemma RunRecordedFiled(entries: seq<Entry>, next: FileId, root: FileId, monthName: string, entryName: string,
                         files: seq<SlackFile>, w: World)
    requires IssuedBelow(entries, next, root)
    requires RunOutcome(entries, next, root, monthName, entryName, files, w).Recorded?
    ensures FiledIn(entries + RunEntries(entries, next, root, monthName, entryName, files, w),
                    root, monthName, entryName, files, w, RunOutcome(entries, next, root, monthName, entryName, files, w))
  {
    var outcome := RunOutcome(entries, next, root, monthName, entryName, files, w);
    var created := PathCreates(entries, next, root, monthName, entryName);
    var ds := Downloads(files, w.fetch).value;
    FirstFaultAt(w.uploadFault, 0, UploadCount(files, w), |ds|);
    assert |outcome.uploaded| == |ds|;
    var added := UploadedEntries(outcome.uploaded, outcome.folder, ds);
    PathCreatesIdempotent(entries, next, root, monthName, entryName);
    InFolderPathStable(entries + created, added, root, monthName, entryName, outcome.folder);
    UploadsAtEndOfAppend(entries + created, outcome, Downloads(files, w.fetch));
    assert RunEntries(entries, next, root, monthName, entryName, files, w) == created + added;
    ConcatAssoc(entries, created, added);
  }

  /** The steps half of `RunRecorded`. */
  lemma RunRecordedSteps(entries: seq<Entry>, next: FileId, root: FileId, monthName: string, entryName: string,
                         channel: string, ts: string, files: seq<SlackFile>, w: World)
    requires RunOutcome(entries, next, root, monthName, entryName, files, w).Recorded?
    ensures RunSteps(entries, next, root, monthName, entryName, channel, ts, files, w)
            == [HeadersChecked] + FiledSteps(channel, ts, RunOutcome(entries, next, root, monthName, entryName, files, w))
  {
    var outcome := RunOutcome(entries, next, root, monthName, entryName, files, w);
    var folder := PathFolder(entries, next, root, monthName, entryName);
    assert RunSteps(entries, next, root, monthName, entryName, channel, ts, files, w)
           == [HeadersChecked, FolderReady(folder)] + RecordedSteps(channel, ts, outcome);
    PrefixTwo(HeadersChecked, FolderReady(folder), RecordedSteps(channel, ts, outcome));
  }

  /** A run whose folder steps raise ends there, having added only what the folder steps added. */
  lemma RunFoldersRaise(entries: seq<Entry>, next: FileId, root: FileId, monthName: string, entryName: string,
                        channel: string, ts: string, files: seq<SlackFile>, w: World)
    requires w.servicesFault.None? && FirstFolderFault(w.folderFaults).Some?
    ensures RunOutcome(entries, next, root, monthName, entryName, files, w) == Failed(FirstFolderFault(w.folderFaults).value)
    ensures RunSteps(entries, next, root, monthName, entryName, channel, ts, files, w)
            == [HeadersChecked] + Notifications(channel, ts, Failed(FirstFolderFault(w.folderFaults).value))
    ensures RunEntries(entries, next, root, monthName, entryName, files, w)
            == FolderStepEntries(entries, next, root, monthName, entryName, w.folderFaults)
  {
  }

  /**
   * The part of the `try` block after the folders exist: move the files, append the row, then
   * react and reply.
   */
  method RecordEntry(channel: string, ts: string, fields: Fields, files: seq<SlackFile>, folder: FileId, link: string,
                     drive: DriveStore, sheet: Sheet, w: World)
    returns (outcome: Outcome, trace: seq<Step>)
    requires drive.Valid() && ValidWorld(w) && folder < drive.nextId
    modifies drive, sheet
    ensures drive.Valid() && old(drive.entries) <= drive.entries
    ensures outcome == RecordOutcome(folder, link, old(drive.nextId), files, w)
    ensures trace == AfterFolders(FreshIds(old(drive.nextId), UploadCount(files, w)), channel, ts, outcome)
    ensures drive.entries == old(drive.entries)
                             + UploadedEntries(FreshIds(old(drive.nextId), UploadCount(files, w)), folder,
                                               DownloadedFiles(files, w.fetch))
    ensures drive.nextId == old(drive.nextId) + UploadCount(files, w)
    ensures sheet.rows == old(sheet.rows)
                          + (if outcome.Recorded? then [LedgerRow(fields, link, Timestamp(w.rowClock))] else [])
  {
    var err, ids := TransferFiles(files, folder, drive, w);
    if err.Some? {
      outcome := Failed(err.value);
      trace := AfterFolders(ids, channel, ts, outcome);
      assert sheet.rows == old(sheet.rows) + [];
      return;
    }
    var appendErr := sheet.AppendRow(fields, link, Timestamp(w.rowClock), w.appendFault);
    if appendErr.Some? {
      outcome := Failed(appendErr.value);
      trace := AfterFolders(ids, channel, ts, outcome);
      assert sheet.rows == old(sheet.rows) + [];
      return;
    }
    outcome := Recorded(folder, link, ids);
    trace := AfterFolders(ids, channel, ts, outcome);
  }

  /** Once both folders exist, a run is the steps after the folders, numbered past the folders created. */
  lemma RunPastFolders(entries: seq<Entry>, next: FileId, root: FileId, monthName: string, entryName: string,
                       channel: string, ts: string, files: seq<SlackFile>, w: World,
                       folder: FileId, link: string, callNext: FileId)
    requires w.servicesFault.None? && FirstFolderFault(w.folderFaults).None?
    requires folder == PathFolder(entries, next, root, monthName, entryName) && link == LinkText(w.linkOf(folder))
    requires callNext == next + |PathCreates(entries, next, root, monthName, entryName)|
    ensures RunOutcome(entries, next, root, monthName, entryName, files, w) == RecordOutcome(folder, link, callNext, files, w)
    ensures RunSteps(entries, next, root, monthName, entryName, channel, ts, files, w)
            == [HeadersChecked, FolderReady(folder)]
               + AfterFolders(FreshIds(callNext, UploadCount(files, w)), channel, ts,
                              RecordOutcome(folder, link, callNext, files, w))
    ensures RunEntries(entries, next, root, monthName, entryName, files, w)
            == PathCreates(entries, next, root, monthName, entryName)
               + UploadedEntries(FreshIds(callNext, UploadCount(files, w)), folder, DownloadedFiles(files, w.fetch))
  {
    var uploads := FreshIds(callNext, UploadCount(files, w));
    assert RunUploads(entries, next, root, monthName, entryName, files, w) == uploads;
    var outcome := RecordOutcome(folder, link, callNext, files, w);
    assert RunOutcome(entries, next, root, monthName, entryName, files, w) == outcome;
  }

  /** The folder steps and the rest of the `try` block, for given folder names. */
  method FileEntry(root: FileId, monthName: string, entryName: string, channel: string, ts: string, fields: Fields,
                   files: seq<SlackFile>, drive: DriveStore, sheet: Sheet, w: World)
    returns (outcome: Outcome, trace: seq<Step>)
    requires drive.Valid() && ValidWorld(w) && w.servicesFault.None? && root < drive.nextId
    modifies drive, sheet
    ensures drive.Valid()
    ensures outcome == RunOutcome(old(drive.entries), old(drive.nextId), root, monthName, entryName, files, w)
    ensures [HeadersChecked] + trace
            == RunSteps(old(drive.entries), old(drive.nextId), root, monthName, entryName, channel, ts, files, w)
    ensures drive.entries
            == old(drive.entries) + RunEntries(old(drive.entries), old(drive.nextId), root, monthName, entryName, files, w)
    ensures sheet.rows == old(sheet.rows)
                          + (if outcome.Recorded? then [LedgerRow(fields, outcome.link, Timestamp(w.rowClock))] else [])
  {
    ghost var start, next := drive.entries, drive.nextId;
    var folder := CreateFolderPath(drive, monthName, entryName, root, w.linkOf, w.folderFaults);
    if folder.Failure? {
      RunFoldersRaise(start, next, root, monthName, entryName, channel, ts, files, w);
      outcome := Failed(folder.error);
      trace := Notifications(channel, ts, outcome);
      assert sheet.rows == old(sheet.rows) + [];
    } else {
      var f, l := folder.value.0, folder.value.1;
      ghost var callNext, created := drive.nextId, PathCreates(start, next, root, monthName, entryName);
      assert drive.entries == start + created;
      RunPastFolders(start, next, root, monthName, entryName, channel, ts, files, w, f, l, callNext);
      var rest;
      outcome, rest := RecordEntry(channel, ts, fields, files, f, l, drive, sheet, w);
      ghost var uploaded := UploadedEntries(FreshIds(callNext, UploadCount(files, w)), f, DownloadedFiles(files, w.fetch));
      ConcatAssoc(start, created, uploaded);
      trace := [FolderReady(f)] + rest;
      PrefixTwo(HeadersChecked, FolderReady(f), rest);
    }
  }

  /** The whole `try` block, for given folder names. */
  method ProcessNamed(root: FileId, monthName: string, entryName: string, channel: string, ts: string,
                      fields: Fields, files: seq<SlackFile>, drive: DriveStore, sheet: Sheet, w: World)
    returns (outcome: Outcome, trace: seq<Step>)
    requires drive.Valid() && ValidWorld(w) && root < drive.nextId
    modifies drive, sheet
    ensures drive.Valid()
    ensures outcome == RunOutcome(old(drive.entries), old(drive.nextId), root, monthName, entryName, files, w)
    ensures trace == RunSteps(old(drive.entries), old(drive.nextId), root, monthName, entryName, channel, ts, files, w)
    ensures drive.entries
            == old(drive.entries) + RunEntries(old(drive.entries), old(drive.nextId), root, monthName, entryName, files, w)
    ensures sheet.rows == RunRows(old(sheet.rows), fields, w, outcome)
  {
    if w.servicesFault.Some? {
      outcome := Failed(w.servicesFault.value);
      trace := Notifications(channel, ts, outcome);
      return;
    }
    sheet.EnsureHeaders(w.headerReadFault, w.headerWriteFault);
    var rest;
    outcome, rest := FileEntry(root, monthName, entryName, channel, ts, fields, files, drive, sheet, w);
    trace := [HeadersChecked] + rest;
  }

  /** What `RunEndsNotified` and `RunRecorded` say, about a run's results. */
  lemma RunFacts(entries: seq<Entry>, next: FileId, root: FileId, monthName: string, entryName: string,
                 channel: string, ts: string, files: seq<SlackFile>, w: World,
                 outcome: Outcome, trace: seq<Step>, after: seq<Entry>)
    requires IssuedBelow(entries, next, root)
    requires outcome == RunOutcome(entries, next, root, monthName, entryName, files, w)
    requires trace == RunSteps(entries, next, root, monthName, entryName, channel, ts, files, w)
    requires after == entries + RunEntries(entries, next, root, monthName, entryName, files, w)
    ensures outcome.Failed? <==> FailureOf(w, files).Some?
    ensures outcome.Failed? ==> outcome.message == FailureOf(w, files).value
    ensures |trace| >= 2 && trace[|trace| - 2..] == Notifications(channel, ts, outcome)
    ensures outcome.Failed? ==> NoRowAppended(trace)
    ensures outcome.Recorded? ==> trace == [HeadersChecked] + FiledSteps(channel, ts, outcome)
    ensures outcome.Recorded? ==> FiledIn(after, root, monthName, entryName, files, w, outcome)
  {
    RunEndsNotified(entries, next, root, monthName, entryName, channel, ts, files, w);
    if outcome.Recorded? {
      RunRecorded(entries, next, root, monthName, entryName, channel, ts, files, w);
    }
  }

  /**
   * The `try`/`except` body of `slack_webhook` for one accepted message: check the header row,
   * create the folders, download and upload the files, append the row, then react and reply;
   * an exception at any step skips the rest and reacts with `x` and the error text.
   */
  method ProcessEntry(cfg: Config, channel: string, ts: string, fields: Fields, files: seq<SlackFile>,
                      drive: DriveStore, sheet: Sheet, w: World)
    returns (outcome: Outcome, trace: seq<Step>)
    requires drive.Valid() && ValidWorld(w) && cfg.rootFolder < drive.nextId
    modifies drive, sheet
    ensures drive.Valid() && old(drive.entries) <= drive.entries
    ensures outcome == RunOutcome(old(drive.entries), old(drive.nextId), cfg.rootFolder,
                                  MonthFolderName(fields, w.monthClock), BuildFolderName(fields), files, w)
    ensures trace == RunSteps(old(drive.entries), old(drive.nextId), cfg.rootFolder,
                              MonthFolderName(fields, w.monthClock), BuildFolderName(fields), channel, ts, files, w)
    ensures drive.entries == old(drive.entries) + RunEntries(old(drive.entries), old(drive.nextId), cfg.rootFolder,
                                                             MonthFolderName(fields, w.monthClock), BuildFolderName(fields),
                                                             files, w)
    ensures sheet.rows == RunRows(old(sheet.rows), fields, w, outcome)
    ensures outcome.Failed? <==> FailureOf(w, files).Some?
    ensures outcome.Failed? ==> outcome.message == FailureOf(w, files).value
    ensures |trace| >= 2 && trace[|trace| - 2..] == Notifications(channel, ts, outcome)
    ensures outcome.Failed? ==> NoRowAppended(trace)
    ensures outcome.Recorded? ==> trace == [HeadersChecked] + FiledSteps(channel, ts, outcome)
    ensures outcome.Recorded? ==>
              FiledIn(drive.entries, cfg.rootFolder, MonthFolderName(fields, w.monthClock), BuildFolderName(fields),
                      files, w, outcome)
  {
    var monthName := MonthFolderName(fields, w.monthClock);
    var entryName := BuildFolderName(fields);
    ghost var start, next := drive.entries, drive.nextId;
    outcome, trace := ProcessNamed(cfg.rootFolder, monthName, entryName, channel, ts, fields, files, drive, sheet, w);
    RunFacts(start, next, cfg.rootFolder, monthName, entryName, channel, ts, files, w, outcome, trace, drive.entries);
  }

  /**
   * `slack_webhook`: the gate's answer, or, for a payment message, the processing run and then
   * `{"ok": True}` whatever the run's outcome. `now` is the clock of the signature check; the
   * clocks of the run are in `w`.
   */
  method Handle(cfg: Config, req: Request, now: int, hmac: (string, string) -> string,
                drive: DriveStore, sheet: Sheet, w: World)
    returns (response: HttpResponse, outcome: Option<Outcome>, trace: seq<Step>)
    requires drive.Valid() && ValidWorld(w) && cfg.rootFolder < drive.nextId
    modifies drive, sheet
    ensures drive.Valid()
    ensures Gate(cfg, req, now, hmac).Respond? ==>
              response == Gate(cfg, req, now, hmac).response && outcome == None && trace == []
              && drive.entries == old(drive.entries) && drive.nextId == old(drive.nextId) && sheet.rows == old(sheet.rows)
    ensures Gate(cfg, req, now, hmac).Process? ==>
              var d := Gate(cfg, req, now, hmac);
              var monthName := MonthFolderName(d.fields, w.monthClock);
              var entryName := BuildFolderName(d.fields);
              response == OkBody
              && outcome == Some(RunOutcome(old(drive.entries), old(drive.nextId), cfg.rootFolder, monthName, entryName,
                                            d.files, w))
              && trace == RunSteps(old(drive.entries), old(drive.nextId), cfg.rootFolder, monthName, entryName,
                                   d.channel, d.ts, d.files, w)
              && drive.entries == old(drive.entries) + RunEntries(old(drive.entries), old(drive.nextId), cfg.rootFolder,
                                                                  monthName, entryName, d.files, w)
              && sheet.rows == RunRows(old(sheet.rows), d.fields, w, outcome.value)
  {
    var decision := Gate(cfg, req, now, hmac);
    if decision.Respond? {
      return decision.response, None, [];
    }
    var result;
    result, trace := ProcessEntry(cfg, decision.channel, decision.ts, decision.fields, decision.files, drive, sheet, w);
    response, outcome := OkBody, Some(result);
  }
}
