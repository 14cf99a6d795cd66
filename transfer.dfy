/** What DownloadTask.run() and download() do, as functions on a World: the
    reference semantics the imperative task in module Download is proved
    against, and the lemmas that state what a run promises. */
module Transfer {
  import opened Records

  /** What one in.read(buffer, 0, BUFFER_SIZE) can return besides -1. */
  type ChunkLength = n: int | 1 <= n <= BUFFER_SIZE witness 1

  /** One event while the body is streamed: a chunk read from the body, another
      thread assigning the status (pause() sets PAUSE and zeroes the speed), or
      an IOException from reading or writing. The end of the sequence is the
      end of the stream. */
  datatype Step = Chunk(length: ChunkLength) | Flip(to: Status) | Fault

  datatype Body = Body(contentLength: int, steps: seq<Step>)

  /** The parts of an okhttp Response that run() looks at; netFileName is what
      HttpUtils.getNetFileName would derive. */
  datatype Response = Response(
    code: int,
    eTag: Nullable<string>,
    lastModified: Nullable<string>,
    body: Nullable<Body>,
    netFileName: string)

  /** request.execute(): a response, or an IllegalArgumentException/IOException. */
  datatype Exchange = Threw | Responded(response: Response)

  /** Everything outside the task that one run depends on. */
  datatype Attempt = Attempt(exchange: Exchange, folderCreated: bool, fileOpens: bool)

  /** A stage of run(): carry on from `start`, or the run is over. */
  datatype Phase = Going(w: World, start: int) | Ended(w: World)

  /** How the chunk loop ended: read returned -1, a chunk was read after the
      status had left LOADING, or an IOException was thrown. */
  datatype Ending = Exhausted | Stopped | Faulted

  /** The statuses a run can end in: PAUSE, ERROR or FINISH. */
  predicate Concluded(s: Status) {
    s == Pause || s == Error || s == Finish
  }

  /** Result of the chunk loop. */
  datatype Streamed = Streamed(w: World, ending: Ending)

  // ---- the stages of run() ----

  function ResetPosition(w: World): World {
    UpdateDatabase(w.(p := w.p.(speed := 0, status := None, currentSize := 0)))
  }

  /** Lines 258-282: normalise the resume position. */
  function CheckBreakpoint(w: World): (ph: Phase)
    ensures ph.Going? && ph.start >= 0 && ph.w.files == w.files
  {
    var w1 := if w.p.currentSize < 0 then ResetPosition(w) else w;
    var s1 := if w.p.currentSize < 0 then 0 else w.p.currentSize;
    if s1 > 0 && !IsEmpty(w1.p.filePath) && DownloadFile(w1.p) !in w1.files then Going(ResetPosition(w1), 0)
    else Going(w1, s1)
  }

  /** Lines 288-291: the conditional-range headers on the stored request. */
  function AttachRange(w: World, start: int): (r: World)
    ensures r.p == w.p.(request := r.p.request) && r.files == w.files && r.store == w.store && r.trace == w.trace
  {
    if w.p.extra1.NonNull? && start > 0 then w.(p := w.p.(request := RangeHeaders(w.p.extra1, NonNull(start))))
    else w
  }

  /** ETag, or Last-Modified when the ETag is empty. */
  function ChangeToken(r: Response): Nullable<string> {
    if IsEmpty(r.eTag) then r.lastModified else r.eTag
  }

  /** Lines 299-324: classify the response code. */
  function Respond(w: World, start: int, r: Response, to: set<Listener>): (ph: Phase)
    ensures ph.Ended? <==> r.code == 404 || r.code >= 500 || r.code == 416
    ensures ph.Ended? ==> ph.w.p.status == Error && ph.w.files == w.files
    ensures ph.Going? ==> ph.w.p.extra1 == ChangeToken(r) && ph.w.files == w.files
  {
    if r.code == 404 || r.code >= 500 then Ended(PostOnError(w, NetError, to))
    else if r.code == 416 then
      Ended(PostOnError(w.(p := w.p.(extra1 := Null, fraction := 0.0, currentSize := 0)), FileExpired, to))
    else
      var p1 := w.p.(extra1 := ChangeToken(r));
      var full := r.code == 200;
      var p2 := if full then p1.(currentSize := 0, fraction := 0.0) else p1;
      Going(UpdateDatabase(w.(p := p2)), if full then 0 else start)
  }

  /** Lines 331-337: the total to stream towards. */
  function ResolvedTotal(total: int, contentLength: int): int {
    var t := if total == UNKNOWN_LENGTH then contentLength else total;
    if t == UNKNOWN_LENGTH then LONG_MAX_VALUE else t
  }

  /** Lines 326-354: body, total size, file name, folder and file path. */
  function Prepare(w: World, start: int, r: Response, folderCreated: bool, to: set<Listener>): (ph: Phase)
    ensures ph.Going? ==> r.body.NonNull? && ph.w.p.filePath.NonNull?
  {
    if r.body.Null? then Ended(PostOnError(w, BodyMissing, to))
    else
      var p1 := w.p.(totalSize := ResolvedTotal(w.p.totalSize, r.body.value.contentLength));
      var p2 := if IsEmpty(p1.fileName) then p1.(fileName := NonNull(r.netFileName)) else p1;
      if !folderCreated then Ended(PostOnError(w.(p := p2), StorageUnavailable, to))
      else
        var p3 := if IsEmpty(p2.filePath) then p2.(filePath := NonNull(Join(p2.folder, p2.fileName.value))) else p2;
        CheckFile(w.(p := p3), start, to)
  }

  /** Rename the temp file to filePath if there is one, then report FINISH. */
  function Complete(w: World, to: set<Listener>): (r: World)
    requires w.p.filePath.NonNull?
    ensures r.p.status == Finish && r.p.fraction == 1.0 && r.p.filePath == w.p.filePath
  {
    if !IsEmpty(w.p.tempFileName) then
      PostOnFinish(w.(files := Rename(w.files, DownloadFile(w.p), w.p.filePath.value)), w.p.filePath.value, to)
    else PostOnFinish(w, DownloadFile(w.p), to)
  }

  /** Lines 356-388: check the download file against the resume position. */
  function CheckFile(w: World, start: int, to: set<Listener>): (ph: Phase)
    requires w.p.filePath.NonNull?
    ensures ph.Going? ==> ph.w.p.filePath.NonNull?
  {
    var dl := DownloadFile(w.p);
    if start > 0 && dl !in w.files then Ended(PostOnError(w, BreakpointExpired, to))
    else if start > w.p.totalSize then Ended(PostOnError(w, BreakpointExpired, to))
    else
      var w1 := if start == 0 && dl in w.files then w.(files := w.files - {dl}) else w;
      if start == w1.p.totalSize && start > 0 then
        if dl in w1.files && start == w1.files[dl] then Ended(Complete(w1, to))
        else Ended(PostOnError(w1, BreakpointExpired, to))
      else Going(w1, start)
  }

  /** out.write(buffer, 0, n) at file position pos, then Progress.changeProgress. */
  function WriteChunk(w: World, dl: string, pos: int, n: int): (r: World)
    ensures r.p == w.p.(currentSize := w.p.currentSize + n)
    ensures dl in r.files && r.files[dl] >= pos + n && r.files[dl] >= FileLength(w.files, dl)
    ensures r.files == w.files[dl := r.files[dl]]
    ensures r.store == w.store && r.trace == w.trace
  {
    w.(files := w.files[dl := Max(FileLength(w.files, dl), pos + n)],
       p := w.p.(currentSize := w.p.currentSize + n))
  }

  /** Lines 437-440: read a chunk, and write it only while the status is still LOADING. */
  function Stream(steps: seq<Step>, w: World, dl: string, pos: int, to: set<Listener>): (r: Streamed)
    ensures r.w.p == w.p.(status := r.w.p.status, speed := r.w.p.speed, currentSize := r.w.p.currentSize)
    decreases |steps|
  {
    if steps == [] then Streamed(w, Exhausted)
    else match steps[0]
      case Fault => Streamed(w, Faulted)
      case Flip(s) => Stream(steps[1..], w.(p := w.p.(status := s, speed := 0)), dl, pos, to)
      case Chunk(n) =>
        if w.p.status != Loading then Streamed(w, Stopped)
        else Stream(steps[1..], PostLoading(WriteChunk(w, dl, pos, n), to), dl, pos + n, to)
  }

  /** download() as written (lines 430-449): set LOADING, stream, and
      whenever the loop ends without an exception replace the Long.MAX_VALUE
      placeholder by the bytes received, also when the loop was stopped by a
      pause. */
  function DownloadAsWritten(steps: seq<Step>, w: World, dl: string, start: int, to: set<Listener>): (r: Streamed)
    ensures r.w.p.filePath == w.p.filePath && r.w.p.tempFileName == w.p.tempFileName && r.w.p.folder == w.p.folder
  {
    var s := Stream(steps, w.(p := w.p.(status := Loading)), dl, start, to);
    if s.ending != Faulted && s.w.p.totalSize == LONG_MAX_VALUE then
      s.(w := s.w.(p := s.w.p.(totalSize := s.w.p.currentSize)))
    else s
  }

  /** download() as intended: the placeholder is replaced by the bytes
      received only once the body has been read to its end. */
  function Download(steps: seq<Step>, w: World, dl: string, start: int, to: set<Listener>): (r: Streamed)
    ensures r.w.p.filePath == w.p.filePath && r.w.p.tempFileName == w.p.tempFileName && r.w.p.folder == w.p.folder
  {
    var s := Stream(steps, w.(p := w.p.(status := Loading)), dl, start, to);
    if s.ending == Exhausted && s.w.p.totalSize == LONG_MAX_VALUE then
      s.(w := s.w.(p := s.w.p.(totalSize := s.w.p.currentSize)))
    else s
  }

  /** Lines 406-424: what the status after the loop means. */
  function Reconcile(w: World, to: set<Listener>): (r: World)
    requires w.p.filePath.NonNull?
    ensures Concluded(r.p.status)
    ensures w.p.status == Pause <==> r.p.status == Pause
  {
    if w.p.status == Pause then PostPause(w, to)
    else if w.p.status == Loading then
      if FileLength(w.files, DownloadFile(w.p)) == w.p.totalSize then Complete(w, to)
      else PostOnError(w, BreakpointExpired, to)
    else PostOnError(w, UnknownStatus, to)
  }

  /** Lines 390-425: open the file, persist, stream and reconcile. */
  function WriteBody(w: World, start: int, steps: seq<Step>, fileOpens: bool, to: set<Listener>): (r: World)
    requires w.p.filePath.NonNull?
    ensures Concluded(r.p.status)
    ensures !fileOpens ==> r.p.status == Error && r.files == w.files
  {
    if !fileOpens then PostOnError(w, OpenFailed, to)
    else
      var dl := DownloadFile(w.p);
      var w1 := w.(files := w.files[dl := FileLength(w.files, dl)], p := w.p.(currentSize := start));
      var s := Download(steps, Emit(w1, Replace(w1.p)), dl, start, to);
      if s.ending == Faulted then PostOnError(s.w, StreamFailed, to)
      else Reconcile(s.w, to)
  }

  /** Lines 326-425, once the code has been accepted. */
  function Accepted(w: World, start: int, r: Response, x: Attempt, to: set<Listener>): (v: World)
    ensures Concluded(v.p.status)
  {
    match Prepare(w, start, r, x.folderCreated, to)
    case Ended(v) => v
    case Going(v, s) => WriteBody(v, s, r.body.value.steps, x.fileOpens, to)
  }

  /** Lines 299-425: everything after request.execute() returned. */
  function Answered(w: World, start: int, r: Response, x: Attempt, to: set<Listener>): (v: World)
    ensures Concluded(v.p.status)
  {
    match Respond(w, start, r, to)
    case Ended(v) => v
    case Going(v, s) => Accepted(v, s, r, x, to)
  }

  /** run() as a whole. */
  function Run(w: World, x: Attempt, to: set<Listener>): (v: World)
    ensures Concluded(v.p.status)
    ensures x.exchange.Threw? ==> v.p.status == Error && v.p.exception == NonNull(TransportFailed) && v.files == w.files
  {
    var b := CheckBreakpoint(w);
    var w1 := AttachRange(b.w, b.start);
    match x.exchange
    case Threw => PostOnError(w1, TransportFailed, to)
    case Responded(r) => Answered(w1, b.start, r, x, to)
  }
}
