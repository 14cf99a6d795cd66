/** What a run of a download task promises, proved about the reference
    semantics in module Transfer. */
module RunProperties {
  import opened Records
  import opened Transfer

  predicate AllChunks(steps: seq<Step>) {
    forall i :: 0 <= i < |steps| ==> steps[i].Chunk?
  }

  /** Bytes carried by the chunks of a step sequence. */
  function Received(steps: seq<Step>): int
    decreases |steps|
  {
    if steps == [] then 0
    else (if steps[0].Chunk? then steps[0].length else 0) + Received(steps[1..])
  }

  // ---- the chunk loop ----

  lemma ChunksRest(steps: seq<Step>)
    requires steps != [] && AllChunks(steps)
    ensures steps[0].Chunk? && AllChunks(steps[1..])
  {
    assert forall i :: 0 <= i < |steps[1..]| ==> steps[1..][i] == steps[i + 1];
  }

  /** A stream of chunks while LOADING writes every byte, contiguously from pos. */
  lemma {:induction false} StreamWritesEveryChunk(steps: seq<Step>, w: World, dl: string, pos: int, to: set<Listener>)
    requires AllChunks(steps) && w.p.status == Loading
    requires dl in w.files && w.files[dl] == pos
    ensures var r := Stream(steps, w, dl, pos, to);
      && r.ending == Exhausted
      && r.w.p == w.p.(currentSize := w.p.currentSize + Received(steps))
      && r.w.files == w.files[dl := pos + Received(steps)]
    decreases |steps|
  {
    if steps != [] {
      var n := steps[0].length;
      var w1 := PostLoading(WriteChunk(w, dl, pos, n), to);
      assert w1.files == w.files[dl := pos + n];
      ChunksRest(steps);
      StreamWritesEveryChunk(steps[1..], w1, dl, pos + n, to);
      assert Stream(steps, w, dl, pos, to) == Stream(steps[1..], w1, dl, pos + n, to);
    } else {
      assert w.files[dl := pos] == w.files;
    }
  }

  /** One chunk read while LOADING is written and reported. */
  lemma StreamChunk(steps: seq<Step>, w: World, dl: string, pos: int, to: set<Listener>)
    requires steps != [] && steps[0].Chunk? && w.p.status == Loading
    ensures Stream(steps, w, dl, pos, to)
         == Stream(steps[1..], PostLoading(WriteChunk(w, dl, pos, steps[0].length), to), dl, pos + steps[0].length, to)
  {
  }

  lemma Overwrite(m: map<string, int>, k: string, a: int, b: int)
    ensures m[k := a][k := b] == m[k := b]
  {
  }

  /** After the chunks and the flip to PAUSE, the stream has stopped: the bytes
      written so far stay, and the chunk read after the flip is dropped. */
  ghost predicate StoppedOnPause(chunks: seq<Step>, rest: seq<Step>, w: World, dl: string, pos: int, to: set<Listener>) {
    var r := Stream(chunks + [Flip(Pause)] + rest, w, dl, pos, to);
    && r.ending == (if rest == [] then Exhausted else Stopped)
    && r.w.p == w.p.(status := Pause, speed := 0, currentSize := w.p.currentSize + Received(chunks))
    && r.w.files == w.files[dl := pos + Received(chunks)]
  }

  lemma PauseFirst(rest: seq<Step>, w: World, dl: string, pos: int, to: set<Listener>)
    requires w.p.status == Loading && dl in w.files && w.files[dl] == pos
    requires rest == [] || rest[0].Chunk?
    ensures StoppedOnPause([], rest, w, dl, pos, to)
  {
    var whole := [] + [Flip(Pause)] + rest;
    assert whole == [Flip(Pause)] + rest && whole[1..] == rest;
    assert w.files[dl := pos] == w.files;
  }

  lemma PauseAfterChunk(chunks: seq<Step>, rest: seq<Step>, w: World, dl: string, pos: int, to: set<Listener>)
    requires chunks != [] && chunks[0].Chunk? && w.p.status == Loading && dl in w.files && w.files[dl] == pos
    requires var n := chunks[0].length;
      StoppedOnPause(chunks[1..], rest, PostLoading(WriteChunk(w, dl, pos, n), to), dl, pos + n, to)
    ensures StoppedOnPause(chunks, rest, w, dl, pos, to)
  {
    var n := chunks[0].length;
    var w1 := PostLoading(WriteChunk(w, dl, pos, n), to);
    var whole := chunks + [Flip(Pause)] + rest;
    assert w1.files == w.files[dl := pos + n];
    assert whole[0] == chunks[0] && whole[1..] == chunks[1..] + [Flip(Pause)] + rest;
    StreamChunk(whole, w, dl, pos, to);
    assert Received(chunks) == n + Received(chunks[1..]);
    Overwrite(w.files, dl, pos + n, pos + Received(chunks));
  }

  /** A pause observed between chunks stops the loop. */
  lemma {:induction false} StreamStopsOnPause(chunks: seq<Step>, rest: seq<Step>, w: World, dl: string, pos: int, to: set<Listener>)
    requires AllChunks(chunks) && w.p.status == Loading
    requires dl in w.files && w.files[dl] == pos
    requires rest == [] || rest[0].Chunk?
    ensures StoppedOnPause(chunks, rest, w, dl, pos, to)
    decreases |chunks|
  {
    if chunks == [] {
      PauseFirst(rest, w, dl, pos, to);
    } else {
      var n := chunks[0].length;
      var w1 := PostLoading(WriteChunk(w, dl, pos, n), to);
      assert w1.files == w.files[dl := pos + n];
      ChunksRest(chunks);
      StreamStopsOnPause(chunks[1..], rest, w1, dl, pos + n, to);
      PauseAfterChunk(chunks, rest, w, dl, pos, to);
    }
  }

  // ---- the stages before the body ----

  /** The resume position is the recorded size unless that is negative or the
      partial file it refers to is gone; then it is 0. */
  lemma ResumePosition(w: World)
    ensures var b := CheckBreakpoint(w);
      && b.Going? && b.start >= 0 && b.w.p.currentSize == b.start
      && (b.start == w.p.currentSize <==>
           w.p.currentSize == 0
           || (w.p.currentSize > 0 && (IsEmpty(w.p.filePath) || DownloadFile(w.p) in w.files)))
      && (b.start == w.p.currentSize ==> b.w == w)
      && (b.start != w.p.currentSize ==>
            && b.start == 0 && b.w.p == w.p.(speed := 0, status := None, currentSize := 0)
            && b.w.trace == w.trace + [Update(b.w.p)])
      && b.w.files == w.files
  {
  }

  /** Range headers go on the request only with a change token and a positive
      resume position, and then they ask for exactly that position. */
  lemma RangeOnlyWhenResuming(w: World, start: int)
    ensures var a := AttachRange(w, start);
      && (w.p.extra1.NonNull? && start > 0 ==> a.p.request == RangeHeaders(w.p.extra1, NonNull(start)))
      && (w.p.extra1.Null? || start <= 0 ==> a == w)
      && a.p == w.p.(request := a.p.request) && a.files == w.files && a.trace == w.trace
  {
  }

  /** 404 and 5xx end the run in ERROR without touching the file system. */
  lemma NetworkErrorEnds(w: World, x: Attempt, to: set<Listener>)
    requires x.exchange.Responded? && (x.exchange.response.code == 404 || x.exchange.response.code >= 500)
    ensures var v := Run(w, x, to);
      && v.p.status == Error && v.p.exception == NonNull(NetError)
      && v.files == w.files
      && v.p.extra1 == w.p.extra1
  {
  }

  /** 416 forgets the change token and the progress, then ends in ERROR. */
  lemma RangeNotSatisfiableResets(w: World, x: Attempt, to: set<Listener>)
    requires x.exchange.Responded? && x.exchange.response.code == 416
    ensures var v := Run(w, x, to);
      && v.p.status == Error && v.p.exception == NonNull(FileExpired)
      && v.p.extra1 == Null && v.p.currentSize == 0 && v.p.fraction == 0.0
      && v.files == w.files
  {
  }

  /** Any other code records the server's change token, preferring the ETag;
      200 also starts again from byte 0. */
  lemma TokenRecorded(w: World, start: int, r: Response, to: set<Listener>)
    requires !(r.code == 404 || r.code >= 500 || r.code == 416)
    ensures var ph := Respond(w, start, r, to);
      && ph.Going?
      && ph.w.p.extra1 == (if r.eTag.NonNull? && r.eTag.value != "" then r.eTag else r.lastModified)
      && (r.code == 200 ==> ph.start == 0 && ph.w.p.currentSize == 0 && ph.w.p.fraction == 0.0)
      && (r.code != 200 ==> ph.start == start && ph.w.p.currentSize == w.p.currentSize)
      && ph.w.trace == w.trace + [Update(ph.w.p)]
  {
  }

  /** An unknown total takes the declared length; with no declared length it
      becomes the Long.MAX_VALUE placeholder. A known total is kept. */
  lemma TotalResolution(total: int, contentLength: int)
    ensures total != UNKNOWN_LENGTH ==> ResolvedTotal(total, contentLength) == total
    ensures total == UNKNOWN_LENGTH && contentLength != UNKNOWN_LENGTH ==> ResolvedTotal(total, contentLength) == contentLength
    ensures total == UNKNOWN_LENGTH && contentLength == UNKNOWN_LENGTH ==> ResolvedTotal(total, contentLength) == LONG_MAX_VALUE
  {
  }

  /** A resume position past the total, or one whose file is gone, expires
      the breakpoint before any byte of the body is read. */
  lemma BadResumeExpires(w: World, start: int, to: set<Listener>)
    requires w.p.filePath.NonNull?
    requires (start > 0 && DownloadFile(w.p) !in w.files) || start > w.p.totalSize
    ensures var ph := CheckFile(w, start, to);
      && ph.Ended? && ph.w.p.status == Error && ph.w.p.exception == NonNull(BreakpointExpired)
      && ph.w.files == w.files
  {
  }

  /** A file that already holds all totalSize bytes finishes without reading the body. */
  lemma AlreadyCompleteFinishes(w: World, start: int, to: set<Listener>)
    requires w.p.filePath.NonNull?
    requires start == w.p.totalSize && start > 0
    requires DownloadFile(w.p) in w.files && w.files[DownloadFile(w.p)] == start
    ensures var ph := CheckFile(w, start, to);
      && ph.Ended? && ph.w.p.status == Finish
      && w.p.filePath.value in ph.w.files && ph.w.files[w.p.filePath.value] == start
  {
  }

  // ---- whole runs ----

  /** The run is over: the final record is in a settled status, was persisted
      and then delivered, and the trace before the run is kept. */
  ghost predicate Settled(before: seq<Effect>, v: World) {
    && v.p.status in {Pause, Error, Finish}
    && |v.trace| >= |before| + 2
    && v.trace[..|before|] == before
    && v.trace[|v.trace| - 2] == Update(v.p)
    && v.trace[|v.trace| - 1].Deliver? && v.trace[|v.trace| - 1].rec == v.p
  }

  lemma PostSettles(w: World, calls: seq<Callback>, to: set<Listener>)
    requires w.p.status in {Pause, Error, Finish}
    ensures Settled(w.trace, Post(w, calls, to))
  {
    PostEffects(w, calls, to);
    var v := Post(w, calls, to);
    assert v.trace[..|w.trace|] == w.trace;
  }

  lemma ErrorSettles(w: World, f: Failure, to: set<Listener>)
    ensures Settled(w.trace, PostOnError(w, f, to))
  {
    PostSettles(w.(p := w.p.(speed := 0, status := Error, exception := NonNull(f))), [OnProgress, OnError], to);
  }

  lemma CompleteSettles(w: World, to: set<Listener>)
    requires w.p.filePath.NonNull?
    ensures Settled(w.trace, Complete(w, to)) && Complete(w, to).p.status == Finish
  {
    if !IsEmpty(w.p.tempFileName) {
      var w1 := w.(files := Rename(w.files, DownloadFile(w.p), w.p.filePath.value));
      PostSettles(w1.(p := w1.p.(speed := 0, fraction := 1.0, status := Finish)), [OnProgress, OnFinish(w.p.filePath.value)], to);
    } else {
      PostSettles(w.(p := w.p.(speed := 0, fraction := 1.0, status := Finish)), [OnProgress, OnFinish(DownloadFile(w.p))], to);
    }
  }

  lemma {:induction false} StreamExtendsTrace(steps: seq<Step>, w: World, dl: string, pos: int, to: set<Listener>)
    ensures w.trace <= Stream(steps, w, dl, pos, to).w.trace
    decreases |steps|
  {
    if steps != [] {
      match steps[0]
      case Fault =>
      case Flip(s) => StreamExtendsTrace(steps[1..], w.(p := w.p.(status := s, speed := 0)), dl, pos, to);
      case Chunk(n) =>
        if w.p.status == Loading {
          PostEffects(WriteChunk(w, dl, pos, n), [OnProgress], to);
          StreamExtendsTrace(steps[1..], PostLoading(WriteChunk(w, dl, pos, n), to), dl, pos + n, to);
        }
    }
  }

  lemma Prefixed(a: seq<Effect>, b: seq<Effect>, v: World)
    requires a <= b && Settled(b, v)
    ensures Settled(a, v)
  {
    assert v.trace[..|a|] == v.trace[..|b|][..|a|];
  }

  lemma WriteBodySettles(w: World, start: int, steps: seq<Step>, fileOpens: bool, to: set<Listener>)
    requires w.p.filePath.NonNull?
    ensures Settled(w.trace, WriteBody(w, start, steps, fileOpens, to))
  {
    if !fileOpens {
      ErrorSettles(w, OpenFailed, to);
    } else {
      var dl := DownloadFile(w.p);
      var w1 := w.(files := w.files[dl := FileLength(w.files, dl)], p := w.p.(currentSize := start));
      var w2 := Emit(w1, Replace(w1.p));
      StreamExtendsTrace(steps, w2.(p := w2.p.(status := Loading)), dl, start, to);
      var s := Download(steps, w2, dl, start, to);
      assert w.trace <= s.w.trace;
      if s.ending == Faulted {
        ErrorSettles(s.w, StreamFailed, to);
        Prefixed(w.trace, s.w.trace, PostOnError(s.w, StreamFailed, to));
      } else {
        var v := Reconcile(s.w, to);
        if s.w.p.status == Pause {
          PostSettles(s.w.(p := s.w.p.(speed := 0, status := Pause)), [OnProgress], to);
        } else if s.w.p.status == Loading && FileLength(s.w.files, DownloadFile(s.w.p)) == s.w.p.totalSize {
          CompleteSettles(s.w, to);
        } else if s.w.p.status == Loading {
          ErrorSettles(s.w, BreakpointExpired, to);
        } else {
          ErrorSettles(s.w, UnknownStatus, to);
        }
        Prefixed(w.trace, s.w.trace, v);
      }
    }
  }

  lemma CheckFileSettles(w: World, start: int, to: set<Listener>)
    requires w.p.filePath.NonNull?
    ensures var ph := CheckFile(w, start, to);
      (ph.Ended? ==> Settled(w.trace, ph.w)) && (ph.Going? ==> ph.w.trace == w.trace)
  {
    var dl := DownloadFile(w.p);
    if start > 0 && dl !in w.files {
      ErrorSettles(w, BreakpointExpired, to);
    } else if start > w.p.totalSize {
      ErrorSettles(w, BreakpointExpired, to);
    } else {
      var w1 := if start == 0 && dl in w.files then w.(files := w.files - {dl}) else w;
      if start == w1.p.totalSize && start > 0 {
        if dl in w1.files && start == w1.files[dl] {
          CompleteSettles(w1, to);
        } else {
          ErrorSettles(w1, BreakpointExpired, to);
        }
      }
    }
  }

  lemma PrepareSettles(w: World, start: int, r: Response, folderCreated: bool, to: set<Listener>)
    ensures var ph := Prepare(w, start, r, folderCreated, to);
      (ph.Ended? ==> Settled(w.trace, ph.w)) && (ph.Going? ==> ph.w.trace == w.trace)
  {
    if r.body.Null? {
      ErrorSettles(w, BodyMissing, to);
    } else {
      var p1 := w.p.(totalSize := ResolvedTotal(w.p.totalSize, r.body.value.contentLength));
      var p2 := if IsEmpty(p1.fileName) then p1.(fileName := NonNull(r.netFileName)) else p1;
      if !folderCreated {
        ErrorSettles(w.(p := p2), StorageUnavailable, to);
      } else {
        var p3 := if IsEmpty(p2.filePath) then p2.(filePath := NonNull(Join(p2.folder, p2.fileName.value))) else p2;
        CheckFileSettles(w.(p := p3), start, to);
      }
    }
  }

  lemma RespondSettles(w: World, start: int, r: Response, to: set<Listener>)
    ensures var ph := Respond(w, start, r, to);
      (ph.Ended? ==> Settled(w.trace, ph.w)) && (ph.Going? ==> w.trace <= ph.w.trace)
  {
    if r.code == 404 || r.code >= 500 {
      ErrorSettles(w, NetError, to);
    } else if r.code == 416 {
      ErrorSettles(w.(p := w.p.(extra1 := Null, fraction := 0.0, currentSize := 0)), FileExpired, to);
    }
  }

  lemma AcceptedSettles(w: World, start: int, r: Response, x: Attempt, to: set<Listener>)
    ensures Settled(w.trace, Accepted(w, start, r, x, to))
  {
    PrepareSettles(w, start, r, x.folderCreated, to);
    match Prepare(w, start, r, x.folderCreated, to)
    case Ended(v) =>
    case Going(v, s) =>
      WriteBodySettles(v, s, r.body.value.steps, x.fileOpens, to);
  }

  lemma AnsweredSettles(w: World, start: int, r: Response, x: Attempt, to: set<Listener>)
    ensures Settled(w.trace, Answered(w, start, r, x, to))
  {
    RespondSettles(w, start, r, to);
    match Respond(w, start, r, to)
    case Ended(v) =>
    case Going(v, s) =>
      AcceptedSettles(v, s, r, x, to);
      Prefixed(w.trace, v.trace, Accepted(v, s, r, x, to));
  }

  /** Every run ends by persisting and then delivering its final record, in
      PAUSE, ERROR or FINISH. */
  lemma RunSettles(w: World, x: Attempt, to: set<Listener>)
    ensures Settled(w.trace, Run(w, x, to))
  {
    var b := CheckBreakpoint(w);
    var w1 := AttachRange(b.w, b.start);
    assert w.trace <= w1.trace;
    match x.exchange
    case Threw =>
      ErrorSettles(w1, TransportFailed, to);
      Prefixed(w.trace, w1.trace, PostOnError(w1, TransportFailed, to));
    case Responded(r) =>
      AnsweredSettles(w1, b.start, r, x, to);
      Prefixed(w.trace, w1.trace, Answered(w1, b.start, r, x, to));
  }

  // ---- bodies that arrive whole ----

  /** Total the task compares against after download(): the placeholder is
      replaced by the bytes received. */
  function FinalTotal(total: int, received: int): int {
    if total == LONG_MAX_VALUE then received else total
  }

  lemma ReceivedNonNegative(steps: seq<Step>)
    ensures Received(steps) >= 0
    decreases |steps|
  {
    if steps != [] {
      ReceivedNonNegative(steps[1..]);
    }
  }

  /** download() over a body of chunks: every byte lands after start and the
      placeholder total becomes the bytes received. */
  lemma DownloadWhole(steps: seq<Step>, w: World, dl: string, start: int, to: set<Listener>)
    requires AllChunks(steps) && dl in w.files && w.files[dl] == start
    ensures var s := Download(steps, w, dl, start, to);
      var got := w.p.currentSize + Received(steps);
      && s.ending == Exhausted
      && s.w.p == w.p.(status := Loading, currentSize := got, totalSize := FinalTotal(w.p.totalSize, got))
      && s.w.files == w.files[dl := start + Received(steps)]
  {
    StreamWritesEveryChunk(steps, w.(p := w.p.(status := Loading)), dl, start, to);
  }

  /** What the status after the loop means when it is still LOADING. */
  lemma ReconcileLoading(w: World, to: set<Listener>)
    requires w.p.filePath.NonNull? && w.p.status == Loading && DownloadFile(w.p) in w.files
    ensures var v := Reconcile(w, to);
      var len := FileLength(w.files, DownloadFile(w.p));
      && v.p.currentSize == w.p.currentSize && v.p.totalSize == w.p.totalSize
      && v.p.request == w.p.request && v.p.extra1 == w.p.extra1 && v.p.filePath == w.p.filePath
      && (v.p.status == Finish <==> len == w.p.totalSize)
      && (v.p.status == Finish ==> v.p.fraction == 1.0)
      && (v.p.status != Finish ==> v.p.status == Error && v.p.exception == NonNull(BreakpointExpired))
      && (v.p.status == Finish ==> w.p.filePath.value in v.files && v.files[w.p.filePath.value] == len)
  {
    if FileLength(w.files, DownloadFile(w.p)) == w.p.totalSize {
      CompleteSettles(w, to);
      if !IsEmpty(w.p.tempFileName) {
        var moved := Rename(w.files, DownloadFile(w.p), w.p.filePath.value);
        assert w.p.filePath.value in moved && moved[w.p.filePath.value] == w.files[DownloadFile(w.p)];
      }
    }
  }

  /** The task holds exactly `got` bytes, and it finished exactly when those
      are the total, with the file at `path` holding them. */
  ghost predicate WroteAll(v: World, path: string, got: int, total: int) {
    && v.p.currentSize == got
    && (v.p.status == Finish <==> got == total)
    && (v.p.status == Finish ==> path in v.files && v.files[path] == got)
    && (v.p.status == Finish ==> v.p.fraction == 1.0)
  }

  /** The record a 206 response is streamed into, from the record `v` it
      arrived at: the server's change token recorded. */
  function Resumed(v: World, r: Response): World {
    var v1 := UpdateDatabase(v.(p := v.p.(extra1 := ChangeToken(r))));
    if IsEmpty(v1.p.fileName) then v1.(p := v1.p.(fileName := NonNull(r.netFileName))) else v1
  }

  lemma ResumeReachesBody(v: World, start: int, r: Response, x: Attempt, to: set<Listener>)
    requires x.folderCreated && r.code == 206 && r.body.NonNull?
    requires !IsEmpty(v.p.filePath) && 0 < start < v.p.totalSize
    requires DownloadFile(v.p) in v.files
    ensures var u := Resumed(v, r);
      && u.p.filePath == v.p.filePath && DownloadFile(u.p) == DownloadFile(v.p) && u.files == v.files
      && FileLength(u.files, DownloadFile(u.p)) == v.files[DownloadFile(v.p)]
      && u.p.totalSize == v.p.totalSize && u.p.extra1 == ChangeToken(r) && u.p.request == v.p.request
      && Answered(v, start, r, x, to) == WriteBody(u, start, r.body.value.steps, x.fileOpens, to)
  {
    var v1 := UpdateDatabase(v.(p := v.p.(extra1 := ChangeToken(r))));
    assert Respond(v, start, r, to) == Going(v1, start);
    var u := Resumed(v, r);
    assert ResolvedTotal(v1.p.totalSize, r.body.value.contentLength) == v1.p.totalSize;
    assert DownloadFile(u.p) == DownloadFile(v.p);
    assert CheckFile(u, start, to) == Going(u, start);
    assert Prepare(v1, start, r, true, to) == Going(u, start);
  }

  /** The body of a response streamed to the end while LOADING: every byte is
      on disk and the task finishes exactly when the file holds the total. */
  /** The file opened and the record replaced, as lines 390-399 leave them. */
  function Opened(w: World, start: int): World
    requires w.p.filePath.NonNull? || !IsEmpty(w.p.tempFileName)
  {
    var dl := DownloadFile(w.p);
    var w1 := w.(files := w.files[dl := FileLength(w.files, dl)], p := w.p.(currentSize := start));
    Emit(w1, Replace(w1.p))
  }

  lemma BodyUnfolds(w: World, start: int, steps: seq<Step>, to: set<Listener>)
    requires w.p.filePath.NonNull?
    requires Download(steps, Opened(w, start), DownloadFile(w.p), start, to).ending != Faulted
    ensures WriteBody(w, start, steps, true, to) == Reconcile(Download(steps, Opened(w, start), DownloadFile(w.p), start, to).w, to)
  {
  }

  /** Reconcile after a whole body, for any world the loop can leave. */
  lemma ReconcileStreamed(u: World, w: World, got: int, to: set<Listener>)
    requires w.p.filePath.NonNull? && u.p.filePath == w.p.filePath
    requires u.p.status == Loading && u.p.currentSize == got
    requires u.p.totalSize == FinalTotal(w.p.totalSize, got)
    requires u.p.request == w.p.request && u.p.extra1 == w.p.extra1
    requires DownloadFile(u.p) == DownloadFile(w.p) && DownloadFile(w.p) in u.files
    requires u.files[DownloadFile(w.p)] == got
    ensures var v := Reconcile(u, to);
      && WroteAll(v, w.p.filePath.value, got, FinalTotal(w.p.totalSize, got))
      && v.p.totalSize == FinalTotal(w.p.totalSize, got)
      && v.p.request == w.p.request && v.p.extra1 == w.p.extra1 && v.p.filePath == w.p.filePath
      && (v.p.status != Finish ==> v.p.status == Error && v.p.exception == NonNull(BreakpointExpired))
  {
    ReconcileLoading(u, to);
  }

  lemma BodyStreamedWhole(w: World, start: int, steps: seq<Step>, to: set<Listener>)
    requires w.p.filePath.NonNull? && AllChunks(steps)
    requires FileLength(w.files, DownloadFile(w.p)) == start
    ensures var v := WriteBody(w, start, steps, true, to);
      var got := start + Received(steps);
      && WroteAll(v, w.p.filePath.value, got, FinalTotal(w.p.totalSize, got))
      && v.p.totalSize == FinalTotal(w.p.totalSize, got)
      && v.p.request == w.p.request && v.p.extra1 == w.p.extra1 && v.p.filePath == w.p.filePath
      && (v.p.status != Finish ==> v.p.status == Error && v.p.exception == NonNull(BreakpointExpired))
  {
    var dl := DownloadFile(w.p);
    DownloadWhole(steps, Opened(w, start), dl, start, to);
    var u := Download(steps, Opened(w, start), dl, start, to).w;
    assert DownloadFile(u.p) == dl;
    BodyUnfolds(w, start, steps, to);
    ReconcileStreamed(u, w, start + Received(steps), to);
  }

  /** The parts of BodyStreamedWhole that the record keeps or resolves. */
  lemma BodyKeepsRecord(w: World, start: int, steps: seq<Step>, to: set<Listener>)
    requires w.p.filePath.NonNull? && AllChunks(steps)
    requires FileLength(w.files, DownloadFile(w.p)) == start
    ensures var v := WriteBody(w, start, steps, true, to);
      && v.p.totalSize == FinalTotal(w.p.totalSize, start + Received(steps))
      && v.p.request == w.p.request && v.p.extra1 == w.p.extra1 && v.p.filePath == w.p.filePath
  {
    BodyStreamedWhole(w, start, steps, to);
  }

  /** The rest of BodyStreamedWhole, as a single fact about the result. */
  lemma BodyWroteAll(w: World, start: int, steps: seq<Step>, to: set<Listener>)
    requires w.p.filePath.NonNull? && AllChunks(steps)
    requires FileLength(w.files, DownloadFile(w.p)) == start
    ensures var v := WriteBody(w, start, steps, true, to);
      var got := start + Received(steps);
      v.p.filePath.NonNull? && WroteAll(v, v.p.filePath.value, got, FinalTotal(w.p.totalSize, got))
  {
    BodyStreamedWhole(w, start, steps, to);
  }

  /** A record with a positive position whose partial file exists passes the
      breakpoint check unchanged. */
  lemma RunResumes(w: World, x: Attempt, to: set<Listener>)
    requires x.exchange.Responded?
    requires !IsEmpty(w.p.filePath) && 0 < w.p.currentSize && DownloadFile(w.p) in w.files
    ensures Run(w, x, to) == Answered(AttachRange(w, w.p.currentSize), w.p.currentSize, x.exchange.response, x, to)
  {
    assert CheckBreakpoint(w) == Going(w, w.p.currentSize);
  }

  /** A resumed download (206 on a partial file of currentSize bytes, with a
      change token) asks for the rest from exactly that byte and records the
      server's new change token. */
  lemma ResumeAsksForRest(w: World, x: Attempt, to: set<Listener>)
    requires x.folderCreated && x.fileOpens && x.exchange.Responded?
    requires x.exchange.response.code == 206 && x.exchange.response.body.NonNull?
    requires AllChunks(x.exchange.response.body.value.steps)
    requires !IsEmpty(w.p.filePath) && w.p.extra1.NonNull? && 0 < w.p.currentSize < w.p.totalSize
    requires DownloadFile(w.p) in w.files && w.files[DownloadFile(w.p)] == w.p.currentSize
    ensures var v := Run(w, x, to);
      && v.p.request == RangeHeaders(w.p.extra1, NonNull(w.p.currentSize))
      && v.p.extra1 == ChangeToken(x.exchange.response)
  {
    var S := w.p.currentSize;
    var v := AttachRange(w, S);
    RunResumes(w, x, to);
    assert v.p.filePath == w.p.filePath && v.p.totalSize == w.p.totalSize && DownloadFile(v.p) == DownloadFile(w.p);
    assert v.p.request == RangeHeaders(w.p.extra1, NonNull(S));
    ResumeKeepsRecord(v, S, x.exchange.response, x, to);
  }

  /** The same resumed download, towards a known total, appends every byte of
      the body to the partial file and finishes exactly when the file then
      holds the total. */
  lemma ResumeAppends(w: World, x: Attempt, to: set<Listener>)
    requires x.folderCreated && x.fileOpens && x.exchange.Responded?
    requires x.exchange.response.code == 206 && x.exchange.response.body.NonNull?
    requires AllChunks(x.exchange.response.body.value.steps)
    requires !IsEmpty(w.p.filePath) && 0 < w.p.currentSize < w.p.totalSize < LONG_MAX_VALUE
    requires DownloadFile(w.p) in w.files && w.files[DownloadFile(w.p)] == w.p.currentSize
    ensures var v := Run(w, x, to);
      var got := w.p.currentSize + Received(x.exchange.response.body.value.steps);
      v.p.filePath == w.p.filePath && WroteAll(v, v.p.filePath.value, got, w.p.totalSize)
  {
    var S := w.p.currentSize;
    var v := AttachRange(w, S);
    RunResumes(w, x, to);
    assert v.p.filePath == w.p.filePath && v.p.totalSize == w.p.totalSize && DownloadFile(v.p) == DownloadFile(w.p);
    ResumeKeepsRecord(v, S, x.exchange.response, x, to);
    ResumeWroteAll(v, S, x.exchange.response, x, to);
  }

  /** A 206 response at the arrived record `v`: the record keeps its path and
      its range headers and takes the server's change token. */
  lemma ResumeKeepsRecord(v: World, start: int, r: Response, x: Attempt, to: set<Listener>)
    requires x.folderCreated && x.fileOpens && r.code == 206 && r.body.NonNull?
    requires AllChunks(r.body.value.steps)
    requires !IsEmpty(v.p.filePath) && 0 < start < v.p.totalSize
    requires DownloadFile(v.p) in v.files && v.files[DownloadFile(v.p)] == start
    ensures var a := Answered(v, start, r, x, to);
      && a.p.filePath == v.p.filePath && a.p.request == v.p.request
      && a.p.extra1 == ChangeToken(r)
  {
    ResumeReachesBody(v, start, r, x, to);
    BodyKeepsRecord(Resumed(v, r), start, r.body.value.steps, to);
  }

  /** A 206 response at the arrived record `v`: the body is appended from `start`. */
  lemma ResumeWroteAll(v: World, start: int, r: Response, x: Attempt, to: set<Listener>)
    requires x.folderCreated && x.fileOpens && r.code == 206 && r.body.NonNull?
    requires AllChunks(r.body.value.steps)
    requires !IsEmpty(v.p.filePath) && 0 < start < v.p.totalSize < LONG_MAX_VALUE
    requires DownloadFile(v.p) in v.files && v.files[DownloadFile(v.p)] == start
    ensures var a := Answered(v, start, r, x, to);
      var got := start + Received(r.body.value.steps);
      a.p.filePath.NonNull? && WroteAll(a, a.p.filePath.value, got, v.p.totalSize)
  {
    ResumeReachesBody(v, start, r, x, to);
    ResumedBodyWroteAll(v, start, r, to);
  }

  /** The body written into the resumed record, towards its known total. */
  lemma ResumedBodyWroteAll(v: World, start: int, r: Response, to: set<Listener>)
    requires r.body.NonNull? && AllChunks(r.body.value.steps)
    requires !IsEmpty(v.p.filePath) && v.p.totalSize < LONG_MAX_VALUE
    requires DownloadFile(v.p) in v.files && v.files[DownloadFile(v.p)] == start
    ensures var a := WriteBody(Resumed(v, r), start, r.body.value.steps, true, to);
      var got := start + Received(r.body.value.steps);
      a.p.filePath.NonNull? && WroteAll(a, a.p.filePath.value, got, v.p.totalSize)
  {
    var u := Resumed(v, r);
    assert u.p.totalSize == v.p.totalSize && u.p.filePath == v.p.filePath;
    assert DownloadFile(u.p) == DownloadFile(v.p) && u.files == v.files;
    BodyWroteAll(u, start, r.body.value.steps, to);
  }

  /** The record a 200 response is streamed into, from the record `v` it
      arrived at: the change token recorded, the position reset, the total
      resolved, the file path settled and any old file discarded. */
  function Restarted(v: World, r: Response): World
    requires r.body.NonNull?
  {
    var v1 := UpdateDatabase(v.(p := v.p.(extra1 := ChangeToken(r), currentSize := 0, fraction := 0.0)));
    var p1 := v1.p.(totalSize := ResolvedTotal(v1.p.totalSize, r.body.value.contentLength));
    var p2 := if IsEmpty(p1.fileName) then p1.(fileName := NonNull(r.netFileName)) else p1;
    var p3 := if IsEmpty(p2.filePath) then p2.(filePath := NonNull(Join(p2.folder, p2.fileName.value))) else p2;
    var dl := DownloadFile(p3);
    if dl in v1.files then v1.(p := p3, files := v1.files - {dl}) else v1.(p := p3)
  }

  lemma RestartReachesBody(v: World, start: int, r: Response, x: Attempt, to: set<Listener>)
    requires x.folderCreated && r.code == 200 && r.body.NonNull?
    requires ResolvedTotal(v.p.totalSize, r.body.value.contentLength) >= 0
    ensures var u := Restarted(v, r);
      && u.p.filePath.NonNull? && FileLength(u.files, DownloadFile(u.p)) == 0
      && u.p.totalSize == ResolvedTotal(v.p.totalSize, r.body.value.contentLength)
      && u.p.extra1 == ChangeToken(r)
      && Answered(v, start, r, x, to) == WriteBody(u, 0, r.body.value.steps, x.fileOpens, to)
  {
    var v1 := UpdateDatabase(v.(p := v.p.(extra1 := ChangeToken(r), currentSize := 0, fraction := 0.0)));
    assert Respond(v, start, r, to) == Going(v1, 0);
    var u := Restarted(v, r);
    assert CheckFile(v1.(p := u.p), 0, to) == Going(u, 0);
    assert Prepare(v1, 0, r, true, to) == Going(u, 0);
  }

  /** Run up to the response: the breakpoint check and the range headers
      leave the total alone. */
  lemma RunAnswered(w: World, x: Attempt, to: set<Listener>)
    requires x.exchange.Responded?
    ensures var b := CheckBreakpoint(w);
      var v := AttachRange(b.w, b.start);
      && v.p.totalSize == w.p.totalSize
      && Run(w, x, to) == Answered(v, b.start, x.exchange.response, x, to)
  {
  }

  /** After a 200 response the record keeps the change token and resolves
      the total. */
  lemma RestartKeepsRecord(v: World, start: int, r: Response, x: Attempt, to: set<Listener>)
    requires x.folderCreated && x.fileOpens && r.code == 200 && r.body.NonNull?
    requires AllChunks(r.body.value.steps)
    requires ResolvedTotal(v.p.totalSize, r.body.value.contentLength) >= 0
    ensures var a := Answered(v, start, r, x, to);
      && a.p.extra1 == ChangeToken(r)
      && a.p.totalSize == FinalTotal(ResolvedTotal(v.p.totalSize, r.body.value.contentLength), Received(r.body.value.steps))
      && a.p.filePath.NonNull?
  {
    RestartReachesBody(v, start, r, x, to);
    BodyKeepsRecord(Restarted(v, r), 0, r.body.value.steps, to);
  }

  /** After a 200 response the whole body is written from byte 0. */
  lemma RestartWroteAll(v: World, start: int, r: Response, x: Attempt, to: set<Listener>)
    requires x.folderCreated && x.fileOpens && r.code == 200 && r.body.NonNull?
    requires AllChunks(r.body.value.steps)
    requires ResolvedTotal(v.p.totalSize, r.body.value.contentLength) >= 0
    ensures var a := Answered(v, start, r, x, to);
      var got := Received(r.body.value.steps);
      a.p.filePath.NonNull? &&
      WroteAll(a, a.p.filePath.value, got, FinalTotal(ResolvedTotal(v.p.totalSize, r.body.value.contentLength), got))
  {
    RestartReachesBody(v, start, r, x, to);
    var steps := r.body.value.steps;
    assert 0 + Received(steps) == Received(steps);
    BodyWroteAll(Restarted(v, r), 0, steps, to);
  }

  /** A 200 response starts again from byte 0 whatever was on disk: the old
      file is discarded, the body is written from its first byte, and, towards
      a known total, the task finishes exactly when the file then holds it. */
  lemma FullResponseRestarts(w: World, x: Attempt, to: set<Listener>)
    requires x.folderCreated && x.fileOpens && x.exchange.Responded?
    requires x.exchange.response.code == 200 && x.exchange.response.body.NonNull?
    requires AllChunks(x.exchange.response.body.value.steps)
    requires 0 <= ResolvedTotal(w.p.totalSize, x.exchange.response.body.value.contentLength) < LONG_MAX_VALUE
    ensures var v := Run(w, x, to);
      var r := x.exchange.response;
      var total := ResolvedTotal(w.p.totalSize, r.body.value.contentLength);
      && v.p.extra1 == ChangeToken(r)
      && v.p.totalSize == total
      && v.p.filePath.NonNull?
      && WroteAll(v, v.p.filePath.value, Received(r.body.value.steps), total)
  {
    var b := CheckBreakpoint(w);
    RunAnswered(w, x, to);
    RestartKeepsRecord(AttachRange(b.w, b.start), b.start, x.exchange.response, x, to);
    RestartWroteAll(AttachRange(b.w, b.start), b.start, x.exchange.response, x, to);
  }

  /** currentSize is not kept within a known totalSize. A 200 whose body is
      longer than the total run() resolved (a total left over from an earlier
      attempt, which lines 319-323 keep, or a Content-Length the body
      exceeds) counts more bytes than the total and does not finish. */
  lemma OverlongBodyExceedsTotal(w: World, x: Attempt, to: set<Listener>)
    requires x.folderCreated && x.fileOpens && x.exchange.Responded?
    requires x.exchange.response.code == 200 && x.exchange.response.body.NonNull?
    requires AllChunks(x.exchange.response.body.value.steps)
    requires 0 <= ResolvedTotal(w.p.totalSize, x.exchange.response.body.value.contentLength) < LONG_MAX_VALUE
    requires Received(x.exchange.response.body.value.steps)
           > ResolvedTotal(w.p.totalSize, x.exchange.response.body.value.contentLength)
    ensures var v := Run(w, x, to);
      v.p.currentSize > v.p.totalSize >= 0 && v.p.status != Finish
  {
    FullResponseRestarts(w, x, to);
  }

  /** With neither a known total nor a declared length, the task takes the
      bytes received as the total and finishes with all of them on disk. */
  lemma UnknownLengthFinishes(w: World, x: Attempt, to: set<Listener>)
    requires x.folderCreated && x.fileOpens && x.exchange.Responded?
    requires x.exchange.response.code == 200 && x.exchange.response.body.NonNull?
    requires AllChunks(x.exchange.response.body.value.steps)
    requires w.p.totalSize == UNKNOWN_LENGTH && x.exchange.response.body.value.contentLength == UNKNOWN_LENGTH
    ensures var v := Run(w, x, to);
      var got := Received(x.exchange.response.body.value.steps);
      && v.p.status == Finish && v.p.fraction == 1.0
      && v.p.totalSize == v.p.currentSize == got
      && v.p.filePath.NonNull? && v.p.filePath.value in v.files && v.files[v.p.filePath.value] == got
  {
    var b := CheckBreakpoint(w);
    RunAnswered(w, x, to);
    RestartKeepsRecord(AttachRange(b.w, b.start), b.start, x.exchange.response, x, to);
    RestartWroteAll(AttachRange(b.w, b.start), b.start, x.exchange.response, x, to);
  }

  // ---- a pause while the total is unknown ----

  /** The first chunk of a non-empty run of chunks carries at least one byte. */
  lemma ReceivedPositive(chunks: seq<Step>)
    requires chunks != [] && AllChunks(chunks)
    ensures Received(chunks) > 0
  {
    ChunksRest(chunks);
    ReceivedNonNegative(chunks[1..]);
  }

  /** A 206 answering a resume whose position already equals the stored
      total goes no further than the file check: the task finishes without
      reading the body. */
  lemma ResumeAtTotalFinishes(v: World, start: int, r: Response, x: Attempt, to: set<Listener>)
    requires x.folderCreated && r.code == 206 && r.body.NonNull?
    requires !IsEmpty(v.p.filePath) && 0 < start == v.p.totalSize
    requires DownloadFile(v.p) in v.files && v.files[DownloadFile(v.p)] == start
    ensures var a := Answered(v, start, r, x, to);
      && a.p.status == Finish && a.p.totalSize == start
      && a.p.currentSize == v.p.currentSize && a.p.request == v.p.request
  {
    var v1 := UpdateDatabase(v.(p := v.p.(extra1 := ChangeToken(r))));
    assert Respond(v, start, r, to) == Going(v1, start);
    var u := Resumed(v, r);
    assert ResolvedTotal(v1.p.totalSize, r.body.value.contentLength) == v1.p.totalSize;
    assert DownloadFile(u.p) == DownloadFile(v.p);
    assert Prepare(v1, start, r, true, to) == CheckFile(u, start, to);
    assert CheckFile(u, start, to) == Ended(Complete(u, to));
    CompleteSettles(u, to);
  }

  /** The record a pause in a body of unknown length leaves: the chunk loop
      is stopped by the pause and run() persists PAUSE (lines 406-408). */
  function PausedRecord(chunks: seq<Step>, rest: seq<Step>, w: World, asWritten: bool, to: set<Listener>): World
    requires w.p.filePath.NonNull? || !IsEmpty(w.p.tempFileName)
  {
    var steps := chunks + [Flip(Pause)] + rest;
    var s := if asWritten then DownloadAsWritten(steps, w, DownloadFile(w.p), w.p.currentSize, to)
             else Download(steps, w, DownloadFile(w.p), w.p.currentSize, to);
    PostPause(s.w, to)
  }

  /** As written, a pause while the total is the Long.MAX_VALUE placeholder
      replaces the total by the bytes received so far. The paused record then
      counts as complete: when the next run asks for the rest with the change
      token and the server answers 206, the task finishes at the file check,
      although the body had more bytes that were never read. */
  lemma PauseWithPlaceholderFinishesEarly(chunks: seq<Step>, rest: seq<Step>, w: World, x: Attempt, to: set<Listener>)
    requires AllChunks(chunks) && chunks != [] && rest != [] && rest[0].Chunk?
    requires !IsEmpty(w.p.filePath) && w.p.extra1.NonNull?
    requires w.p.totalSize == LONG_MAX_VALUE && w.p.currentSize >= 0
    requires DownloadFile(w.p) in w.files && w.files[DownloadFile(w.p)] == w.p.currentSize
    requires x.folderCreated && x.exchange.Responded?
    requires x.exchange.response.code == 206 && x.exchange.response.body.NonNull?
    ensures var paused := PausedRecord(chunks, rest, w, true, to);
      var got := w.p.currentSize + Received(chunks);
      var v := Run(paused, x, to);
      && paused.p.status == Pause && paused.p.totalSize == paused.p.currentSize == got
      && v.p.request == RangeHeaders(w.p.extra1, NonNull(got))
      && v.p.status == Finish && v.p.totalSize == v.p.currentSize == got
  {
    var dl := DownloadFile(w.p);
    var w1 := w.(p := w.p.(status := Loading));
    StreamStopsOnPause(chunks, rest, w1, dl, w.p.currentSize, to);
    ReceivedPositive(chunks);
    var paused := PausedRecord(chunks, rest, w, true, to);
    var got := w.p.currentSize + Received(chunks);
    assert DownloadFile(paused.p) == dl && paused.files[dl] == got;
    RunResumes(paused, x, to);
    ResumeAtTotalFinishes(AttachRange(paused, got), got, x.exchange.response, x, to);
  }

  /** With the fix, the placeholder survives the pause, so the next run that
      is answered with 206 goes on to stream the rest of the body after the
      bytes already on disk. */
  lemma PauseKeepsPlaceholder(chunks: seq<Step>, rest: seq<Step>, w: World, x: Attempt, to: set<Listener>)
    requires AllChunks(chunks) && chunks != [] && rest != [] && rest[0].Chunk?
    requires !IsEmpty(w.p.filePath) && w.p.extra1.NonNull?
    requires w.p.totalSize == LONG_MAX_VALUE && w.p.currentSize >= 0
    requires DownloadFile(w.p) in w.files && w.files[DownloadFile(w.p)] == w.p.currentSize
    requires w.p.currentSize + Received(chunks) < LONG_MAX_VALUE
    requires x.folderCreated && x.exchange.Responded?
    requires x.exchange.response.code == 206 && x.exchange.response.body.NonNull?
    ensures var paused := PausedRecord(chunks, rest, w, false, to);
      var got := w.p.currentSize + Received(chunks);
      var r := x.exchange.response;
      && paused.p.status == Pause && paused.p.totalSize == LONG_MAX_VALUE && paused.p.currentSize == got
      && Run(paused, x, to) == WriteBody(Resumed(AttachRange(paused, got), r), got, r.body.value.steps, x.fileOpens, to)
  {
    var dl := DownloadFile(w.p);
    var w1 := w.(p := w.p.(status := Loading));
    StreamStopsOnPause(chunks, rest, w1, dl, w.p.currentSize, to);
    ReceivedPositive(chunks);
    var paused := PausedRecord(chunks, rest, w, false, to);
    var got := w.p.currentSize + Received(chunks);
    assert DownloadFile(paused.p) == dl && paused.files[dl] == got;
    RunResumes(paused, x, to);
    ResumeReachesBody(AttachRange(paused, got), got, x.exchange.response, x, to);
  }

  // ---- notify-after-persist ----

  lemma UpdateKeepsOrder(w: World)
    requires PersistedBeforeNotified(w.trace)
    ensures PersistedBeforeNotified(UpdateDatabase(w).trace)
  {
    WriteKeepsOrder(w.trace, Update(w.p));
  }

  lemma ErrorKeepsOrder(w: World, f: Failure, to: set<Listener>)
    requires PersistedBeforeNotified(w.trace)
    ensures PersistedBeforeNotified(PostOnError(w, f, to).trace)
  {
    PostKeepsOrder(w.(p := w.p.(speed := 0, status := Error, exception := NonNull(f))), [OnProgress, OnError], to);
  }

  lemma CompleteKeepsOrder(w: World, to: set<Listener>)
    requires w.p.filePath.NonNull? && PersistedBeforeNotified(w.trace)
    ensures PersistedBeforeNotified(Complete(w, to).trace)
  {
    var file := if !IsEmpty(w.p.tempFileName) then w.p.filePath.value else DownloadFile(w.p);
    PostKeepsOrder(w.(p := w.p.(speed := 0, fraction := 1.0, status := Finish)), [OnProgress, OnFinish(file)], to);
  }

  lemma {:induction false} StreamKeepsOrder(steps: seq<Step>, w: World, dl: string, pos: int, to: set<Listener>)
    requires PersistedBeforeNotified(w.trace)
    ensures PersistedBeforeNotified(Stream(steps, w, dl, pos, to).w.trace)
    decreases |steps|
  {
    if steps != [] {
      match steps[0]
      case Fault =>
      case Flip(s) => StreamKeepsOrder(steps[1..], w.(p := w.p.(status := s, speed := 0)), dl, pos, to);
      case Chunk(n) =>
        if w.p.status == Loading {
          PostKeepsOrder(WriteChunk(w, dl, pos, n), [OnProgress], to);
          StreamKeepsOrder(steps[1..], PostLoading(WriteChunk(w, dl, pos, n), to), dl, pos + n, to);
        }
    }
  }

  lemma WriteBodyKeepsOrder(w: World, start: int, steps: seq<Step>, fileOpens: bool, to: set<Listener>)
    requires w.p.filePath.NonNull? && PersistedBeforeNotified(w.trace)
    ensures PersistedBeforeNotified(WriteBody(w, start, steps, fileOpens, to).trace)
  {
    if !fileOpens {
      ErrorKeepsOrder(w, OpenFailed, to);
    } else {
      var dl := DownloadFile(w.p);
      var w1 := w.(files := w.files[dl := FileLength(w.files, dl)], p := w.p.(currentSize := start));
      var w2 := Emit(w1, Replace(w1.p));
      WriteKeepsOrder(w1.trace, Replace(w1.p));
      StreamKeepsOrder(steps, w2.(p := w2.p.(status := Loading)), dl, start, to);
      var s := Download(steps, w2, dl, start, to);
      if s.ending == Faulted {
        ErrorKeepsOrder(s.w, StreamFailed, to);
      } else if s.w.p.status == Pause {
        PostKeepsOrder(s.w.(p := s.w.p.(speed := 0, status := Pause)), [OnProgress], to);
      } else if s.w.p.status == Loading && FileLength(s.w.files, DownloadFile(s.w.p)) == s.w.p.totalSize {
        CompleteKeepsOrder(s.w, to);
      } else if s.w.p.status == Loading {
        ErrorKeepsOrder(s.w, BreakpointExpired, to);
      } else {
        ErrorKeepsOrder(s.w, UnknownStatus, to);
      }
    }
  }

  lemma CheckFileKeepsOrder(w: World, start: int, to: set<Listener>)
    requires w.p.filePath.NonNull? && PersistedBeforeNotified(w.trace)
    ensures PersistedBeforeNotified(CheckFile(w, start, to).w.trace)
  {
    var dl := DownloadFile(w.p);
    if (start > 0 && dl !in w.files) || start > w.p.totalSize {
      ErrorKeepsOrder(w, BreakpointExpired, to);
    } else {
      var w1 := if start == 0 && dl in w.files then w.(files := w.files - {dl}) else w;
      if start == w1.p.totalSize && start > 0 {
        if dl in w1.files && start == w1.files[dl] {
          CompleteKeepsOrder(w1, to);
        } else {
          ErrorKeepsOrder(w1, BreakpointExpired, to);
        }
      }
    }
  }

  lemma PrepareKeepsOrder(w: World, start: int, r: Response, folderCreated: bool, to: set<Listener>)
    requires PersistedBeforeNotified(w.trace)
    ensures PersistedBeforeNotified(Prepare(w, start, r, folderCreated, to).w.trace)
  {
    if r.body.Null? {
      ErrorKeepsOrder(w, BodyMissing, to);
    } else {
      var p1 := w.p.(totalSize := ResolvedTotal(w.p.totalSize, r.body.value.contentLength));
      var p2 := if IsEmpty(p1.fileName) then p1.(fileName := NonNull(r.netFileName)) else p1;
      if !folderCreated {
        ErrorKeepsOrder(w.(p := p2), StorageUnavailable, to);
      } else {
        var p3 := if IsEmpty(p2.filePath) then p2.(filePath := NonNull(Join(p2.folder, p2.fileName.value))) else p2;
        CheckFileKeepsOrder(w.(p := p3), start, to);
      }
    }
  }

  lemma AcceptedKeepsOrder(w: World, start: int, r: Response, x: Attempt, to: set<Listener>)
    requires PersistedBeforeNotified(w.trace)
    ensures PersistedBeforeNotified(Accepted(w, start, r, x, to).trace)
  {
    PrepareKeepsOrder(w, start, r, x.folderCreated, to);
    match Prepare(w, start, r, x.folderCreated, to)
    case Ended(v) =>
    case Going(v, s) =>
      WriteBodyKeepsOrder(v, s, r.body.value.steps, x.fileOpens, to);
  }

  lemma RespondKeepsOrder(w: World, start: int, r: Response, to: set<Listener>)
    requires PersistedBeforeNotified(w.trace)
    ensures PersistedBeforeNotified(Respond(w, start, r, to).w.trace)
  {
    if r.code == 404 || r.code >= 500 {
      ErrorKeepsOrder(w, NetError, to);
    } else if r.code == 416 {
      ErrorKeepsOrder(w.(p := w.p.(extra1 := Null, fraction := 0.0, currentSize := 0)), FileExpired, to);
    } else {
      var p1 := w.p.(extra1 := ChangeToken(r));
      var p2 := if r.code == 200 then p1.(currentSize := 0, fraction := 0.0) else p1;
      UpdateKeepsOrder(w.(p := p2));
    }
  }

  lemma CheckBreakpointKeepsOrder(w: World)
    requires PersistedBeforeNotified(w.trace)
    ensures PersistedBeforeNotified(CheckBreakpoint(w).w.trace)
  {
    var w0 := w.(p := w.p.(speed := 0, status := None, currentSize := 0));
    UpdateKeepsOrder(w0);
    var w1 := if w.p.currentSize < 0 then ResetPosition(w) else w;
    var w2 := w1.(p := w1.p.(speed := 0, status := None, currentSize := 0));
    UpdateKeepsOrder(w2);
  }

  /** A run never delivers a record to the listeners before the same record
      has been written to the store. */
  lemma RunKeepsPersistOrder(w: World, x: Attempt, to: set<Listener>)
    requires PersistedBeforeNotified(w.trace)
    ensures PersistedBeforeNotified(Run(w, x, to).trace)
  {
    CheckBreakpointKeepsOrder(w);
    var b := CheckBreakpoint(w);
    var w1 := AttachRange(b.w, b.start);
    match x.exchange
    case Threw =>
      ErrorKeepsOrder(w1, TransportFailed, to);
    case Responded(r) =>
      RespondKeepsOrder(w1, b.start, r, to);
      match Respond(w1, b.start, r, to)
      case Ended(v) =>
      case Going(v, s) =>
        AcceptedKeepsOrder(v, s, r, x, to);
  }
}
