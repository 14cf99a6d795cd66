/** DownloadTask as an object: its record, listener map and runnable are
    fields the methods update in place, and the singletons and the file
    system it works against are the fields of an Env. Every method is proved
    against the functions of modules Records, Transfer and Lifecycle. */
module Download {
  import opened Records
  import opened Transfer
  import opened Lifecycle

  /** The record a task made from a tag starts with: totalSize unknown,
      status NONE, the download folder of OkDownload. */
  function NewRecord(tag: string, folder: Nullable<string>): Progress {
    Progress(tag, folder, Null, Null, Null, Null, UNKNOWN_LENGTH, 0, 0.0, 0, None, 0, Null, Null, RangeHeaders(Null, Null))
  }

  /** What a task reaches outside itself: the file system (path to length),
      DownloadManager's records, OkDownload's task table, the executor's
      queue, the number the next runnable gets, and the trace of effects. */
  class Env {
    var files: map<string, int>
    var store: map<string, Progress>
    var tasks: set<string>
    var pending: set<Unit>
    var serial: nat
    var trace: seq<Effect>

    constructor (files: map<string, int>, store: map<string, Progress>, tasks: set<string>)
      ensures this.files == files && this.store == store && this.tasks == tasks
      ensures pending == {} && serial == 0 && trace == []
    {
      this.files := files;
      this.store := store;
      this.tasks := tasks;
      pending := {};
      serial := 0;
      trace := [];
    }
  }

  class DownloadTask {
    var progress: Progress
    var listeners: map<string, Listener>
    var runnable: Nullable<Unit>
    const env: Env

    /** What one run sees and changes. */
    function State(): World
      reads this`progress, env`files, env`store, env`trace
    {
      World(progress, env.files, env.store, env.trace)
    }

    /** Everything the life-cycle operations see and change. */
    function Snapshot(): Task
      reads this`progress, this`listeners, this`runnable
      reads env`files, env`store, env`trace, env`tasks, env`pending, env`serial
    {
      Task(State(), listeners, runnable, env.tasks, env.pending, env.serial)
    }

    /** The listeners a post delivers to. */
    function To(): set<Listener>
      reads this`listeners
    {
      listeners.Values
    }

    /** Where a stage of run() left the task. */
    function At(going: bool, start: int): Phase
      reads this`progress, env`files, env`store, env`trace
    {
      if going then Going(State(), start) else Ended(State())
    }

    /** DownloadTask(tag, request): a new record in the given folder. */
    constructor (tag: string, folder: Nullable<string>, env: Env)
      ensures progress == NewRecord(tag, folder) && listeners == map[] && runnable == Null && this.env == env
    {
      progress := NewRecord(tag, folder);
      listeners := map[];
      runnable := Null;
      this.env := env;
    }

    /** DownloadTask(progress): a task for a record read back from the store. */
    constructor FromRecord(p: Progress, env: Env)
      ensures progress == p && listeners == map[] && runnable == Null && this.env == env
    {
      progress := p;
      listeners := map[];
      runnable := Null;
      this.env := env;
    }

    // ---- the name setters ----

    /** folder(s): a null or blank argument is ignored. */
    method Folder(s: Nullable<string>)
      modifies this`progress
      ensures progress == SetFolder(old(progress), s)
    {
      if s.NonNull? && !Blank(s.value) {
        progress := progress.(folder := s);
      }
    }

    /** fileName(s): a null or blank argument is ignored. */
    method FileName(s: Nullable<string>)
      modifies this`progress
      ensures progress == SetFileName(old(progress), s)
    {
      if s.NonNull? && !Blank(s.value) {
        progress := progress.(fileName := s);
      }
    }

    /** tempFileName(s): a null or blank argument is ignored. */
    method TempFileName(s: Nullable<string>)
      modifies this`progress
      ensures progress == SetTempFileName(old(progress), s)
    {
      if s.NonNull? && !Blank(s.value) {
        progress := progress.(tempFileName := s);
      }
    }

    // ---- the record store and the listeners ----

    method UpdateDatabase()
      modifies env`store, env`trace
      ensures State() == Records.UpdateDatabase(old(State()))
    {
      env.store := Written(env.store, Update(progress));
      env.trace := env.trace + [Update(progress)];
    }

    /** DownloadManager.replace(progress) */
    method Replace()
      modifies env`store, env`trace
      ensures State() == Emit(old(State()), Effect.Replace(progress))
    {
      env.store := Written(env.store, Effect.Replace(progress));
      env.trace := env.trace + [Effect.Replace(progress)];
    }

    /** Hand the record to every listener registered now. */
    method Deliver(calls: seq<Callback>)
      modifies env`trace
      ensures State() == Emit(old(State()), Effect.Deliver(calls, progress, To()))
    {
      env.trace := env.trace + [Effect.Deliver(calls, progress, To())];
    }

    method Post(calls: seq<Callback>)
      modifies env`store, env`trace
      ensures State() == Records.Post(old(State()), calls, To())
    {
      UpdateDatabase();
      Deliver(calls);
    }

    method PostOnStart()
      modifies this`progress, env`store, env`trace
      ensures State() == Records.PostOnStart(old(State()), To())
    {
      progress := progress.(speed := 0, status := None);
      Post([OnStart]);
    }

    method PostWaiting()
      modifies this`progress, env`store, env`trace
      ensures State() == Records.PostWaiting(old(State()), To())
    {
      progress := progress.(speed := 0, status := Waiting);
      Post([OnProgress]);
    }

    method PostPause()
      modifies this`progress, env`store, env`trace
      ensures State() == Records.PostPause(old(State()), To())
    {
      progress := progress.(speed := 0, status := Status.Pause);
      Post([OnProgress]);
    }

    method PostLoading()
      modifies env`store, env`trace
      ensures State() == Records.PostLoading(old(State()), To())
    {
      Post([OnProgress]);
    }

    method PostOnError(f: Failure)
      modifies this`progress, env`store, env`trace
      ensures State() == Records.PostOnError(old(State()), f, To())
    {
      progress := progress.(speed := 0, status := Error, exception := NonNull(f));
      Post([OnProgress, OnError]);
    }

    method PostOnFinish(file: string)
      modifies this`progress, env`store, env`trace
      ensures State() == Records.PostOnFinish(old(State()), file, To())
    {
      progress := progress.(speed := 0, fraction := 1.0, status := Finish);
      Post([OnProgress, OnFinish(file)]);
    }

    /** postOnRemove also clears the listener map once they heard onRemove. */
    method PostOnRemove()
      modifies this`listeners, env`store, env`trace
      ensures State() == Records.PostOnRemove(old(State()), old(To()))
      ensures listeners == map[]
    {
      Post([OnRemove]);
      listeners := map[];
    }

    method Register(l: Nullable<Listener>)
      modifies this`listeners
      ensures Snapshot() == Lifecycle.Register(old(Snapshot()), l)
    {
      if l.NonNull? {
        listeners := listeners[l.value.tag := l.value];
      }
    }

    method UnRegister(l: Listener)
      modifies this`listeners
      ensures Snapshot() == Lifecycle.UnRegister(old(Snapshot()), l.tag)
    {
      listeners := listeners - {l.tag};
    }

    method UnRegisterTag(tag: string)
      modifies this`listeners
      ensures Snapshot() == Lifecycle.UnRegister(old(Snapshot()), tag)
    {
      listeners := listeners - {tag};
    }

    // ---- the life cycle ----

    method Save()
      modifies this`progress, env`store, env`trace
      ensures Snapshot() == Lifecycle.Save(old(Snapshot()))
    {
      if !IsEmpty(progress.folder) && !IsEmpty(progress.fileName) {
        progress := progress.(filePath := NonNull(Join(progress.folder, progress.fileName.value)));
      }
      Replace();
    }

    /** The check start() makes on a FINISH task. */
    method VerifyFinished()
      modifies this`progress, env`store, env`trace
      ensures State() == Lifecycle.VerifyFinished(old(State()), To())
    {
      if progress.filePath.Null? {
        PostOnError(FileInvalid);
      } else {
        var file := progress.filePath.value;
        if file !in env.files && !IsEmpty(progress.fileSuffix) {
          file := Join(Parent(file), Text(progress.fileName) + progress.fileSuffix.value);
        }
        if file in env.files && env.files[file] == progress.totalSize {
          PostOnFinish(progress.filePath.value);
        } else {
          PostOnError(FileInvalid);
        }
      }
    }

    /** start(); `refused` is the IllegalStateException for an unsaved task. */
    method Start() returns (refused: bool)
      modifies this`progress, this`runnable, env`store, env`trace, env`pending, env`serial
      ensures refused == !IsSaved(old(Snapshot()))
      ensures Snapshot() == Lifecycle.Start(old(Snapshot()))
    {
      if progress.tag !in env.tasks || progress.tag !in env.store {
        return true;
      }
      refused := false;
      if progress.status == None || progress.status == Status.Pause || progress.status == Error {
        var u := Unit(env.serial, progress.tag, progress.priority);
        PostOnStart();
        PostWaiting();
        runnable := NonNull(u);
        env.pending := env.pending + {u};
        env.serial := env.serial + 1;
      } else if progress.status == Finish {
        VerifyFinished();
      }
    }

    method Pause()
      modifies this`progress, env`pending, env`store, env`trace
      ensures Snapshot() == Lifecycle.Pause(old(Snapshot()))
    {
      if runnable.NonNull? {
        env.pending := env.pending - {runnable.value};
      }
      if progress.status == Waiting {
        PostPause();
      } else if progress.status == Loading {
        progress := progress.(speed := 0, status := Status.Pause);
      }
    }

    /** Delete the final file and the temp file, if there is one. */
    method DeleteFiles()
      modifies env`files
      ensures env.files == Lifecycle.DeleteFiles(progress, old(env.files))
    {
      if progress.filePath.NonNull? {
        env.files := env.files - {progress.filePath.value};
      }
      if !IsEmpty(progress.tempFileName) {
        env.files := env.files - {Join(progress.folder, progress.tempFileName.value)};
      }
    }

    /** restart(); `refused` is start() refusing the task. */
    method Restart() returns (refused: bool)
      modifies this`progress, this`runnable, env`files, env`store, env`trace, env`pending, env`serial
      ensures Snapshot() == Lifecycle.Restart(old(Snapshot()))
      ensures refused <==> old(progress.tag) !in old(env.tasks)
    {
      Pause();
      ghost var t1 := Snapshot();
      DeleteFiles();
      progress := progress.(status := None, currentSize := 0, fraction := 0.0, speed := 0);
      Replace();
      assert Snapshot() == t1.(w := Emit(t1.w.(files := Lifecycle.DeleteFiles(t1.w.p, t1.w.files), p := progress), Effect.Replace(progress)));
      refused := Start();
    }

    /** remove(isDeleteFile); remove() is Remove(false). `listed` says whether
        OkDownload still had the task. */
    method Remove(isDeleteFile: bool) returns (listed: bool)
      modifies this`progress, this`listeners, env`files, env`store, env`trace, env`tasks, env`pending
      ensures Snapshot() == Lifecycle.Remove(old(Snapshot()), isDeleteFile)
      ensures listed == (old(progress.tag) in old(env.tasks))
    {
      Pause();
      if isDeleteFile {
        DeleteFiles();
      }
      env.store := Written(env.store, Delete(progress.tag));
      env.trace := env.trace + [Delete(progress.tag)];
      listed := progress.tag in env.tasks;
      env.tasks := env.tasks - {progress.tag};
      PostOnRemove();
    }

    // ---- run() ----

    /** Lines 258-282: the resume position, reset to 0 when it is negative or
        its partial file is gone. */
    method CheckBreakpoint() returns (start: int)
      modifies this`progress, env`store, env`trace
      ensures Transfer.CheckBreakpoint(old(State())) == Going(State(), start)
    {
      start := progress.currentSize;
      if start < 0 {
        progress := progress.(speed := 0, status := None, currentSize := 0);
        start := 0;
        UpdateDatabase();
      }
      if start > 0 && !IsEmpty(progress.filePath) {
        if DownloadFile(progress) !in env.files {
          progress := progress.(speed := 0, status := None, currentSize := 0);
          start := 0;
          UpdateDatabase();
        }
      }
    }

    method AttachRange(start: int)
      modifies this`progress
      ensures State() == Transfer.AttachRange(old(State()), start)
    {
      if progress.extra1.NonNull? && start > 0 {
        progress := progress.(request := RangeHeaders(progress.extra1, NonNull(start)));
      }
    }

    method Respond(start: int, r: Response) returns (going: bool, next: int)
      modifies this`progress, env`store, env`trace
      ensures At(going, next) == Transfer.Respond(old(State()), start, r, To())
    {
      going, next := false, start;
      if r.code == 404 || r.code >= 500 {
        PostOnError(NetError);
        return;
      }
      if r.code == 416 {
        progress := progress.(extra1 := Null, fraction := 0.0, currentSize := 0);
        PostOnError(FileExpired);
        return;
      }
      var extra := r.eTag;
      if IsEmpty(extra) {
        extra := r.lastModified;
      }
      progress := progress.(extra1 := extra);
      if r.code == 200 {
        progress := progress.(currentSize := 0, fraction := 0.0);
        next := 0;
      }
      UpdateDatabase();
      going := true;
    }

    method Complete()
      requires progress.filePath.NonNull?
      modifies this`progress, env`files, env`store, env`trace
      ensures State() == Transfer.Complete(old(State()), To())
    {
      if !IsEmpty(progress.tempFileName) {
        env.files := Rename(env.files, DownloadFile(progress), progress.filePath.value);
        PostOnFinish(progress.filePath.value);
      } else {
        PostOnFinish(DownloadFile(progress));
      }
    }

    method CheckFile(start: int) returns (going: bool, next: int)
      requires progress.filePath.NonNull?
      modifies this`progress, env`files, env`store, env`trace
      ensures At(going, next) == Transfer.CheckFile(old(State()), start, To())
    {
      going, next := false, start;
      var dl := DownloadFile(progress);
      if start > 0 && dl !in env.files {
        PostOnError(BreakpointExpired);
        return;
      }
      if start > progress.totalSize {
        PostOnError(BreakpointExpired);
        return;
      }
      if start == 0 && dl in env.files {
        env.files := env.files - {dl};
      }
      if start == progress.totalSize && start > 0 {
        if dl in env.files && start == env.files[dl] {
          Complete();
        } else {
          PostOnError(BreakpointExpired);
        }
        return;
      }
      going := true;
    }

    method Prepare(start: int, r: Response, folderCreated: bool) returns (going: bool, next: int)
      modifies this`progress, env`files, env`store, env`trace
      ensures At(going, next) == Transfer.Prepare(old(State()), start, r, folderCreated, To())
    {
      going, next := false, start;
      if r.body.Null? {
        PostOnError(BodyMissing);
        return;
      }
      if progress.totalSize == UNKNOWN_LENGTH {
        progress := progress.(totalSize := r.body.value.contentLength);
      }
      if progress.totalSize == UNKNOWN_LENGTH {
        progress := progress.(totalSize := LONG_MAX_VALUE);
      }
      if IsEmpty(progress.fileName) {
        progress := progress.(fileName := NonNull(r.netFileName));
      }
      if !folderCreated {
        PostOnError(StorageUnavailable);
        return;
      }
      if IsEmpty(progress.filePath) {
        progress := progress.(filePath := NonNull(Join(progress.folder, progress.fileName.value)));
      }
      going, next := CheckFile(start);
    }

    /** out.write at pos, then changeProgress and postLoading. */
    method WriteChunk(dl: string, pos: int, n: int)
      modifies this`progress, env`files, env`store, env`trace
      ensures State() == Records.PostLoading(Transfer.WriteChunk(old(State()), dl, pos, n), To())
    {
      env.files := env.files[dl := Max(FileLength(env.files, dl), pos + n)];
      progress := progress.(currentSize := progress.currentSize + n);
      PostLoading();
    }

    /** download(): the chunk loop and the placeholder fix-up. */
    method Download(steps: seq<Step>, dl: string, start: int) returns (ending: Ending)
      modifies this`progress, env`files, env`store, env`trace
      ensures Streamed(State(), ending) == Transfer.Download(steps, old(State()), dl, start, To())
    {
      progress := progress.(status := Loading);
      ghost var w0 := State();
      var i := 0;
      var pos := start;
      ending := Exhausted;
      while i < |steps|
        invariant 0 <= i <= |steps|
        invariant ending == Exhausted
        invariant Stream(steps[i..], State(), dl, pos, To()) == Stream(steps, w0, dl, start, To())
        decreases |steps| - i
      {
        assert steps[i..][1..] == steps[i + 1..];
        match steps[i] {
          case Fault =>
            ending := Faulted;
            break;
          case Flip(s) =>
            progress := progress.(status := s, speed := 0);
          case Chunk(n) =>
            if progress.status != Loading {
              ending := Stopped;
              break;
            }
            WriteChunk(dl, pos, n);
            pos := pos + n;
        }
        i := i + 1;
      }
      if ending == Exhausted && progress.totalSize == LONG_MAX_VALUE {
        progress := progress.(totalSize := progress.currentSize);
      }
    }

    /** Lines 406-424: act on the status the loop left. */
    method Reconcile()
      requires progress.filePath.NonNull?
      modifies this`progress, env`files, env`store, env`trace
      ensures State() == Transfer.Reconcile(old(State()), To())
    {
      if progress.status == Status.Pause {
        PostPause();
      } else if progress.status == Loading {
        if FileLength(env.files, DownloadFile(progress)) == progress.totalSize {
          Complete();
        } else {
          PostOnError(BreakpointExpired);
        }
      } else {
        PostOnError(UnknownStatus);
      }
    }

    method WriteBody(start: int, steps: seq<Step>, fileOpens: bool)
      requires progress.filePath.NonNull?
      modifies this`progress, env`files, env`store, env`trace
      ensures State() == Transfer.WriteBody(old(State()), start, steps, fileOpens, To())
    {
      if !fileOpens {
        PostOnError(OpenFailed);
        return;
      }
      var dl := DownloadFile(progress);
      env.files := env.files[dl := FileLength(env.files, dl)];
      progress := progress.(currentSize := start);
      Replace();
      var ending := Download(steps, dl, start);
      if ending == Faulted {
        PostOnError(StreamFailed);
      } else {
        Reconcile();
      }
    }

    method Run(x: Attempt)
      modifies this`progress, env`files, env`store, env`trace
      ensures State() == Transfer.Run(old(State()), x, To())
    {
      var start := CheckBreakpoint();
      AttachRange(start);
      match x.exchange
      case Threw =>
        PostOnError(TransportFailed);
      case Responded(r) =>
        var going, next := Respond(start, r);
        if going {
          going, next := Prepare(next, r, x.folderCreated);
          if going {
            WriteBody(next, r.body.value.steps, x.fileOpens);
          }
        }
    }
  }
}
