/** The life cycle of one DownloadTask outside run(): register/unRegister,
    save, start, pause, restart and remove, as functions on a Task value that
    holds the task's own fields and the collaborators it reaches (the
    executor's queue, OkDownload's task table, the record store and the file
    system). The class in module Download is proved against these. */
module Lifecycle {
  import opened Records

  /** A PriorityRunnable handed to the executor. Every start() makes a new
      one; `serial` stands for that object's identity. */
  datatype Unit = Unit(serial: nat, tag: string, priority: int)

  /** One task and what it reaches: its record, the files, the record store
      and the trace (w), its listener map keyed by listener tag, the runnable
      it last handed to the executor, OkDownload's task table, the
      executor's queue and the number the next runnable gets. */
  datatype Task = Task(
    w: World,
    listeners: map<string, Listener>,
    runnable: Nullable<Unit>,
    tasks: set<string>,
    pending: set<Unit>,
    serial: nat)

  /** The listeners a post delivers to. */
  function Recipients(t: Task): set<Listener> {
    t.listeners.Values
  }

  /** Every runnable the task knows of was numbered before `serial`. */
  ghost predicate Numbered(t: Task) {
    && (forall u :: u in t.pending ==> u.serial < t.serial)
    && (t.runnable.NonNull? ==> t.runnable.value.serial < t.serial)
  }

  // ---- the name setters ----

  /** TextUtils.isEmpty(s.trim()): String.trim() strips every character up to
      U+0020 from both ends, so the trimmed text is empty exactly when every
      character is one of those. */
  predicate Blank(s: string) {
    forall i :: 0 <= i < |s| ==> s[i] <= ' '
  }

  /** folder(s), fileName(s) and tempFileName(s) take the argument unless it
      is null or blank; then they keep the field and log a warning. */
  function Named(current: Nullable<string>, s: Nullable<string>): Nullable<string> {
    if s.NonNull? && !Blank(s.value) then s else current
  }

  function SetFolder(p: Progress, s: Nullable<string>): Progress {
    p.(folder := Named(p.folder, s))
  }

  function SetFileName(p: Progress, s: Nullable<string>): Progress {
    p.(fileName := Named(p.fileName, s))
  }

  function SetTempFileName(p: Progress, s: Nullable<string>): Progress {
    p.(tempFileName := Named(p.tempFileName, s))
  }

  /** A name is either unset or holds a non-blank text. */
  predicate Filled(n: Nullable<string>) {
    n.Null? || !Blank(n.value)
  }

  predicate NamesFilled(p: Progress) {
    Filled(p.folder) && Filled(p.fileName) && Filled(p.tempFileName)
  }

  /** The setters take exactly the non-blank arguments and ignore the rest,
      so a record whose names are unset or filled stays that way; a name
      set through them is never empty. */
  lemma SettersKeepNamesFilled(p: Progress, s: Nullable<string>)
    requires NamesFilled(p)
    ensures NamesFilled(SetFolder(p, s)) && NamesFilled(SetFileName(p, s)) && NamesFilled(SetTempFileName(p, s))
    ensures Filled(s) && s.NonNull? ==>
      SetFolder(p, s).folder == s && SetFileName(p, s).fileName == s && SetTempFileName(p, s).tempFileName == s
    ensures !Filled(s) || s.Null? ==> SetFolder(p, s) == p && SetFileName(p, s) == p && SetTempFileName(p, s) == p
    ensures SetFileName(p, s).fileName.NonNull? ==> !IsEmpty(SetFileName(p, s).fileName)
  {
    if s.NonNull? && !Blank(s.value) {
      assert s.value != "" by {
        if s.value == "" {
          assert Blank(s.value);
        }
      }
    }
    if p.fileName.NonNull? {
      assert p.fileName.value != "" by {
        if p.fileName.value == "" {
          assert Blank(p.fileName.value);
        }
      }
    }
  }

  // ---- listeners ----

  /** register(listener): a null listener is ignored. */
  function Register(t: Task, l: Nullable<Listener>): (r: Task)
    ensures l.NonNull? ==> r.listeners == t.listeners[l.value.tag := l.value]
    ensures l.Null? ==> r == t
    ensures r.w == t.w && r.pending == t.pending && r.tasks == t.tasks
  {
    if l.Null? then t else t.(listeners := t.listeners[l.value.tag := l.value])
  }

  /** unRegister(listener) and unRegister(tag): drop the entry under that tag. */
  function UnRegister(t: Task, tag: string): (r: Task)
    ensures tag !in r.listeners
    ensures forall k :: k != tag && k in t.listeners ==> k in r.listeners && r.listeners[k] == t.listeners[k]
    ensures forall k :: k in r.listeners ==> k in t.listeners
    ensures r.w == t.w && r.pending == t.pending && r.tasks == t.tasks
  {
    t.(listeners := t.listeners - {tag})
  }

  /** Registering a listener and then unregistering it by its tag leaves the
      other listeners as they were. */
  lemma RegisterThenUnRegister(t: Task, l: Listener)
    ensures UnRegister(Register(t, NonNull(l)), l.tag).listeners == t.listeners - {l.tag}
  {
    var m := Register(t, NonNull(l)).listeners;
    assert m - {l.tag} == t.listeners - {l.tag};
  }

  // ---- save ----

  /** save(): settle filePath from folder and fileName when both are set,
      then insert or rewrite the record in the store. */
  function Save(t: Task): (r: Task)
    ensures var p := t.w.p;
      !IsEmpty(p.folder) && !IsEmpty(p.fileName) ==> r.w.p.filePath == NonNull(Join(p.folder, p.fileName.value))
    ensures IsEmpty(t.w.p.folder) || IsEmpty(t.w.p.fileName) ==> r.w.p == t.w.p
    ensures r.w.p.tag in r.w.store && r.w.store[r.w.p.tag] == r.w.p
    ensures r.w.trace == t.w.trace + [Replace(r.w.p)]
    ensures r.w.p == t.w.p.(filePath := r.w.p.filePath)
    ensures r.w.store == t.w.store[t.w.p.tag := r.w.p] && r.w.files == t.w.files
    ensures r.listeners == t.listeners && r.tasks == t.tasks && r.pending == t.pending && r.runnable == t.runnable
  {
    var p := t.w.p;
    var p1 := if !IsEmpty(p.folder) && !IsEmpty(p.fileName) then p.(filePath := NonNull(Join(p.folder, p.fileName.value))) else p;
    t.(w := Emit(t.w.(p := p1), Replace(p1)))
  }

  // ---- start ----

  /** start() demands that save() was called: the tag is in OkDownload's task
      table and the record store has a record under it. */
  predicate IsSaved(t: Task) {
    t.w.p.tag in t.tasks && t.w.p.tag in t.w.store
  }

  /** The statuses from which start() queues the task. */
  predicate Queues(s: Status) {
    s.None? || s.Pause? || s.Error?
  }

  /** The file start() inspects for a finished task: filePath, or, when that
      file is missing and a suffix is set, fileName + fileSuffix next to it. */
  function CheckedFile(p: Progress, files: map<string, int>): (f: string)
    requires p.filePath.NonNull?
    ensures p.filePath.value in files || IsEmpty(p.fileSuffix) ==> f == p.filePath.value
  {
    if p.filePath.value !in files && !IsEmpty(p.fileSuffix) then
      Join(Parent(p.filePath.value), Text(p.fileName) + p.fileSuffix.value)
    else p.filePath.value
  }

  /** start() on a FINISH task: report FINISH again only when the file is
      still there with totalSize bytes. */
  function VerifyFinished(w: World, to: set<Listener>): (r: World)
    ensures r.p.status == Finish || (r.p.status == Error && r.p.exception == NonNull(FileInvalid))
    ensures r.files == w.files
  {
    if w.p.filePath.Null? then PostOnError(w, FileInvalid, to)
    else
      var f := CheckedFile(w.p, w.files);
      if f in w.files && w.files[f] == w.p.totalSize then PostOnFinish(w, w.p.filePath.value, to)
      else PostOnError(w, FileInvalid, to)
  }

  /** The runnable start() hands to the executor. */
  function NextUnit(t: Task): Unit {
    Unit(t.serial, t.w.p.tag, t.w.p.priority)
  }

  /** start(). On a task that was not saved it throws IllegalStateException
      before touching anything; the thrown exception is the method's result
      in module Download. */
  function Start(t: Task): (r: Task)
    ensures r.listeners == t.listeners && r.tasks == t.tasks && r.w.files == t.w.files
    ensures t.pending <= r.pending && |r.pending| <= |t.pending| + 1
  {
    if !IsSaved(t) then t
    else if Queues(t.w.p.status) then
      var w1 := PostWaiting(PostOnStart(t.w, Recipients(t)), Recipients(t));
      var u := NextUnit(t);
      t.(w := w1, runnable := NonNull(u), pending := t.pending + {u}, serial := t.serial + 1)
    else if t.w.p.status == Finish then t.(w := VerifyFinished(t.w, Recipients(t)))
    else t
  }

  /** An unsaved task is refused and nothing changes. */
  lemma StartRefused(t: Task)
    requires !IsSaved(t)
    ensures Start(t) == t
  {
  }

  /** From NONE, PAUSE or ERROR: NONE is persisted and announced, then WAITING
      is persisted and announced, and exactly one new runnable is queued. */
  lemma StartQueues(t: Task)
    requires IsSaved(t) && Queues(t.w.p.status) && Numbered(t)
    ensures var r := Start(t);
      var to := Recipients(t);
      var p1 := t.w.p.(speed := 0, status := None);
      var p2 := t.w.p.(speed := 0, status := Waiting);
      && r.w.p == p2 && r.w.files == t.w.files
      && r.w.trace == t.w.trace + [Update(p1), Deliver([OnStart], p1, to), Update(p2), Deliver([OnProgress], p2, to)]
      && r.w.store == t.w.store[t.w.p.tag := p2]
      && NextUnit(t) !in t.pending && r.pending == t.pending + {NextUnit(t)}
      && r.runnable == NonNull(NextUnit(t)) && r.tasks == t.tasks && r.listeners == t.listeners
      && Numbered(r)
  {
    var to := Recipients(t);
    var p1 := t.w.p.(speed := 0, status := None);
    var w1 := PostOnStart(t.w, to);
    PostEffects(t.w.(p := p1), [OnStart], to);
    assert w1.trace == t.w.trace + [Update(p1), Deliver([OnStart], p1, to)];
    PostEffects(w1.(p := w1.p.(speed := 0, status := Waiting)), [OnProgress], to);
    var r := Start(t);
    assert r.w.trace == (t.w.trace + [Update(p1), Deliver([OnStart], p1, to)]) + [Update(r.w.p), Deliver([OnProgress], r.w.p, to)];
    assert r.w.store == t.w.store[t.w.p.tag := p1][t.w.p.tag := r.w.p];
  }

  /** A task that is WAITING or LOADING is already queued: nothing changes. */
  lemma StartIgnoredWhileBusy(t: Task)
    requires t.w.p.status == Waiting || t.w.p.status == Loading
    ensures Start(t) == t
  {
  }

  /** A FINISH task is never queued. It finishes again exactly when filePath
      is set and the inspected file holds totalSize bytes, and otherwise fails
      with a StorageException. */
  lemma StartVerifiesFinished(t: Task)
    requires IsSaved(t) && t.w.p.status == Finish
    ensures var r := Start(t);
      && r.pending == t.pending && r.runnable == t.runnable && r.serial == t.serial && r.w.files == t.w.files
      && (r.w.p.status == Finish <==>
            t.w.p.filePath.NonNull? && CheckedFile(t.w.p, t.w.files) in t.w.files
            && t.w.files[CheckedFile(t.w.p, t.w.files)] == t.w.p.totalSize)
      && (r.w.p.status != Finish ==> r.w.p.status == Error && r.w.p.exception == NonNull(FileInvalid))
  {
  }

  /** The fallback file of a finished task sits in the folder of filePath. */
  lemma CheckedFileFallback(p: Progress, files: map<string, int>, folder: string, name: string)
    requires p.filePath == NonNull(Join(NonNull(folder), name)) && '/' !in name
    requires p.filePath.value !in files && !IsEmpty(p.fileSuffix)
    ensures CheckedFile(p, files) == Join(NonNull(folder), Text(p.fileName) + p.fileSuffix.value)
  {
    ParentOfJoin(folder, name);
  }

  // ---- pause ----

  /** The queue once the task's runnable is taken out (executor.remove). */
  function Withdrawn(t: Task): set<Unit> {
    if t.runnable.NonNull? then t.pending - {t.runnable.value} else t.pending
  }

  /** pause(): take the runnable out of the queue; WAITING becomes PAUSE and
      is persisted and announced; LOADING becomes PAUSE with speed 0 and is
      left for run() to persist; any other status stays. */
  function Pause(t: Task): (r: Task)
    ensures r.listeners == t.listeners && r.tasks == t.tasks && r.runnable == t.runnable
    ensures r.pending <= t.pending && r.w.files == t.w.files
  {
    var t1 := t.(pending := Withdrawn(t));
    match t.w.p.status
    case Waiting => t1.(w := PostPause(t.w, Recipients(t)))
    case Loading => t1.(w := t.w.(p := t.w.p.(speed := 0, status := Records.Pause)))
    case _ => t1
  }

  lemma PauseOutcomes(t: Task)
    ensures var r := Pause(t);
      var p := t.w.p;
      && (t.runnable.NonNull? ==> t.runnable.value !in r.pending)
      && r.pending <= t.pending && r.runnable == t.runnable && r.listeners == t.listeners
      && (p.status == Waiting ==>
            r.w.p == p.(speed := 0, status := Records.Pause)
            && r.w.trace == t.w.trace + [Update(r.w.p), Deliver([OnProgress], r.w.p, Recipients(t))])
      && (p.status == Loading ==> r.w == t.w.(p := p.(speed := 0, status := Records.Pause)))
      && (p.status != Waiting && p.status != Loading ==> r.w == t.w)
  {
    if t.w.p.status == Waiting {
      PostEffects(t.w.(p := t.w.p.(speed := 0, status := Records.Pause)), [OnProgress], Recipients(t));
    }
  }

  /** Pausing twice is pausing once. */
  lemma PauseIdempotent(t: Task)
    ensures Pause(Pause(t)).pending == Pause(t).pending
    ensures Pause(Pause(t)).w.p == Pause(t).w.p
  {
  }

  // ---- restart and remove ----

  /** IOUtils.delFileOrFolder on a path string: nothing for null. */
  function Drop(files: map<string, int>, path: Nullable<string>): map<string, int> {
    if path.NonNull? then files - {path.value} else files
  }

  /** The deletions of restart() and remove(true) as written:
      filePath first, then new File(folder, tempFileName), which throws a
      NullPointerException when tempFileName is null. `threw` reports that. */
  datatype Deletion = Deletion(files: map<string, int>, threw: bool)

  function DeleteFilesAsWritten(p: Progress, files: map<string, int>): (d: Deletion)
    ensures d.threw <==> p.tempFileName.Null?
    ensures p.filePath.NonNull? ==> p.filePath.value !in d.files
    ensures forall q :: q in d.files ==> q in files && d.files[q] == files[q]
  {
    var f1 := Drop(files, p.filePath);
    if p.tempFileName.Null? then Deletion(f1, true)
    else Deletion(f1 - {Join(p.folder, p.tempFileName.value)}, false)
  }

  /** The deletions as intended: the temp file is deleted only when there is one. */
  function DeleteFiles(p: Progress, files: map<string, int>): (r: map<string, int>)
    ensures forall q :: q in r ==> q in files && r[q] == files[q]
  {
    var f1 := Drop(files, p.filePath);
    if !IsEmpty(p.tempFileName) then f1 - {Join(p.folder, p.tempFileName.value)} else f1
  }

  /** After the deletions neither the final file nor the file being written
      remains, and every other file is untouched. */
  lemma DeleteFilesRemovesDownload(p: Progress, files: map<string, int>)
    requires !IsEmpty(p.tempFileName) || p.filePath.NonNull?
    ensures var r := DeleteFiles(p, files);
      && DownloadFile(p) !in r
      && (p.filePath.NonNull? ==> p.filePath.value !in r)
      && (forall q :: q in r <==> q in files && (p.filePath.NonNull? ==> q != p.filePath.value)
                                           && (!IsEmpty(p.tempFileName) ==> q != Join(p.folder, p.tempFileName.value)))
      && (forall q :: q in r ==> r[q] == files[q])
  {
  }

  /** restart(): pause, delete the files, reset the position and status,
      rewrite the record, and start again. */
  function Restart(t: Task): (r: Task)
    ensures r.listeners == t.listeners && r.tasks == t.tasks && r.w.p.currentSize == 0
  {
    var t1 := Pause(t);
    var p := t1.w.p.(status := None, currentSize := 0, fraction := 0.0, speed := 0);
    var w2 := Emit(t1.w.(files := DeleteFiles(t1.w.p, t1.w.files), p := p), Replace(p));
    Start(t1.(w := w2))
  }

  /** restart() as written: when new File(folder, null) throws, the exception
      leaves restart() after pause() and the deletion of filePath; the reset,
      the replace and start() never run. */
  function RestartAsWritten(t: Task): (r: Task)
    ensures r.listeners == t.listeners && r.tasks == t.tasks
  {
    var t1 := Pause(t);
    var d := DeleteFilesAsWritten(t1.w.p, t1.w.files);
    if d.threw then t1.(w := t1.w.(files := d.files))
    else
      var p := t1.w.p.(status := None, currentSize := 0, fraction := 0.0, speed := 0);
      Start(t1.(w := Emit(t1.w.(files := d.files, p := p), Replace(p))))
  }

  /** As written, restart() of a task without a temp file name deletes the
      finished or partial file and then stops: the task is paused but not
      reset and not queued again, though its file is gone. */
  lemma RestartWithoutTempNameStalls(t: Task)
    requires t.w.p.tempFileName.Null?
    ensures var r := RestartAsWritten(t);
      var t1 := Pause(t);
      && r.w.p == t1.w.p && r.w.p.status != Waiting && r.w.p.currentSize == t.w.p.currentSize
      && r.w.store == t1.w.store && r.w.trace == t1.w.trace
      && r.pending == t1.pending && r.pending <= t.pending && r.runnable == t.runnable
      && (t.runnable.NonNull? ==> t.runnable.value !in r.pending)
      && (t.w.p.filePath.NonNull? ==> t.w.p.filePath.value !in r.w.files)
  {
  }

  /** restart() on a task in OkDownload's table always queues it again from
      byte 0, with its files gone; its record is then in the store whatever
      the store held before. */
  lemma RestartQueuesFromZero(t: Task)
    requires t.w.p.tag in t.tasks && Numbered(t)
    ensures var r := Restart(t);
      && r.w.p.status == Waiting && r.w.p.currentSize == 0 && r.w.p.speed == 0
      && r.w.p.tag in r.w.store && r.w.store[r.w.p.tag] == r.w.p
      && (t.w.p.filePath.NonNull? ==> t.w.p.filePath.value !in r.w.files)
      && (!IsEmpty(t.w.p.tempFileName) ==> Join(t.w.p.folder, t.w.p.tempFileName.value) !in r.w.files)
      && r.runnable == NonNull(NextUnit(Pause(t))) && NextUnit(Pause(t)) in r.pending
  {
    var t1 := Pause(t);
    var p := t1.w.p.(status := None, currentSize := 0, fraction := 0.0, speed := 0);
    var w2 := Emit(t1.w.(files := DeleteFiles(t1.w.p, t1.w.files), p := p), Replace(p));
    var t2 := t1.(w := w2);
    assert IsSaved(t2) && Queues(t2.w.p.status);
    StartQueues(t2);
  }

  /** restart() is refused only for a task missing from OkDownload's table:
      the rewrite before start() always puts the record in the store. */
  lemma RestartRefusedOnlyWhenUnlisted(t: Task)
    ensures var t1 := Pause(t);
      var p := t1.w.p.(status := None, currentSize := 0, fraction := 0.0, speed := 0);
      var t2 := t1.(w := Emit(t1.w.(files := DeleteFiles(t1.w.p, t1.w.files), p := p), Replace(p)));
      IsSaved(t2) <==> t.w.p.tag in t.tasks
  {
  }

  /** remove(isDeleteFile): pause, optionally delete the files, delete the
      record, drop the task from OkDownload's table, announce onRemove, and
      clear the listeners. */
  function Remove(t: Task, isDeleteFile: bool): (r: Task)
    ensures r.listeners == map[] && t.w.p.tag !in r.tasks && r.tasks == t.tasks - {t.w.p.tag}
  {
    var t1 := Pause(t);
    var files := if isDeleteFile then DeleteFiles(t1.w.p, t1.w.files) else t1.w.files;
    var w2 := Emit(t1.w.(files := files), Delete(t1.w.p.tag));
    t1.(w := PostOnRemove(w2, Recipients(t1)), tasks := t1.tasks - {t1.w.p.tag}, listeners := map[])
  }

  /** remove(isDeleteFile) as written: with isDeleteFile and no temp file
      name the exception leaves remove() after pause() and the deletion of
      filePath, before the record is deleted, the task is taken out of the
      table and onRemove is delivered. */
  function RemoveAsWritten(t: Task, isDeleteFile: bool): (r: Task)
    ensures !(isDeleteFile && t.w.p.tempFileName.Null?) ==> r.listeners == map[] && t.w.p.tag !in r.tasks
  {
    var t1 := Pause(t);
    var d := DeleteFilesAsWritten(t1.w.p, t1.w.files);
    if isDeleteFile && d.threw then t1.(w := t1.w.(files := d.files))
    else
      var files := if isDeleteFile then d.files else t1.w.files;
      var w2 := Emit(t1.w.(files := files), Delete(t1.w.p.tag));
      t1.(w := PostOnRemove(w2, Recipients(t1)), tasks := t1.tasks - {t1.w.p.tag}, listeners := map[])
  }

  /** As written, remove(true) of a task without a temp file name deletes its
      file but keeps its record, its place in the task table and its
      listeners, and no listener hears onRemove. */
  lemma RemoveWithoutTempNameKeepsRecord(t: Task)
    requires t.w.p.tempFileName.Null?
    ensures var r := RemoveAsWritten(t, true);
      var tag := t.w.p.tag;
      && (tag in t.w.store ==> tag in r.w.store)
      && r.tasks == t.tasks && r.listeners == t.listeners
      && r.w.trace == Pause(t).w.trace
      && (t.w.p.filePath.NonNull? ==> t.w.p.filePath.value !in r.w.files)
  {
  }

  /** After remove() the store no longer holds the record (the update of
      postOnRemove finds no row to rewrite), the task is out of the table,
      nothing of it is queued, the listeners heard onRemove last and then
      were cleared. */
  lemma RemoveForgets(t: Task, isDeleteFile: bool)
    ensures var r := Remove(t, isDeleteFile);
      var tag := t.w.p.tag;
      && tag !in r.w.store && tag !in r.tasks && r.listeners == map[]
      && (t.runnable.NonNull? ==> t.runnable.value !in r.pending)
      && r.w.trace[|r.w.trace| - 3..] == [Delete(tag), Update(r.w.p), Deliver([OnRemove], r.w.p, Recipients(t))]
      && (forall k :: k != tag && k in t.w.store ==> k in r.w.store)
      && (!isDeleteFile ==> r.w.files == t.w.files)
  {
    var t1 := Pause(t);
    var files := if isDeleteFile then DeleteFiles(t1.w.p, t1.w.files) else t1.w.files;
    var w2 := Emit(t1.w.(files := files), Delete(t1.w.p.tag));
    PostEffects(w2, [OnRemove], Recipients(t1));
    var r := Remove(t, isDeleteFile);
    assert r.w.trace == w2.trace + [Update(t1.w.p), Deliver([OnRemove], t1.w.p, Recipients(t1))];
    assert w2.trace == t1.w.trace + [Delete(t.w.p.tag)];
  }
}
