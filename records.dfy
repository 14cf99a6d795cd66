/** The download record (okgo's Progress), the shared collaborators a task
    writes to, and the post* helpers of DownloadTask as functions on values. */
module Records {

  /** A Java reference that may be null. */
  datatype Nullable<T> = Null | NonNull(value: T)

  /** TextUtils.isEmpty: null or the empty string. */
  predicate IsEmpty(s: Nullable<string>) {
    s.Null? || s.value == ""
  }

  /** Java's string concatenation of a possibly-null String. */
  function Text(s: Nullable<string>): string {
    if s.Null? then "null" else s.value
  }

  /** Progress.NONE .. Progress.FINISH */
  datatype Status = None | Waiting | Loading | Pause | Error | Finish

  /** Long.MAX_VALUE: the placeholder total when the server gives no length. */
  const LONG_MAX_VALUE: int := 0x7fff_ffff_ffff_ffff
  /** DownloadTask.BUFFER_SIZE */
  const BUFFER_SIZE: int := 1024 * 8
  /** totalSize before it is known */
  const UNKNOWN_LENGTH: int := -1

  /** The cause a task records in progress.exception. */
  datatype Failure =
    | TransportFailed     // request.execute() threw IllegalArgumentException or IOException
    | NetError            // HttpException.NET_ERROR(): 404 or 5xx
    | FileExpired         // HttpException.COMMON: 416, the file must be downloaded again
    | BodyMissing         // the response has no body
    | StorageUnavailable  // StorageException.NOT_AVAILABLE(): the folder cannot be created
    | BreakpointExpired   // OkGoException.BREAKPOINT_EXPIRED()
    | OpenFailed          // opening or seeking the RandomAccessFile threw
    | StreamFailed        // an IOException while reading or writing chunks
    | UnknownStatus       // OkGoException.UNKNOWN(): an unexpected status after the loop
    | FileInvalid         // StorageException from start() on a finished task

  /** The two conditional-range headers that run() puts on the stored request:
      If-Range carries the change token, Range is "bytes=<rangeFrom>-". */
  datatype RangeHeaders = RangeHeaders(ifRange: Nullable<string>, rangeFrom: Nullable<int>)

  /** The fields of Progress that DownloadTask reads or writes. */
  datatype Progress = Progress(
    tag: string,
    folder: Nullable<string>,
    filePath: Nullable<string>,
    fileName: Nullable<string>,
    tempFileName: Nullable<string>,
    fileSuffix: Nullable<string>,
    totalSize: int,
    currentSize: int,
    fraction: real,
    speed: int,
    status: Status,
    priority: int,
    extra1: Nullable<string>,
    exception: Nullable<Failure>,
    request: RangeHeaders)

  /** A DownloadListener, identified in the listener map by its tag. */
  datatype Listener = Listener(tag: string, id: int)

  datatype Callback = OnStart | OnProgress | OnError | OnFinish(file: string) | OnRemove

  /** One observable step: a write to the record store or a delivery to the
      listeners registered at that moment (each of them receives `calls` in order). */
  datatype Effect =
    | Update(rec: Progress)    // DownloadManager.update: rewrites an existing row
    | Replace(rec: Progress)   // DownloadManager.replace: inserts or rewrites
    | Delete(tag: string)      // DownloadManager.delete
    | Deliver(calls: seq<Callback>, rec: Progress, to: set<Listener>)

  /** The record store after one effect. An Update stands for
      update(Progress.buildUpdateContentValues(progress), tag), whose column
      set is not part of this model; it is taken to rewrite the whole row. */
  function Written(store: map<string, Progress>, e: Effect): map<string, Progress> {
    match e
    case Update(r) => if r.tag in store then store[r.tag := r] else store
    case Replace(r) => store[r.tag := r]
    case Delete(t) => store - {t}
    case Deliver(_, _, _) => store
  }

  /** Notify-after-persist: every delivery directly follows the update that
      persisted the very record it delivers. Only the order of the trace is
      looked at: an Update of a tag whose row is no longer in the store (the
      postOnRemove after remove()'s delete) rewrites nothing, yet counts here
      as the persisting step. */
  ghost predicate PersistedBeforeNotified(t: seq<Effect>) {
    forall i :: 0 <= i < |t| && t[i].Deliver? ==> 0 < i && t[i - 1] == Update(t[i].rec)
  }

  /** What one run of the task can see and change: its record, the file system
      (path to length), the record store and the trace of effects. */
  datatype World = World(p: Progress, files: map<string, int>, store: map<string, Progress>, trace: seq<Effect>)

  function Emit(w: World, e: Effect): World {
    w.(store := Written(w.store, e), trace := w.trace + [e])
  }

  /** updateDatabase(progress), taken to write every column of the record. */
  function UpdateDatabase(w: World): World {
    Emit(w, Update(w.p))
  }

  /** Persist the record, then hand it to every listener. */
  function Post(w: World, calls: seq<Callback>, to: set<Listener>): (r: World)
    ensures r.p == w.p && r.files == w.files
  {
    var u := UpdateDatabase(w);
    Emit(u, Deliver(calls, u.p, to))
  }

  /** What a post leaves in the store and the trace: the record is written,
      then delivered to the listeners. */
  lemma PostEffects(w: World, calls: seq<Callback>, to: set<Listener>)
    ensures Post(w, calls, to).store == Written(w.store, Update(w.p))
    ensures Post(w, calls, to).trace == w.trace + [Update(w.p), Deliver(calls, w.p, to)]
  {
    assert Post(w, calls, to).trace == (w.trace + [Update(w.p)]) + [Deliver(calls, w.p, to)];
  }

  /** Writing to the store keeps notify-after-persist. */
  lemma WriteKeepsOrder(t: seq<Effect>, e: Effect)
    requires PersistedBeforeNotified(t) && !e.Deliver?
    ensures PersistedBeforeNotified(t + [e])
  {
    var t' := t + [e];
    forall i | 0 <= i < |t'| && t'[i].Deliver?
      ensures 0 < i && t'[i - 1] == Update(t'[i].rec)
    {
      assert t'[i] == t[i];
    }
  }

  /** Persisting and then delivering keeps notify-after-persist. */
  lemma PostKeepsOrder(w: World, calls: seq<Callback>, to: set<Listener>)
    requires PersistedBeforeNotified(w.trace)
    ensures PersistedBeforeNotified(Post(w, calls, to).trace)
  {
    PostEffects(w, calls, to);
    var t := Post(w, calls, to).trace;
    forall i | 0 <= i < |t| && t[i].Deliver?
      ensures 0 < i && t[i - 1] == Update(t[i].rec)
    {
      if i < |w.trace| {
        assert t[i] == w.trace[i] && t[i - 1] == w.trace[i - 1];
      }
    }
  }

  function PostOnStart(w: World, to: set<Listener>): World {
    Post(w.(p := w.p.(speed := 0, status := None)), [OnStart], to)
  }

  function PostWaiting(w: World, to: set<Listener>): World {
    Post(w.(p := w.p.(speed := 0, status := Waiting)), [OnProgress], to)
  }

  function PostPause(w: World, to: set<Listener>): World {
    Post(w.(p := w.p.(speed := 0, status := Pause)), [OnProgress], to)
  }

  function PostLoading(w: World, to: set<Listener>): World {
    Post(w, [OnProgress], to)
  }

  function PostOnError(w: World, f: Failure, to: set<Listener>): World {
    Post(w.(p := w.p.(speed := 0, status := Error, exception := NonNull(f))), [OnProgress, OnError], to)
  }

  function PostOnFinish(w: World, file: string, to: set<Listener>): World {
    Post(w.(p := w.p.(speed := 0, fraction := 1.0, status := Finish)), [OnProgress, OnFinish(file)], to)
  }

  function PostOnRemove(w: World, to: set<Listener>): World {
    Post(w, [OnRemove], to)
  }

  // ---- paths and files ----

  /** new File(parent, child).getPath(): a null parent gives the child alone. */
  function Join(parent: Nullable<string>, child: string): string {
    if parent.Null? then child else parent.value + "/" + child
  }

  /** Index of the last '/' in s, or -1. */
  function LastSlash(s: string): (i: int)
    ensures -1 <= i < |s|
    ensures 0 <= i ==> s[i] == '/'
    ensures forall j :: i < j < |s| ==> s[j] != '/'
    decreases |s|
  {
    if s == [] then -1
    else if s[|s| - 1] == '/' then |s| - 1
    else LastSlash(s[..|s| - 1])
  }

  /** File.getParent(): the text before the last separator, or null when there is none. */
  function Parent(path: string): Nullable<string> {
    var i := LastSlash(path);
    if i < 0 then Null else NonNull(path[..i])
  }

  /** A file joined to a folder has that folder as its parent. */
  lemma ParentOfJoin(folder: string, name: string)
    requires '/' !in name
    ensures Parent(Join(NonNull(folder), name)) == NonNull(folder)
  {
    var s := Join(NonNull(folder), name);
    assert s == folder + "/" + name;
    assert s[|folder|] == '/';
    var i := LastSlash(s);
    assert i == |folder|;
    assert s[..i] == folder;
  }

  /** File.length(): 0 for a file that does not exist. */
  function FileLength(files: map<string, int>, path: string): int {
    if path in files then files[path] else 0
  }

  /** File.renameTo: moves an existing file, replacing the target. */
  function Rename(files: map<string, int>, from: string, to: string): (r: map<string, int>)
    ensures from in files ==> to in r && r[to] == files[from] && (from != to ==> from !in r)
    ensures from !in files ==> r == files
    ensures forall q :: q != from && q != to ==> (q in r <==> q in files) && (q in files ==> r[q] == files[q])
  {
    if from in files then (files - {from})[to := files[from]] else files
  }

  function Max(a: int, b: int): int {
    if a < b then b else a
  }

  /** The file bytes are written to: the temp file if one is set, else filePath. */
  function DownloadFile(p: Progress): string
    requires !IsEmpty(p.tempFileName) || p.filePath.NonNull?
  {
    if !IsEmpty(p.tempFileName) then Join(p.folder, p.tempFileName.value) else p.filePath.value
  }
}
