/**
 * The registry cache file (pkg/aqua/filecache.go), shared by any number of processes, as
 * interleaved file system calls. A call can fail, and a process can die between any two calls.
 *
 * Directory entries point to files, as on a POSIX file system: renaming replaces the entry, not
 * the bytes, so that whoever has the old file open goes on reading it.
 */
module FileCacheProtocol {
  datatype Registry = Registry(name: string, prefixes: seq<string>)

  /** What the cache file stores. */
  datatype Record = Record(registries: seq<Registry>, fetchedAt: int)

  const CACHE_FILE := "registries.json"

  /** The names CreateTemp chooses from. */
  function TempName(suffix: string): string {
    "registries-" + suffix + ".tmp"
  }

  lemma TempIsNotCache(suffix: string)
    ensures TempName(suffix) != CACHE_FILE
  {
    assert TempName(suffix)[10] == '-';
  }

  /** JSON marshalling: any encoding. */
  type Encoding = Record -> string

  /**
   * Where an operation is: a Set from creating the directory to the rename, a Clear, or a read. The
   * stamp is taken once the directory is there.
   */
  datatype Op =
    | Making(registries: seq<Registry>)
    | Creating(record: Record)
    | Writing(record: Record, temp: string, file: nat)
    | Closing(record: Record, temp: string, file: nat)
    | Changing(record: Record, temp: string, file: nat)
    | Moving(record: Record, temp: string, file: nat)
    | Cleaning(temp: string, file: nat)
    | Clearing
    | Opening
    | Reading(file: nat, read: nat, since: nat)
  {
    /** The operation owns a temporary file. */
    predicate Owns() {
      Writing? || Closing? || Changing? || Moving? || Cleaning?
    }
  }

  /** What changed the entry of the cache file. */
  datatype Event = Renamed(id: nat, record: Record) | Cleared(id: nat)

  /**
   * `names` are the directory entries and `files` the bytes of every file ever created. The rest is
   * history: all changes of the cache file's entry, and the temporary names nobody will remove.
   */
  datatype State = State(
    names: map<string, nat>,
    files: seq<string>,
    ops: map<nat, Op>,
    next: nat,
    log: seq<Event>,
    orphans: set<string>)

  const INIT := State(map[], [], map[], 0, [], {})

  // ----- system calls that succeed -----

  function Create(s: State, temp: string): State {
    s.(names := s.names[temp := |s.files|], files := s.files + [""])
  }

  function Append(s: State, file: nat, bytes: string): State
    requires file < |s.files|
  {
    s.(files := s.files[file := s.files[file] + bytes])
  }

  function Remove(s: State, name: string): State {
    s.(names := s.names - {name})
  }

  function Rename(s: State, from: string, to: string): State
    requires from in s.names
  {
    s.(names := (s.names - {from})[to := s.names[from]])
  }

  // ----- steps of operation `id` -----

  datatype Action =
    | BeginSet(registries: seq<Registry>)
    | BeginClear
    | BeginRead
    | Crash(id: nat)
    | MakeDir(id: nat, at: int, ok: bool)
    | CreateTemp(id: nat, suffix: string, ok: bool)
    | WriteSome(id: nat, upTo: nat)
    | EndWrite(id: nat, ok: bool)
    | Close(id: nat, ok: bool)
    | Chmod(id: nat, ok: bool)
    | RenameTemp(id: nat, ok: bool)
    | RemoveTemp(id: nat, ok: bool)
    | RemoveCache(id: nat, ok: bool)
    | Open(id: nat, ok: bool)
    | ReadSome(id: nat, upTo: nat)
    | EndRead(id: nat)

  function Goes(s: State, id: nat, op: Op): State {
    s.(ops := s.ops[id := op])
  }

  function Ends(s: State, id: nat): State {
    s.(ops := s.ops - {id})
  }

  function Begins(s: State, op: Op): State {
    s.(ops := s.ops[s.next := op], next := s.next + 1)
  }

  /** The process dies: what it had not removed stays. */
  function Dies(s: State, id: nat): State
    requires id in s.ops
  {
    Ends(s, id).(orphans := if s.ops[id].Owns() then s.orphans + {s.ops[id].temp} else s.orphans)
  }

  function Created(s: State, id: nat, temp: string): State
    requires id in s.ops && s.ops[id].Creating?
  {
    Goes(Create(s, temp), id, Writing(s.ops[id].record, temp, |s.files|))
  }

  function RenamedTemp(s: State, id: nat): State
    requires id in s.ops && s.ops[id].Moving? && s.ops[id].temp in s.names
  {
    var op := s.ops[id];
    Ends(Rename(s, op.temp, CACHE_FILE).(log := s.log + [Renamed(id, op.record)]), id)
  }

  function RemovedTemp(s: State, id: nat, ok: bool): State
    requires id in s.ops && s.ops[id].Cleaning?
  {
    var temp := s.ops[id].temp;
    Ends(if ok then Remove(s, temp) else s.(orphans := s.orphans + {temp}), id)
  }

  function RemovedCache(s: State, id: nat, ok: bool): State {
    Ends(if ok then Remove(s, CACHE_FILE).(log := s.log + [Cleared(id)]) else s, id)
  }

  /** The failure of any call after CreateTemp leads to the cleanup. */
  function Next(op: Op, ok: bool): Op
    requires op.Owns() && !op.Moving? && !op.Cleaning?
  {
    if !ok then Cleaning(op.temp, op.file)
    else match op
      case Writing(record, temp, file) => Closing(record, temp, file)
      case Closing(record, temp, file) => Changing(record, temp, file)
      case Changing(record, temp, file) => Moving(record, temp, file)
      case _ => op
  }

  /** The bytes a write adds to reach `upTo` of the encoding. */
  function Chunk(enc: Encoding, s: State, op: Op, upTo: nat): string
    requires op.Writing? && op.file < |s.files| && |s.files[op.file]| <= upTo <= |enc(op.record)|
  {
    enc(op.record)[|s.files[op.file]|..upTo]
  }

  predicate Enabled(enc: Encoding, s: State, a: Action) {
    match a
    case BeginSet(registries) => true
    case BeginClear => true
    case BeginRead => true
    case Crash(id) => id in s.ops
    case MakeDir(id, at, ok) => id in s.ops && s.ops[id].Making?
    case CreateTemp(id, suffix, ok) => id in s.ops && s.ops[id].Creating? && (ok ==> TempName(suffix) !in s.names)
    case WriteSome(id, upTo) =>
      && id in s.ops && s.ops[id].Writing? && s.ops[id].file < |s.files|
      && |s.files[s.ops[id].file]| <= upTo <= |enc(s.ops[id].record)|
    case EndWrite(id, ok) =>
      && id in s.ops && s.ops[id].Writing? && s.ops[id].file < |s.files|
      && (ok ==> |s.files[s.ops[id].file]| == |enc(s.ops[id].record)|)
    case Close(id, ok) => id in s.ops && s.ops[id].Closing?
    case Chmod(id, ok) => id in s.ops && s.ops[id].Changing?
    case RenameTemp(id, ok) => id in s.ops && s.ops[id].Moving? && (ok ==> s.ops[id].temp in s.names)
    case RemoveTemp(id, ok) => id in s.ops && s.ops[id].Cleaning?
    case RemoveCache(id, ok) => id in s.ops && s.ops[id].Clearing? && (ok ==> CACHE_FILE in s.names)
    case Open(id, ok) => id in s.ops && s.ops[id].Opening? && (ok ==> CACHE_FILE in s.names)
    case ReadSome(id, upTo) =>
      && id in s.ops && s.ops[id].Reading? && s.ops[id].file < |s.files|
      && s.ops[id].read <= upTo <= |s.files[s.ops[id].file]|
    case EndRead(id) =>
      && id in s.ops && s.ops[id].Reading? && s.ops[id].file < |s.files|
      && s.ops[id].read == |s.files[s.ops[id].file]|
  }

  function Apply(enc: Encoding, s: State, a: Action): State
    requires Enabled(enc, s, a)
  {
    match a
    case BeginSet(registries) => Begins(s, Making(registries))
    case BeginClear => Begins(s, Clearing)
    case BeginRead => Begins(s, Opening)
    case Crash(id) => Dies(s, id)
    case MakeDir(id, at, ok) => if ok then Goes(s, id, Creating(Record(s.ops[id].registries, at))) else Ends(s, id)
    case CreateTemp(id, suffix, ok) => if ok then Created(s, id, TempName(suffix)) else Ends(s, id)
    case WriteSome(id, upTo) => Append(s, s.ops[id].file, Chunk(enc, s, s.ops[id], upTo))
    case EndWrite(id, ok) => Goes(s, id, Next(s.ops[id], ok))
    case Close(id, ok) => Goes(s, id, Next(s.ops[id], ok))
    case Chmod(id, ok) => Goes(s, id, Next(s.ops[id], ok))
    case RenameTemp(id, ok) => if ok then RenamedTemp(s, id) else Goes(s, id, Cleaning(s.ops[id].temp, s.ops[id].file))
    case RemoveTemp(id, ok) => RemovedTemp(s, id, ok)
    case RemoveCache(id, ok) => RemovedCache(s, id, ok)
    case Open(id, ok) => if ok then Goes(s, id, Reading(s.names[CACHE_FILE], 0, |s.log|)) else Ends(s, id)
    case ReadSome(id, upTo) => Goes(s, id, Reading(s.ops[id].file, upTo, s.ops[id].since))
    case EndRead(id) => Ends(s, id)
  }

  ghost predicate Executes(enc: Encoding, s: State, actions: seq<Action>, t: State)
    decreases |actions|
  {
    if actions == [] then s == t
    else Enabled(enc, s, actions[0]) && Executes(enc, Apply(enc, s, actions[0]), actions[1..], t)
  }

  ghost predicate Reaches(enc: Encoding, s: State, t: State) {
    exists actions :: Executes(enc, s, actions, t)
  }

  lemma {:induction false} ExecutesAppend(enc: Encoding, s: State, xs: seq<Action>, t: State, ys: seq<Action>, u: State)
    requires Executes(enc, s, xs, t) && Executes(enc, t, ys, u)
    ensures Executes(enc, s, xs + ys, u)
    decreases |xs|
  {
    hide Enabled, Apply;
    if xs == [] {
      assert xs + ys == ys;
    } else {
      assert (xs + ys)[1..] == xs[1..] + ys;
      ExecutesAppend(enc, Apply(enc, s, xs[0]), xs[1..], t, ys, u);
    }
  }

  lemma ReachesStep(enc: Encoding, s: State, t: State, a: Action)
    requires Reaches(enc, s, t) && Enabled(enc, t, a)
    ensures Reaches(enc, s, Apply(enc, t, a))
  {
    hide Enabled, Apply;
    var xs :| Executes(enc, s, xs, t);
    assert Executes(enc, t, [a], Apply(enc, t, a));
    ExecutesAppend(enc, s, xs, t, [a], Apply(enc, t, a));
  }
}
