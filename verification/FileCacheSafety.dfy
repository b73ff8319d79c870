/**
 * Crash safety of the cache file, in every interleaving of any number of Sets, Clears and reads,
 * with any call failing and any process dying anywhere.
 */
module FileCacheSafety {
  import opened Wrappers
  import opened FileCacheProtocol

  // ----- the invariant -----

  /** The record of the last rename not since cleared. */
  function Current(log: seq<Event>): Option<Record> {
    if log == [] || log[|log| - 1].Cleared? then None else Some(log[|log| - 1].record)
  }

  /** The bytes under construction, by phase. */
  ghost predicate GoodBytes(enc: Encoding, op: Op, bytes: string) {
    match op
    case Writing(record, temp, file) => bytes <= enc(record)
    case Closing(record, temp, file) => bytes == enc(record)
    case Changing(record, temp, file) => bytes == enc(record)
    case Moving(record, temp, file) => bytes == enc(record)
    case _ => true
  }

  /** A writer's file has one name, its temporary one. */
  ghost predicate GoodOwner(enc: Encoding, names: map<string, nat>, files: seq<string>, op: Op)
    requires op.Owns()
  {
    && op.file < |files| && GoodBytes(enc, op, files[op.file])
    && op.temp != CACHE_FILE && op.temp in names && names[op.temp] == op.file
    && forall name :: name in names && names[name] == op.file ==> name == op.temp
  }

  /** A reader has open what was the cache file when it opened it. */
  ghost predicate GoodReader(enc: Encoding, files: seq<string>, log: seq<Event>, op: Op)
    requires op.Reading?
  {
    && op.file < |files| && op.since <= |log| && Current(log[..op.since]).Some?
    && files[op.file] == enc(Current(log[..op.since]).value) && op.read <= |files[op.file]|
  }

  /** Nobody writes to the file. */
  ghost predicate Sealed(ops: map<nat, Op>, file: nat) {
    forall id :: id in ops && ops[id].Owns() ==> ops[id].file != file
  }

  ghost predicate Owners(enc: Encoding, s: State) {
    && (forall id :: id in s.ops && s.ops[id].Owns() ==> GoodOwner(enc, s.names, s.files, s.ops[id]))
    && (forall i, j :: i in s.ops && j in s.ops && s.ops[i].Owns() && s.ops[j].Owns() && i != j ==>
          s.ops[i].file != s.ops[j].file)
  }

  ghost predicate Readers(enc: Encoding, s: State) {
    forall id :: id in s.ops && s.ops[id].Reading? ==>
      GoodReader(enc, s.files, s.log, s.ops[id]) && Sealed(s.ops, s.ops[id].file)
  }

  /** The cache file is absent, or complete and what was renamed last. */
  ghost predicate CacheFile(enc: Encoding, s: State) {
    && (CACHE_FILE in s.names <==> Current(s.log).Some?)
    && (CACHE_FILE in s.names ==> s.names[CACHE_FILE] < |s.files| && Sealed(s.ops, s.names[CACHE_FILE])
                                  && s.files[s.names[CACHE_FILE]] == enc(Current(s.log).value))
  }

  ghost predicate Owned(ops: map<nat, Op>, name: string) {
    exists id :: id in ops && ops[id].Owns() && ops[id].temp == name
  }

  /** Every other entry is a temporary file that some operation will remove, or that was abandoned. */
  ghost predicate Accounted(s: State) {
    forall name :: name in s.names && name != CACHE_FILE ==> name in s.orphans || Owned(s.ops, name)
  }

  ghost predicate InLog(log: seq<Event>, id: nat) {
    exists i :: 0 <= i < |log| && log[i].id == id
  }

  /** An operation still under way has changed nothing. */
  ghost predicate Unlogged(s: State) {
    && (forall id :: id in s.ops ==> id < s.next && !InLog(s.log, id))
    && (forall i :: 0 <= i < |s.log| ==> s.log[i].id < s.next)
  }

  ghost predicate Bounded(s: State) {
    forall name :: name in s.names ==> s.names[name] < |s.files|
  }

  ghost predicate Inv(enc: Encoding, s: State) {
    Owners(enc, s) && Readers(enc, s) && CacheFile(enc, s) && Accounted(s) && Unlogged(s) && Bounded(s)
  }

  // ----- every step keeps it -----

  /** The operations other than `id` are as before. */
  ghost predicate OthersSame(s: State, t: State, id: nat) {
    forall x :: x in s.ops && x != id ==> x in t.ops && t.ops[x] == s.ops[x]
  }

  /** Entries stay accounted for when one operation moves on, except the name it gave up. */
  lemma AccountedAfter(s: State, t: State, id: nat)
    requires Accounted(s) && OthersSame(s, t, id) && s.orphans <= t.orphans
    requires forall name :: name in t.names && name != CACHE_FILE ==>
               name in s.names || name in t.orphans || Owned(t.ops, name)
    requires id in s.ops && s.ops[id].Owns() ==>
               var temp := s.ops[id].temp; temp !in t.names || temp in t.orphans || Owned(t.ops, temp)
    ensures Accounted(t)
  {
    forall name | name in t.names && name != CACHE_FILE ensures name in t.orphans || Owned(t.ops, name) {
      if name in s.names && name !in s.orphans {
        var x :| x in s.ops && s.ops[x].Owns() && s.ops[x].temp == name;
        assert x != id ==> x in t.ops && t.ops[x].Owns() && t.ops[x].temp == name;
      }
    }
  }

  lemma BeginKeeps(enc: Encoding, s: State, op: Op)
    requires Inv(enc, s) && !op.Owns() && !op.Reading?
    ensures Inv(enc, Begins(s, op))
  {
    hide GoodOwner, GoodReader, Accounted, Owned;
    AccountedAfter(s, Begins(s, op), s.next);
  }

  lemma DeathKeeps(enc: Encoding, s: State, id: nat)
    requires Inv(enc, s) && id in s.ops
    ensures Inv(enc, Dies(s, id))
  {
    hide GoodOwner, GoodReader, Accounted, Owned;
    AccountedAfter(s, Dies(s, id), id);
  }

  lemma MovedOn(s: State, id: nat, op: Op)
    requires Accounted(s) && id in s.ops
    requires s.ops[id].Owns() ==> op.Owns() && op.temp == s.ops[id].temp
    ensures Accounted(Goes(s, id, op))
  {
    hide Accounted;
    var t := Goes(s, id, op);
    assert t.ops[id] == op;
    AccountedAfter(s, t, id);
  }

  /** A step that neither opens, creates nor removes anything. */
  lemma AdvanceKeeps(enc: Encoding, s: State, id: nat, op: Op)
    requires Inv(enc, s) && id in s.ops
    requires if s.ops[id].Owns() then op.Owns() && op.temp == s.ops[id].temp && op.file == s.ops[id].file
             else !op.Owns()
    requires op.Owns() ==> GoodBytes(enc, op, s.files[op.file])
    requires op.Reading? ==> GoodReader(enc, s.files, s.log, op) && Sealed(s.ops, op.file)
    ensures Inv(enc, Goes(s, id, op))
  {
    hide GoodReader, GoodBytes, Accounted;
    MovedOn(s, id, op);
  }

  lemma EndKeeps(enc: Encoding, s: State, id: nat)
    requires Inv(enc, s) && id in s.ops && !s.ops[id].Owns()
    ensures Inv(enc, Ends(s, id))
  {
    hide GoodOwner, GoodReader, Accounted, Owned;
    AccountedAfter(s, Ends(s, id), id);
  }

  lemma CreatedIsOwned(s: State, id: nat, temp: string)
    requires id in s.ops && s.ops[id].Creating?
    ensures Owned(Created(s, id, temp).ops, temp)
  {
    assert Created(s, id, temp).ops[id].temp == temp;
  }

  lemma CreateKeeps(enc: Encoding, s: State, id: nat, suffix: string)
    requires Inv(enc, s) && id in s.ops && s.ops[id].Creating? && TempName(suffix) !in s.names
    ensures Inv(enc, Created(s, id, TempName(suffix)))
  {
    hide Accounted, Owned, TempName, Current, InLog;
    TempIsNotCache(suffix);
    CreatedIsOwned(s, id, TempName(suffix));
    AccountedAfter(s, Created(s, id, TempName(suffix)), id);
  }

  lemma WriteKeeps(enc: Encoding, s: State, id: nat, upTo: nat)
    requires Inv(enc, s) && Enabled(enc, s, WriteSome(id, upTo))
    ensures Inv(enc, Apply(enc, s, WriteSome(id, upTo)))
  {
    hide Owned;
  }

  lemma RenameKeeps(enc: Encoding, s: State, id: nat)
    requires Inv(enc, s) && id in s.ops && s.ops[id].Moving? && s.ops[id].temp in s.names
    ensures Inv(enc, RenamedTemp(s, id))
  {
    hide Accounted, Owned;
    AccountedAfter(s, RenamedTemp(s, id), id);
  }

  lemma RemoveTempKeeps(enc: Encoding, s: State, id: nat, ok: bool)
    requires Inv(enc, s) && id in s.ops && s.ops[id].Cleaning?
    ensures Inv(enc, RemovedTemp(s, id, ok))
  {
    hide Accounted, Owned;
    AccountedAfter(s, RemovedTemp(s, id, ok), id);
  }

  lemma RemoveCacheKeeps(enc: Encoding, s: State, id: nat, ok: bool)
    requires Inv(enc, s) && id in s.ops && s.ops[id].Clearing?
    ensures Inv(enc, RemovedCache(s, id, ok))
  {
    hide Accounted, Owned;
    AccountedAfter(s, RemovedCache(s, id, ok), id);
  }

  lemma OpenKeeps(enc: Encoding, s: State, id: nat)
    requires Inv(enc, s) && id in s.ops && s.ops[id].Opening? && CACHE_FILE in s.names
    ensures Inv(enc, Goes(s, id, Reading(s.names[CACHE_FILE], 0, |s.log|)))
  {
    hide Owned, Accounted, GoodOwner;
    assert s.log[..|s.log|] == s.log;
    MovedOn(s, id, Reading(s.names[CACHE_FILE], 0, |s.log|));
  }

  lemma OwnerStepKeeps(enc: Encoding, s: State, id: nat, ok: bool)
    requires Inv(enc, s) && id in s.ops && s.ops[id].Owns() && !s.ops[id].Moving? && !s.ops[id].Cleaning?
    requires ok && s.ops[id].Writing? ==>
               s.ops[id].file < |s.files| && |s.files[s.ops[id].file]| == |enc(s.ops[id].record)|
    ensures Inv(enc, Goes(s, id, Next(s.ops[id], ok)))
  {
    hide Readers, CacheFile, Accounted, Unlogged, Bounded;
    AdvanceKeeps(enc, s, id, Next(s.ops[id], ok));
  }

  lemma StepKeeps(enc: Encoding, s: State, a: Action)
    requires Inv(enc, s) && Enabled(enc, s, a)
    ensures Inv(enc, Apply(enc, s, a))
  {
    hide Inv, Created, RenamedTemp, RemovedTemp, RemovedCache, Dies, Append, TempName, Next;
    match a {
      case BeginSet(registries) => BeginKeeps(enc, s, Making(registries));
      case BeginClear => BeginKeeps(enc, s, Clearing);
      case BeginRead => BeginKeeps(enc, s, Opening);
      case Crash(id) => DeathKeeps(enc, s, id);
      case MakeDir(id, at, ok) =>
        if ok { PlainStepKeeps(enc, s, id, Creating(Record(s.ops[id].registries, at))); } else { EndKeeps(enc, s, id); }
      case CreateTemp(id, suffix, ok) => if ok { CreateKeeps(enc, s, id, suffix); } else { EndKeeps(enc, s, id); }
      case WriteSome(id, upTo) => WriteKeeps(enc, s, id, upTo);
      case EndWrite(id, ok) => OwnerStepKeeps(enc, s, id, ok);
      case Close(id, ok) => OwnerStepKeeps(enc, s, id, ok);
      case Chmod(id, ok) => OwnerStepKeeps(enc, s, id, ok);
      case RenameTemp(id, ok) =>
        if ok { RenameKeeps(enc, s, id); } else { RenameFailureKeeps(enc, s, id); }
      case RemoveTemp(id, ok) => RemoveTempKeeps(enc, s, id, ok);
      case RemoveCache(id, ok) => RemoveCacheKeeps(enc, s, id, ok);
      case Open(id, ok) => if ok { OpenKeeps(enc, s, id); } else { EndKeeps(enc, s, id); }
      case ReadSome(id, upTo) => ReadKeeps(enc, s, id, upTo);
      case EndRead(id) => EndKeeps(enc, s, id);
    }
  }

  lemma PlainStepKeeps(enc: Encoding, s: State, id: nat, op: Op)
    requires Inv(enc, s) && id in s.ops && !s.ops[id].Owns() && !op.Owns() && !op.Reading?
    ensures Inv(enc, Goes(s, id, op))
  {
    hide Inv;
    AdvanceKeeps(enc, s, id, op);
  }

  lemma RenameFailureKeeps(enc: Encoding, s: State, id: nat)
    requires Inv(enc, s) && id in s.ops && s.ops[id].Moving?
    ensures Inv(enc, Goes(s, id, Cleaning(s.ops[id].temp, s.ops[id].file)))
  {
    hide Readers, CacheFile, Accounted, Unlogged, Bounded;
    AdvanceKeeps(enc, s, id, Cleaning(s.ops[id].temp, s.ops[id].file));
  }

  lemma ReadKeeps(enc: Encoding, s: State, id: nat, upTo: nat)
    requires Inv(enc, s) && Enabled(enc, s, ReadSome(id, upTo))
    ensures Inv(enc, Goes(s, id, Reading(s.ops[id].file, upTo, s.ops[id].since)))
  {
    hide Owners, CacheFile, Accounted, Unlogged, Bounded, Current;
    AdvanceKeeps(enc, s, id, Reading(s.ops[id].file, upTo, s.ops[id].since));
  }

  lemma {:induction false} ExecutionKeeps(enc: Encoding, s: State, actions: seq<Action>, t: State)
    requires Inv(enc, s) && Executes(enc, s, actions, t)
    ensures Inv(enc, t)
    decreases |actions|
  {
    hide Inv, Enabled, Apply;
    if actions == [] {
    } else {
      StepKeeps(enc, s, actions[0]);
      ExecutionKeeps(enc, Apply(enc, s, actions[0]), actions[1..], t);
    }
  }

  lemma ReachableInv(enc: Encoding, s: State)
    requires Reaches(enc, INIT, s)
    ensures Inv(enc, s)
  {
    hide Executes;
    var actions :| Executes(enc, INIT, actions, s);
    ExecutionKeeps(enc, INIT, actions, s);
  }

  // ----- what a reader finds -----

  /** The bytes under the cache file's name. */
  function CacheBytes(s: State): Option<string> {
    if CACHE_FILE in s.names && s.names[CACHE_FILE] < |s.files| then Some(s.files[s.names[CACHE_FILE]]) else None
  }

  /** At every moment the cache file is absent, or holds the complete record of the last rename not since cleared. */
  lemma CacheIsLastRename(enc: Encoding, s: State)
    requires Reaches(enc, INIT, s)
    ensures CacheBytes(s) == if Current(s.log).Some? then Some(enc(Current(s.log).value)) else None
  {
    hide Reaches, Current, Owners, Readers, Accounted, Unlogged;
    ReachableInv(enc, s);
  }

  /**
   * A read is all of one record, however many Sets and Clears happened while it went on: the one
   * that was current when the file was opened.
   */
  lemma ReadIsComplete(enc: Encoding, dec: string -> Option<Record>, s: State, id: nat)
    requires Reaches(enc, INIT, s) && Enabled(enc, s, EndRead(id))
    requires forall record :: dec(enc(record)) == Some(record)
    ensures var op := s.ops[id];
            op.since <= |s.log| && dec(s.files[op.file][..op.read]) == Current(s.log[..op.since])
              && Current(s.log[..op.since]).Some?
  {
    hide Reaches, Current, Owners, CacheFile, Accounted, Unlogged, Sealed;
    ReachableInv(enc, s);
    var op := s.ops[id];
    assert GoodReader(enc, s.files, s.log, op);
    assert s.files[op.file][..op.read] == s.files[op.file];
  }

  // ----- whose records are read -----

  predicate HasRecord(op: Op) {
    op.Creating? || op.Writing? || op.Closing? || op.Changing? || op.Moving?
  }

  /** Every list about to be stamped satisfies `q`, every record under way or ever renamed satisfies `p`. */
  ghost predicate AllRecords(s: State, q: seq<Registry> -> bool, p: Record -> bool) {
    && (forall id :: id in s.ops && s.ops[id].Making? ==> q(s.ops[id].registries))
    && (forall id :: id in s.ops && HasRecord(s.ops[id]) ==> p(s.ops[id].record))
    && (forall i :: 0 <= i < |s.log| && s.log[i].Renamed? ==> p(s.log[i].record))
  }

  /** The step lets in only lists and stamps that do. */
  ghost predicate LetsIn(s: State, a: Action, q: seq<Registry> -> bool, p: Record -> bool) {
    && (a.BeginSet? ==> q(a.registries))
    && (a.MakeDir? && a.ok && a.id in s.ops && s.ops[a.id].Making? && q(s.ops[a.id].registries) ==>
          p(Record(s.ops[a.id].registries, a.at)))
  }

  lemma StepKeepsRecords(enc: Encoding, s: State, a: Action, q: seq<Registry> -> bool, p: Record -> bool)
    requires AllRecords(s, q, p) && Enabled(enc, s, a) && LetsIn(s, a, q, p)
    ensures AllRecords(Apply(enc, s, a), q, p)
  {
    hide TempName;
  }

  lemma {:induction false} ExecutionKeepsRecords(enc: Encoding, s: State, actions: seq<Action>, t: State,
                                                 q: seq<Registry> -> bool, p: Record -> bool)
    requires AllRecords(s, q, p) && Executes(enc, s, actions, t) && forall r: Record :: q(r.registries) ==> p(r)
    requires forall i :: 0 <= i < |actions| && actions[i].BeginSet? ==> q(actions[i].registries)
    ensures AllRecords(t, q, p)
    decreases |actions|
  {
    hide AllRecords, Enabled, Apply;
    if actions == [] {
    } else {
      StepKeepsRecords(enc, s, actions[0], q, p);
      ExecutionKeepsRecords(enc, Apply(enc, s, actions[0]), actions[1..], t, q, p);
    }
  }

  /**
   * Whatever holds of every list that was ever passed to Set holds of the list the cache file has at
   * any moment; so the file makes nothing up.
   */
  lemma CacheHoldsWhatWasSet(enc: Encoding, actions: seq<Action>, s: State, n: nat, q: seq<Registry> -> bool)
    requires Executes(enc, INIT, actions, s) && n <= |s.log|
    requires forall i :: 0 <= i < |actions| && actions[i].BeginSet? ==> q(actions[i].registries)
    ensures Current(s.log[..n]).Some? ==> q(Current(s.log[..n]).value.registries)
  {
    hide Executes;
    ExecutionKeepsRecords(enc, INIT, actions, s, q, (r: Record) => q(r.registries));
  }

  // ----- what a failing operation leaves -----

  /** The operation ends without its rename, or its removal of the cache file, having succeeded. */
  predicate EndsInVain(enc: Encoding, s: State, a: Action, id: nat)
    requires Enabled(enc, s, a)
  {
    id in s.ops && id !in Apply(enc, s, a).ops && a != RenameTemp(id, true) && a != RemoveCache(id, true)
  }

  /** The only steps that change the bytes under the cache file's name are those on record. */
  lemma OnlyLoggedStepsChangeCache(enc: Encoding, s: State, a: Action)
    requires Reaches(enc, INIT, s) && Enabled(enc, s, a) && Apply(enc, s, a).log == s.log
    ensures CacheBytes(Apply(enc, s, a)) == CacheBytes(s)
  {
    hide Reaches, Enabled, Apply, CacheBytes;
    ReachesStep(enc, INIT, s, a);
    CacheIsLastRename(enc, s);
    CacheIsLastRename(enc, Apply(enc, s, a));
  }

  lemma VainEndsLogNothing(enc: Encoding, s: State, a: Action, id: nat)
    requires Enabled(enc, s, a) && EndsInVain(enc, s, a, id)
    ensures Apply(enc, s, a).log == s.log
  {
    hide TempName;
  }

  lemma VainEndsRemoveTemp(enc: Encoding, s: State, a: Action, id: nat)
    requires Enabled(enc, s, a) && EndsInVain(enc, s, a, id)
    requires s.ops[id].Owns() && a != Crash(id) && a != RemoveTemp(id, false)
    ensures s.ops[id].temp !in Apply(enc, s, a).names
  {
    hide TempName, Next;
  }

  /**
   * A Set or Clear that fails, or dies, before its rename or removal has never changed what the cache
   * file holds: nothing on record is its doing, now or ever after. And unless it died or could not
   * remove it, its temporary file is gone.
   */
  lemma FailureLeavesCache(enc: Encoding, s: State, a: Action, id: nat, t: State)
    requires Reaches(enc, INIT, s) && Enabled(enc, s, a) && EndsInVain(enc, s, a, id)
    requires Reaches(enc, Apply(enc, s, a), t)
    ensures CacheBytes(Apply(enc, s, a)) == CacheBytes(s)
    ensures !InLog(t.log, id)
    ensures s.ops[id].Owns() && a != Crash(id) && a != RemoveTemp(id, false) ==>
              s.ops[id].temp !in Apply(enc, s, a).names
  {
    hide Reaches, Enabled, Apply, CacheBytes, InLog, Owners, Readers, CacheFile, Accounted;
    ReachableInv(enc, s);
    if s.ops[id].Owns() && a != Crash(id) && a != RemoveTemp(id, false) {
      VainEndsRemoveTemp(enc, s, a, id);
    }
    VainEndsLogNothing(enc, s, a, id);
    OnlyLoggedStepsChangeCache(enc, s, a);
    NextGrows(enc, s, a);
    NeverLogged(enc, Apply(enc, s, a), t, id);
  }

  lemma NextGrows(enc: Encoding, s: State, a: Action)
    requires Enabled(enc, s, a)
    ensures s.next <= Apply(enc, s, a).next
  {
    hide TempName;
  }

  /** Numbers are not reused: one that has no operation gets none, and enters no record. */
  ghost predicate Over(s: State, id: nat) {
    id < s.next && id !in s.ops && !InLog(s.log, id)
  }

  lemma StepKeepsOver(enc: Encoding, s: State, a: Action, id: nat)
    requires Over(s, id) && Enabled(enc, s, a)
    ensures Over(Apply(enc, s, a), id)
  {
    hide TempName, Next;
  }

  lemma {:induction false} ExecutionKeepsOver(enc: Encoding, s: State, actions: seq<Action>, t: State, id: nat)
    requires Over(s, id) && Executes(enc, s, actions, t)
    ensures Over(t, id)
    decreases |actions|
  {
    hide Over, Enabled, Apply;
    if actions == [] {
    } else {
      StepKeepsOver(enc, s, actions[0], id);
      ExecutionKeepsOver(enc, Apply(enc, s, actions[0]), actions[1..], t, id);
    }
  }

  lemma NeverLogged(enc: Encoding, s: State, t: State, id: nat)
    requires Over(s, id) && Reaches(enc, s, t)
    ensures !InLog(t.log, id)
  {
    hide InLog, Executes;
    var actions :| Executes(enc, s, actions, t);
    ExecutionKeepsOver(enc, s, actions, t, id);
  }

  /** When nobody died and no cleanup failed, nothing but the cache file is left once all operations are over. */
  lemma NoLitter(enc: Encoding, s: State)
    requires Reaches(enc, INIT, s) && s.orphans == {} && s.ops == map[]
    ensures s.names.Keys <= {CACHE_FILE}
  {
    hide Reaches, Owners, Readers, CacheFile, Unlogged;
    ReachableInv(enc, s);
    forall name | name in s.names ensures name == CACHE_FILE {
      assert name == CACHE_FILE || Owned(s.ops, name);
    }
  }
}
