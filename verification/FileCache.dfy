/**
 * FileCache (pkg/aqua/filecache.go): Set, Clear, Get and IsExpired as the imperative code they
 * are, on a host where other processes use the same file at the same time.
 */
module FileCache {
  import opened Wrappers
  import opened FileCacheProtocol
  import opened FileCacheSafety
  import opened AquaAnswers

  /** Nobody's operation, or one other than `own`. */
  predicate ByOthers(a: Action, own: Option<nat>) {
    a.BeginSet? || a.BeginClear? || a.BeginRead? || own != Some(a.id)
  }

  /** What others leave alone: the operation itself. */
  ghost predicate Undisturbed(s: State, t: State, own: Option<nat>) {
    && s.next <= t.next && s.log <= t.log
    && (own.Some? && own.value in s.ops ==> own.value in t.ops && t.ops[own.value] == s.ops[own.value])
  }

  lemma OthersLeaveOp(enc: Encoding, s: State, a: Action, own: Option<nat>)
    requires Enabled(enc, s, a) && ByOthers(a, own)
    requires own.Some? && own.value in s.ops ==> own.value < s.next
    ensures Undisturbed(s, Apply(enc, s, a), own)
  {
    hide TempName, Next;
  }

  /** How opening the cache file ends. */
  datatype ReadReply = Contents(bytes: string) | NotExist | ReadError

  /**
   * The file system, the clock, and what Aqua's API has answered to anybody. With `oneServer` all
   * who write the cache file are clients of that API and read this clock.
   */
  class Host {
    const enc: Encoding
    const oneServer: bool
    var s: State
    var now: int
    var api: seq<Answer>
    ghost var readErrors: nat           // how many reads of the callers have failed

    ghost predicate Valid()
      reads this
    {
      Reaches(enc, INIT, s) && InThePast(api, now) && (oneServer ==> Honest(s, api, now))
    }

    /** Operation `id` is at `op`. */
    ghost predicate At(id: nat, op: Op)
      reads this
    {
      Valid() && id in s.ops && s.ops[id] == op
    }

    /** Operation `id` is over, and changed nothing. */
    ghost predicate Failed(id: nat)
      reads this
    {
      Valid() && Over(s, id)
    }

    /** History, time and answers have only grown since. */
    ghost predicate Since(log: seq<Event>, then_: int, answers: seq<Answer>)
      reads this
    {
      log <= s.log && then_ <= now && answers <= api
    }

    constructor (enc: Encoding, oneServer: bool)
      ensures Valid() && this.enc == enc && this.oneServer == oneServer && s == INIT && now == 0 && api == []
    {
      this.enc, this.oneServer, s, now, api, readErrors := enc, oneServer, INIT, 0, [], 0;
      new;
      assert Executes(enc, INIT, [], INIT);
    }

    /** A step of the file system. */
    method Step(a: Action)
      requires Valid() && Enabled(enc, s, a)
      requires oneServer ==> (a.BeginSet? ==> Answered(api, a.registries)) && (a.MakeDir? ==> a.at == now)
      modifies `s
      ensures Valid() && s == Apply(enc, old(s), a)
    {
      hide Reaches, Enabled, Apply, Honest, InThePast, Answered;
      ReachesStep(enc, INIT, s, a);
      if oneServer {
        StepKeepsHonest(enc, s, a, api, now);
      }
      s := Apply(enc, s, a);
    }

    method Tick()
      requires Valid()
      modifies `now
      ensures Valid() && old(now) <= now
    {
      hide Reaches, Honest;
      var delay: int := *;
      if 0 <= delay {
        if oneServer {
          HonestyStays(s, api, api, now, now + delay);
        }
        now := now + delay;
      }
    }

    /** The API answers somebody. */
    method Answers(registries: seq<Registry>)
      requires Valid()
      modifies `api
      ensures Valid() && api == old(api) + [Answer(registries, now)]
    {
      hide Reaches, Honest;
      if oneServer {
        HonestyStays(s, api, api + [Answer(registries, now)], now, now);
      }
      api := api + [Answer(registries, now)];
    }

    /** Time passes, others are answered, and others use the file. */
    method Await(own: Option<nat>)
      requires Valid()
      modifies this
      ensures Valid() && Undisturbed(old(s), s, own) && Since(old(s.log), old(now), old(api))
      ensures readErrors == old(readErrors)
    {
      hide Reaches, Honest, InThePast;
      var n: int := *;
      while 0 < n
        invariant Valid() && Undisturbed(old(s), s, own) && Since(old(s.log), old(now), old(api))
        invariant readErrors == old(readErrors)
      {
        n := n - 1;
        Tick();
        var list: seq<Registry>, answered: bool := *, *;
        if answered {
          Answers(list);
        }
        OtherStep(own);
      }
    }

    method OtherStep(own: Option<nat>)
      requires Valid()
      modifies `s
      ensures Valid() && Undisturbed(old(s), s, own)
    {
      hide Reaches, Enabled, Apply, Honest, InThePast, ByOthers, Answered;
      var a: Action := *;
      if Enabled(enc, s, a) && ByOthers(a, own) {
        if !oneServer || ((a.BeginSet? ==> Answered(api, a.registries)) && (a.MakeDir? ==> a.at == now)) {
          if own.Some? && own.value in s.ops {
            Started(own.value);
          }
          OthersLeaveOp(enc, s, a, own);
          Step(a);
        }
      }
    }

    lemma Started(id: nat)
      requires Valid() && id in s.ops
      ensures id < s.next && !InLog(s.log, id)
    {
      hide Reaches, Owners, Readers, CacheFile, Accounted, InLog, Honest;
      ReachableInv(enc, s);
    }

    method Begin(a: Action) returns (id: nat)
      requires Valid() && (a.BeginSet? || a.BeginClear? || a.BeginRead?)
      requires oneServer && a.BeginSet? ==> Answered(api, a.registries)
      modifies `s
      ensures id == old(s.next) && s.log == old(s.log)
      ensures At(id, if a.BeginSet? then Making(a.registries) else if a.BeginClear? then Clearing else Opening)
    {
      hide Reaches, Honest, Answered, InThePast;
      id := s.next;
      Step(a);
    }

    /** The directory is made sure of, and the time of day is taken as stamp. */
    method MkdirAll(id: nat, ghost registries: seq<Registry>) returns (ok: bool, at: int)
      requires At(id, Making(registries))
      modifies this
      ensures readErrors == old(readErrors)
      ensures Since(old(s.log), old(now), old(api)) && old(now) <= at <= now
      ensures if ok then At(id, Creating(Record(registries, at))) else Failed(id)
    {
      hide Reaches, InLog, Honest, InThePast;
      Await(Some(id));
      Started(id);
      ok, at := *, now;
      Step(MakeDir(id, at, ok));
    }

    method CreateTemp(id: nat, ghost record: Record) returns (ok: bool, temp: string, ghost file: nat)
      requires At(id, Creating(record))
      modifies this
      ensures readErrors == old(readErrors)
      ensures Since(old(s.log), old(now), old(api))
      ensures if ok then At(id, Writing(record, temp, file)) else Failed(id)
    {
      hide Reaches, InLog, TempName, Honest, InThePast;
      Await(Some(id));
      Started(id);
      var suffix: string := *;
      ok := *;
      ok := ok && TempName(suffix) !in s.names;
      temp, file := TempName(suffix), |s.files|;
      Step(FileCacheProtocol.CreateTemp(id, suffix, ok));
    }

    lemma WritingIsPrefix(id: nat)
      requires Valid() && id in s.ops && s.ops[id].Writing?
      ensures s.ops[id].file < |s.files| && |s.files[s.ops[id].file]| <= |enc(s.ops[id].record)|
    {
      hide Reaches, Readers, CacheFile, Accounted, Unlogged, Honest, InThePast;
      ReachableInv(enc, s);
    }

    /** Write: the bytes arrive piece by piece, perhaps not all of them. */
    method Write(id: nat, data: string, ghost record: Record, temp: string, ghost file: nat) returns (ok: bool)
      requires At(id, Writing(record, temp, file)) && data == enc(record)
      modifies this
      ensures readErrors == old(readErrors)
      ensures Since(old(s.log), old(now), old(api))
      ensures At(id, if ok then Closing(record, temp, file) else Cleaning(temp, file))
    {
      hide Reaches, InLog, Honest, InThePast;
      var n: int := *;
      while 0 < n
        invariant At(id, Writing(record, temp, file)) && Since(old(s.log), old(now), old(api))
        invariant readErrors == old(readErrors)
      {
        n := n - 1;
        Await(Some(id));
        WritingIsPrefix(id);
        var upTo: nat := *;
        if |s.files[s.ops[id].file]| <= upTo <= |data| {
          Step(WriteSome(id, upTo));
        }
      }
      Await(Some(id));
      WritingIsPrefix(id);
      ok := *;
      ok := ok && |s.files[s.ops[id].file]| == |data|;
      Step(EndWrite(id, ok));
    }

    method Close(id: nat, ghost record: Record, temp: string, ghost file: nat) returns (ok: bool)
      requires At(id, Closing(record, temp, file))
      modifies this
      ensures readErrors == old(readErrors)
      ensures Since(old(s.log), old(now), old(api))
      ensures At(id, if ok then Changing(record, temp, file) else Cleaning(temp, file))
    {
      hide Reaches, InLog, Honest, InThePast;
      Await(Some(id));
      ok := *;
      Step(FileCacheProtocol.Close(id, ok));
    }

    method Chmod(id: nat, ghost record: Record, temp: string, ghost file: nat) returns (ok: bool)
      requires At(id, Changing(record, temp, file))
      modifies this
      ensures readErrors == old(readErrors)
      ensures Since(old(s.log), old(now), old(api))
      ensures At(id, if ok then Moving(record, temp, file) else Cleaning(temp, file))
    {
      hide Reaches, InLog, Honest, InThePast;
      Await(Some(id));
      ok := *;
      Step(FileCacheProtocol.Chmod(id, ok));
    }

    method Rename(id: nat, temp: string, ghost record: Record, ghost file: nat) returns (ok: bool)
      requires At(id, Moving(record, temp, file))
      modifies this
      ensures readErrors == old(readErrors)
      ensures Since(old(s.log), old(now), old(api))
      ensures if ok then Valid() && |s.log| > |old(s.log)| && s.log[|s.log| - 1] == Renamed(id, record)
              else At(id, Cleaning(temp, file))
    {
      hide Reaches, InLog, Honest, InThePast;
      Await(Some(id));
      ok := *;
      ok := ok && temp in s.names;
      Step(RenameTemp(id, ok));
    }

    /** The cleanup; whether it succeeds is not looked at. */
    method RemoveTemp(id: nat, temp: string, ghost file: nat)
      requires At(id, Cleaning(temp, file))
      modifies this
      ensures readErrors == old(readErrors)
      ensures Since(old(s.log), old(now), old(api))
      ensures Failed(id) && (temp !in s.names || temp in s.orphans)
    {
      hide Reaches, InLog, Honest, InThePast;
      Await(Some(id));
      Started(id);
      var ok: bool := *;
      Step(FileCacheProtocol.RemoveTemp(id, ok));
    }

    /** Removing what is not there is reported apart from other errors. */
    method RemoveCacheFile(id: nat) returns (ok: bool, absent: bool)
      requires At(id, Clearing)
      modifies this
      ensures readErrors == old(readErrors)
      ensures Since(old(s.log), old(now), old(api))
      ensures if ok then Valid() && |s.log| > |old(s.log)| && s.log[|s.log| - 1] == Cleared(id) else Failed(id)
      ensures absent ==> !ok && CACHE_FILE !in s.names
    {
      hide Reaches, InLog, Honest, InThePast;
      Await(Some(id));
      Started(id);
      ok := *;
      ok := ok && CACHE_FILE in s.names;
      absent := CACHE_FILE !in s.names;
      Step(RemoveCache(id, ok));
    }

    /**
     * ReadFile: opens the file, then reads it while others go on. What it returns is what the cache
     * file held at one moment during the call, after `since` changes of its entry.
     */
    method ReadFile(id: nat) returns (reply: ReadReply, ghost since: nat)
      requires At(id, Opening)
      modifies this
      ensures readErrors == old(readErrors) + if reply.ReadError? then 1 else 0
      ensures Valid() && Since(old(s.log), old(now), old(api)) && |old(s.log)| <= since <= |s.log|
      ensures reply.Contents? ==> Current(s.log[..since]).Some? && reply.bytes == enc(Current(s.log[..since]).value)
      ensures reply.NotExist? <==> Current(s.log[..since]).None?
    {
      hide Reaches, InLog, Current, Honest, InThePast;
      Await(Some(id));
      since := |s.log|;
      assert s.log[..since] == s.log;
      FileIsThere();
      ghost var log := s.log;
      var ok: bool := *;
      if CACHE_FILE !in s.names || !ok {
        reply := if CACHE_FILE !in s.names then NotExist else ReadError;
        readErrors := readErrors + if reply.ReadError? then 1 else 0;
        Step(Open(id, false));
        assert s.log == log;
        return;
      }
      Step(Open(id, true));
      assert s.ops[id].since == since && s.log == log;
      var bytes := ReadAll(id);
      reply := Contents(bytes);
    }

    lemma FileIsThere()
      requires Valid()
      ensures CACHE_FILE in s.names <==> Current(s.log).Some?
    {
      hide Reaches, Owners, Readers, Accounted, Unlogged, Current, Honest, InThePast;
      ReachableInv(enc, s);
    }

    lemma ReaderSees(id: nat)
      requires Valid() && id in s.ops && s.ops[id].Reading?
      ensures GoodReader(enc, s.files, s.log, s.ops[id])
    {
      hide Reaches, Owners, CacheFile, Accounted, Unlogged, GoodReader, Honest, InThePast;
      ReachableInv(enc, s);
    }

    /** The loop inside ReadFile: piece after piece, until the end of the open file. */
    method ReadAll(id: nat) returns (bytes: string)
      requires Valid() && id in s.ops && s.ops[id].Reading? && s.ops[id].read == 0
      modifies this
      ensures Valid() && Since(old(s.log), old(now), old(api))
      ensures var since := old(s.ops[id].since);
              since <= |s.log| && Current(s.log[..since]).Some? && bytes == enc(Current(s.log[..since]).value)
      ensures readErrors == old(readErrors)
    {
      hide Reaches, InLog, Current, Honest, InThePast;
      ghost var op := s.ops[id];
      ReaderSees(id);
      ghost var prefix := s.log[..op.since];
      ghost var want := enc(Current(prefix).value);
      bytes := "";
      var n: int := *;
      while 0 < n
        invariant Valid() && id in s.ops && s.ops[id] == Reading(op.file, |bytes|, op.since)
        invariant Since(old(s.log), old(now), old(api)) && |bytes| <= |want| && bytes == want[..|bytes|]
        invariant readErrors == old(readErrors)
      {
        n := n - 1;
        Await(Some(id));
        ReaderSees(id);
        assert s.log[..op.since] == prefix;
        var upTo: nat := *;
        var here := s.ops[id];
        if here.read <= upTo <= |s.files[here.file]| {
          bytes := bytes + s.files[here.file][here.read..upTo];
          Step(ReadSome(id, upTo));
        }
      }
      Await(Some(id));
      ReaderSees(id);
      assert s.log[..op.since] == prefix;
      var here := s.ops[id];
      bytes := bytes + s.files[here.file][here.read..];
      Step(ReadSome(id, |s.files[here.file]|));
      Step(EndRead(id));
    }
  }

  /** What Get returns: nothing, what the file holds, or that it cannot be read. */
  datatype Lookup = Miss | Hit(record: Record) | Unreadable

  class FileCache {
    const enabled: bool
    const ttl: int
    const host: Host
    const dec: string -> Option<Record>

    /** JSON unmarshalling undoes marshalling. */
    ghost predicate Valid()
      reads host
    {
      host.Valid() && forall record :: dec(host.enc(record)) == Some(record)
    }

    constructor (host: Host, dec: string -> Option<Record>, enabled: bool, ttl: int)
      ensures this.host == host && this.dec == dec && this.enabled == enabled && this.ttl == ttl
    {
      this.host, this.dec, this.enabled, this.ttl := host, dec, enabled, ttl;
    }

    /** Set, from the temporary file on. */
    method Publish(op: nat, record: Record) returns (ok: bool)
      requires host.At(op, Creating(record))
      modifies host
      ensures host.readErrors == old(host.readErrors)
      ensures host.Since(old(host.s.log), old(host.now), old(host.api))
      ensures if ok then
                && host.Valid() && |host.s.log| > |old(host.s.log)|
                && host.s.log[|host.s.log| - 1] == Renamed(op, record)
              else host.Failed(op)
    {
      hide Host.Valid, Host.At, Host.Failed;
      var data := host.enc(record);
      var temp: string;
      ghost var file;
      ok, temp, file := host.CreateTemp(op, record);
      if !ok {
        return;
      }
      ok := host.Write(op, data, record, temp, file);
      if !ok {
        host.RemoveTemp(op, temp, file);
        return;
      }
      ok := host.Close(op, record, temp, file);
      if !ok {
        host.RemoveTemp(op, temp, file);
        return;
      }
      ok := host.Chmod(op, record, temp, file);
      if !ok {
        host.RemoveTemp(op, temp, file);
        return;
      }
      ok := host.Rename(op, temp, record, file);
      if !ok {
        host.RemoveTemp(op, temp, file);
        return;
      }
    }

    /**
     * Set. When it succeeds its record, stamped during the call, has just replaced the cache file;
     * when it fails, nothing in the history of the cache file is its doing.
     */
    method Set(registries: seq<Registry>) returns (ok: bool, ghost id: nat, ghost at: int)
      requires Valid()
      requires host.oneServer ==> Answered(host.api, registries)
      modifies host
      ensures host.readErrors == old(host.readErrors)
      ensures Valid() && host.Since(old(host.s.log), old(host.now), old(host.api))
      ensures !enabled ==> ok && host.s == old(host.s) && host.now == old(host.now)
      ensures enabled && ok ==> |host.s.log| > |old(host.s.log)| && host.s.log[|host.s.log| - 1].id == id
                                && Current(host.s.log) == Some(Record(registries, at))
                                && old(host.now) <= at <= host.now
      ensures enabled ==> id == old(host.s.next) && (!ok ==> host.Failed(id))
    {
      hide Host.Valid, Over, Answered;
      id, at := 0, 0;
      if !enabled {
        return true, 0, 0;
      }
      var op := host.Begin(BeginSet(registries));
      id := op;
      var stamp;
      ok, stamp := host.MkdirAll(op, registries);
      at := stamp;
      if !ok {
        return;
      }
      ok := Publish(op, Record(registries, stamp));
    }

    /** Clear: an absent file is as good as a removed one. */
    method Clear() returns (ok: bool, ghost id: nat)
      requires Valid()
      modifies host
      ensures host.readErrors == old(host.readErrors)
      ensures Valid() && host.Since(old(host.s.log), old(host.now), old(host.api))
      ensures !enabled ==> ok && host.s == old(host.s)
      ensures enabled && ok ==> CacheBytes(host.s).None?
      ensures enabled ==> id == old(host.s.next) && (!ok ==> host.Failed(id))
    {
      hide Host.Valid, InLog;
      id := 0;
      if !enabled {
        return true, 0;
      }
      var op := host.Begin(BeginClear);
      id := op;
      var removed, absent := host.RemoveCacheFile(op);
      if removed {
        Removed();
      }
      return removed || absent, id;
    }

    lemma Removed()
      requires host.Valid() && host.s.log != [] && host.s.log[|host.s.log| - 1].Cleared?
      ensures CacheBytes(host.s).None?
    {
      CacheIsLastRename(host.enc, host.s);
    }

    /**
     * Get. `since` and `checked` are moments of the call. If the read did not fail, the result is a hit
     * exactly when a record was current at the one that was at most `ttl` old at the other, and then that
     * record; it fails only on a file that is there.
     */
    method Get() returns (r: Lookup, ghost since: nat, ghost checked: int)
      requires Valid()
      modifies host
      ensures Valid() && host.Since(old(host.s.log), old(host.now), old(host.api))
      ensures |old(host.s.log)| <= since <= |host.s.log| && old(host.now) <= checked <= host.now
      ensures !enabled ==> r == Miss && host.s == old(host.s) && host.now == old(host.now) && host.api == old(host.api)
      ensures host.readErrors == old(host.readErrors) + if r.Unreadable? then 1 else 0
      ensures enabled && !r.Unreadable? ==>
                var current := Current(host.s.log[..since]);
                r == if current.Some? && checked - current.value.fetchedAt <= ttl then Hit(current.value) else Miss
      ensures r.Unreadable? ==> Current(host.s.log[..since]).Some?
    {
      hide Host.Valid, InLog, Current;
      since, checked := |host.s.log|, host.now;
      if !enabled {
        return Miss, since, checked;
      }
      var op := host.Begin(BeginRead);
      var reply;
      reply, since := host.ReadFile(op);
      host.Tick();
      checked := host.now;
      match reply {
        case NotExist => return Miss, since, checked;
        case ReadError => return Unreadable, since, checked;
        case Contents(data) =>
          var cacheData := dec(data);
          if cacheData.None? {
            return Miss, since, checked;
          }
          if host.now - cacheData.value.fetchedAt > ttl {
            return Miss, since, checked;
          }
          return Hit(cacheData.value), since, checked;
      }
    }

    /** IsExpired agrees with what Get would find: only a readable, current, fresh record is not expired. */
    method IsExpired() returns (expired: bool, failed: bool, ghost since: nat, ghost checked: int)
      requires Valid()
      modifies host
      ensures Valid() && host.Since(old(host.s.log), old(host.now), old(host.api))
      ensures |old(host.s.log)| <= since <= |host.s.log| && old(host.now) <= checked <= host.now
      ensures !enabled ==> expired && !failed && host.s == old(host.s)
      ensures host.readErrors == old(host.readErrors) + if failed then 1 else 0
      ensures enabled && !failed ==>
                var current := Current(host.s.log[..since]);
                !expired <==> current.Some? && checked - current.value.fetchedAt <= ttl
      ensures failed ==> expired && Current(host.s.log[..since]).Some?
    {
      hide Host.Valid, InLog, Current;
      since, checked := |host.s.log|, host.now;
      if !enabled {
        return true, false, since, checked;
      }
      var op := host.Begin(BeginRead);
      var reply;
      reply, since := host.ReadFile(op);
      host.Tick();
      checked := host.now;
      match reply {
        case NotExist => return true, false, since, checked;
        case ReadError => return true, true, since, checked;
        case Contents(data) =>
          var cacheData := dec(data);
          if cacheData.None? {
            return true, false, since, checked;
          }
          if host.now - cacheData.value.fetchedAt > ttl {
            return true, false, since, checked;
          }
          return false, false, since, checked;
      }
    }
  }
}
