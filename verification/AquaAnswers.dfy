/** Which cached registry lists repeat what Aqua's API really answered, and no later than they say. */
module AquaAnswers {
  import opened FileCacheProtocol
  import opened FileCacheSafety

  /** A list the API returned, and when. */
  datatype Answer = Answer(registries: seq<Registry>, at: int)

  predicate Answered(api: seq<Answer>, registries: seq<Registry>) {
    exists i :: 0 <= i < |api| && api[i].registries == registries
  }

  /** A record that repeats an answer, stamped no earlier than it was given and not in the future. */
  ghost predicate Genuine(api: seq<Answer>, now: int, record: Record) {
    record.fetchedAt <= now
    && exists i :: 0 <= i < |api| && api[i].registries == record.registries && api[i].at <= record.fetchedAt
  }

  ghost predicate InThePast(api: seq<Answer>, now: int) {
    forall i :: 0 <= i < |api| ==> api[i].at <= now
  }

  ghost function Lists(api: seq<Answer>): seq<Registry> -> bool {
    (registries: seq<Registry>) => Answered(api, registries)
  }

  ghost function Stamps(api: seq<Answer>, now: int): Record -> bool {
    (record: Record) => Genuine(api, now, record)
  }

  /** The cache file, and whatever is on its way there, makes nothing up. */
  ghost predicate Honest(s: State, api: seq<Answer>, now: int) {
    InThePast(api, now) && AllRecords(s, Lists(api), Stamps(api, now))
  }

  /** What was genuine stays so, as time passes and answers are given. */
  lemma StayGenuine(api: seq<Answer>, api': seq<Answer>, now: int, now': int)
    requires api <= api' && now <= now'
    ensures forall r :: Genuine(api, now, r) ==> Genuine(api', now', r)
    ensures forall list :: Answered(api, list) ==> Answered(api', list)
  {
    forall r | Genuine(api, now, r) ensures Genuine(api', now', r) {
      var i :| 0 <= i < |api| && api[i].registries == r.registries && api[i].at <= r.fetchedAt;
      assert api'[i] == api[i];
    }
    forall list | Answered(api, list) ensures Answered(api', list) {
      var i :| 0 <= i < |api| && api[i].registries == list;
      assert api'[i] == api[i];
    }
  }

  lemma AnswerIsGenuine(api: seq<Answer>, now: int, i: nat, record: Record)
    requires i < |api| && api[i].registries == record.registries && api[i].at <= record.fetchedAt <= now
    ensures Genuine(api, now, record)
  {
  }

  /** The answer a genuine record repeats. */
  lemma Source(api: seq<Answer>, now: int, record: Record) returns (i: nat)
    requires Genuine(api, now, record)
    ensures i < |api| && api[i].registries == record.registries && api[i].at <= record.fetchedAt
  {
    i :| 0 <= i < |api| && api[i].registries == record.registries && api[i].at <= record.fetchedAt;
  }

  lemma AnsweredNowIsGenuine(api: seq<Answer>, now: int, registries: seq<Registry>)
    requires Answered(api, registries) && InThePast(api, now)
    ensures Genuine(api, now, Record(registries, now))
  {
    var i :| 0 <= i < |api| && api[i].registries == registries;
    AnswerIsGenuine(api, now, i, Record(registries, now));
  }

  lemma HonestyStays(s: State, api: seq<Answer>, api': seq<Answer>, now: int, now': int)
    requires Honest(s, api, now) && api <= api' && now <= now' && InThePast(api', now')
    ensures Honest(s, api', now')
  {
    hide Genuine, Answered;
    StayGenuine(api, api', now, now');
    forall id | id in s.ops && s.ops[id].Making? ensures Lists(api')(s.ops[id].registries) {
      assert Lists(api)(s.ops[id].registries);
    }
    forall id | id in s.ops && HasRecord(s.ops[id]) ensures Stamps(api', now')(s.ops[id].record) {
      assert Stamps(api, now)(s.ops[id].record);
    }
    forall i | 0 <= i < |s.log| && s.log[i].Renamed? ensures Stamps(api', now')(s.log[i].record) {
      assert Stamps(api, now)(s.log[i].record);
    }
  }

  /** A step that lets in only answered lists, with the time of day as stamp, keeps everything honest. */
  lemma StepKeepsHonest(enc: Encoding, s: State, a: Action, api: seq<Answer>, now: int)
    requires Honest(s, api, now) && Enabled(enc, s, a)
    requires (a.BeginSet? ==> Answered(api, a.registries)) && (a.MakeDir? ==> a.at == now)
    ensures Honest(Apply(enc, s, a), api, now)
  {
    hide Genuine, Answered, Enabled, Apply, AllRecords, InThePast;
    if a.MakeDir? && a.id in s.ops && s.ops[a.id].Making? && Answered(api, s.ops[a.id].registries) {
      AnsweredNowIsGenuine(api, now, s.ops[a.id].registries);
    }
    StepKeepsRecords(enc, s, a, Lists(api), Stamps(api, now));
  }

  /** The record the file has at any moment of its history is genuine. */
  lemma CurrentIsGenuine(s: State, api: seq<Answer>, now: int, n: nat)
    requires Honest(s, api, now) && n <= |s.log| && Current(s.log[..n]).Some?
    ensures Genuine(api, now, Current(s.log[..n]).value)
  {
    hide Genuine, Answered;
    assert Stamps(api, now)(s.log[n - 1].record);
  }
}
