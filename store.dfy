/**
 * The document store behind the simulated backend: one collection of records per
 * storage key, read whole and written back whole. A key never written reads as
 * the empty collection, as `'[]'` does in the source.
 */
module Store {
  import opened Types

  const USERS := "nexus_users"
  const JOBS := "nexus_jobs"
  const APPS := "nexus_apps"
  const COMPANIES := "nexus_companies"

  /** One stored document: what the JSON text under a key decodes to. */
  datatype Record = UserRecord(user: User) | JobRecord(job: Job) | AppRecord(app: Application)

  predicate AllUsers(rs: seq<Record>) { forall i :: 0 <= i < |rs| ==> rs[i].UserRecord? }
  predicate AllJobs(rs: seq<Record>) { forall i :: 0 <= i < |rs| ==> rs[i].JobRecord? }
  predicate AllApps(rs: seq<Record>) { forall i :: 0 <= i < |rs| ==> rs[i].AppRecord? }

  function DecodeUsers(rs: seq<Record>): (us: seq<User>)
    requires AllUsers(rs)
    ensures |us| == |rs| && forall i :: 0 <= i < |rs| ==> rs[i] == UserRecord(us[i])
  {
    seq(|rs|, i requires 0 <= i < |rs| => rs[i].user)
  }

  /** Encoding a users collection and reading it back gives the same collection. */
  function EncodeUsers(us: seq<User>): (rs: seq<Record>)
    ensures AllUsers(rs) && DecodeUsers(rs) == us
  {
    seq(|us|, i requires 0 <= i < |us| => UserRecord(us[i]))
  }

  function DecodeJobs(rs: seq<Record>): (js: seq<Job>)
    requires AllJobs(rs)
    ensures |js| == |rs| && forall i :: 0 <= i < |rs| ==> rs[i] == JobRecord(js[i])
  {
    seq(|rs|, i requires 0 <= i < |rs| => rs[i].job)
  }

  /** Encoding a jobs collection and reading it back gives the same collection. */
  function EncodeJobs(js: seq<Job>): (rs: seq<Record>)
    ensures AllJobs(rs) && DecodeJobs(rs) == js
  {
    seq(|js|, i requires 0 <= i < |js| => JobRecord(js[i]))
  }

  function DecodeApps(rs: seq<Record>): (apps: seq<Application>)
    requires AllApps(rs)
    ensures |apps| == |rs| && forall i :: 0 <= i < |rs| ==> rs[i] == AppRecord(apps[i])
  {
    seq(|rs|, i requires 0 <= i < |rs| => rs[i].app)
  }

  /** Encoding an applications collection and reading it back gives the same collection. */
  function EncodeApps(apps: seq<Application>): (rs: seq<Record>)
    ensures AllApps(rs) && DecodeApps(rs) == apps
  {
    seq(|apps|, i requires 0 <= i < |apps| => AppRecord(apps[i]))
  }

  /** Two writes, one under `a` and one under `b`, leave every other key as it was. */
  lemma TwoKeyFrame(m0: map<string, seq<Record>>, m1: map<string, seq<Record>>, m2: map<string, seq<Record>>,
                    a: string, b: string)
    requires m1 - {a} == m0 - {a} && m2 - {b} == m1 - {b}
    ensures m2 - {a, b} == m0 - {a, b}
  {
    assert m2 - {a, b} == (m2 - {b}) - {a};
    assert m1 - {a, b} == (m1 - {b}) - {a} == (m1 - {a}) - {b};
    assert m0 - {a, b} == (m0 - {a}) - {b};
  }

  /** The browser's key-value storage, holding one collection per key. */
  class Db {
    var data: map<string, seq<Record>>

    constructor (init: map<string, seq<Record>>)
      ensures data == init
      ensures init == map[] ==> Valid()
    {
      data := init;
    }

    /** `db.get`: the collection under `key`, empty when nothing was saved there. */
    function Get(key: string): (rs: seq<Record>)
      reads this
      ensures key !in data ==> rs == []
    {
      if key in data then data[key] else []
    }

    /** `db.save`: overwrites the whole collection under `key` and nothing else. */
    method Save(key: string, rs: seq<Record>)
      modifies this
      ensures Get(key) == rs
      ensures forall k :: k != key ==> Get(k) == old(Get(k))
      ensures data == old(data)[key := rs]
    {
      data := data[key := rs];
    }

    /** Each collection the backend uses holds records of its own kind. */
    ghost predicate Valid()
      reads this
    {
      AllUsers(Get(USERS)) && AllJobs(Get(JOBS)) && AllApps(Get(APPS))
    }

    function Users(): seq<User>
      reads this
      requires Valid()
    {
      DecodeUsers(Get(USERS))
    }

    function Jobs(): seq<Job>
      reads this
      requires Valid()
    {
      DecodeJobs(Get(JOBS))
    }

    function Apps(): seq<Application>
      reads this
      requires Valid()
    {
      DecodeApps(Get(APPS))
    }
  }
}
