/** Verification reminders: one sorted set per reminder key, and what one run of the
    reminder script does to them. */
module Reminders {

  type Uid = string

  type Key = string

  /** A sorted set: members with their scores. */
  type Queue = map<Uid, int>

  datatype Reminder = Reminder(uid: Uid, timestamp: int)

  /** The elements of the flat arrays exchanged with Redis. */
  datatype Item = Member(uid: Uid) | Score(timestamp: int)

  /** How one attempt to remind an account ends. */
  datatype Outcome = Delivered | AccountUnknown | Failed

  type Mail = (Key, Uid) -> Outcome

  /** The reminder keys, in the order the script processes them. */
  datatype Config = Config(keys: seq<Key>, intervals: map<Key, nat>)

  ghost predicate Valid(c: Config) {
    && (forall i, j :: 0 <= i < j < |c.keys| ==> c.keys[i] != c.keys[j])
    && (forall i :: 0 <= i < |c.keys| ==> c.keys[i] in c.intervals)
  }

  function QueueAt(qs: map<Key, Queue>, key: Key): Queue {
    if key in qs then qs[key] else map[]
  }

  function Due(q: Queue, cutoff: int): Queue {
    map u | u in q && 0 <= q[u] <= cutoff :: q[u]
  }

  // ---------- What one run does, key by key ----------

  function Popped(c: Config, qs: map<Key, Queue>, now: int, k: nat): Queue
    requires k < |c.keys| && c.keys[k] in c.intervals
  {
    Due(QueueAt(qs, c.keys[k]), now - c.intervals[c.keys[k]])
  }

  /** The accounts mailed for key `k`: due, not mailed for an earlier key, delivered. */
  ghost function Sent(c: Config, qs: map<Key, Queue>, now: int, mail: Mail, k: nat): set<Uid>
    requires Valid(c) && k < |c.keys|
    decreases k, 1
  {
    set u | u in Popped(c, qs, now, k) && u !in SentBefore(c, qs, now, mail, k) && mail(c.keys[k], u).Delivered?
  }

  ghost function SentBefore(c: Config, qs: map<Key, Queue>, now: int, mail: Mail, k: nat): set<Uid>
    requires Valid(c) && k <= |c.keys|
    decreases k, 0
  {
    if k == 0 then {}
    else SentBefore(c, qs, now, mail, k - 1) + Sent(c, qs, now, mail, k - 1)
  }

  ghost function Dropped(c: Config, qs: map<Key, Queue>, now: int, mail: Mail, k: nat): set<Uid>
    requires Valid(c) && k < |c.keys|
  {
    set u | && u in Popped(c, qs, now, k) && u !in SentBefore(c, qs, now, mail, k)
            && mail(c.keys[k], u).AccountUnknown?
  }

  ghost function Reinstated(c: Config, qs: map<Key, Queue>, now: int, mail: Mail, k: nat): Queue
    requires Valid(c) && k < |c.keys|
  {
    var popped := Popped(c, qs, now, k);
    map u | u in popped && (u in SentBefore(c, qs, now, mail, k) || mail(c.keys[k], u).Failed?) :: popped[u]
  }

  ghost function QueueAfter(c: Config, qs: map<Key, Queue>, now: int, mail: Mail, k: nat): Queue
    requires Valid(c) && k < |c.keys|
  {
    QueueAt(qs, c.keys[k]) - Popped(c, qs, now, k).Keys + Reinstated(c, qs, now, mail, k)
  }

  /** Every popped reminder is exactly one of sent, dropped or put back, and put back
      with its own timestamp; so the queue loses the sent and dropped ones only. */
  lemma Conservation(c: Config, qs: map<Key, Queue>, now: int, mail: Mail, k: nat)
    requires Valid(c) && k < |c.keys|
    ensures var (popped, back) := (Popped(c, qs, now, k), Reinstated(c, qs, now, mail, k));
            var (sent, dropped) := (Sent(c, qs, now, mail, k), Dropped(c, qs, now, mail, k));
            && popped.Keys == sent + dropped + back.Keys
            && sent !! dropped && sent !! back.Keys && dropped !! back.Keys
            && (forall u :: u in back ==> back[u] == popped[u] == QueueAt(qs, c.keys[k])[u])
            && QueueAfter(c, qs, now, mail, k) == QueueAt(qs, c.keys[k]) - (sent + dropped)
  {
    forall u | u in Popped(c, qs, now, k)
      ensures || u in Sent(c, qs, now, mail, k) || u in Dropped(c, qs, now, mail, k)
              || u in Reinstated(c, qs, now, mail, k)
    {
      match mail(c.keys[k], u) {
        case Delivered =>
        case AccountUnknown =>
        case Failed =>
      }
    }
    assert QueueAfter(c, qs, now, mail, k).Keys ==
           (QueueAt(qs, c.keys[k]) - (Sent(c, qs, now, mail, k) + Dropped(c, qs, now, mail, k))).Keys;
  }

  /** Nobody is mailed for two keys of the same run. */
  lemma {:induction false} OneMailPerRun(c: Config, qs: map<Key, Queue>, now: int, mail: Mail, j: nat, k: nat)
    requires Valid(c) && j < k < |c.keys|
    ensures Sent(c, qs, now, mail, j) !! Sent(c, qs, now, mail, k)
  {
    SentAccumulates(c, qs, now, mail, j, k);
  }

  lemma {:induction false} SentAccumulates(c: Config, qs: map<Key, Queue>, now: int, mail: Mail, j: nat, k: nat)
    requires Valid(c) && j < k <= |c.keys|
    ensures Sent(c, qs, now, mail, j) <= SentBefore(c, qs, now, mail, k)
    decreases k
  {
    if j == k - 1 {
    } else {
      SentAccumulates(c, qs, now, mail, j, k - 1);
    }
  }

  // ---------- The flat arrays ----------

  /** Members and scores in turn, as Redis answers. */
  function Flatten(rs: seq<Reminder>): seq<Item> {
    if rs == [] then []
    else Flatten(rs[..|rs| - 1]) + [Member(rs[|rs| - 1].uid), Score(rs[|rs| - 1].timestamp)]
  }

  /** Scores and members in turn, as Redis is told. */
  function Arguments(rs: seq<Reminder>): seq<Item> {
    if rs == [] then []
    else Arguments(rs[..|rs| - 1]) + [Score(rs[|rs| - 1].timestamp), Member(rs[|rs| - 1].uid)]
  }

  lemma {:induction false} FlattenAt(rs: seq<Reminder>)
    ensures |Flatten(rs)| == 2 * |rs|
    ensures forall i :: 0 <= i < |rs| ==>
              Flatten(rs)[2 * i] == Member(rs[i].uid) && Flatten(rs)[2 * i + 1] == Score(rs[i].timestamp)
  {
    if rs == [] {
    } else {
      FlattenAt(rs[..|rs| - 1]);
    }
  }

  lemma {:induction false} ArgumentsAt(rs: seq<Reminder>)
    ensures |Arguments(rs)| == 2 * |rs|
    ensures forall i :: 0 <= i < |rs| ==>
              Arguments(rs)[2 * i] == Score(rs[i].timestamp) && Arguments(rs)[2 * i + 1] == Member(rs[i].uid)
  {
    if rs == [] {
    } else {
      ArgumentsAt(rs[..|rs| - 1]);
    }
  }

  /** `rs` lists the members of `q`, each once. */
  ghost predicate Lists(rs: seq<Reminder>, q: Queue) {
    && (forall i, j :: 0 <= i < j < |rs| ==> rs[i].uid != rs[j].uid)
    && (forall r :: r in rs ==> r.uid in q && q[r.uid] == r.timestamp)
    && (forall u :: u in q ==> Reminder(u, q[u]) in rs)
  }

  /** Turns a flat answer back into records: an even position starts one, an odd
      position completes it. */
  method PairUp(flat: seq<Item>, ghost rs: seq<Reminder>) returns (reminders: seq<Reminder>)
    requires flat == Flatten(rs)
    ensures reminders == rs
  {
    FlattenAt(rs);
    reminders := [];
    for index := 0 to |flat|
      invariant |reminders| == (index + 1) / 2
      invariant forall i :: 0 <= i < index / 2 ==> reminders[i] == rs[i]
      invariant index % 2 == 1 ==> reminders[index / 2].uid == rs[index / 2].uid
    {
      assert flat[2 * (index / 2)] == Member(rs[index / 2].uid);
      assert flat[2 * (index / 2) + 1] == Score(rs[index / 2].timestamp);
      if index % 2 == 0 {
        reminders := reminders + [Reminder(flat[index].uid, 0)];
      } else {
        reminders := reminders[(index - 1) / 2 := reminders[(index - 1) / 2].(timestamp := flat[index].timestamp)];
      }
    }
  }

  /** The queue with the listed reminders added, later ones winning. */
  function AddAll(q: Queue, rs: seq<Reminder>): Queue {
    if rs == [] then q
    else AddAll(q, rs[..|rs| - 1])[rs[|rs| - 1].uid := rs[|rs| - 1].timestamp]
  }

  lemma {:induction false} AddAllOther(q: Queue, rs: seq<Reminder>, u: Uid)
    requires forall r :: r in rs ==> r.uid != u
    ensures u in AddAll(q, rs) <==> u in q
    ensures u in q ==> AddAll(q, rs)[u] == q[u]
  {
    if rs == [] {
    } else {
      AddAllOther(q, rs[..|rs| - 1], u);
      assert rs[|rs| - 1] in rs;
    }
  }

  lemma {:induction false} AddAllMember(q: Queue, rs: seq<Reminder>, i: nat)
    requires i < |rs|
    requires forall a, b :: 0 <= a < b < |rs| ==> rs[a].uid != rs[b].uid
    ensures rs[i].uid in AddAll(q, rs) && AddAll(q, rs)[rs[i].uid] == rs[i].timestamp
  {
    if i == |rs| - 1 {
    } else {
      AddAllMember(q, rs[..|rs| - 1], i);
    }
  }

  lemma AddAllLists(q: Queue, rs: seq<Reminder>, back: Queue)
    requires Lists(rs, back)
    ensures AddAll(q, rs) == q + back
  {
    var sum := AddAll(q, rs);
    forall u
      ensures u in sum <==> u in q + back
      ensures u in q + back ==> sum[u] == (q + back)[u]
    {
      if u in back {
        var i :| 0 <= i < |rs| && rs[i] == Reminder(u, back[u]);
        AddAllMember(q, rs, i);
      } else {
        AddAllOther(q, rs, u);
      }
    }
  }

  class VerificationReminders {
    const config: Config
    const rolloutRate: real
    var queues: map<Key, Queue>

    constructor (config: Config, rolloutRate: real)
      ensures this.config == config && this.rolloutRate == rolloutRate && queues == map[]
    {
      this.config, this.rolloutRate, queues := config, rolloutRate, map[];
    }

    /** Adds score and member pairs to one sorted set. */
    method ZAdd(key: Key, arguments: seq<Item>, ghost rs: seq<Reminder>)
      requires arguments == Arguments(rs)
      modifies this
      ensures queues == old(queues)[key := AddAll(QueueAt(old(queues), key), rs)]
    {
      ArgumentsAt(rs);
      var q := QueueAt(queues, key);
      var n := 0;
      while n < |arguments| / 2
        invariant 0 <= n <= |arguments| / 2
        invariant q == AddAll(QueueAt(queues, key), rs[..n])
        invariant queues == old(queues)
      {
        assert arguments[2 * n] == Score(rs[n].timestamp) && arguments[2 * n + 1] == Member(rs[n].uid);
        assert rs[..n + 1][..n] == rs[..n];
        q := q[arguments[2 * n + 1].uid := arguments[2 * n].timestamp];
        n := n + 1;
      }
      assert rs[..|rs|] == rs;
      queues := queues[key := q];
    }

    /** Removes and returns the members scored between zero and the cutoff. */
    method ZPopRangeByScore(key: Key, cutoff: int) returns (flat: seq<Item>, ghost rs: seq<Reminder>)
      modifies this
      ensures flat == Flatten(rs) && Lists(rs, Due(QueueAt(old(queues), key), cutoff))
      ensures queues == old(queues)[key :=
                QueueAt(old(queues), key) - Due(QueueAt(old(queues), key), cutoff).Keys]
    {
      var q := QueueAt(queues, key);
      var due := Due(q, cutoff);
      var left := due.Keys;
      flat, rs := [], [];
      while left != {}
        invariant left <= due.Keys
        invariant flat == Flatten(rs)
        invariant Lists(rs, due - left)
        invariant queues == old(queues)
        decreases |left|
      {
        var u :| u in left;
        ListsOneMore(rs, due, left, u);
        flat := flat + [Member(u), Score(due[u])];
        assert (rs + [Reminder(u, due[u])])[..|rs|] == rs;
        rs := rs + [Reminder(u, due[u])];
        left := left - {u};
      }
      assert due - {} == due;
      queues := queues[key := q - due.Keys];
    }

    method Create(uid: Uid, now: int, roll: real)
      requires Valid(config)
      modifies this
      ensures forall k :: 0 <= k < |config.keys| ==>
                QueueAt(queues, config.keys[k]) ==
                if rolloutRate <= 1.0 && roll < rolloutRate
                then QueueAt(old(queues), config.keys[k])[uid := now]
                else QueueAt(old(queues), config.keys[k])
    {
      if rolloutRate <= 1.0 && roll < rolloutRate {
        for n := 0 to |config.keys|
          invariant forall k :: 0 <= k < |config.keys| ==>
            QueueAt(queues, config.keys[k]) ==
            if k < n then QueueAt(old(queues), config.keys[k])[uid := now] else QueueAt(old(queues), config.keys[k])
        {
          ghost var one := [Reminder(uid, now)];
          assert one[..0] == [];
          ZAdd(config.keys[n], [Score(now), Member(uid)], one);
        }
      }
    }

    method Delete(uid: Uid)
      requires Valid(config)
      modifies this
      ensures forall k :: 0 <= k < |config.keys| ==>
                QueueAt(queues, config.keys[k]) == QueueAt(old(queues), config.keys[k]) - {uid}
    {
      for n := 0 to |config.keys|
        invariant forall k :: 0 <= k < |config.keys| ==>
          QueueAt(queues, config.keys[k]) ==
          if k < n then QueueAt(old(queues), config.keys[k]) - {uid} else QueueAt(old(queues), config.keys[k])
      {
        queues := queues[config.keys[n] := QueueAt(queues, config.keys[n]) - {uid}];
      }
    }

    /** Reads and removes the due reminders of one key. */
    method Take(key: Key, cutoff: int) returns (reminders: seq<Reminder>)
      modifies this
      ensures Lists(reminders, Due(QueueAt(old(queues), key), cutoff))
      ensures QueueAt(queues, key) == QueueAt(old(queues), key) - Due(QueueAt(old(queues), key), cutoff).Keys
      ensures forall other :: other != key ==> QueueAt(queues, other) == QueueAt(old(queues), other)
    {
      var flat, rs := ZPopRangeByScore(key, cutoff);
      reminders := PairUp(flat, rs);
    }

    /** The same for every key. */
    method Process(now: int) returns (all: map<Key, seq<Reminder>>)
      requires Valid(config)
      modifies this
      ensures forall k :: 0 <= k < |config.keys| ==> TakenOut(config, old(queues), queues, now, all, k)
      ensures forall k :: 0 <= k < |config.keys| ==> RipeTaken(config, old(queues), queues, now, all, config.keys[k])
    {
      all := map[];
      for n := 0 to |config.keys|
        invariant forall k :: 0 <= k < n ==> TakenOut(config, old(queues), queues, now, all, k)
        invariant forall k :: n <= k < |config.keys| ==>
          QueueAt(queues, config.keys[k]) == QueueAt(old(queues), config.keys[k])
      {
        var key := config.keys[n];
        ghost var queues0, all0 := queues, all;
        var reminders := Take(key, now - config.intervals[key]);
        all := all[key := reminders];
        forall k | 0 <= k < n
          ensures TakenOut(config, old(queues), queues, now, all, k)
        {
          assert TakenOut(config, old(queues), queues0, now, all0, k);
          assert config.keys[k] != key;
        }
      }
      forall k | 0 <= k < |config.keys|
        ensures RipeTaken(config, old(queues), queues, now, all, config.keys[k])
      {
        TakenOutIsRipe(config, old(queues), queues, now, all, k);
      }
    }

    /** Puts reminders back under their original timestamps. */
    method Reinstate(key: Key, reminders: seq<Reminder>)
      modifies this
      ensures queues == old(queues)[key := AddAll(QueueAt(old(queues), key), reminders)]
    {
      var arguments := [];
      for n := 0 to |reminders|
        invariant arguments == Arguments(reminders[..n])
        invariant queues == old(queues)
      {
        assert reminders[..n + 1][..n] == reminders[..n];
        arguments := arguments + [Score(reminders[n].timestamp), Member(reminders[n].uid)];
      }
      assert reminders[..|reminders|] == reminders;
      ZAdd(key, arguments, reminders);
    }
  }

  /** The due reminders of one key are listed and no longer queued. */
  ghost predicate TakenOut(c: Config, before: map<Key, Queue>, after: map<Key, Queue>, now: int,
                           all: map<Key, seq<Reminder>>, k: nat)
    requires Valid(c) && k < |c.keys|
  {
    && c.keys[k] in all
    && Lists(all[c.keys[k]], Popped(c, before, now, k))
    && QueueAt(after, c.keys[k]) == QueueAt(before, c.keys[k]) - Popped(c, before, now, k).Keys
  }

  lemma ListsOneMore(rs: seq<Reminder>, due: Queue, left: set<Uid>, u: Uid)
    requires u in left && left <= due.Keys
    requires Lists(rs, due - left)
    ensures Lists(rs + [Reminder(u, due[u])], due - (left - {u}))
  {
    var rs' := rs + [Reminder(u, due[u])];
    assert rs'[|rs|] == Reminder(u, due[u]);
    forall x | x in due - (left - {u})
      ensures Reminder(x, due[x]) in rs'
    {
      if x != u {
        assert x in due - left;
        assert Reminder(x, (due - left)[x]) in rs;
      }
    }
    forall i | 0 <= i < |rs|
      ensures rs[i].uid != u
    {
      assert rs[i] in rs;
    }
  }

  // ---------- Age ----------

  /** The account is queued for the key, and has been for the key's interval. */
  predicate Ripe(c: Config, qs: map<Key, Queue>, now: int, key: Key, u: Uid) {
    && key in qs && u in qs[key] && key in c.intervals
    && 0 <= qs[key][u] && qs[key][u] + c.intervals[key] <= now
  }

  lemma PoppedAreRipe(c: Config, qs: map<Key, Queue>, now: int, k: nat, u: Uid)
    requires k < |c.keys| && c.keys[k] in c.intervals
    ensures u in Popped(c, qs, now, k) <==> Ripe(c, qs, now, c.keys[k], u)
    ensures u in Popped(c, qs, now, k) ==> Popped(c, qs, now, k)[u] == qs[c.keys[k]][u]
  {
  }

  /** Processing lists exactly the reminders that have waited for their key's interval,
      each once and under its own timestamp, and leaves exactly the others queued. */
  ghost predicate RipeTaken(c: Config, before: map<Key, Queue>, after: map<Key, Queue>, now: int,
                            all: map<Key, seq<Reminder>>, key: Key)
  {
    && key in all
    && (forall r :: r in all[key] <==> Ripe(c, before, now, key, r.uid) && r.timestamp == before[key][r.uid])
    && (forall i, j :: 0 <= i < j < |all[key]| ==> all[key][i].uid != all[key][j].uid)
    && (forall u :: u in QueueAt(after, key) <==> u in QueueAt(before, key) && !Ripe(c, before, now, key, u))
    && (forall u :: u in QueueAt(after, key) ==> QueueAt(after, key)[u] == before[key][u])
  }

  lemma TakenOutIsRipe(c: Config, before: map<Key, Queue>, after: map<Key, Queue>, now: int,
                       all: map<Key, seq<Reminder>>, k: nat)
    requires Valid(c) && k < |c.keys| && TakenOut(c, before, after, now, all, k)
    ensures RipeTaken(c, before, after, now, all, c.keys[k])
  {
    var popped := Popped(c, before, now, k);
    forall u
      ensures u in popped <==> Ripe(c, before, now, c.keys[k], u)
      ensures u in popped ==> popped[u] == before[c.keys[k]][u]
    {
      PoppedAreRipe(c, before, now, k, u);
    }
  }

  lemma {:induction false} MailedWereRipe(c: Config, qs: map<Key, Queue>, now: int, mail: Mail, k: nat, u: Uid)
    requires Valid(c) && k <= |c.keys|
    ensures u in SentBefore(c, qs, now, mail, k) ==>
              exists i :: 0 <= i < k && Ripe(c, qs, now, c.keys[i], u) && mail(c.keys[i], u).Delivered?
  {
    if k == 0 {
    } else {
      MailedWereRipe(c, qs, now, mail, k - 1, u);
      PoppedAreRipe(c, qs, now, k - 1, u);
      assert SentBefore(c, qs, now, mail, k) == SentBefore(c, qs, now, mail, k - 1) + Sent(c, qs, now, mail, k - 1);
      if u in Sent(c, qs, now, mail, k - 1) {
        assert Ripe(c, qs, now, c.keys[k - 1], u) && mail(c.keys[k - 1], u).Delivered?;
      }
    }
  }

  /** A reminder that has not waited long enough keeps its place and its timestamp; one
      that has leaves its queue only by being mailed or for an unknown account. */
  lemma UnripeStays(c: Config, qs: map<Key, Queue>, now: int, mail: Mail, k: nat, u: Uid)
    requires Valid(c) && k < |c.keys|
    ensures u in QueueAfter(c, qs, now, mail, k) ==>
              u in QueueAt(qs, c.keys[k]) && QueueAfter(c, qs, now, mail, k)[u] == qs[c.keys[k]][u]
    ensures u in QueueAt(qs, c.keys[k]) && u !in QueueAfter(c, qs, now, mail, k) ==>
              Ripe(c, qs, now, c.keys[k], u) && !mail(c.keys[k], u).Failed?
  {
    PoppedAreRipe(c, qs, now, k, u);
  }

  // ---------- The script ----------

  ghost predicate DeliveredAmong(rs: seq<Reminder>, n: nat, key: Key, mail: Mail, u: Uid)
    requires n <= |rs|
  {
    mail(key, u).Delivered? && exists i :: 0 <= i < n && rs[i].uid == u
  }

  /** The first `n` reminders of the batch were handled: mailed, dropped, or set aside. */
  ghost predicate Handled(rs: seq<Reminder>, n: nat, key: Key, mail: Mail, before: set<Uid>,
                          sent: set<Uid>, failed: seq<Reminder>)
    requires n <= |rs|
  {
    && (forall u :: u in sent <==> (u in before || DeliveredAmong(rs, n, key, mail, u)))
    && (forall i, j :: 0 <= i < j < |failed| ==> failed[i].uid != failed[j].uid)
    && (forall r :: r in failed <==> r in rs[..n] && (r.uid in before || mail(key, r.uid).Failed?))
  }

  /** The inner loop over the reminders of one key. */
  method SendBatch(key: Key, reminders: seq<Reminder>, mail: Mail, alreadySent: set<Uid>)
    returns (sent: set<Uid>, failed: seq<Reminder>, mailed: seq<Uid>)
    requires forall i, j :: 0 <= i < j < |reminders| ==> reminders[i].uid != reminders[j].uid
    ensures Handled(reminders, |reminders|, key, mail, alreadySent, sent, failed)
    ensures forall i, j :: 0 <= i < j < |mailed| ==> mailed[i] != mailed[j]
    ensures forall u :: u in mailed <==> u in sent && u !in alreadySent
  {
    sent, failed, mailed := alreadySent, [], [];
    for n := 0 to |reminders|
      invariant Handled(reminders, n, key, mail, alreadySent, sent, failed)
      invariant forall i, j :: 0 <= i < j < |mailed| ==> mailed[i] != mailed[j]
      invariant forall u :: u in mailed <==> u in sent && u !in alreadySent
    {
      var r := reminders[n];
      assert reminders[..n + 1] == reminders[..n] + [r];
      assert r !in reminders[..n];
      assert r.uid in sent <==> r.uid in alreadySent;
      assert forall f :: f in failed ==> f.uid != r.uid;
      if r.uid in sent {
        failed := failed + [r];
      } else {
        match mail(key, r.uid) {
          case Delivered =>
            sent := sent + {r.uid};
            mailed := mailed + [r.uid];
          case AccountUnknown =>
          case Failed =>
            failed := failed + [r];
        }
      }
    }
  }

  lemma BatchMeaning(c: Config, qs: map<Key, Queue>, now: int, mail: Mail, k: nat,
                     rs: seq<Reminder>, sent: set<Uid>, failed: seq<Reminder>)
    requires Valid(c) && k < |c.keys|
    requires Lists(rs, Popped(c, qs, now, k))
    requires Handled(rs, |rs|, c.keys[k], mail, SentBefore(c, qs, now, mail, k), sent, failed)
    ensures sent == SentBefore(c, qs, now, mail, k + 1)
    ensures Lists(failed, Reinstated(c, qs, now, mail, k))
  {
    var popped := Popped(c, qs, now, k);
    assert rs[..|rs|] == rs;
    forall u | u in popped
      ensures exists i :: 0 <= i < |rs| && rs[i].uid == u
    {
      assert Reminder(u, popped[u]) in rs;
    }
    forall u
      ensures u in sent <==> u in SentBefore(c, qs, now, mail, k + 1)
    {
      if u in sent && u !in SentBefore(c, qs, now, mail, k) {
        var i :| 0 <= i < |rs| && rs[i].uid == u;
        assert rs[i] in rs;
      }
    }
    var back := Reinstated(c, qs, now, mail, k);
    forall u | u in back
      ensures Reminder(u, back[u]) in failed
    {
      assert Reminder(u, popped[u]) in rs;
    }
  }

  /** The account had waited long enough for some key, and the mail went out. */
  ghost predicate WasRipe(c: Config, before: map<Key, Queue>, now: int, mail: Mail, u: Uid) {
    exists i :: 0 <= i < |c.keys| && Ripe(c, before, now, c.keys[i], u) && mail(c.keys[i], u).Delivered?
  }

  lemma RunMeaning(c: Config, before: map<Key, Queue>, after: map<Key, Queue>, now: int, mail: Mail)
    requires Valid(c)
    requires forall k :: 0 <= k < |c.keys| ==> QueueAt(after, c.keys[k]) == QueueAfter(c, before, now, mail, k)
    ensures forall u :: u in SentBefore(c, before, now, mail, |c.keys|) ==> WasRipe(c, before, now, mail, u)
    ensures forall k :: 0 <= k < |c.keys| ==> LeavesOnlyRipe(c, before, after, now, mail, c.keys[k])
  {
    forall u | u in SentBefore(c, before, now, mail, |c.keys|)
      ensures WasRipe(c, before, now, mail, u)
    {
      MailedWereRipe(c, before, now, mail, |c.keys|, u);
    }
    forall k | 0 <= k < |c.keys|
      ensures LeavesOnlyRipe(c, before, after, now, mail, c.keys[k])
    {
      QueueLeavesOnlyRipe(c, before, after, now, mail, k);
    }
  }

  lemma QueueLeavesOnlyRipe(c: Config, before: map<Key, Queue>, after: map<Key, Queue>, now: int, mail: Mail, k: nat)
    requires Valid(c) && k < |c.keys| && QueueAt(after, c.keys[k]) == QueueAfter(c, before, now, mail, k)
    ensures LeavesOnlyRipe(c, before, after, now, mail, c.keys[k])
  {
    forall u
      ensures u in QueueAfter(c, before, now, mail, k) ==>
                u in QueueAt(before, c.keys[k]) && QueueAfter(c, before, now, mail, k)[u] == before[c.keys[k]][u]
      ensures u in QueueAt(before, c.keys[k]) && u !in QueueAfter(c, before, now, mail, k) ==>
                Ripe(c, before, now, c.keys[k], u) && !mail(c.keys[k], u).Failed?
    {
      UnripeStays(c, before, now, mail, k, u);
    }
  }

  /** Nothing is added to the queue or redated in it, and what has left it had waited long
      enough and met no failure. */
  ghost predicate LeavesOnlyRipe(c: Config, before: map<Key, Queue>, after: map<Key, Queue>, now: int, mail: Mail,
                                 key: Key)
  {
    && (forall u :: u in QueueAt(after, key) ==>
          u in QueueAt(before, key) && QueueAt(after, key)[u] == QueueAt(before, key)[u])
    && (forall u :: u in QueueAt(before, key) && u !in QueueAt(after, key) ==>
          Ripe(c, before, now, key, u) && !mail(key, u).Failed?)
  }

  /** One run of the script. Every queue ends up as described key by key above, and
      the mails sent go to distinct accounts. */
  method Run(v: VerificationReminders, now: int, mail: Mail) returns (mailed: seq<Uid>)
    requires Valid(v.config)
    modifies v
    ensures forall k :: 0 <= k < |v.config.keys| ==>
              QueueAt(v.queues, v.config.keys[k]) == QueueAfter(v.config, old(v.queues), now, mail, k)
    ensures forall i, j :: 0 <= i < j < |mailed| ==> mailed[i] != mailed[j]
    ensures forall u :: u in mailed <==> u in SentBefore(v.config, old(v.queues), now, mail, |v.config.keys|)
    ensures forall u :: u in mailed ==> WasRipe(v.config, old(v.queues), now, mail, u)
    ensures forall k :: 0 <= k < |v.config.keys| ==>
              LeavesOnlyRipe(v.config, old(v.queues), v.queues, now, mail, v.config.keys[k])
  {
    ghost var qs := v.queues;
    var all := v.Process(now);
    mailed := RunKeys(v, now, mail, all, qs);
    RunMeaning(v.config, qs, v.queues, now, mail);
  }

  /** The outer loop over the keys, once what is due has been taken out. */
  method RunKeys(v: VerificationReminders, now: int, mail: Mail, all: map<Key, seq<Reminder>>,
                 ghost qs: map<Key, Queue>)
    returns (mailed: seq<Uid>)
    requires Valid(v.config)
    requires forall k :: 0 <= k < |v.config.keys| ==> TakenOut(v.config, qs, v.queues, now, all, k)
    modifies v
    ensures forall k :: 0 <= k < |v.config.keys| ==>
              QueueAt(v.queues, v.config.keys[k]) == QueueAfter(v.config, qs, now, mail, k)
    ensures forall i, j :: 0 <= i < j < |mailed| ==> mailed[i] != mailed[j]
    ensures forall u :: u in mailed <==> u in SentBefore(v.config, qs, now, mail, |v.config.keys|)
  {
    var c := v.config;
    ghost var popped := v.queues;
    var sent: set<Uid> := {};
    mailed := [];
    for k := 0 to |c.keys|
      invariant sent == SentBefore(c, qs, now, mail, k)
      invariant forall i, j :: 0 <= i < j < |mailed| ==> mailed[i] != mailed[j]
      invariant forall u :: u in mailed <==> u in sent
      invariant forall i :: 0 <= i < k ==> QueueAt(v.queues, c.keys[i]) == QueueAfter(c, qs, now, mail, i)
      invariant forall i :: k <= i < |c.keys| ==> QueueAt(v.queues, c.keys[i]) == QueueAt(popped, c.keys[i])
    {
      assert TakenOut(c, qs, popped, now, all, k);
      sent, mailed := RunKey(v, now, mail, k, all[c.keys[k]], sent, mailed, qs);
    }
  }

  /** The outer loop's body: mail one key's batch and put back what was set aside. */
  method RunKey(v: VerificationReminders, now: int, mail: Mail, k: nat, reminders: seq<Reminder>,
                sent: set<Uid>, mailed: seq<Uid>, ghost qs: map<Key, Queue>)
    returns (sent': set<Uid>, mailed': seq<Uid>)
    requires Valid(v.config) && k < |v.config.keys|
    requires Lists(reminders, Popped(v.config, qs, now, k))
    requires sent == SentBefore(v.config, qs, now, mail, k)
    requires QueueAt(v.queues, v.config.keys[k]) ==
             QueueAt(qs, v.config.keys[k]) - Popped(v.config, qs, now, k).Keys
    requires forall i, j :: 0 <= i < j < |mailed| ==> mailed[i] != mailed[j]
    requires forall u :: u in mailed <==> u in sent
    modifies v
    ensures sent' == SentBefore(v.config, qs, now, mail, k + 1)
    ensures forall i, j :: 0 <= i < j < |mailed'| ==> mailed'[i] != mailed'[j]
    ensures forall u :: u in mailed' <==> u in sent'
    ensures QueueAt(v.queues, v.config.keys[k]) == QueueAfter(v.config, qs, now, mail, k)
    ensures forall key :: key != v.config.keys[k] ==> QueueAt(v.queues, key) == QueueAt(old(v.queues), key)
  {
    var key := v.config.keys[k];
    var failed, batch;
    sent', failed, batch := SendBatch(key, reminders, mail, sent);
    mailed' := mailed + batch;
    JoinDistinct(mailed, batch);
    BatchMeaning(v.config, qs, now, mail, k, reminders, sent', failed);
    PutBack(v, key, failed, Reinstated(v.config, qs, now, mail, k));
  }

  /** Puts back what was set aside, if anything was. */
  method PutBack(v: VerificationReminders, key: Key, failed: seq<Reminder>, ghost back: Queue)
    requires Lists(failed, back)
    modifies v
    ensures QueueAt(v.queues, key) == QueueAt(old(v.queues), key) + back
    ensures forall other :: other != key ==> QueueAt(v.queues, other) == QueueAt(old(v.queues), other)
  {
    AddAllLists(QueueAt(v.queues, key), failed, back);
    if |failed| > 0 {
      v.Reinstate(key, failed);
    }
  }

  lemma JoinDistinct(a: seq<Uid>, b: seq<Uid>)
    requires forall i, j :: 0 <= i < j < |a| ==> a[i] != a[j]
    requires forall i, j :: 0 <= i < j < |b| ==> b[i] != b[j]
    requires forall u :: u in b ==> u !in a
    ensures forall i, j :: 0 <= i < j < |a + b| ==> (a + b)[i] != (a + b)[j]
  {
    forall i, j | 0 <= i < j < |a + b|
      ensures (a + b)[i] != (a + b)[j]
    {
      if i < |a| <= j {
        assert b[j - |a|] in b && a[i] in a;
      }
    }
  }
}
