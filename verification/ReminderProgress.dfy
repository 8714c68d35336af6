/** How many runs of the reminder script it takes to clear what is due. */
module ReminderProgress {
  import opened Reminders

  /** One run: its time, and how its mails fare. */
  datatype Turn = Turn(now: int, mail: Mail)

  ghost function AfterRun(c: Config, qs: map<Key, Queue>, t: Turn): map<Key, Queue>
    requires Valid(c)
  {
    map k | 0 <= k < |c.keys| :: c.keys[k] := QueueAfter(c, qs, t.now, t.mail, k)
  }

  ghost function AfterRuns(c: Config, qs: map<Key, Queue>, turns: seq<Turn>): map<Key, Queue>
    requires Valid(c)
    decreases |turns|
  {
    if turns == [] then qs else AfterRuns(c, AfterRun(c, qs, turns[0]), turns[1..])
  }

  ghost predicate NoMailFails(turns: seq<Turn>) {
    forall n, key, u :: 0 <= n < |turns| ==> !turns[n].mail(key, u).Failed?
  }

  ghost predicate Waiting(c: Config, qs: map<Key, Queue>, k: nat, u: Uid)
    requires k < |c.keys|
  {
    u in QueueAt(qs, c.keys[k])
  }

  ghost predicate DueAt(c: Config, qs: map<Key, Queue>, k: nat, u: Uid, now: int)
    requires Valid(c) && k < |c.keys|
  {
    u in Popped(c, qs, now, k)
  }

  /** The number of keys before `k` for which `u` is still queued, due or not. */
  ghost function Ahead(c: Config, qs: map<Key, Queue>, k: nat, u: Uid): (n: nat)
    requires k <= |c.keys|
    ensures n <= k
  {
    if k == 0 then 0
    else Ahead(c, qs, k - 1, u) + if Waiting(c, qs, k - 1, u) then 1 else 0
  }

  lemma AfterRunAt(c: Config, qs: map<Key, Queue>, t: Turn, k: nat)
    requires Valid(c) && k < |c.keys|
    ensures QueueAt(AfterRun(c, qs, t), c.keys[k]) == QueueAfter(c, qs, t.now, t.mail, k)
    ensures QueueAt(AfterRun(c, qs, t), c.keys[k]) ==
            QueueAt(qs, c.keys[k]) - (Sent(c, qs, t.now, t.mail, k) + Dropped(c, qs, t.now, t.mail, k))
  {
    assert c.keys[k] in AfterRun(c, qs, t);
    Conservation(c, qs, t.now, t.mail, k);
  }

  lemma {:induction false} AheadShrinks(c: Config, qs: map<Key, Queue>, t: Turn, k: nat, u: Uid)
    requires Valid(c) && k <= |c.keys|
    ensures Ahead(c, AfterRun(c, qs, t), k, u) <= Ahead(c, qs, k, u)
    ensures u in SentBefore(c, qs, t.now, t.mail, k) ==> Ahead(c, AfterRun(c, qs, t), k, u) < Ahead(c, qs, k, u)
  {
    if k > 0 {
      AheadShrinks(c, qs, t, k - 1, u);
      AfterRunAt(c, qs, t, k - 1);
    }
  }

  /** In a run without mail failures a due reminder is gone, or a mail for an earlier
      key brought it one key closer. */
  lemma DueReminderAdvances(c: Config, qs: map<Key, Queue>, t: Turn, k: nat, u: Uid)
    requires Valid(c) && k < |c.keys| && DueAt(c, qs, k, u, t.now)
    requires !t.mail(c.keys[k], u).Failed?
    ensures Waiting(c, AfterRun(c, qs, t), k, u) ==>
              && QueueAt(AfterRun(c, qs, t), c.keys[k])[u] == QueueAt(qs, c.keys[k])[u]
              && Ahead(c, AfterRun(c, qs, t), k, u) < Ahead(c, qs, k, u)
  {
    AfterRunAt(c, qs, t, k);
    AheadShrinks(c, qs, t, k, u);
  }

  lemma {:induction false} GoneStaysGone(c: Config, qs: map<Key, Queue>, turns: seq<Turn>, k: nat, u: Uid)
    requires Valid(c) && k < |c.keys| && !Waiting(c, qs, k, u)
    ensures !Waiting(c, AfterRuns(c, qs, turns), k, u)
    decreases |turns|
  {
    if turns == [] {
    } else {
      AfterRunAt(c, qs, turns[0], k);
      GoneStaysGone(c, AfterRun(c, qs, turns[0]), turns[1..], k, u);
    }
  }

  /** A reminder that is due at the start is cleared once the runs outnumber the
      earlier keys its account was still queued for. */
  lemma {:induction false} ClearedAfter(c: Config, qs: map<Key, Queue>, start: int, turns: seq<Turn>, k: nat, u: Uid)
    requires Valid(c) && k < |c.keys| && DueAt(c, qs, k, u, start)
    requires NoMailFails(turns)
    requires forall n :: 0 <= n < |turns| ==> start <= turns[n].now
    requires |turns| > Ahead(c, qs, k, u)
    ensures !Waiting(c, AfterRuns(c, qs, turns), k, u)
    decreases |turns|
  {
    var qs' := AfterRun(c, qs, turns[0]);
    DueReminderAdvances(c, qs, turns[0], k, u);
    if Waiting(c, qs', k, u) {
      ClearedAfter(c, qs', start, turns[1..], k, u);
    } else {
      GoneStaysGone(c, qs', turns[1..], k, u);
    }
  }

  /** With no mail failures and no new records, as many runs as there are keys leave
      no reminder that was due at the start. */
  lemma AllClearedAfterAsManyRunsAsKeys(c: Config, qs: map<Key, Queue>, start: int, turns: seq<Turn>)
    requires Valid(c) && NoMailFails(turns) && |turns| >= |c.keys|
    requires forall n :: 0 <= n < |turns| ==> start <= turns[n].now
    ensures forall k, u :: 0 <= k < |c.keys| && DueAt(c, qs, k, u, start) ==>
              !Waiting(c, AfterRuns(c, qs, turns), k, u)
  {
    forall k, u | 0 <= k < |c.keys| && DueAt(c, qs, k, u, start)
      ensures !Waiting(c, AfterRuns(c, qs, turns), k, u)
    {
      ClearedAfter(c, qs, start, turns, k, u);
    }
  }

  /** The first key for which an account is due takes the mail; the later ones wait. */
  lemma {:induction false} FirstDueIsMailed(c: Config, qs: map<Key, Queue>, t: Turn, first: nat, k: nat, u: Uid)
    requires Valid(c) && first <= k <= |c.keys| && first < |c.keys|
    requires forall j :: 0 <= j < first ==> !Waiting(c, qs, j, u)
    requires DueAt(c, qs, first, u, t.now) && t.mail(c.keys[first], u).Delivered?
    ensures u in SentBefore(c, qs, t.now, t.mail, k) <==> first < k
    decreases k
  {
    if k > 0 {
      if first < k {
        if first < k - 1 {
          FirstDueIsMailed(c, qs, t, first, k - 1, u);
        } else {
          NotMailedBeforeFirst(c, qs, t, first, u);
        }
      } else {
        NotMailedBeforeFirst(c, qs, t, first, u);
      }
    }
  }

  lemma {:induction false} NotMailedBeforeFirst(c: Config, qs: map<Key, Queue>, t: Turn, first: nat, u: Uid)
    requires Valid(c) && first <= |c.keys|
    requires forall j :: 0 <= j < first ==> !Waiting(c, qs, j, u)
    ensures u !in SentBefore(c, qs, t.now, t.mail, first)
  {
    if first == 0 {
    } else {
      NotMailedBeforeFirst(c, qs, t, first - 1, u);
      assert !Waiting(c, qs, first - 1, u);
    }
  }

  /** The bound is exact: an account due for keys `first` to `k` keeps the reminder of
      key `k` through `k - first` runs in which every mail is delivered. */
  lemma {:induction false} FewerRunsDoNotSuffice(c: Config, qs: map<Key, Queue>, start: int, turns: seq<Turn>,
                                                first: nat, k: nat, u: Uid)
    requires Valid(c) && first + |turns| <= k < |c.keys|
    requires forall j :: 0 <= j < first ==> !Waiting(c, qs, j, u)
    requires forall j :: first <= j <= k ==> DueAt(c, qs, j, u, start)
    requires forall n :: 0 <= n < |turns| ==> start <= turns[n].now
    requires forall n, key :: 0 <= n < |turns| ==> turns[n].mail(key, u).Delivered?
    ensures Waiting(c, AfterRuns(c, qs, turns), k, u)
    decreases |turns|
  {
    assert DueAt(c, qs, k, u, start);
    if turns != [] {
      var t := turns[0];
      var qs' := AfterRun(c, qs, t);
      forall j | 0 <= j <= k
        ensures j <= first ==> !Waiting(c, qs', j, u)
        ensures j > first ==> DueAt(c, qs', j, u, start)
      {
        AfterRunAt(c, qs, t, j);
        if first <= j {
          assert DueAt(c, qs, j, u, start) && DueAt(c, qs, first, u, start);
          assert turns[0].mail(c.keys[j], u).Delivered? && turns[0].mail(c.keys[first], u).Delivered?;
          FirstDueIsMailed(c, qs, t, first, j, u);
        } else {
          assert !Waiting(c, qs, j, u);
        }
      }
      FewerRunsDoNotSuffice(c, qs', start, turns[1..], first + 1, k, u);
    }
  }
}
