/**
 The persisted retry log and the per-endpoint budget read off it: which records count,
 what an append evicts, and how much of what was just recorded is certain to be counted.
 */
module RetryBudget {
  import opened Options

  /** The log keeps at most this many records, newest last. */
  const RETRY_LOG_KEEP: nat := 20

  datatype Retry = Retry(endpoint: Option<string>, at: nat)

  predicate Counts(r: Retry, e: string, now: nat, window: nat) {
    r.endpoint == Some(e) && r.at + window > now
  }

  /** `count_recent_retries`: in-window records of one endpoint. */
  function Count(log: seq<Retry>, e: string, now: nat, window: nat): nat {
    if log == [] then 0
    else (if Counts(log[0], e, now, window) then 1 else 0) + Count(log[1..], e, now, window)
  }

  function Retain(log: seq<Retry>, since: nat): seq<Retry> {
    if log == [] then []
    else (if log[0].at >= since then [log[0]] else []) + Retain(log[1..], since)
  }

  function Newest(log: seq<Retry>): seq<Retry> {
    if |log| > RETRY_LOG_KEEP then log[|log| - RETRY_LOG_KEEP..] else log
  }

  /** `record_retries`: append, drop what is older than `since`, keep the newest. */
  function Recorded(log: seq<Retry>, add: seq<Retry>, since: nat): seq<Retry> {
    Newest(Retain(log + add, since))
  }

  function Monus(a: nat, b: nat): nat {
    if a >= b then a - b else 0
  }

  /** What one record adds to the count: one, if it is of this endpoint and younger than the
      window. */
  lemma CountLast(log: seq<Retry>, r: Retry, e: string, now: nat, window: nat)
    ensures Count(log + [r], e, now, window) == Count(log, e, now, window) + if r.endpoint == Some(e) && now < r.at + window then 1 else 0
  {
    CountConcat(log, [r], e, now, window);
    assert [r][1..] == [];
  }

  /** An append keeps of the log and its records, in order, those not older than `since`, and of
      these the last twenty. */
  lemma RecordedIs(log: seq<Retry>, add: seq<Retry>, since: nat, marks: seq<bool>)
    requires |marks| == |log + add| && forall k :: 0 <= k < |marks| ==> (marks[k] <==> (log + add)[k].at >= since)
    ensures var all := Marked(log + add, marks);
            Recorded(log, add, since) == if |all| <= 20 then all else all[|all| - 20..]
  {
    RetainMarked(log + add, since, marks);
  }

  function Marked(log: seq<Retry>, marks: seq<bool>): seq<Retry>
    requires |marks| == |log|
  {
    if log == [] then [] else (if marks[0] then [log[0]] else []) + Marked(log[1..], marks[1..])
  }

  lemma {:induction false} RetainMarked(log: seq<Retry>, since: nat, marks: seq<bool>)
    requires |marks| == |log| && forall k :: 0 <= k < |marks| ==> (marks[k] <==> log[k].at >= since)
    ensures Retain(log, since) == Marked(log, marks)
  {
    if log != [] { RetainMarked(log[1..], since, marks[1..]); }
  }

  // ---------------------------------------------------------------- upper bounds

  lemma {:induction false} CountConcat(a: seq<Retry>, b: seq<Retry>, e: string, now: nat, window: nat)
    ensures Count(a + b, e, now, window) == Count(a, e, now, window) + Count(b, e, now, window)
  {
    if a == [] {
      assert a + b == b;
    } else {
      assert (a + b)[1..] == a[1..] + b;
      CountConcat(a[1..], b, e, now, window);
    }
  }

  lemma {:induction false} CountAtMost(log: seq<Retry>, e: string, now: nat, window: nat)
    ensures Count(log, e, now, window) <= |log|
  {
    if log != [] { CountAtMost(log[1..], e, now, window); }
  }

  lemma {:induction false} CountRetain(log: seq<Retry>, since: nat, e: string, now: nat, window: nat)
    ensures Count(Retain(log, since), e, now, window) <= Count(log, e, now, window)
  {
    if log != [] {
      CountRetain(log[1..], since, e, now, window);
      var rest := Retain(log[1..], since);
      if log[0].at >= since {
        assert Retain(log, since)[1..] == rest;
      } else {
        assert Retain(log, since) == rest;
      }
    }
  }

  lemma CountNewest(log: seq<Retry>, e: string, now: nat, window: nat)
    ensures Count(Newest(log), e, now, window) <= Count(log, e, now, window)
  {
    if |log| > RETRY_LOG_KEEP {
      var cut := |log| - RETRY_LOG_KEEP;
      assert log == log[..cut] + log[cut..];
      CountConcat(log[..cut], log[cut..], e, now, window);
    }
  }

  lemma {:induction false} CountAges(log: seq<Retry>, e: string, now: nat, later: nat, window: nat)
    requires now <= later
    ensures Count(log, e, later, window) <= Count(log, e, now, window)
  {
    if log != [] { CountAges(log[1..], e, now, later, window); }
  }

  /** No endpoint has more in-window records than its budget. */
  ghost predicate InBudget(log: seq<Retry>, now: nat, window: nat, max: nat) {
    forall e {:trigger Count(log, e, now, window)} :: Count(log, e, now, window) <= max
  }

  lemma BudgetAges(log: seq<Retry>, now: nat, later: nat, window: nat, max: nat)
    requires InBudget(log, now, window, max) && now <= later
    ensures InBudget(log, later, window, max)
  {
    forall e ensures Count(log, e, later, window) <= max { CountAges(log, e, now, later, window); }
  }

  lemma {:induction false} CountForeign(add: seq<Retry>, e: string, other: string, now: nat, window: nat)
    requires (forall r :: r in add ==> r.endpoint == Some(e)) && other != e
    ensures Count(add, other, now, window) == 0
  {
    if add != [] {
      assert add[0] in add;
      CountForeign(add[1..], e, other, now, window);
    }
  }

  /** Recording at most what is left of one endpoint's budget keeps every endpoint in budget,
      whatever the append evicts. */
  lemma RecordedInBudget(log: seq<Retry>, add: seq<Retry>, since: nat, e: string, now: nat, window: nat, max: nat)
    requires InBudget(log, now, window, max)
    requires (forall r :: r in add ==> r.endpoint == Some(e)) && Count(log, e, now, window) + |add| <= max
    ensures InBudget(Recorded(log, add, since), now, window, max)
  {
    forall x ensures Count(Recorded(log, add, since), x, now, window) <= max {
      CountNewest(Retain(log + add, since), x, now, window);
      CountRetain(log + add, since, x, now, window);
      CountConcat(log, add, x, now, window);
      if x == e { CountAtMost(add, x, now, window); } else { CountForeign(add, e, x, now, window); }
      assert Count(log, x, now, window) <= max;
    }
  }

  // ---------------------------------------------------------------- lower bounds

  /** The newest records of `log` are exactly `recent`. */
  predicate EndsWith(log: seq<Retry>, recent: seq<Retry>) {
    |recent| <= |log| && log[|log| - |recent|..] == recent
  }

  lemma {:induction false} RetainConcat(a: seq<Retry>, b: seq<Retry>, since: nat)
    requires forall r :: r in b ==> r.at >= since
    ensures Retain(a + b, since) == Retain(a, since) + b
  {
    if a == [] {
      assert a + b == b;
      RetainAll(b, since);
    } else {
      RetainConcat(a[1..], b, since);
      assert (a + b)[1..] == a[1..] + b;
      Reassociate(if a[0].at >= since then [a[0]] else [], Retain(a[1..], since), b);
    }
  }

  lemma Reassociate(front: seq<Retry>, mid: seq<Retry>, back: seq<Retry>)
    ensures front + (mid + back) == (front + mid) + back
  {
  }

  lemma {:induction false} RetainAll(b: seq<Retry>, since: nat)
    requires forall r :: r in b ==> r.at >= since
    ensures Retain(b, since) == b
  {
    if b != [] {
      assert b[0] in b;
      RetainAll(b[1..], since);
    }
  }

  lemma RecentCounts(log: seq<Retry>, recent: seq<Retry>, e: string, now: nat, window: nat)
    requires EndsWith(log, recent)
    ensures Count(recent, e, now, window) <= Count(log, e, now, window)
  {
    assert log == log[..|log| - |recent|] + recent;
    CountConcat(log[..|log| - |recent|], recent, e, now, window);
  }

  // ---------------------------------------------------------------- adding up endpoints

  function Of(s: seq<Retry>, e: string): nat {
    if s == [] then 0 else (if s[0].endpoint == Some(e) then 1 else 0) + Of(s[1..], e)
  }

  function Without(s: seq<Retry>, e: string): seq<Retry> {
    if s == [] then [] else (if s[0].endpoint == Some(e) then [] else [s[0]]) + Without(s[1..], e)
  }

  lemma {:induction false} WithoutSplits(s: seq<Retry>, e: string, x: string)
    ensures |s| == Of(s, e) + |Without(s, e)|
    ensures Of(Without(s, e), x) == if x == e then 0 else Of(s, x)
    ensures forall r :: r in Without(s, e) <==> r in s && r.endpoint != Some(e)
  {
    if s != [] {
      WithoutSplits(s[1..], e, x);
      var rest := Without(s[1..], e);
      if s[0].endpoint == Some(e) {
        assert Without(s, e) == rest;
      } else {
        assert Without(s, e)[1..] == rest;
      }
    }
  }

  lemma WithoutInBudget(s: seq<Retry>, e: string, es: set<string>, max: nat)
    requires forall x :: x in es ==> Of(s, x) <= max
    ensures forall x :: x in es - {e} ==> Of(Without(s, e), x) <= max
  {
    forall x | x in es - {e} ensures Of(Without(s, e), x) <= max { WithoutSplits(s, e, x); }
  }

  /** At most `max` records of each endpoint in `es` are at most `max * |es|` records. */
  lemma {:induction false} PerEndpointTotal(s: seq<Retry>, es: set<string>, max: nat)
    requires forall r :: r in s ==> r.endpoint.Some? && r.endpoint.value in es
    requires forall e :: e in es ==> Of(s, e) <= max
    ensures |s| <= max * |es|
    decreases |es|
  {
    if s != [] {
      assert s[0] in s;
      var e := s[0].endpoint.value;
      WithoutInBudget(s, e, es, max);
      WithoutSplits(s, e, e);
      PerEndpointTotal(Without(s, e), es - {e}, max);
      OneMore(max, |es - {e}|, |es|, |Without(s, e)|, |s|);
    } else {
      NonNegative(max, |es|);
    }
  }

  lemma OneMore(max: nat, n: nat, m: nat, few: nat, all: nat)
    requires m == n + 1 && few <= max * n && all <= few + max
    ensures all <= max * m
  {
  }

  lemma NonNegative(max: nat, n: nat)
    ensures 0 <= max * n
  {
  }

  lemma {:induction false} OfConcat(a: seq<Retry>, b: seq<Retry>, e: string)
    ensures Of(a + b, e) == Of(a, e) + Of(b, e)
  {
    if a == [] {
      assert a + b == b;
    } else {
      assert (a + b)[1..] == a[1..] + b;
      OfConcat(a[1..], b, e);
    }
  }

  lemma {:induction false} OfIsCount(s: seq<Retry>, e: string, now: nat, window: nat)
    requires forall r :: r in s ==> r.at + window > now
    ensures Of(s, e) == Count(s, e, now, window)
  {
    if s != [] {
      assert s[0] in s;
      OfIsCount(s[1..], e, now, window);
    }
  }

  lemma {:induction false} OfUniform(s: seq<Retry>, e: string, x: string)
    requires forall r :: r in s ==> r.endpoint == Some(e)
    ensures Of(s, x) == if x == e then |s| else 0
  {
    if s != [] {
      assert s[0] in s;
      OfUniform(s[1..], e, x);
    }
  }
}
