/** Merging what several interceptors say about one HTLC. They run at the same time and finish in any order. */
module Interceptors {
  import opened Types

  type Bytes = seq<bv8>
  type Records = map<nat, Bytes>

  /** One interceptor's answer: records to attach, a refusal, or a critical error. */
  datatype Answer = Attach(records: Records) | Refuse(why: ForwardingError) | Break(error: CriticalError)

  predicate SomeBreaks(answers: seq<Answer>) {
    exists a :: a in answers && a.Break?
  }

  predicate SomeRefuses(answers: seq<Answer>) {
    exists a :: a in answers && a.Refuse?
  }

  predicate Disagree(a: Answer, b: Answer, key: nat) {
    && a.Attach? && b.Attach?
    && key in a.records && key in b.records && a.records[key] != b.records[key]
  }

  /** Two interceptors attach different values under one key. */
  ghost predicate Conflict(answers: seq<Answer>) {
    exists a, b, key :: a in answers && b in answers && Disagree(a, b, key)
  }

  /** The answer at place `i` ends the wait with this error: it breaks, or contradicts one read before. */
  predicate EndsWait(answers: seq<Answer>, i: nat, error: CriticalError) {
    && i < |answers|
    && match answers[i]
       case Break(e) => error == e
       case Attach(_) =>
         error.DuplicateCustomRecord? && exists a :: a in answers[..i] && Disagree(a, answers[i], error.key)
       case Refuse(_) => false
  }

  /** The first answer that ends the wait does so with this error. */
  ghost predicate EndsFirst(answers: seq<Answer>, error: CriticalError) {
    exists i: nat :: EndsWait(answers, i, error) && !SomeBreaks(answers[..i]) && !Conflict(answers[..i])
  }

  /** The last refusal gives this reason. */
  predicate LastRefusal(answers: seq<Answer>, why: ForwardingError) {
    exists i :: 0 <= i < |answers| && answers[i] == Refuse(why) && !SomeRefuses(answers[i + 1..])
  }

  /** `m` holds what the answers attach, and nothing else. */
  ghost predicate IsUnion(m: Records, answers: seq<Answer>) {
    && (forall a, key :: a in answers && a.Attach? && key in a.records ==> key in m && m[key] == a.records[key])
    && (forall key :: key in m ==> exists a :: a in answers && a.Attach? && key in a.records)
  }

  /** Adds `records` to `attached`, stopping at the first key with another value. Keys come in no particular order. */
  method MergeRecords(attached: Records, records: Records) returns (merged: Records, conflict: Option<nat>)
    ensures conflict.Some? ==>
              && conflict.value in attached && conflict.value in records
              && attached[conflict.value] != records[conflict.value]
    ensures conflict.None? ==>
              && merged == attached + records
              && forall key :: key in attached && key in records ==> attached[key] == records[key]
  {
    merged := attached;
    var rest := records.Keys;
    while rest != {}
      invariant rest <= records.Keys
      invariant merged.Keys == attached.Keys + (records.Keys - rest)
      invariant forall key :: key in attached ==> merged[key] == attached[key]
      invariant forall key :: key in records && key !in rest ==> merged[key] == records[key]
    {
      var key :| key in rest;
      var value := records[key];
      if key in merged {
        if merged[key] != value { return merged, Some(key); }
      } else {
        merged := merged[key := value];
      }
      rest := rest - {key};
    }
    return merged, None;
  }

  /** What the interceptors say about one HTLC: their answers in the order in which they finish, and how many of these
      are read. All are, unless a shutdown of the simulation is noticed before. */
  datatype Replies = Replies(all: seq<Answer>, read: nat)

  predicate RepliesOk(replies: Replies) {
    replies.read <= |replies.all|
  }

  function Read(replies: Replies): seq<Answer>
    requires RepliesOk(replies)
  {
    replies.all[..replies.read]
  }

  /** What is made of the answers read: critical if one breaks or two conflict, with the first error met; else a refusal
      if one refuses, with the last reason given; else the union of all records, or, if there are no interceptors, the
      records that came in. */
  ghost predicate Judged(incoming: Records, replies: Replies, r: Outcome<Records>)
    requires RepliesOk(replies)
  {
    var answers := Read(replies);
    && (r.Critical? <==> SomeBreaks(answers) || Conflict(answers))
    && (r.Refused? <==> !SomeBreaks(answers) && !Conflict(answers) && SomeRefuses(answers))
    && match r
       case Critical(error) => EndsFirst(answers, error)
       case Refused(why) => LastRefusal(answers, why)
       case Accepted(records) => if replies.all == [] then records == incoming else IsUnion(records, answers)
  }

  /** `handle_intercepted_htlc`: a critical error or a conflict of records ends the wait at once; a refusal is
      remembered; on a shutdown what was read so far decides. */
  method HandleIntercepted(incoming: Records, replies: Replies) returns (r: Outcome<Records>)
    requires RepliesOk(replies)
    ensures Judged(incoming, replies, r)
  {
    if replies.all == [] { return Accepted(incoming); }
    var answers := replies.all[..replies.read];
    var attached: Records := map[];
    var failure: Option<ForwardingError> := None;
    ghost var at := 0;
    for i := 0 to |answers|
      invariant !SomeBreaks(answers[..i]) && !Conflict(answers[..i])
      invariant failure.Some? <==> SomeRefuses(answers[..i])
      invariant failure.Some? ==> at < i && answers[at] == Refuse(failure.value) && !SomeRefuses(answers[at + 1..i])
      invariant IsUnion(attached, answers[..i])
    {
      OneMoreRead(answers, i);
      assert failure.Some? ==> answers[at + 1..i + 1] == answers[at + 1..i] + [answers[i]];
      match answers[i]
      case Attach(records) =>
        var merged, conflict := MergeRecords(attached, records);
        if conflict.Some? {
          ConflictWith(attached, answers, i, conflict.value);
          assert EndsWait(answers, i, DuplicateCustomRecord(conflict.value));
          return Critical(DuplicateCustomRecord(conflict.value));
        }
        NoConflictWith(attached, answers, i);
        UnionWith(attached, answers, i);
        attached := merged;
      case Refuse(why) =>
        RefusalAddsNothing(attached, answers, i);
        failure, at := Some(why), i;
      case Break(error) =>
        assert EndsWait(answers, i, error);
        return Critical(error);
    }
    assert answers[..|answers|] == answers;
    if failure.Some? { return Refused(failure.value); }
    return Accepted(attached);
  }

  lemma OneMoreRead(answers: seq<Answer>, i: nat)
    requires i < |answers|
    ensures SomeBreaks(answers[..i + 1]) <==> SomeBreaks(answers[..i]) || answers[i].Break?
    ensures SomeRefuses(answers[..i + 1]) <==> SomeRefuses(answers[..i]) || answers[i].Refuse?
    ensures answers[i] in answers
  {
    assert answers[..i + 1] == answers[..i] + [answers[i]];
    assert answers[i] in answers[..i + 1];
  }

  lemma RefusalAddsNothing(attached: Records, answers: seq<Answer>, i: nat)
    requires i < |answers| && answers[i].Refuse? && IsUnion(attached, answers[..i]) && !Conflict(answers[..i])
    ensures IsUnion(attached, answers[..i + 1]) && !Conflict(answers[..i + 1])
  {
    assert answers[..i + 1] == answers[..i] + [answers[i]];
    forall a, b, key | a in answers[..i + 1] && b in answers[..i + 1] ensures !Disagree(a, b, key) {
    }
  }

  lemma ConflictWith(attached: Records, answers: seq<Answer>, i: nat, key: nat)
    requires i < |answers| && IsUnion(attached, answers[..i])
    requires answers[i].Attach? && key in attached && key in answers[i].records
    requires attached[key] != answers[i].records[key]
    ensures Conflict(answers) && exists a :: a in answers[..i] && Disagree(a, answers[i], key)
  {
    var a :| a in answers[..i] && a.Attach? && key in a.records;
    assert a in answers && answers[i] in answers && Disagree(a, answers[i], key);
  }

  lemma NoConflictWith(attached: Records, answers: seq<Answer>, i: nat)
    requires i < |answers| && answers[i].Attach? && IsUnion(attached, answers[..i]) && !Conflict(answers[..i])
    requires forall key :: key in attached && key in answers[i].records ==> attached[key] == answers[i].records[key]
    ensures !Conflict(answers[..i + 1])
  {
    assert forall a :: a in answers[..i + 1] <==> a in answers[..i] || a == answers[i];
    forall a, b, key | a in answers[..i + 1] && b in answers[..i + 1] ensures !Disagree(a, b, key) {
    }
  }

  lemma UnionWith(attached: Records, answers: seq<Answer>, i: nat)
    requires i < |answers| && answers[i].Attach? && IsUnion(attached, answers[..i])
    requires forall key :: key in attached && key in answers[i].records ==> attached[key] == answers[i].records[key]
    ensures IsUnion(attached + answers[i].records, answers[..i + 1])
  {
    var m := attached + answers[i].records;
    assert forall a :: a in answers[..i + 1] <==> a in answers[..i] || a == answers[i];
    forall key | key in m ensures exists a :: a in answers[..i + 1] && a.Attach? && key in a.records {
      if key in answers[i].records {
        assert answers[i] in answers[..i + 1];
      } else {
        var a :| a in answers[..i] && a.Attach? && key in a.records;
        assert a in answers[..i + 1];
      }
    }
  }

  /** The conditions that decide the result, and the records attached, are the same for every order of the answers. */
  lemma OrderDoesNotMatter(answers: seq<Answer>, other: seq<Answer>)
    requires multiset(answers) == multiset(other)
    ensures SomeBreaks(answers) <==> SomeBreaks(other)
    ensures SomeRefuses(answers) <==> SomeRefuses(other)
    ensures Conflict(answers) <==> Conflict(other)
    ensures forall m, n :: IsUnion(m, answers) && IsUnion(n, other) ==> m == n
  {
    forall a ensures a in answers <==> a in other {
      assert a in answers <==> a in multiset(answers);
      assert a in other <==> a in multiset(other);
    }
    forall m, n | IsUnion(m, answers) && IsUnion(n, other) ensures m == n {
      assert IsUnion(n, answers);
      SameUnion(m, n, answers);
    }
  }

  lemma SameUnion(m: Records, n: Records, answers: seq<Answer>)
    requires IsUnion(m, answers) && IsUnion(n, answers)
    ensures m == n
  {
    forall key ensures key in m <==> key in n {
    }
    forall key | key in m ensures m[key] == n[key] {
      var a :| a in answers && a.Attach? && key in a.records;
    }
  }

  /** Whatever the order in which the interceptors finish, the result is of the same kind, with the same records. */
  method HandleInBothOrders(incoming: Records, replies: Replies, other: Replies)
    returns (r: Outcome<Records>, q: Outcome<Records>)
    requires RepliesOk(replies) && RepliesOk(other)
    requires multiset(Read(replies)) == multiset(Read(other)) && (replies.all == [] <==> other.all == [])
    ensures (r.Accepted? <==> q.Accepted?) && (r.Refused? <==> q.Refused?) && (r.Critical? <==> q.Critical?)
    ensures r.Accepted? ==> r == q
    ensures r.Critical? <==> SomeBreaks(Read(other)) || Conflict(Read(other))
    ensures q.Refused? <==> !SomeBreaks(Read(replies)) && !Conflict(Read(replies)) && SomeRefuses(Read(replies))
  {
    r := HandleIntercepted(incoming, replies);
    q := HandleIntercepted(incoming, other);
    OrderDoesNotMatter(Read(replies), Read(other));
  }
}
