/** Waiting for NOTIF_ATTACH (src/client/attachment_registry.rs). The registry's
    history is a log; what the registry must hold is a statement about the log. */
module Attachments {
  /** A registration is named by its position in the log. */
  datatype Event =
    | Registered(fileId: int)
    | Notified(fileId: int)     // NOTIF_ATTACH was processed
    | Dropped(waiter: nat)      // the `AttachmentWaiter` went out of scope

  type Log = seq<Event>

  predicate IsRegistration(log: Log, w: nat) {
    w < |log| && log[w].Registered?
  }

  /** Registered, and since then neither notified nor dropped. */
  ghost predicate Waiting(log: Log, w: nat) {
    IsRegistration(log, w) &&
    forall j | w < j < |log| :: log[j] != Notified(log[w].fileId) && log[j] != Dropped(w)
  }

  /** Notified while it was registered: `wait()` returns. */
  ghost predicate Completed(log: Log, w: nat) {
    IsRegistration(log, w) &&
    exists j :: w < j < |log| && log[j] == Notified(log[w].fileId) && forall k | w < k < j :: log[k] != Dropped(w)
  }

  /** The map of the registry after these events: what the code does step by step. */
  function Table(log: Log): map<int, nat> {
    if log == [] then map[]
    else
      var before := log[..|log| - 1];
      var table := Table(before);
      match log[|log| - 1]
      case Registered(f) => table[f := |before|]
      case Notified(f) => table - {f}
      case Dropped(w) =>
        if IsRegistration(before, w) && before[w].fileId in table &&
          table[before[w].fileId] == w then table - {before[w].fileId}
        else table
  }

  /** `register` refuses an id that is already active. */
  ghost predicate Legal(log: Log) {
    forall i | 0 <= i < |log| && log[i].Registered? :: log[i].fileId !in Table(log[..i])
  }

  lemma LegalPrefix(log: Log, i: nat)
    requires Legal(log) && i <= |log|
    ensures Legal(log[..i])
  {
    forall j | 0 <= j < i && log[j].Registered? ensures log[j].fileId !in Table(log[..i][..j]) {
      assert log[..i][..j] == log[..j];
    }
  }

  /** The map holds exactly the registrations that wait: early notices complete them,
      unrelated ones change nothing, and dropping a stale waiter removes nobody else. */
  lemma {:induction false} TableIsExact(log: Log, f: int, w: nat)
    requires Legal(log)
    ensures f in Table(log) && Table(log)[f] == w <==> Waiting(log, w) && log[w] == Registered(f)
  {
    if log != [] {
      var n := |log| - 1;
      var before := log[..n];
      LegalPrefix(log, n);
      TableIsExact(before, f, w);
      assert log[n].Registered? ==> log[n].fileId !in Table(before);
      if w < n {
        assert log[w] == before[w];
        assert Waiting(log, w) <==> Waiting(before, w) && log[n] != Notified(log[w].fileId) && log[n] != Dropped(w);
      }
      if log[n].Registered? && log[n].fileId == f && w < n {
        assert !(f in Table(before) && Table(before)[f] == w);
      }
      if log[n].Dropped? && IsRegistration(before, log[n].waiter) {
        TableIsExact(before, before[log[n].waiter].fileId, log[n].waiter);
      }
    }
  }

  /** At most one active registration per file id. */
  lemma OneWaiterPerFile(log: Log, v: nat, w: nat)
    requires Legal(log) && Waiting(log, v) && Waiting(log, w) && log[v].fileId == log[w].fileId
    ensures v == w
  {
    TableIsExact(log, log[v].fileId, v);
    TableIsExact(log, log[w].fileId, w);
  }

  lemma CompletedStays(log: Log, w: nat, event: Event)
    requires Completed(log, w)
    ensures Completed(log + [event], w)
  {
    var log' := log + [event];
    var j :| w < j < |log| && log[j] == Notified(log[w].fileId) && forall k | w < k < j :: log[k] != Dropped(w);
    assert log'[j] == Notified(log'[w].fileId);
  }

  // ---- The registry ----

  /** `Arc<()>` identity and one-shot of a registration. */
  class Registration {
    const fileId: int
    ghost const index: nat
    var completed: bool

    constructor (fileId: int, ghost index: nat)
      ensures this.fileId == fileId && this.index == index && !completed
    {
      this.fileId := fileId;
      this.index := index;
      completed := false;
    }
  }

  class AttachmentRegistry {
    var waiters: map<int, Registration>
    ghost var log: Log
    ghost var issued: map<nat, Registration>  // every registration made, by its position in the log

    ghost predicate IssuedOk(i: nat)
      requires i in issued
      reads this, issued[i]
    {
      issued[i].index == i && i < |log| && log[i] == Registered(issued[i].fileId) &&
        (issued[i].completed <==> Completed(log, i))
    }

    ghost predicate WaiterOk(f: int)
      requires f in waiters
      reads this, waiters[f]
    {
      f in Table(log) && waiters[f].index == Table(log)[f] && waiters[f].fileId == f &&
      waiters[f].index in issued && issued[waiters[f].index] == waiters[f]
    }

    ghost predicate Valid()
      reads this, issued.Values, waiters.Values
    {
      && Legal(log)
      && waiters.Keys == Table(log).Keys
      && (forall f {:trigger WaiterOk(f)} | f in waiters :: WaiterOk(f))
      && (forall i {:trigger IssuedOk(i)} | i in issued :: IssuedOk(i))
    }

    constructor ()
      ensures Valid() && log == [] && issued == map[]
    {
      waiters := map[];
      log := [];
      issued := map[];
    }

    method Register(fileId: int) returns (waiter: Registration?)
      requires Valid()
      modifies this
      ensures Valid()
      ensures waiter == null <==> fileId in old(waiters)
      ensures waiter == null ==> log == old(log) && issued == old(issued)
      ensures waiter != null ==> fresh(waiter) && waiter.fileId == fileId && waiter.index == |old(log)|
      ensures waiter != null ==> log == old(log) + [Registered(fileId)] && issued == old(issued)[|old(log)| := waiter]
    {
      if fileId in waiters {
        return null;
      }
      ghost var before := log;
      AppendedOther(log, Registered(fileId));
      TableOfRegistered(log, fileId);
      waiter := new Registration(fileId, |log|);
      label made:
      waiters := waiters[fileId := waiter];
      log := log + [Registered(fileId)];
      issued := issued[|before| := waiter];
      forall i | i in issued ensures IssuedOk(i) {
        if i != |before| { assert old@made(IssuedOk(i)); }
      }
      forall f | f in waiters ensures WaiterOk(f) {
        if f != fileId { assert old@made(WaiterOk(f)) && old@made(IssuedOk(waiters[f].index)); }
      }
    }

    method Complete(fileId: int)
      requires Valid()
      modifies this, waiters.Values
      ensures Valid() && issued == old(issued)
      ensures log == old(log) + [Notified(fileId)]
    {
      ghost var before, table := log, Table(log);
      Appended(log, Notified(fileId));
      if fileId in waiters {
        var registration := waiters[fileId];
        waiters := waiters - {fileId};
        registration.completed := true;
      }
      log := log + [Notified(fileId)];
      assert Table(log) == table - {fileId};
      forall i | i in issued ensures IssuedOk(i) {
        assert old(IssuedOk(i));
        TableIsExact(before, fileId, i);
        assert fileId in old(waiters) ==> old(WaiterOk(fileId));
      }
      forall f | f in waiters ensures WaiterOk(f) {
        assert old(WaiterOk(f));
      }
    }

    /** Drop of an `AttachmentWaiter`, with its identity check. */
    method Drop(waiter: Registration)
      requires Valid() && waiter.index in issued && issued[waiter.index] == waiter
      modifies this
      ensures Valid() && issued == old(issued)
      ensures log == old(log) + [Dropped(waiter.index)]
      ensures forall f | f in old(waiters) && old(waiters)[f] != waiter :: f in waiters && waiters[f] == old(waiters)[f]
    {
      ghost var before := log;
      assert IssuedOk(waiter.index);
      AppendedOther(log, Dropped(waiter.index));
      TableOfDropped(log, waiter.index);
      assert waiter.fileId in waiters ==> WaiterOk(waiter.fileId);
      if waiter.fileId in waiters && waiters[waiter.fileId] == waiter {
        waiters := waiters - {waiter.fileId};
      }
      log := log + [Dropped(waiter.index)];
      forall i | i in issued ensures IssuedOk(i) {
        assert old(IssuedOk(i));
      }
      forall f | f in waiters ensures WaiterOk(f) {
        assert old(WaiterOk(f));
      }
    }
  }

  lemma AppendedIsLegal(log: Log, event: Event)
    requires Legal(log) && (event.Registered? ==> event.fileId !in Table(log))
    ensures Legal(log + [event]) && (log + [event])[..|log|] == log
  {
    var log' := log + [event];
    assert log'[..|log|] == log;
    forall i | 0 <= i < |log'| && log'[i].Registered? ensures log'[i].fileId !in Table(log'[..i]) {
      PrefixOfAppended(log, event, i);
    }
  }

  lemma PrefixOfAppended(log: Log, event: Event, i: nat)
    requires i <= |log|
    ensures (log + [event])[..i] == log[..i]
  {
  }

  lemma TableOfRegistered(log: Log, fileId: int)
    ensures Table(log + [Registered(fileId)]) == Table(log)[fileId := |log|]
    ensures Table(log + [Registered(fileId)]).Keys == Table(log).Keys + {fileId}
  {
    PrefixOfAppended(log, Registered(fileId), |log|);
    assert log[..|log|] == log;
  }

  lemma TableOfDropped(log: Log, w: nat)
    requires IsRegistration(log, w)
    ensures var f := log[w].fileId;
      Table(log + [Dropped(w)]) == if f in Table(log) && Table(log)[f] == w then Table(log) - {f} else Table(log)
  {
    PrefixOfAppended(log, Dropped(w), |log|);
    assert log[..|log|] == log;
  }

  /** One more event completes exactly the waiting registration it notifies. */
  lemma Appended(log: Log, event: Event)
    requires Legal(log) && (event.Registered? ==> event.fileId !in Table(log))
    ensures Legal(log + [event]) && (log + [event])[..|log|] == log
    ensures forall w: nat {:trigger Completed(log + [event], w)} | w < |log| :: Completed(log + [event], w) <==>
              Completed(log, w) || (Waiting(log, w) && event == Notified(log[w].fileId))
  {
    AppendedIsLegal(log, event);
    var log' := log + [event];
    forall w: nat | w < |log| ensures Completed(log', w) <==>
             Completed(log, w) || (Waiting(log, w) && event == Notified(log[w].fileId)) {
      if Completed(log, w) { CompletedStays(log, w, event); }
      if Waiting(log, w) && event == Notified(log[w].fileId) { assert log'[|log|] == Notified(log'[w].fileId); }
    }
  }

  lemma AppendedOther(log: Log, event: Event)
    requires Legal(log) && (event.Registered? ==> event.fileId !in Table(log)) && !event.Notified?
    ensures Legal(log + [event]) && (log + [event])[..|log|] == log
    ensures forall w: nat {:trigger Completed(log + [event], w)} | w <= |log| ::
              Completed(log + [event], w) <==> Completed(log, w)
  {
    Appended(log, event);
  }
}
