/** Observer notifications of a bank account.
    An observer is named by an id; delivering an event to an observer appends one
    Notification to the account's log, so the log records every update call in order. */
module Notifications {

  type ObserverId = nat

  /** The three messages an account sends: "Deposited $a", "Withdrew $a", "Account closed." */
  datatype Event = Deposited(amount: real) | Withdrew(amount: real) | AccountClosed

  /** One observer's update call with one event. */
  datatype Notification = Notification(observer: ObserverId, event: Event)

  /** The deliveries of one fan-out: every observer once, in the order they were added. */
  function FanOut(observers: seq<ObserverId>, e: Event): (ns: seq<Notification>)
    ensures |ns| == |observers|
  {
    if observers == [] then [] else [Notification(observers[0], e)] + FanOut(observers[1..], e)
  }

  /** The i-th delivery goes to the i-th observer and carries the event. */
  lemma {:induction false} FanOutAt(observers: seq<ObserverId>, e: Event, i: nat)
    requires i < |observers|
    ensures FanOut(observers, e)[i] == Notification(observers[i], e)
  {
    if i > 0 {
      FanOutAt(observers[1..], e, i - 1);
    }
  }

  /** Fanning out to one more observer adds exactly its delivery at the end. */
  lemma {:induction false} FanOutSnoc(observers: seq<ObserverId>, o: ObserverId, e: Event)
    ensures FanOut(observers + [o], e) == FanOut(observers, e) + [Notification(o, e)]
  {
    if observers != [] {
      assert (observers + [o])[1..] == observers[1..] + [o];
      FanOutSnoc(observers[1..], o, e);
    }
  }

  /** `after` is `before` followed by exactly one delivery of `e` per observer, in order. */
  predicate NotifiedOnceEach(before: seq<Notification>, after: seq<Notification>,
                             observers: seq<ObserverId>, e: Event)
  {
    |after| == |before| + |observers| && after[..|before|] == before &&
    forall i :: 0 <= i < |observers| ==> after[|before| + i] == Notification(observers[i], e)
  }

  lemma FanOutNotifiesEach(log: seq<Notification>, observers: seq<ObserverId>, e: Event)
    ensures NotifiedOnceEach(log, log + FanOut(observers, e), observers, e)
  {
    var after := log + FanOut(observers, e);
    assert after[..|log|] == log;
    forall i | 0 <= i < |observers|
      ensures after[|log| + i] == Notification(observers[i], e)
    {
      FanOutAt(observers, e, i);
    }
  }
}
