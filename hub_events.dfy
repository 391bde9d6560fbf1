/**
 * `AWSAuthHubEventEmitter.sendHubEvent`: an event is sent to the Hub only when its name differs
 * from the name of the last event sent.  The shared last name is a field, and the Hub is the log
 * of the names dispatched to it.
 */
module HubEvents {
  import opened Wrappers

  class HubEventEmitter {
    var lastSentEventName: Option<string>
    /** The events dispatched to the Hub, oldest first. */
    var dispatched: seq<string>

    constructor ()
      ensures lastSentEventName == None && dispatched == []
    {
      lastSentEventName := None;
      dispatched := [];
    }

    method SendHubEvent(eventName: string)
      modifies this
      ensures lastSentEventName == Some(eventName)
      ensures dispatched == if old(lastSentEventName) != Some(eventName) then old(dispatched) + [eventName]
                            else old(dispatched)
    {
      if lastSentEventName != Some(eventName) {
        lastSentEventName := Some(eventName);
        dispatched := dispatched + [eventName];
      }
    }
  }

  /** The events a run of calls dispatches, starting from the last name sent before it. */
  function Dispatches(last: Option<string>, calls: seq<string>): seq<string>
    decreases |calls|
  {
    if calls == [] then []
    else (if last != Some(calls[0]) then [calls[0]] else []) + Dispatches(Some(calls[0]), calls[1..])
  }

  /** The last name sent after a run of calls. */
  function LastAfter(last: Option<string>, calls: seq<string>): (r: Option<string>)
    ensures calls != [] ==> r == Some(calls[|calls| - 1])
  {
    if calls == [] then last else Some(calls[|calls| - 1])
  }

  /** One more call extends the run as `SendHubEvent` extends the log. */
  lemma {:induction false} DispatchesAppend(last: Option<string>, calls: seq<string>, e: string)
    ensures Dispatches(last, calls + [e])
            == Dispatches(last, calls) + (if LastAfter(last, calls) != Some(e) then [e] else [])
    decreases |calls|
  {
    if calls != [] {
      assert (calls + [e])[0] == calls[0];
      assert (calls + [e])[1..] == calls[1..] + [e];
      DispatchesAppend(Some(calls[0]), calls[1..], e);
      assert LastAfter(Some(calls[0]), calls[1..]) == LastAfter(last, calls);
    }
  }

  /** Every dispatched event is one of the calls, and the first one differs from the last name sent before. */
  lemma {:induction false} DispatchesFirst(last: Option<string>, calls: seq<string>)
    ensures |Dispatches(last, calls)| <= |calls|
    ensures forall e :: e in Dispatches(last, calls) ==> e in calls
    ensures Dispatches(last, calls) != [] && last.Some? ==> Dispatches(last, calls)[0] != last.value
    decreases |calls|
  {
    if calls != [] {
      DispatchesFirst(Some(calls[0]), calls[1..]);
      assert forall e :: e in calls[1..] ==> e in calls;
    }
  }

  /** No two neighbouring names of `s` are the same. */
  predicate NoConsecutiveRepeats(s: seq<string>) {
    forall i :: 0 <= i < |s| - 1 ==> s[i] != s[i + 1]
  }

  /** Two events in a row never have the same name. */
  lemma {:induction false} DispatchesNoRepeats(last: Option<string>, calls: seq<string>)
    ensures NoConsecutiveRepeats(Dispatches(last, calls))
    decreases |calls|
  {
    if calls != [] {
      var rest := Dispatches(Some(calls[0]), calls[1..]);
      DispatchesNoRepeats(Some(calls[0]), calls[1..]);
      DispatchesFirst(Some(calls[0]), calls[1..]);
      var d := Dispatches(last, calls);
      if last != Some(calls[0]) {
        assert d == [calls[0]] + rest;
        forall i | 0 <= i < |d| - 1 ensures d[i] != d[i + 1] {
          if i > 0 {
            assert d[i] == rest[i - 1] && d[i + 1] == rest[i];
          }
        }
      }
    }
  }

  /** A run without repeats is dispatched in full; so filtering twice is filtering once. */
  lemma {:induction false} DispatchesKeepsChanges(last: Option<string>, calls: seq<string>)
    requires calls != [] ==> last != Some(calls[0])
    requires NoConsecutiveRepeats(calls)
    ensures Dispatches(last, calls) == calls
    decreases |calls|
  {
    if calls != [] {
      var tail := calls[1..];
      assert NoConsecutiveRepeats(tail) by {
        forall i | 0 <= i < |tail| - 1 ensures tail[i] != tail[i + 1] {
          assert tail[i] == calls[i + 1] && tail[i + 1] == calls[i + 2];
        }
      }
      if tail != [] {
        assert calls[0] != calls[1];
      }
      DispatchesKeepsChanges(Some(calls[0]), tail);
    }
  }

  /** What was dispatched has no repeats left, so sending it again from scratch dispatches all of it. */
  lemma DispatchesIdempotent(calls: seq<string>)
    ensures Dispatches(None, Dispatches(None, calls)) == Dispatches(None, calls)
  {
    var d := Dispatches(None, calls);
    DispatchesNoRepeats(None, calls);
    DispatchesKeepsChanges(None, d);
  }

  /** The documented example: "foo", "foo", "bar", "foo" dispatches "foo", "bar", "foo". */
  lemma DocumentedExample()
    ensures Dispatches(None, ["foo", "foo", "bar", "foo"]) == ["foo", "bar", "foo"]
  {
    var calls := ["foo", "foo", "bar", "foo"];
    assert calls[1..] == ["foo", "bar", "foo"];
    assert calls[1..][1..] == ["bar", "foo"];
    assert calls[1..][1..][1..] == ["foo"];
  }

  /** The emitter test: a sign-in followed by three sign-outs dispatches two events. */
  lemma SignInThenThreeSignOuts(signedIn: string, signedOut: string)
    requires signedIn != signedOut
    ensures Dispatches(None, [signedIn, signedOut, signedOut, signedOut]) == [signedIn, signedOut]
  {
    var calls := [signedIn, signedOut, signedOut, signedOut];
    assert calls[1..] == [signedOut, signedOut, signedOut];
    assert calls[1..][1..] == [signedOut, signedOut];
    assert calls[1..][1..][1..] == [signedOut];
    assert Dispatches(Some(signedOut), [signedOut]) == [];
    assert Dispatches(Some(signedOut), [signedOut, signedOut]) == [];
    assert Dispatches(Some(signedIn), [signedOut, signedOut, signedOut]) == [signedOut];
  }

  /**
   * The documented example run on the emitter itself: a fresh emitter sent "foo", "foo", "bar",
   * "foo" dispatches what `Dispatches` says, which is "foo", "bar", "foo".
   */
  method DocumentedExampleOnEmitter() returns (dispatched: seq<string>)
    ensures dispatched == Dispatches(None, ["foo", "foo", "bar", "foo"])
    ensures dispatched == ["foo", "bar", "foo"]
  {
    var emitter := new HubEventEmitter();
    emitter.SendHubEvent("foo");
    emitter.SendHubEvent("foo");
    emitter.SendHubEvent("bar");
    emitter.SendHubEvent("foo");
    dispatched := emitter.dispatched;
    DocumentedExample();
  }
}
