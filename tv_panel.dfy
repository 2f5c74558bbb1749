/** The public display: the current call, the calls before it, and the
    highlight that a new call switches on. */
module TvPanelPage {
  import opened Base
  import opened Seqs
  import opened Types
  import opened Store

  /** `history.slice(1, 6)`: up to five calls after the head, which is
      already on screen as the current call. */
  function Trailing(history: seq<PatientCall>): (r: seq<PatientCall>)
    ensures |r| == Min(5, Max(0, |history| - 1))
    ensures forall i :: 0 <= i < |r| ==> r[i] == history[i + 1]
  {
    Slice(history, 1, 6)
  }

  /** After `saveCall(c)`, the trailing list is the five calls that were the
      newest before `c`. */
  lemma TrailingAfterSave(call: PatientCall, history: seq<PatientCall>)
    ensures Trailing(RecordCall(call, history)) == Take(history, 5)
  {
    var after := RecordCall(call, history);
    assert after[1..] == Take(history, HistoryLimit - 1);
    var t, w := Trailing(after), Take(history, 5);
    assert |t| == |w|;
    forall i | 0 <= i < |t| ensures t[i] == w[i] {
      assert t[i] == after[i + 1] == after[1..][i];
    }
  }

  /** The number this display's `new_call` callback is registered under. */
  const NewCallHandler: nat := 0

  class TvPanel {
    var currentCall: Option<PatientCall>
    var history: seq<PatientCall>
    var isAnimating: bool

    constructor ()
      ensures currentCall == None && history == [] && !isAnimating
    {
      currentCall, history, isAnimating := None, [], false;
    }

    /** The mount effect: show the stored latest call and the calls after the
        history's head, then listen for `new_call`. A read that faults stops
        it there. */
    method Mount(store: Storage, realTime: RealTimeEmitter) returns (outcome: Outcome)
      modifies this, realTime
      ensures realTime.posted == old(realTime.posted)
      ensures isAnimating == old(isAnimating)
      ensures GetLatestCall(store.entries).Failure? ==>
                outcome == Fail(GetLatestCall(store.entries).error) && currentCall == old(currentCall)
                && history == old(history) && realTime.listeners == old(realTime.listeners)
      ensures GetLatestCall(store.entries).Success? ==> currentCall == GetLatestCall(store.entries).value
      ensures GetLatestCall(store.entries).Success? && GetHistory(store.entries).Failure? ==>
                outcome == Fail(GetHistory(store.entries).error)
                && history == old(history) && realTime.listeners == old(realTime.listeners)
      ensures GetLatestCall(store.entries).Success? && GetHistory(store.entries).Success? ==>
                outcome == Pass && history == Trailing(GetHistory(store.entries).value)
                && realTime.listeners == old(realTime.listeners) + [Listener(NewCallEvent, NewCallHandler)]
    {
      var latest := GetLatestCall(store.entries);
      if latest.Failure? {
        return Fail(latest.error);
      }
      currentCall := latest.value;
      var fullHistory := GetHistory(store.entries);
      if fullHistory.Failure? {
        return Fail(fullHistory.error);
      }
      history := Trailing(fullHistory.value);
      realTime.On(NewCallEvent, NewCallHandler);
      outcome := Pass;
    }

    /** `handleNewCall(call)`: show the payload as it came, re-read the
        trailing list from the store (not from the payload), and switch the
        highlight on. A history that cannot be read stops it after the first
        step. */
    method HandleNewCall(store: Storage, call: PatientCall) returns (outcome: Outcome)
      modifies this
      ensures currentCall == Some(call)
      ensures GetHistory(store.entries).Failure? ==>
                outcome == Fail(GetHistory(store.entries).error)
                && history == old(history) && isAnimating == old(isAnimating)
      ensures GetHistory(store.entries).Success? ==>
                outcome == Pass && history == Trailing(GetHistory(store.entries).value) && isAnimating
    {
      currentCall := Some(call);
      var updated := GetHistory(store.entries);
      if updated.Failure? {
        return Fail(updated.error);
      }
      history := Trailing(updated.value);
      isAnimating := true;
      outcome := Pass;
    }

    /** The highlight timer running out. */
    method EndHighlight()
      modifies this
      ensures !isAnimating && currentCall == old(currentCall) && history == old(history)
    {
      isAnimating := false;
    }
  }

  /** A call saved in one session and delivered to a display in another:
      the display shows that call, followed by the five calls that were
      newest before it. */
  method SaveThenDisplay(store: Storage, sender: RealTimeEmitter, receiver: RealTimeEmitter,
                         panel: TvPanel, call: PatientCall)
    returns (outcome: Outcome)
    requires sender != receiver
    requires Listener(NewCallEvent, NewCallHandler) in receiver.listeners
    requires GetHistory(store.entries).Success?
    modifies store, sender, panel
    ensures outcome == Pass
    ensures panel.currentCall == Some(call)
    ensures panel.history == Take(old(GetHistory(store.entries).value), 5)
    ensures panel.isAnimating
    ensures sender.posted == old(sender.posted) + [Message(NewCallEvent, CallRecord(call))]
    ensures Invocation(NewCallHandler, CallRecord(call)) in receiver.Receive(sender.posted[|sender.posted| - 1])
  {
    ghost var before := GetHistory(store.entries).value;
    outcome := SaveCall(store, sender, call);
    TrailingAfterSave(call, before);
    outcome := panel.HandleNewCall(store, call);
  }
}
