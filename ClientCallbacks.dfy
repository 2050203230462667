/** The callback slots of the client add-ons (GameRoomsClientAddon.cs,
    AuthenticationClientAddon.cs). A request stores the caller's delegates in fields; a
    response runs the delegate of the field it matches, if that field is not null.

    Success/error pairs are single-shot: the response that runs a delegate sets its field
    back to null and leaves the other field of the pair as it was. Delegates are opaque
    here, identified by a number; a null delegate is `None`. */
module ClientCallbacks {
  import opened Common

  type CallbackId = nat

  /** A success field and an error field that one kind of request arms together. */
  datatype SlotPair = SlotPair(success: Option<CallbackId>, error: Option<CallbackId>)

  /** A response's effect on a pair: the callback it runs, if any, and the pair afterwards.
      Only the slot the response matches is consulted and emptied. */
  datatype Answered = Answered(slots: SlotPair, ran: Option<CallbackId>)

  function Answer(slots: SlotPair, succeeded: bool): (r: Answered)
    ensures succeeded ==> r.ran == slots.success && r.slots.error == slots.error
    ensures !succeeded ==> r.ran == slots.error && r.slots.success == slots.success
    ensures r.slots.success == None || r.slots.success == slots.success
    ensures r.slots.error == None || r.slots.error == slots.error
    ensures r.ran.Some? ==> (if succeeded then r.slots.success else r.slots.error) == None
  {
    if succeeded then Answered(SlotPair(None, slots.error), slots.success)
    else Answered(SlotPair(slots.success, None), slots.error)
  }

  /** A response whose callback, before it returns, issues a new request of the same kind
      that stores `rearmed` in the pair. The handler clears the matched field only after
      the callback has returned, so it clears the delegate the new request just stored;
      the other field keeps what the new request stored. With no callback to run, nothing
      runs and the pair is as Answer leaves it. */
  function AnswerReentrant(slots: SlotPair, succeeded: bool, rearmed: SlotPair): (r: Answered)
    ensures r.ran == (if succeeded then slots.success else slots.error)
    ensures r.ran.None? ==> r == Answer(slots, succeeded)
    ensures r.ran.Some? && succeeded ==> r.slots == SlotPair(None, rearmed.error)
    ensures r.ran.Some? && !succeeded ==> r.slots == SlotPair(rearmed.success, None)
  {
    var ran := if succeeded then slots.success else slots.error;
    if ran.None? then Answer(slots, succeeded)
    else if succeeded then Answered(SlotPair(None, rearmed.error), ran)
    else Answered(SlotPair(rearmed.success, None), ran)
  }

  /** A callback that retries its own request loses the retry's callback of the same kind:
      the answer to the retried request runs nothing, although the retry stored a
      delegate for it. */
  lemma {:induction false} RetryFromCallbackIsNeverAnswered(slots: SlotPair, succeeded: bool, retry: SlotPair)
    requires (if succeeded then slots.success else slots.error).Some?
    requires (if succeeded then retry.success else retry.error).Some?
    ensures AnswerAll(AnswerReentrant(slots, succeeded, retry).slots, [succeeded]).ran == []
  {
    var after := AnswerReentrant(slots, succeeded, retry).slots;
    assert (if succeeded then after.success else after.error).None?;
    assert [succeeded][1..] == [];
  }

  /** A run of responses (true for a success response) against a pair armed once: the
      callbacks that run, in order, and the pair at the end. */
  datatype Run = Run(slots: SlotPair, ran: seq<CallbackId>)

  function AnswerAll(slots: SlotPair, outcomes: seq<bool>): (r: Run)
    decreases |outcomes|
  {
    if |outcomes| == 0 then Run(slots, [])
    else
      var first := Answer(slots, outcomes[0]);
      var rest := AnswerAll(first.slots, outcomes[1..]);
      Run(rest.slots, (if first.ran.Some? then [first.ran.value] else []) + rest.ran)
  }

  function Armed(slot: Option<CallbackId>): nat {
    if slot.Some? then 1 else 0
  }

  /** After any run of responses, the success callback has run exactly once if it was
      armed and a success response arrived, and not otherwise; the same for the error
      callback with a failure response. Each slot ends empty exactly when its kind of
      response arrived, and nothing else runs. */
  lemma {:induction false} AnswerAllRunsEachCallbackOnceItsResponseArrives(slots: SlotPair, outcomes: seq<bool>)
    ensures var r := AnswerAll(slots, outcomes);
            |r.ran| == (if true in outcomes then Armed(slots.success) else 0)
                       + (if false in outcomes then Armed(slots.error) else 0)
            && r.slots.success == (if true in outcomes then None else slots.success)
            && r.slots.error == (if false in outcomes then None else slots.error)
            && forall k :: 0 <= k < |r.ran| ==>
                 (slots.success.Some? && r.ran[k] == slots.success.value)
                 || (slots.error.Some? && r.ran[k] == slots.error.value)
    decreases |outcomes|
  {
    if |outcomes| > 0 {
      var first := Answer(slots, outcomes[0]);
      AnswerAllRunsEachCallbackOnceItsResponseArrives(first.slots, outcomes[1..]);
      assert outcomes == [outcomes[0]] + outcomes[1..];
      assert forall b :: b in outcomes <==> b == outcomes[0] || b in outcomes[1..];
    }
  }
}
