/** Batch cancellation, `bobgo_cancel_shipment` of
    `delivery_bobgo/models/delivery_bobgo.py`: the decision logic over a batch
    of pickings, with the service's answers given as inputs. */
module Cancellation {
  import opened Base
  import opened Records

  /** What the cancel request for one picking came back with: a response with
      a status code, or an exception raised while sending it. */
  datatype CancelReply = Replied(status: nat) | Raised

  /** The status code of a successful cancellation. */
  const CancelOk: nat := 200

  /** A picking is cancelled when it has a tracking reference (so a request
      is sent) and the service answered that request with 200. */
  predicate Cancelled(p: Picking, reply: CancelReply) {
    Truthy(p.trackingRef) && reply == Replied(CancelOk)
  }

  /** The write done for a cancelled picking: tracking reference and shipment
      id cleared, every other field unchanged. */
  function Cleared(p: Picking): (q: Picking)
    ensures !Truthy(q.trackingRef) && !Truthy(q.bobgo.shipmentId)
    ensures q.name == p.name && q.carrier == p.carrier
    ensures q.bobgo.shipmentStatus == p.bobgo.shipmentStatus && q.bobgo.lastSync == p.bobgo.lastSync
  {
    p.(trackingRef := None, bobgo := p.bobgo.(shipmentId := None))
  }

  /** A picking as the batch leaves it: cleared when cancelled, untouched
      otherwise. */
  function AfterCancel(p: Picking, reply: CancelReply): Picking
  {
    if Cancelled(p, reply) then Cleared(p) else p
  }

  /** The tracking references sent to the service, in picking order. */
  function SentRefs(pickings: seq<Picking>): (sent: seq<string>)
    ensures |sent| <= |pickings|
    ensures forall k :: 0 <= k < |sent| ==> sent[k] != ""
  {
    if |pickings| == 0 then []
    else
      var last := pickings[|pickings| - 1];
      SentRefs(pickings[..|pickings| - 1]) + (if Truthy(last.trackingRef) then [last.trackingRef.value] else [])
  }

  /** The positions of the pickings whose tracking reference is `s`. */
  function Holders(pickings: seq<Picking>, s: string): set<nat>
  {
    set i: nat | i < |pickings| && pickings[i].trackingRef == Some(s)
  }

  /** A non-empty reference is sent once for each picking that holds it, and
      the empty reference never. */
  lemma {:induction false} SentRefsCount(pickings: seq<Picking>)
    ensures forall s :: multiset(SentRefs(pickings))[s] == if s == "" then 0 else |Holders(pickings, s)|
  {
    if |pickings| > 0 {
      SentRefsCount(pickings[..|pickings| - 1]);
      forall s
        ensures multiset(SentRefs(pickings))[s] == if s == "" then 0 else |Holders(pickings, s)|
      {
        SentRefsCountStep(pickings, s);
      }
    }
  }

  /** One more picking: the count of `s` among the sent references follows
      from its count for the pickings before it. */
  lemma SentRefsCountStep(pickings: seq<Picking>, s: string)
    requires |pickings| > 0
    requires var front := pickings[..|pickings| - 1];
             multiset(SentRefs(front))[s] == if s == "" then 0 else |Holders(front, s)|
    ensures multiset(SentRefs(pickings))[s] == if s == "" then 0 else |Holders(pickings, s)|
  {
    var n := |pickings| - 1;
    var last := pickings[n];
    var added := if Truthy(last.trackingRef) then [last.trackingRef.value] else [];
    assert SentRefs(pickings) == SentRefs(pickings[..n]) + added;
    HoldersStep(pickings, s);
  }

  /** One more picking adds one holder of `s` iff it holds `s`. */
  lemma HoldersStep(pickings: seq<Picking>, s: string)
    requires |pickings| > 0
    ensures var n := |pickings| - 1;
            |Holders(pickings, s)| == |Holders(pickings[..n], s)| + if pickings[n].trackingRef == Some(s) then 1 else 0
  {
    var n := |pickings| - 1;
    var front := pickings[..n];
    var extra: set<nat> := if pickings[n].trackingRef == Some(s) then {n} else {};
    assert Holders(pickings, s) == Holders(front, s) + extra by {
      assert forall i :: 0 <= i < n ==> front[i] == pickings[i];
    }
    assert n !in Holders(front, s);
  }

  /** A request goes out for every picking with a tracking reference and for
      no other: nothing is sent iff no picking has a reference, and each sent
      reference is the reference of some picking. */
  lemma {:induction false} SentRefsExactly(pickings: seq<Picking>)
    ensures SentRefs(pickings) == [] <==> forall i :: 0 <= i < |pickings| ==> !Truthy(pickings[i].trackingRef)
    ensures forall i :: 0 <= i < |pickings| && Truthy(pickings[i].trackingRef) ==> pickings[i].trackingRef.value in SentRefs(pickings)
    ensures forall s :: s in SentRefs(pickings) ==>
              exists i :: 0 <= i < |pickings| && Truthy(pickings[i].trackingRef) && pickings[i].trackingRef.value == s
  {
    if |pickings| > 0 {
      var front := pickings[..|pickings| - 1];
      SentRefsExactly(front);
      assert forall i :: 0 <= i < |front| ==> front[i] == pickings[i];
      forall s | s in SentRefs(pickings)
        ensures exists i :: 0 <= i < |pickings| && Truthy(pickings[i].trackingRef) && pickings[i].trackingRef.value == s
      {
        if s !in SentRefs(front) {
          assert Truthy(pickings[|pickings| - 1].trackingRef);
        }
      }
    }
  }

  /** The result of a batch cancellation: the returned flag and the pickings
      as written back. The requests it sends are `SentRefs` of the pickings. */
  datatype CancelReport = CancelReport(allCancelled: bool, pickings: seq<Picking>)

  /** `bobgo_cancel_shipment`: `replies[i]` is what the service answers for
      `pickings[i]`, and is not consulted when that picking has no tracking
      reference. The flag holds iff no picking failed; only the cancelled
      pickings are written, each on its own. */
  function CancelShipments(pickings: seq<Picking>, replies: seq<CancelReply>): (r: CancelReport)
    requires |replies| == |pickings|
    ensures |r.pickings| == |pickings|
    ensures forall i :: 0 <= i < |pickings| ==>
              r.pickings[i] == AfterCancel(pickings[i], replies[i])
    ensures r.allCancelled <==> forall i :: 0 <= i < |pickings| ==> Cancelled(pickings[i], replies[i])
  {
    if |pickings| == 0 then CancelReport(true, [])
    else
      var n := |pickings| - 1;
      var front := CancelShipments(pickings[..n], replies[..n]);
      var p := pickings[n];
      assert forall i :: 0 <= i < n ==> pickings[..n][i] == pickings[i] && replies[..n][i] == replies[i];
      CancelStep(pickings, replies, front.pickings, front.allCancelled);
      CancelReport(front.allCancelled && Cancelled(p, replies[n]),
                   front.pickings + [AfterCancel(p, replies[n])])
  }

  /** One more picking: the batch flag and the written pickings of a batch
      extend those of the batch without its last picking. */
  lemma CancelStep(pickings: seq<Picking>, replies: seq<CancelReply>, front: seq<Picking>, frontAll: bool)
    requires |replies| == |pickings| > 0 && |front| == |pickings| - 1
    requires forall i :: 0 <= i < |front| ==> front[i] == AfterCancel(pickings[i], replies[i])
    requires frontAll <==> forall i :: 0 <= i < |front| ==> Cancelled(pickings[i], replies[i])
    ensures var n := |front|;
            (frontAll && Cancelled(pickings[n], replies[n])) <==> forall i :: 0 <= i < |pickings| ==> Cancelled(pickings[i], replies[i])
    ensures var r := front + [AfterCancel(pickings[|front|], replies[|front|])];
            forall i :: 0 <= i < |pickings| ==> r[i] == AfterCancel(pickings[i], replies[i])
  {
  }

  /** A picking without a tracking reference fails the batch whatever the
      service would answer. */
  lemma MissingReferenceFailsBatch(pickings: seq<Picking>, replies: seq<CancelReply>, i: nat)
    requires |replies| == |pickings| && i < |pickings| && !Truthy(pickings[i].trackingRef)
    ensures !CancelShipments(pickings, replies).allCancelled
    ensures CancelShipments(pickings, replies).pickings[i] == pickings[i]
  {
  }

  /** Cancelling a fully cancelled, non-empty batch again sends nothing and
      reports failure, since every reference was cleared. */
  lemma CancelTwiceFails(pickings: seq<Picking>, replies: seq<CancelReply>, again: seq<CancelReply>)
    requires |replies| == |pickings| && |again| == |pickings| && |pickings| > 0
    requires CancelShipments(pickings, replies).allCancelled
    ensures var second := CancelShipments(CancelShipments(pickings, replies).pickings, again);
            !second.allCancelled && SentRefs(CancelShipments(pickings, replies).pickings) == []
  {
    var first := CancelShipments(pickings, replies);
    forall i | 0 <= i < |pickings|
      ensures !Truthy(first.pickings[i].trackingRef)
    {
      assert Cancelled(pickings[i], replies[i]);
    }
    assert !Cancelled(first.pickings[0], again[0]);
    SentRefsExactly(first.pickings);
  }
}
