/** The picking extension of `delivery_bobgo/models/stock_picking.py` (the
    second class body in that file, which is the one in effect): the Bobgo
    status fields, opening the tracking page and the status sync.

    The file never imports the translation function `_`, so every call of
    `_(...)` raises `NameError`. Each action therefore comes in two versions:
    one as written, and one as evidently intended, which states the
    behaviour the rest of the file describes. */
module PickingActions {
  import opened Base
  import opened Records
  import CarrierConfig

  const NotUsingBobgo: string := "This delivery is not using Bobgo shipping."
  const NoTrackingInformation: string := "No tracking information available for this shipment."

  /** The Bobgo fields of a newly created picking: no shipment id, status
      draft, never synced. */
  function NewBobgoState(): (s: BobgoState)
    ensures s.shipmentStatus == Draft && !Truthy(s.shipmentId) && s.lastSync.None?
  {
    BobgoState(None, Draft, None)
  }

  /** The Bobgo fields of a duplicated picking. All three are declared with
      `copy=False`, so the copy gets the defaults whatever the original held. */
  function CopyBobgoState(original: BobgoState): (s: BobgoState)
    ensures s.shipmentStatus == Draft && !Truthy(s.shipmentId) && s.lastSync.None?
  {
    NewBobgoState()
  }

  /** A duplicate carries none of the original's shipment id, status or sync
      time: two originals give the same copy. */
  lemma CopyForgetsOriginal(a: BobgoState, b: BobgoState)
    ensures CopyBobgoState(a) == CopyBobgoState(b) == NewBobgoState()
  {
  }

  /** The picking's carrier is a Bobgo carrier. */
  predicate UsesBobgo(p: Picking) {
    p.carrier.Some? && p.carrier.value.deliveryType == BobgoType
  }

  /** `action_open_bobgo_tracking` as intended: fails for a picking without a
      Bobgo carrier or without a tracking link, and otherwise opens exactly
      the carrier's tracking link in a new window. */
  function OpenTracking(p: Picking): (r: Result<Action>)
    ensures !UsesBobgo(p) ==> r == Err(UserError(NotUsingBobgo))
    ensures UsesBobgo(p) && !Truthy(p.trackingRef) ==> r == Err(UserError(NoTrackingInformation))
    ensures r.Ok? <==> UsesBobgo(p) && Truthy(p.trackingRef)
    ensures r.Ok? ==> r.value == OpenUrl(CarrierConfig.TrackingLink(p.carrier.value, p.trackingRef).value, "new")
  {
    if !UsesBobgo(p) then Err(UserError(NotUsingBobgo))
    else
      match CarrierConfig.TrackingLink(p.carrier.value, p.trackingRef)
      case Some(link) => Ok(OpenUrl(link, "new"))
      case None => Err(UserError(NoTrackingInformation))
  }

  /** `action_open_bobgo_tracking` as written: both error branches raise
      `NameError` instead of the user error. */
  function OpenTrackingAsWritten(p: Picking): (r: Result<Action>)
    ensures r.Err? ==> r.error == NameError(MissingTranslation)
    ensures r.Ok? <==> UsesBobgo(p) && Truthy(p.trackingRef)
  {
    if !UsesBobgo(p) then Err(NameError(MissingTranslation))
    else
      match CarrierConfig.TrackingLink(p.carrier.value, p.trackingRef)
      case Some(link) => Ok(OpenUrl(link, "new"))
      case None => Err(NameError(MissingTranslation))
  }

  /** The written and the intended action succeed on the same pickings with
      the same action; where they fail, the written one loses the message. */
  lemma OpenTrackingDiscrepancy(p: Picking)
    ensures OpenTrackingAsWritten(p).Ok? <==> OpenTracking(p).Ok?
    ensures OpenTracking(p).Ok? ==> OpenTrackingAsWritten(p) == OpenTracking(p)
    ensures OpenTracking(p).Err? ==>
              OpenTracking(p).error.UserError? && OpenTrackingAsWritten(p).error == NameError(MissingTranslation)
  {
  }

  /** The link opened is on the sandbox site exactly when the carrier is in
      test mode. */
  lemma OpenTrackingFollowsSandboxFlag(p: Picking)
    ensures OpenTracking(p).Ok? ==>
              CarrierConfig.EnvironmentOfUrl(OpenTracking(p).value.url) == Some(CarrierConfig.EnvironmentOf(p.carrier.value))
  {
    if OpenTracking(p).Ok? {
      CarrierConfig.SameEnvironmentForApiAndTracking(p.carrier.value, p.trackingRef);
    }
  }

  const SyncedNotification: Action :=
    Notification("Status Synced", "Shipment status sync completed.", "success", false)

  /** `action_sync_bobgo_status` as intended, on a recordset: each picking's
      last-sync time becomes `now` and nothing else changes. */
  function SyncStatus(ps: seq<Picking>, now: int): (r: (seq<Picking>, Action))
    ensures |r.0| == |ps|
    ensures forall i :: 0 <= i < |ps| ==> r.0[i].bobgo.lastSync == Some(now)
    ensures forall i :: 0 <= i < |ps| ==>
              r.0[i].bobgo.shipmentStatus == ps[i].bobgo.shipmentStatus
              && r.0[i].bobgo.shipmentId == ps[i].bobgo.shipmentId
              && r.0[i].trackingRef == ps[i].trackingRef
              && r.0[i].carrier == ps[i].carrier && r.0[i].name == ps[i].name
    ensures r.1 == SyncedNotification
  {
    (seq(|ps|, i requires 0 <= i < |ps| => ps[i].(bobgo := ps[i].bobgo.(lastSync := Some(now)))), SyncedNotification)
  }

  /** Syncing twice at the same instant is the same as syncing once. */
  lemma SyncStatusIdempotent(ps: seq<Picking>, now: int)
    ensures SyncStatus(SyncStatus(ps, now).0, now) == SyncStatus(ps, now)
  {
    var once := SyncStatus(ps, now).0;
    var twice := SyncStatus(once, now).0;
    assert forall i :: 0 <= i < |once| ==> twice[i] == once[i];
    assert twice == once;
  }

  /** `action_sync_bobgo_status` as written: the notification title is built
      with `_`, so after the write the call raises `NameError` and the
      transaction, write included, is rolled back. */
  function SyncStatusAsWritten(ps: seq<Picking>, now: int): (r: Result<(seq<Picking>, Action)>)
    ensures r == Err(NameError(MissingTranslation))
  {
    Err(NameError(MissingTranslation))
  }

  /** The written action never records a sync, while the intended one moves
      the sync time of every picking not already synced at `now`. */
  lemma SyncStatusDiscrepancy(ps: seq<Picking>, now: int)
    ensures SyncStatusAsWritten(ps, now) == Err(NameError(MissingTranslation))
    ensures (exists i :: 0 <= i < |ps| && ps[i].bobgo.lastSync != Some(now)) ==> SyncStatus(ps, now).0 != ps
  {
    if exists i :: 0 <= i < |ps| && ps[i].bobgo.lastSync != Some(now) {
      var i :| 0 <= i < |ps| && ps[i].bobgo.lastSync != Some(now);
      assert SyncStatus(ps, now).0[i] != ps[i];
    }
  }
}
