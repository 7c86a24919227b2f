/**
 * models/Pickup.js: the estimated cost of a pickup, the status history, the
 * save hook that keeps the cost up to date, the checks the schema makes on
 * save, and the JSON form a pickup is sent in.
 *
 * Weights are whole kilograms, so the 50% urgent surcharge on an even base
 * rate is exact and Math.round leaves it as it is.
 */
module Pickup {
  import opened Wrappers
  import opened Js
  import opened Calendar

  datatype Status = Pending | Assigned | InProgress | Completed | Cancelled

  /** A status update's `location`: a GeoJSON point and an optional street address. */
  datatype Location = Location(coordinates: seq<int>, address: Option<string>)

  /** One entry of `status_updates`. */
  datatype StatusUpdate = StatusUpdate(
    status: Status, message: Option<string>, timestamp: Date, location: Option<Location>, photos: seq<string>)

  const WasteTypes: set<string> := {"general", "recyclable", "hazardous"}

  /** `baseCosts[waste_type] || baseCosts.general`, in FCFA per kilogram. */
  function BaseCost(wasteType: Option<string>): (b: int)
    ensures b == 800 <==> wasteType == Some("recyclable")
    ensures b == 2000 <==> wasteType == Some("hazardous")
    ensures b == 1000 || b == 800 || b == 2000
  {
    if wasteType == Some("recyclable") then 800
    else if wasteType == Some("hazardous") then 2000
    else 1000
  }

  /** `estimated_weight || 1`: a missing or zero weight counts as one kilogram. */
  function EffectiveWeight(weight: Option<int>): (w: int)
    ensures w != 0
    ensures weight.Some? && weight.value != 0 ==> w == weight.value
  {
    if weight.None? || weight.value == 0 then 1 else weight.value
  }

  /** `calculateEstimatedCost()` */
  function EstimatedCost(wasteType: Option<string>, weight: Option<int>, urgent: bool): (c: int)
    ensures 2 * c == BaseCost(wasteType) * EffectiveWeight(weight) * (if urgent then 3 else 2)
  {
    var cost := BaseCost(wasteType) * EffectiveWeight(weight);
    if urgent then
      EvenSurcharge(BaseCost(wasteType), EffectiveWeight(weight));
      cost * 3 / 2
    else cost
  }

  /** With an even base rate the 50% surcharge is exact: nothing is lost to rounding. */
  lemma EvenSurcharge(base: int, w: int)
    requires base % 2 == 0
    ensures 2 * (base * w * 3 / 2) == base * w * 3
  {
    var h := base / 2;
    assert base == 2 * h;
    assert base * w * 3 == 2 * (h * w * 3);
  }

  /** Any waste type other than recyclable and hazardous, or none, is charged as general waste. */
  lemma UnknownWasteTypeIsGeneral(wasteType: Option<string>, weight: Option<int>, urgent: bool)
    requires wasteType != Some("recyclable") && wasteType != Some("hazardous")
    ensures EstimatedCost(wasteType, weight, urgent) == EstimatedCost(Some("general"), weight, urgent)
  {
  }

  /** A missing weight and a zero weight are both charged as one kilogram. */
  lemma MissingWeightIsOne(wasteType: Option<string>, urgent: bool)
    ensures EstimatedCost(wasteType, None, urgent) == EstimatedCost(wasteType, Some(0), urgent)
    ensures EstimatedCost(wasteType, None, urgent) == EstimatedCost(wasteType, Some(1), urgent)
  {
  }

  /** The urgent cost is exactly one and a half times the normal cost. */
  lemma UrgentSurcharge(wasteType: Option<string>, weight: Option<int>)
    ensures 2 * EstimatedCost(wasteType, weight, true) == 3 * EstimatedCost(wasteType, weight, false)
  {
  }

  /** A weight the schema accepts yields a positive cost. */
  lemma {:induction false} CostPositive(wasteType: Option<string>, weight: Option<int>, urgent: bool)
    requires weight.None? || weight.value >= 0
    ensures EstimatedCost(wasteType, weight, urgent) >= BaseCost(wasteType) >= 800
  {
    var w := EffectiveWeight(weight);
    assert w >= 1;
    assert BaseCost(wasteType) * w >= BaseCost(wasteType);
  }

  lemma CostExamples()
    ensures EstimatedCost(Some("hazardous"), Some(3), true) == 9000
    ensures EstimatedCost(Some("recyclable"), None, false) == 800
    ensures EstimatedCost(None, Some(2), true) == 3000
  {
  }

  /** The paths whose change makes the save hook recompute the cost. */
  predicate CostInputsModified(modified: set<string>) {
    "waste_type" in modified || "estimated_weight" in modified || "urgent_pickup" in modified
  }

  /** The error of a Number path with a lower bound: null and unset pass. */
  function MinError(path: string, v: Option<int>, lo: int, message: string): (e: seq<(string, string)>)
    ensures |e| == 0 <==> v.None? || v.value >= lo
    ensures |e| > 0 ==> e == [(path, message)]
  {
    if v.Some? && v.value < lo then [(path, message)] else []
  }

  /** The error of a required path: a missing value (or an empty string) fails. */
  function RequiredError(path: string, present: bool, message: string): (e: seq<(string, string)>)
    ensures |e| == 0 <==> present
    ensures |e| > 0 ==> e == [(path, message)]
  {
    if present then [] else [(path, message)]
  }

  /** The error of `waste_type`: required, and one of the enum values. */
  function WasteTypeError(wasteType: Option<string>): (e: seq<(string, string)>)
    ensures |e| == 0 <==> wasteType.Some? && wasteType.value in WasteTypes
    ensures |e| <= 1 && (|e| == 1 ==> e[0].0 == "waste_type")
  {
    if wasteType.None? || wasteType.value == "" then [("waste_type", "Waste type is required")]
    else if wasteType.value !in WasteTypes then
      [("waste_type", "`" + wasteType.value + "` is not a valid enum value for path `waste_type`.")]
    else []
  }

  /** The error of a Number path with an upper bound. */
  function MaxError(path: string, v: Option<int>, hi: int, message: string): (e: seq<(string, string)>)
    ensures |e| == 0 <==> v.None? || v.value <= hi
    ensures |e| > 0 ==> e == [(path, message)]
  {
    if v.Some? && v.value > hi then [(path, message)] else []
  }

  /** A pickup document. */
  class Pickup {
    var address: string
    var status: Status
    var wasteType: Option<string>
    var pickupDate: Option<Date>
    var estimatedWeight: Option<int>
    var actualWeight: Option<int>
    var urgentPickup: bool
    var estimatedCost: Option<int>
    var actualCost: Option<int>
    var rating: Option<int>
    var statusUpdates: seq<StatusUpdate>
    /** The paths `isModified` reports as changed since the last save. */
    var modified: set<string>
    /** Not yet saved: every assignment marks its path as modified. */
    var isNew: bool

    /**
     * `new Pickup({...})`: the given paths are marked as modified; `status`
     * defaults to pending and `urgent_pickup` to false without being marked.
     */
    constructor (address: string, wasteType: Option<string>, pickupDate: Option<Date>,
                 estimatedWeight: Option<int>, urgentPickup: Option<bool>)
      ensures this.address == address && this.wasteType == wasteType && this.pickupDate == pickupDate
      ensures this.estimatedWeight == estimatedWeight
      ensures this.urgentPickup == (urgentPickup.Some? && urgentPickup.value)
      ensures status == Pending && statusUpdates == [] && isNew
      ensures actualWeight.None? && estimatedCost.None? && actualCost.None? && rating.None?
      ensures modified == (if address != "" then {"address"} else {})
                          + (if wasteType.Some? then {"waste_type"} else {})
                          + (if pickupDate.Some? then {"pickup_date"} else {})
                          + (if estimatedWeight.Some? then {"estimated_weight"} else {})
                          + (if urgentPickup.Some? then {"urgent_pickup"} else {})
    {
      this.address := address;
      this.status := Pending;
      this.wasteType := wasteType;
      this.pickupDate := pickupDate;
      this.estimatedWeight := estimatedWeight;
      this.actualWeight := None;
      this.urgentPickup := urgentPickup.Some? && urgentPickup.value;
      this.estimatedCost := None;
      this.actualCost := None;
      this.rating := None;
      this.statusUpdates := [];
      this.isNew := true;
      this.modified := (if address != "" then {"address"} else {})
                       + (if wasteType.Some? then {"waste_type"} else {})
                       + (if pickupDate.Some? then {"pickup_date"} else {})
                       + (if estimatedWeight.Some? then {"estimated_weight"} else {})
                       + (if urgentPickup.Some? then {"urgent_pickup"} else {});
    }

    /** The (path, message) errors of validation, in schema order. */
    function ValidationErrors(): (errs: seq<(string, string)>)
      reads this`address, this`wasteType, this`pickupDate, this`estimatedWeight, this`actualWeight,
            this`estimatedCost, this`actualCost, this`rating
      ensures |errs| == 0 <==> Invariant() && address != "" && pickupDate.Some?
    {
      RequiredError("address", address != "", "Address is required")
      + WasteTypeError(wasteType)
      + RequiredError("pickup_date", pickupDate.Some?, "Pickup date is required")
      + MinError("estimated_weight", estimatedWeight, 0, "Weight must be positive")
      + MinError("actual_weight", actualWeight, 0, "Weight must be positive")
      + MinError("estimated_cost", estimatedCost, 0, "Cost must be positive")
      + MinError("actual_cost", actualCost, 0, "Cost must be positive")
      + MinError("rating", rating, 1, "Rating must be at least 1")
      + MaxError("rating", rating, 5, "Rating must be at most 5")
    }

    /** The value constraints of the schema: known waste type, no negative weight or cost, a rating from 1 to 5. */
    predicate Invariant()
      reads this`wasteType, this`estimatedWeight, this`actualWeight, this`estimatedCost, this`actualCost, this`rating
    {
      && wasteType.Some? && wasteType.value in WasteTypes
      && (estimatedWeight.None? || estimatedWeight.value >= 0)
      && (actualWeight.None? || actualWeight.value >= 0)
      && (estimatedCost.None? || estimatedCost.value >= 0)
      && (actualCost.None? || actualCost.value >= 0)
      && (rating.None? || 1 <= rating.value <= 5)
    }

    /**
     * `save()`: validation comes first and, when it fails, nothing changes;
     * then the pre-save hook recomputes the cost if one of its inputs changed,
     * and the document is stored, which clears the modified paths.
     */
    method Save() returns (r: Result<(), seq<(string, string)>>)
      modifies this`estimatedCost, this`modified, this`isNew
      ensures r == (if |old(ValidationErrors())| == 0 then Success(()) else Failure(old(ValidationErrors())))
      ensures r.Failure? ==> unchanged(this)
      ensures r.Success? ==>
                && estimatedCost == (if CostInputsModified(old(modified))
                                     then Some(EstimatedCost(wasteType, estimatedWeight, urgentPickup))
                                     else old(estimatedCost))
                && modified == {} && !isNew
                && Invariant() && |ValidationErrors()| == 0
      ensures address == old(address) && status == old(status) && wasteType == old(wasteType)
      ensures pickupDate == old(pickupDate) && estimatedWeight == old(estimatedWeight)
      ensures actualWeight == old(actualWeight) && urgentPickup == old(urgentPickup)
      ensures actualCost == old(actualCost) && rating == old(rating) && statusUpdates == old(statusUpdates)
    {
      var errs := ValidationErrors();
      if |errs| > 0 {
        return Failure(errs);
      }
      assert Invariant() && address != "" && pickupDate.Some?;
      if CostInputsModified(modified) {
        CostPositive(wasteType, estimatedWeight, urgentPickup);
        estimatedCost := Some(EstimatedCost(wasteType, estimatedWeight, urgentPickup));
        assert Invariant();
      }
      modified := {};
      isNew := false;
      return Success(());
    }

    /** Assigning `waste_type`: the path is marked only when the value changes (or the document is new). */
    method SetWasteType(v: Option<string>)
      modifies this
      ensures wasteType == v
      ensures modified == old(modified) + (if isNew || v != old(wasteType) then {"waste_type"} else {})
      ensures estimatedCost == old(estimatedCost) && estimatedWeight == old(estimatedWeight)
      ensures urgentPickup == old(urgentPickup) && status == old(status) && statusUpdates == old(statusUpdates)
      ensures address == old(address) && pickupDate == old(pickupDate) && isNew == old(isNew)
      ensures actualWeight == old(actualWeight) && actualCost == old(actualCost) && rating == old(rating)
    {
      if isNew || v != wasteType {
        modified := modified + {"waste_type"};
      }
      wasteType := v;
    }

    /** Assigning `estimated_weight`. */
    method SetEstimatedWeight(v: Option<int>)
      modifies this
      ensures estimatedWeight == v
      ensures modified == old(modified) + (if isNew || v != old(estimatedWeight) then {"estimated_weight"} else {})
      ensures estimatedCost == old(estimatedCost) && wasteType == old(wasteType)
      ensures urgentPickup == old(urgentPickup) && status == old(status) && statusUpdates == old(statusUpdates)
      ensures address == old(address) && pickupDate == old(pickupDate) && isNew == old(isNew)
      ensures actualWeight == old(actualWeight) && actualCost == old(actualCost) && rating == old(rating)
    {
      if isNew || v != estimatedWeight {
        modified := modified + {"estimated_weight"};
      }
      estimatedWeight := v;
    }

    /** Assigning `urgent_pickup`. */
    method SetUrgentPickup(v: bool)
      modifies this
      ensures urgentPickup == v
      ensures modified == old(modified) + (if isNew || v != old(urgentPickup) then {"urgent_pickup"} else {})
      ensures estimatedCost == old(estimatedCost) && wasteType == old(wasteType)
      ensures estimatedWeight == old(estimatedWeight) && status == old(status) && statusUpdates == old(statusUpdates)
      ensures address == old(address) && pickupDate == old(pickupDate) && isNew == old(isNew)
      ensures actualWeight == old(actualWeight) && actualCost == old(actualCost) && rating == old(rating)
    {
      if isNew || v != urgentPickup {
        modified := modified + {"urgent_pickup"};
      }
      urgentPickup := v;
    }

    /** Assigning `rating`. */
    method SetRating(v: Option<int>)
      modifies this
      ensures rating == v
      ensures modified == old(modified) + (if isNew || v != old(rating) then {"rating"} else {})
      ensures estimatedCost == old(estimatedCost) && wasteType == old(wasteType) && urgentPickup == old(urgentPickup)
      ensures estimatedWeight == old(estimatedWeight) && status == old(status) && statusUpdates == old(statusUpdates)
      ensures address == old(address) && pickupDate == old(pickupDate) && isNew == old(isNew)
      ensures actualWeight == old(actualWeight) && actualCost == old(actualCost)
    {
      if isNew || v != rating {
        modified := modified + {"rating"};
      }
      rating := v;
    }

    /** The in-memory half of `addStatusUpdate`: push the entry, assign `status`, mark both paths. */
    method AppendStatus(entry: StatusUpdate)
      modifies this`statusUpdates, this`status, this`modified
      ensures statusUpdates == old(statusUpdates) + [entry] && status == entry.status
      ensures modified == old(modified) + {"status_updates"} + (if isNew || entry.status != old(status) then {"status"} else {})
      ensures CostInputsModified(modified) == CostInputsModified(old(modified))
    {
      statusUpdates := statusUpdates + [entry];
      var marked := {"status_updates"} + (if isNew || entry.status != status then {"status"} else {});
      assert !CostInputsModified(marked);
      modified := modified + marked;
      status := entry.status;
    }

    /**
     * `addStatusUpdate(status, message, location = null, photos = [])` at
     * time now: one entry is appended, the current status follows it, and
     * the document is saved. No transition between statuses is refused.
     */
    method AddStatusUpdate(newStatus: Status, message: Option<string>, location: Option<Location>,
                           photos: Option<seq<string>>, now: Date)
      returns (r: Result<(), seq<(string, string)>>)
      modifies this`statusUpdates, this`status, this`modified, this`estimatedCost, this`isNew
      ensures var entry := StatusUpdate(newStatus, message, now, location, if photos.Some? then photos.value else []);
              statusUpdates == old(statusUpdates) + [entry]
      ensures status == newStatus == statusUpdates[|statusUpdates| - 1].status
      ensures r == (if |old(ValidationErrors())| == 0 then Success(()) else Failure(old(ValidationErrors())))
      ensures estimatedCost == (if r.Success? && CostInputsModified(old(modified))
                                then Some(EstimatedCost(wasteType, estimatedWeight, urgentPickup))
                                else old(estimatedCost))
      ensures r.Success? ==> modified == {} && !isNew && Invariant()
      ensures r.Failure? ==>
                && isNew == old(isNew)
                && modified == old(modified) + {"status_updates"}
                               + (if old(isNew) || newStatus != old(status) then {"status"} else {})
      ensures address == old(address) && wasteType == old(wasteType) && pickupDate == old(pickupDate)
      ensures estimatedWeight == old(estimatedWeight) && actualWeight == old(actualWeight)
      ensures urgentPickup == old(urgentPickup) && actualCost == old(actualCost) && rating == old(rating)
    {
      var entry := StatusUpdate(newStatus, message, now, location, if photos.Some? then photos.value else []);
      ghost var errs := ValidationErrors();
      AppendStatus(entry);
      assert ValidationErrors() == errs;
      ghost var marked := modified;
      r := Save();
      assert r.Failure? ==> modified == marked;
    }
  }

  /** Two updates in a row leave both entries, in order, and the second status current. */
  method TwoStatusUpdates(p: Pickup, s1: Status, s2: Status, now: Date)
    modifies p
    ensures |p.statusUpdates| == |old(p.statusUpdates)| + 2
    ensures p.statusUpdates[..|old(p.statusUpdates)|] == old(p.statusUpdates)
    ensures p.statusUpdates[|old(p.statusUpdates)|].status == s1
    ensures p.statusUpdates[|old(p.statusUpdates)| + 1].status == s2 == p.status
  {
    ghost var before := p.statusUpdates;
    var _ := p.AddStatusUpdate(s1, None, None, None, now);
    ghost var middle := p.statusUpdates;
    assert |middle| == |before| + 1 && middle[..|before|] == before && middle[|before|].status == s1;
    var _ := p.AddStatusUpdate(s2, None, None, None, now);
    assert p.statusUpdates[..|middle|] == middle;
  }

  // ---------------------------------------------------------------------------
  // toJSON

  /** `coordinates && coordinates.coordinates`: the stored point has an inner array to flatten. */
  predicate HasInnerCoordinates(o: JsValue) {
    Truthy(Get(o, "coordinates")) && Truthy(Get(Get(o, "coordinates"), "coordinates"))
  }

  /** `assigned_driver && typeof assigned_driver === 'object'`: also true of an unpopulated ObjectId. */
  predicate HasDriverObject(o: JsValue) {
    Truthy(Get(o, "assigned_driver")) && IsObjectType(Get(o, "assigned_driver"))
  }

  /** `toJSON()` applied to the plain object `toObject()` produced. */
  function ToJson(o: JsValue): (r: JsValue)
    requires o.Obj?
    ensures r.Obj?
    ensures r.fields.Keys == o.fields.Keys + (if HasDriverObject(o) then {"driver_name", "driver_phone"} else {})
    ensures HasInnerCoordinates(o) ==> r.fields["coordinates"] == Get(Get(o, "coordinates"), "coordinates")
    ensures HasDriverObject(o) ==>
              && r.fields["driver_name"] == Get(Get(o, "assigned_driver"), "name")
              && r.fields["driver_phone"] == Get(Get(o, "assigned_driver"), "phone")
    ensures forall k :: k in o.fields && k != "coordinates" && (HasDriverObject(o) ==> k !in {"driver_name", "driver_phone"})
              ==> r.fields[k] == o.fields[k]
    ensures !HasInnerCoordinates(o) && "coordinates" in o.fields ==> r.fields["coordinates"] == o.fields["coordinates"]
  {
    var flat := if HasInnerCoordinates(o) then o.fields["coordinates" := Get(Get(o, "coordinates"), "coordinates")] else o.fields;
    if HasDriverObject(o) then
      var driver := Get(o, "assigned_driver");
      Obj(flat["driver_name" := Get(driver, "name")]["driver_phone" := Get(driver, "phone")])
    else Obj(flat)
  }

  /** An unpopulated driver reference still adds the two driver keys, both undefined. */
  lemma UnpopulatedDriver(o: JsValue, id: string)
    requires o.Obj? && Get(o, "assigned_driver") == ObjectId(id)
    ensures "driver_name" in ToJson(o).fields && ToJson(o).fields["driver_name"] == Undefined
    ensures "driver_phone" in ToJson(o).fields && ToJson(o).fields["driver_phone"] == Undefined
  {
  }

  /** A populated driver's name and phone are copied; with no driver the keys are not added. */
  lemma PopulatedDriver(o: JsValue, name: string, phone: string)
    requires o.Obj?
    ensures var d := Obj(map["name" := Str(name), "phone" := Str(phone)]);
            var r := ToJson(Obj(o.fields["assigned_driver" := d]));
            r.fields["driver_name"] == Str(name) && r.fields["driver_phone"] == Str(phone)
    ensures !Truthy(Get(o, "assigned_driver")) ==> ToJson(o).fields.Keys == o.fields.Keys
  {
  }

  /** A stored point { type: 'Point', coordinates: [lng, lat] } is sent as [lng, lat]. */
  lemma FlattensPoint(o: JsValue, lng: int, lat: int)
    requires o.Obj?
    ensures var point := Obj(map["type" := Str("Point"), "coordinates" := Arr([Num(lng), Num(lat)])]);
            ToJson(Obj(o.fields["coordinates" := point])).fields["coordinates"] == Arr([Num(lng), Num(lat)])
  {
  }
}
