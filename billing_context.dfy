/**
  The billing session shared by the screens: which tenant is selected, the
  meter units and extra charges entered for the current cycle, the billing
  date, the owner profile, and the values derived from them.
*/
module BillingContext {
  import opened Wrappers
  import opened Records

  /** Rupees charged per unit of electricity. */
  const ElectricityRate: real := 12.0

  /** `getTenant(id)`: the first tenant in directory order carrying `id`, or
      nothing when no tenant does. */
  function FindTenant(tenants: seq<Tenant>, id: string): (r: Option<Tenant>)
    ensures r.Some? ==> r.value.id == id
    ensures r.Some? ==> exists k :: 0 <= k < |tenants| && tenants[k] == r.value
                                    && forall j :: 0 <= j < k ==> tenants[j].id != id
    ensures r.None? <==> forall k :: 0 <= k < |tenants| ==> tenants[k].id != id
  {
    if tenants == [] then None
    else if tenants[0].id == id then Some(tenants[0])
    else
      var r := FindTenant(tenants[1..], id);
      assert forall k :: 1 <= k < |tenants| ==> tenants[k] == tenants[1..][k - 1];
      r
  }

  /** The session state. Updates are immediate field writes; the tenant
      directory is read-only here. */
  class BillingSession {
    var tenants: seq<Tenant>
    var ownerInfo: OwnerInfo
    var selectedTenantId: Option<string>
    var electricityUnits: real
    var extraCharges: real
    var billingDate: int

    /** A fresh session over a loaded directory and the owner profile loaded
        from storage (the default profile when nothing was stored). */
    constructor (directory: seq<Tenant>, savedOwner: Option<OwnerInfo>, now: int)
      ensures tenants == directory
      ensures ownerInfo == if savedOwner.Some? then savedOwner.value else DefaultOwner
      ensures selectedTenantId == None
      ensures electricityUnits == 0.0 && extraCharges == 0.0 && billingDate == now
    {
      tenants := directory;
      ownerInfo := if savedOwner.Some? then savedOwner.value else DefaultOwner;
      selectedTenantId := None;
      electricityUnits := 0.0;
      extraCharges := 0.0;
      billingDate := now;
    }

    /** The selected tenant: nothing when no id is selected, when the id is
        the empty string (a falsy id), or when no tenant carries the id. */
    function SelectedTenant(): (t: Option<Tenant>)
      reads this
      ensures t.Some? ==> selectedTenantId == Some(t.value.id) && t.value.id != "" && t.value in tenants
      ensures t.None? <==>
        || selectedTenantId == None
        || selectedTenantId == Some("")
        || forall k :: 0 <= k < |tenants| ==> tenants[k].id != selectedTenantId.value
    {
      match selectedTenantId
      case None => None
      case Some(id) => if id == "" then None else FindTenant(tenants, id)
    }

    /** The electricity charge at 12 rupees per unit, computed whether or
        not a tenant is selected. */
    function ElectricityCharges(): (r: real)
      reads this
      ensures r == 12.0 * electricityUnits
    {
      electricityUnits * ElectricityRate
    }

    /** The amount payable: nothing without a resolved tenant, otherwise rent,
        electricity at 12 per unit, water and extras, with no clamping of
        negative inputs. */
    function TotalAmount(): (r: real)
      reads this
      ensures SelectedTenant().None? ==> r == 0.0
      ensures SelectedTenant().Some? ==>
        r == SelectedTenant().value.monthlyRent + 12.0 * electricityUnits
             + SelectedTenant().value.waterBill + extraCharges
    {
      match SelectedTenant()
      case None => 0.0
      case Some(t) => t.monthlyRent + ElectricityCharges() + t.waterBill + extraCharges
    }

    /** The bill snapshot: absent exactly when no tenant resolves; otherwise
        the tenant's fields and the session's current values, internally
        consistent and carrying the current total. */
    function GenerateBillData(): (b: Option<BillData>)
      reads this
      ensures b.None? <==> SelectedTenant().None?
      ensures b.Some? ==>
        var t := SelectedTenant().value;
        && b.value.tenantId == t.id && b.value.tenantName == t.name
        && b.value.roomNumber == t.roomNumber && b.value.mobileNumber == t.mobileNumber
        && b.value.monthlyRent == t.monthlyRent && b.value.waterBill == t.waterBill
        && b.value.electricityUnits == electricityUnits
        && b.value.extraCharges == extraCharges
        && b.value.billingDate == billingDate
        && b.value.electricityRate == 12.0
        && b.value.totalAmount == TotalAmount()
        && Consistent(b.value)
    {
      match SelectedTenant()
      case None => None
      case Some(t) =>
        Some(BillData(
          tenantId := t.id,
          tenantName := t.name,
          roomNumber := t.roomNumber,
          mobileNumber := t.mobileNumber,
          monthlyRent := t.monthlyRent,
          electricityUnits := electricityUnits,
          electricityRate := ElectricityRate,
          electricityCharges := ElectricityCharges(),
          waterBill := t.waterBill,
          extraCharges := extraCharges,
          totalAmount := TotalAmount(),
          billingDate := billingDate))
    }

    /** Selecting a tenant (or none) always starts a new cycle. */
    method SelectTenant(id: Option<string>, now: int)
      modifies this
      ensures selectedTenantId == id
      ensures electricityUnits == 0.0 && extraCharges == 0.0 && billingDate == now
      ensures tenants == old(tenants) && ownerInfo == old(ownerInfo)
    {
      selectedTenantId := id;
      electricityUnits := 0.0;
      extraCharges := 0.0;
      billingDate := now;
    }

    method SetElectricityUnits(units: real)
      modifies this`electricityUnits
      ensures electricityUnits == units
    {
      electricityUnits := units;
    }

    method SetExtraCharges(charges: real)
      modifies this`extraCharges
      ensures extraCharges == charges
    {
      extraCharges := charges;
    }

    method SetBillingDate(date: int)
      modifies this`billingDate
      ensures billingDate == date
    {
      billingDate := date;
    }

    /** Replaces the owner profile wholesale. */
    method SetOwnerInfo(info: OwnerInfo)
      modifies this`ownerInfo
      ensures ownerInfo == info
    {
      ownerInfo := info;
    }

    /** Starts a new cycle for the same tenant. */
    method ResetBill(now: int)
      modifies this`electricityUnits, this`extraCharges, this`billingDate
      ensures electricityUnits == 0.0 && extraCharges == 0.0 && billingDate == now
      ensures selectedTenantId == old(selectedTenantId)
    {
      electricityUnits := 0.0;
      extraCharges := 0.0;
      billingDate := now;
    }
  }

  /** A selected id that no tenant carries bills nothing. */
  lemma StaleSelectionBillsNothing(s: BillingSession, id: string)
    requires s.selectedTenantId == Some(id)
    requires forall k :: 0 <= k < |s.tenants| ==> s.tenants[k].id != id
    ensures s.TotalAmount() == 0.0 && s.GenerateBillData() == None
  {
  }

  /** Every generated bill adds up. */
  lemma GeneratedBillIsConsistent(s: BillingSession)
    requires s.GenerateBillData().Some?
    ensures Consistent(s.GenerateBillData().value)
    ensures s.GenerateBillData().value.totalAmount
            == s.GenerateBillData().value.monthlyRent + 12.0 * s.electricityUnits
               + s.GenerateBillData().value.waterBill + s.extraCharges
  {
  }

  /** A cycle on one tenant, then a switch to another: the worked example
      (rent 5000, 10 units, water 200, extras 50 gives 120 for electricity and
      5370 in all), and the switch discarding the first tenant's values. */
  method SwitchingTenantsScenario(a: Tenant, b: Tenant, now: int, later: int)
    requires a.id == "a" && b.id == "b"
    requires a.monthlyRent == 5000.0 && a.waterBill == 200.0
  {
    var s := new BillingSession([a, b], None, now);
    assert s.TotalAmount() == 0.0;
    s.SelectTenant(Some("a"), now);
    s.SetElectricityUnits(10.0);
    s.SetExtraCharges(50.0);
    assert s.ElectricityCharges() == 120.0;
    assert s.TotalAmount() == 5370.0;
    var bill := s.GenerateBillData();
    assert bill.Some? && bill.value.electricityUnits == 10.0 && bill.value.extraCharges == 50.0;
    s.SelectTenant(Some("b"), later);
    assert s.electricityUnits == 0.0 && s.extraCharges == 0.0 && s.billingDate == later;
    assert s.tenants[1].id == "b";
    assert s.SelectedTenant().Some? && s.SelectedTenant().value.id == "b";
  }
}
