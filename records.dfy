/**
  The records the components pass around: tenants and their payment history,
  the owner's profile, the bill snapshot, and the calls made into the tenant
  directory hook (whose implementation is not part of this model).
  Money amounts and meter units are `real` (JavaScript numbers); dates are
  integer timestamps.
*/
module Records {
  import opened Wrappers

  /** One settled billing cycle of a tenant. */
  datatype PaymentRecord = PaymentRecord(
    id: string,
    date: int,
    billingMonth: string,
    amount: real,
    rentAmount: real,
    electricityUnits: real,
    electricityAmount: real,
    waterAmount: real,
    extraAmount: real)

  /** A tenant as stored in the directory. `paymentHistory` may be absent in
      stored data, hence the `Option`. */
  datatype Tenant = Tenant(
    id: string,
    name: string,
    roomNumber: string,
    mobileNumber: string,
    monthlyRent: real,
    waterBill: real,
    paymentHistory: Option<seq<PaymentRecord>>,
    createdAt: int,
    updatedAt: int)

  /** The editable fields of a tenant, as handed to `addTenant` and
      `updateTenant`. */
  datatype TenantFields = TenantFields(
    name: string,
    roomNumber: string,
    mobileNumber: string,
    monthlyRent: real,
    waterBill: real)

  function FieldsOf(t: Tenant): TenantFields {
    TenantFields(t.name, t.roomNumber, t.mobileNumber, t.monthlyRent, t.waterBill)
  }

  /** The biller's own identity, included in outgoing messages. */
  datatype OwnerInfo = OwnerInfo(name: string, mobileNumber: string, upiId: string)

  /** The owner profile before anything has been saved. */
  const DefaultOwner := OwnerInfo("", "", "")

  /** The snapshot `generateBillData` assembles. */
  datatype BillData = BillData(
    tenantId: string,
    tenantName: string,
    roomNumber: string,
    mobileNumber: string,
    monthlyRent: real,
    electricityUnits: real,
    electricityRate: real,
    electricityCharges: real,
    waterBill: real,
    extraCharges: real,
    totalAmount: real,
    billingDate: int)

  /** The arithmetic a bill must satisfy: the electricity charge is units
      times rate, and the total is the sum of the four charges. */
  predicate Consistent(b: BillData) {
    && b.electricityCharges == b.electricityUnits * b.electricityRate
    && b.totalAmount == b.monthlyRent + b.electricityCharges + b.waterBill + b.extraCharges
  }

  /** A call into the tenant directory hook. The hook's effect on the stored
      tenants is not modelled; the handlers return the calls they make. */
  datatype DirectoryCall =
    | AddTenant(fields: TenantFields)
    | UpdateTenant(id: string, fields: TenantFields)
    | DeleteTenant(id: string)
    | DeletePaymentRecord(tenantId: string, recordId: string)
}
