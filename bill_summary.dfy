/**
  The bill summary screen: the owner-profile dialog and the WhatsApp
  message built from the current bill.

  The message is the list of lines the handler appends (BillLines), each
  rendered to its text (Render) and concatenated in order (RenderAll). Number
  and date formatting are parameters (Formatters), as is the URL encoding.
*/
module BillSummary {
  import opened Wrappers
  import opened Text
  import opened Records
  import opened BillingContext

  /** Formatting done by the runtime: `toLocaleString()` on an amount,
      `String(n)` on a number, and the month-and-year date format. */
  datatype Formatters = Formatters(
    money: real -> string,
    number: real -> string,
    monthYear: int -> string)

  /** One appended piece of the message. */
  datatype Line =
    | Greeting(tenantName: string)
    | Period(date: int)
    | Rent(amount: real)
    | Units(units: real)
    | ElectricityCharge(amount: real)
    | Water(amount: real)
    | Extra(amount: real)
    | Total(amount: real)
    | OwnerSeparator
    | OwnerName(ownerName: string)
    | OwnerUpi(upiId: string)
    | OwnerMobile(mobile: string)
    | Closing

  const Rupee: string := "\U{20B9}"

  /** The text appended for one line. */
  function Render(l: Line, fmt: Formatters): (r: string)
    ensures l != Closing ==> |r| > 0 && r[|r| - 1] == '\n'
  {
    match l
    case Greeting(n) => "Hello " + n + ",\n\n"
    case Period(d) => "Here are the bill details for " + fmt.monthYear(d) + ":\n\n"
    case Rent(x) => "\U{1F3E0} Room Rent: " + Rupee + fmt.money(x) + "\n"
    case Units(u) => "\U{26A1} Electricity Used: " + fmt.number(u) + " units\n"
    case ElectricityCharge(x) => "\U{1F4A1} Electricity Charges: " + Rupee + fmt.money(x) + "\n"
    case Water(x) => "\U{1F6B0} Water Bill: " + Rupee + fmt.money(x) + "\n"
    case Extra(x) => "\U{2795} Extra Charges: " + Rupee + fmt.money(x) + "\n"
    case Total(x) => "\n\U{1F4B0} *Total Payable Amount: " + Rupee + fmt.money(x) + "*\n"
    case OwnerSeparator => "\n---\n"
    case OwnerName(n) => "Owner Name: " + n + "\n"
    case OwnerUpi(u) => "UPI ID: " + u + "\n"
    case OwnerMobile(m) => "Mobile: " + m + "\n"
    case Closing => "\nThank you."
  }

  function RenderAll(ls: seq<Line>, fmt: Formatters): string {
    if ls == [] then "" else Render(ls[0], fmt) + RenderAll(ls[1..], fmt)
  }

  /** The owner block: present when any owner field is non-empty, listing
      the non-empty ones in the order name, UPI id, mobile. */
  function OwnerLines(o: OwnerInfo): (r: seq<Line>)
    ensures r == [] <==> o.name == "" && o.upiId == "" && o.mobileNumber == ""
    ensures |r| <= 4
  {
    if o.name != "" || o.upiId != "" || o.mobileNumber != "" then
      [OwnerSeparator] + IfSet(o.name, OwnerName(o.name)) + IfSet(o.upiId, OwnerUpi(o.upiId))
      + IfSet(o.mobileNumber, OwnerMobile(o.mobileNumber))
    else []
  }

  /** The line for an owner field, when the field is set. */
  function IfSet(field: string, l: Line): seq<Line> {
    if field != "" then [l] else []
  }

  /** The extra-charges line, only when the extras are positive. */
  function ExtraLines(b: BillData): (r: seq<Line>)
    ensures r != [] <==> b.extraCharges > 0.0
  {
    if b.extraCharges > 0.0 then [Extra(b.extraCharges)] else []
  }

  /** The whole message, line by line: greeting, period, rent, units,
      electricity, water, the extras, the total, the owner block and the
      closing line. */
  function BillLines(b: BillData, owner: OwnerInfo): (r: seq<Line>)
    ensures 8 <= |r| <= 13
    ensures r[0] == Greeting(b.tenantName) && r[|r| - 1] == Closing
    ensures Total(b.totalAmount) in r
  {
    [Greeting(b.tenantName)] + [Period(b.billingDate)] + [Rent(b.monthlyRent)]
    + [Units(b.electricityUnits)] + [ElectricityCharge(b.electricityCharges)] + [Water(b.waterBill)]
    + ExtraLines(b)
    + [Total(b.totalAmount)]
    + OwnerLines(owner)
    + [Closing]
  }

  /** The message opens by greeting the tenant by name and closes with the
      thanks. */
  function Message(b: BillData, owner: OwnerInfo, fmt: Formatters): (m: string)
    ensures var hello := "Hello " + b.tenantName + ",\n\n";
      |hello| <= |m| && m[..|hello|] == hello
    ensures var bye := "\nThank you.";
      |bye| <= |m| && m[|m| - |bye|..] == bye
  {
    RenderedFrame(BillLines(b, owner), b.tenantName, fmt);
    RenderAll(BillLines(b, owner), fmt)
  }

  /** The chat number: the digits of the stored mobile number; the URL puts
      the country code 91 in front of it. */
  function WhatsAppPhone(mobile: string): (r: string)
    ensures AllDigits(r) && |r| <= |mobile|
  {
    DigitsOnly(mobile)
  }

  /** What the send handler opens. */
  datatype Outgoing = Outgoing(phone: string, message: string, url: string)

  /** The chat link: wa.me with the country code 91 and the chat number,
      then the encoded message as the `text` parameter. */
  function WhatsAppUrl(phone: string, message: string, encode: string -> string): (r: string)
    ensures |r| == 22 + |phone| + |encode(message)|
    ensures r[..16] == "https://wa.me/91" && r[16..16 + |phone|] == phone
    ensures r[16 + |phone|..22 + |phone|] == "?text=" && r[22 + |phone|..] == encode(message)
  {
    "https://wa.me/91" + phone + "?text=" + encode(message)
  }

  /** Rendering a list extended by one line extends the text by that line. */
  lemma {:induction false} RenderAllSnoc(ls: seq<Line>, l: Line, fmt: Formatters)
    ensures RenderAll(ls + [l], fmt) == RenderAll(ls, fmt) + Render(l, fmt)
  {
    if ls == [] {
      assert [] + [l] == [l];
    } else {
      assert (ls + [l])[1..] == ls[1..] + [l];
      RenderAllSnoc(ls[1..], l, fmt);
    }
  }

  /** Any rendering of lines that start with a greeting and end with the
      closing line starts with the greeting text and ends with the thanks. */
  lemma RenderedFrame(ls: seq<Line>, name: string, fmt: Formatters)
    requires |ls| >= 2 && ls[0] == Greeting(name) && ls[|ls| - 1] == Closing
    ensures var m := RenderAll(ls, fmt);
      var hello := "Hello " + name + ",\n\n";
      var bye := "\nThank you.";
      && |hello| <= |m| && m[..|hello|] == hello
      && |bye| <= |m| && m[|m| - |bye|..] == bye
  {
    var init := ls[..|ls| - 1];
    assert ls == init + [Closing];
    RenderAllSnoc(init, Closing, fmt);
  }

  /** Where a line may stand within the owner block: the separator first,
      then name, UPI id and mobile. */
  function OwnerRank(l: Line): nat {
    match l
    case OwnerSeparator => 0
    case OwnerName(_) => 1
    case OwnerUpi(_) => 2
    case OwnerMobile(_) => 3
    case _ => 4
  }

  /** The owner block is there exactly when some owner field is set, and
      each field's line is there exactly when that field is set; it opens
      with the separator and lists name, UPI id and mobile in that order. */
  lemma OwnerBlockShown(o: OwnerInfo)
    ensures OwnerSeparator in OwnerLines(o) <==> (o.name != "" || o.upiId != "" || o.mobileNumber != "")
    ensures OwnerName(o.name) in OwnerLines(o) <==> o.name != ""
    ensures OwnerUpi(o.upiId) in OwnerLines(o) <==> o.upiId != ""
    ensures OwnerMobile(o.mobileNumber) in OwnerLines(o) <==> o.mobileNumber != ""
    ensures |OwnerLines(o)| <= 4
    ensures forall a, b :: 0 <= a < b < |OwnerLines(o)| ==> OwnerRank(OwnerLines(o)[a]) < OwnerRank(OwnerLines(o)[b])
  {
  }

  /** The message's lines in order: greeting, period, rent, units,
      electricity, water, then the extras line when there is one, the total,
      the owner block and the closing thanks. */
  lemma BillLinesOrder(b: BillData, owner: OwnerInfo)
    ensures var ls := BillLines(b, owner);
      var n := |ExtraLines(b)|;
      && ls[..6] == [Greeting(b.tenantName), Period(b.billingDate), Rent(b.monthlyRent),
                     Units(b.electricityUnits), ElectricityCharge(b.electricityCharges), Water(b.waterBill)]
      && (b.extraCharges > 0.0 ==> ls[6] == Extra(b.extraCharges))
      && ls[6 + n] == Total(b.totalAmount)
      && ls[7 + n..|ls| - 1] == OwnerLines(owner)
  {
  }

  /** The extra-charges line appears exactly when the extras are positive. */
  lemma ExtraLineShown(b: BillData, owner: OwnerInfo)
    ensures (exists x :: Extra(x) in BillLines(b, owner)) <==> b.extraCharges > 0.0
  {
    var ls := BillLines(b, owner);
    if b.extraCharges > 0.0 {
      assert Extra(b.extraCharges) in ls;
    } else {
      assert ls == [Greeting(b.tenantName), Period(b.billingDate), Rent(b.monthlyRent),
                    Units(b.electricityUnits), ElectricityCharge(b.electricityCharges),
                    Water(b.waterBill), Total(b.totalAmount)] + OwnerLines(owner) + [Closing];
    }
  }

  /** The rupee amount a line itemises: rent, electricity, water and extras
      do; the total and every other line do not. */
  function Amount(l: Line): real {
    match l
    case Rent(x) => x
    case ElectricityCharge(x) => x
    case Water(x) => x
    case Extra(x) => x
    case _ => 0.0
  }

  /** The sum of the rupee amounts itemised in a message. */
  function Itemised(ls: seq<Line>): real {
    if ls == [] then 0.0 else Amount(ls[0]) + Itemised(ls[1..])
  }

  lemma {:induction false} ItemisedAppend(a: seq<Line>, b: seq<Line>)
    ensures Itemised(a + b) == Itemised(a) + Itemised(b)
  {
    if a == [] {
      assert a + b == b;
    } else {
      assert (a + b)[1..] == a[1..] + b;
      ItemisedAppend(a[1..], b);
    }
  }

  /** Extending a message by one line adds that line's amount. */
  lemma ItemisedSnoc(a: seq<Line>, l: Line)
    ensures Itemised(a + [l]) == Itemised(a) + Amount(l)
  {
    ItemisedAppend(a, [l]);
    assert [l][1..] == [];
  }

  /** For a bill that adds up, the amounts itemised in the message add up to
      the stated total exactly when the extra charges are not negative:
      negative extras count in the total but are never listed. */
  lemma ItemisedMatchesTotalIffExtrasNotNegative(b: BillData, owner: OwnerInfo)
    requires Consistent(b)
    ensures Itemised(BillLines(b, owner)) == b.totalAmount <==> b.extraCharges >= 0.0
  {
    var p1 := [Greeting(b.tenantName)];
    var p2 := p1 + [Period(b.billingDate)];
    var p3 := p2 + [Rent(b.monthlyRent)];
    var p4 := p3 + [Units(b.electricityUnits)];
    var p5 := p4 + [ElectricityCharge(b.electricityCharges)];
    var p6 := p5 + [Water(b.waterBill)];
    var p7 := p6 + ExtraLines(b);
    var p8 := p7 + [Total(b.totalAmount)];
    var p9 := p8 + OwnerLines(owner);
    assert Itemised(p1) == 0.0 by {
      assert p1[1..] == [];
    }
    ItemisedSnoc(p1, Period(b.billingDate));
    ItemisedSnoc(p2, Rent(b.monthlyRent));
    ItemisedSnoc(p3, Units(b.electricityUnits));
    ItemisedSnoc(p4, ElectricityCharge(b.electricityCharges));
    ItemisedSnoc(p5, Water(b.waterBill));
    ItemisedAppend(p6, ExtraLines(b));
    assert Itemised(ExtraLines(b)) == if b.extraCharges > 0.0 then b.extraCharges else 0.0 by {
      if b.extraCharges > 0.0 {
        assert ExtraLines(b)[1..] == [];
      }
    }
    ItemisedSnoc(p7, Total(b.totalAmount));
    ItemisedAppend(p8, OwnerLines(owner));
    OwnerLinesItemiseNothing(owner);
    ItemisedSnoc(p9, Closing);
  }

  /** The owner block lists no amounts. */
  lemma OwnerLinesItemiseNothing(o: OwnerInfo)
    ensures Itemised(OwnerLines(o)) == 0.0
  {
    if o.name != "" || o.upiId != "" || o.mobileNumber != "" {
      var n := IfSet(o.name, OwnerName(o.name));
      var u := IfSet(o.upiId, OwnerUpi(o.upiId));
      var m := IfSet(o.mobileNumber, OwnerMobile(o.mobileNumber));
      assert Itemised([OwnerSeparator]) == 0.0 by {
        assert [OwnerSeparator][1..] == [];
      }
      IfSetItemisesNothing(o.name, OwnerName(o.name));
      IfSetItemisesNothing(o.upiId, OwnerUpi(o.upiId));
      IfSetItemisesNothing(o.mobileNumber, OwnerMobile(o.mobileNumber));
      ItemisedAppend([OwnerSeparator], n);
      ItemisedAppend([OwnerSeparator] + n, u);
      ItemisedAppend([OwnerSeparator] + n + u, m);
    }
  }

  lemma IfSetItemisesNothing(field: string, l: Line)
    requires Amount(l) == 0.0
    ensures Itemised(IfSet(field, l)) == 0.0
  {
    if field != "" {
      assert IfSet(field, l)[1..] == [];
    }
  }

  /** A mobile number that passed the form check and was stored trimmed
      gives a chat number of exactly ten digits. */
  lemma AcceptedMobileGivesTenDigitPhone(m: string)
    requires IsTenDigits(StripWhitespace(m))
    ensures IsTenDigits(WhatsAppPhone(Trim(m)))
  {
    StripWhitespaceOfTrim(m);
    DigitsOnlyWhenStrippedIsDigits(Trim(m));
  }

  /** The bill summary screen's own state: the owner profile being edited in
      the settings dialog and whether that dialog is open. */
  class BillSummaryView {
    const context: BillingSession
    var localOwnerInfo: OwnerInfo
    var isSettingsOpen: bool

    constructor (context: BillingSession)
      ensures this.context == context
      ensures localOwnerInfo == context.ownerInfo && !isSettingsOpen
    {
      this.context := context;
      localOwnerInfo := context.ownerInfo;
      isSettingsOpen := false;
    }

    /** Opening the dialog reloads the saved profile into it; closing it
        keeps whatever was typed. */
    method SetSettingsOpen(open: bool)
      modifies this`isSettingsOpen, this`localOwnerInfo
      ensures isSettingsOpen == open
      ensures localOwnerInfo == if open then context.ownerInfo else old(localOwnerInfo)
    {
      isSettingsOpen := open;
      if open {
        localOwnerInfo := context.ownerInfo;
      }
    }

    method EditLocalOwnerInfo(info: OwnerInfo)
      modifies this`localOwnerInfo
      ensures localOwnerInfo == info
    {
      localOwnerInfo := info;
    }

    /** Saving stores the edited profile in the session and closes the
        dialog; the bill itself is untouched. */
    method SaveOwnerInfo()
      modifies context`ownerInfo, this`isSettingsOpen
      ensures context.ownerInfo == localOwnerInfo && !isSettingsOpen
      ensures context.GenerateBillData() == old(context.GenerateBillData())
    {
      context.SetOwnerInfo(localOwnerInfo);
      isSettingsOpen := false;
    }

    /** Builds the message for the current bill and the chat link; nothing
        when no tenant resolves. */
    method SendWhatsApp(fmt: Formatters, encode: string -> string) returns (out: Option<Outgoing>)
      ensures out.None? <==> context.GenerateBillData().None?
      ensures out.Some? ==>
        var b := context.GenerateBillData().value;
        && out.value.message == Message(b, context.ownerInfo, fmt)
        && out.value.phone == WhatsAppPhone(b.mobileNumber)
        && out.value.url == WhatsAppUrl(out.value.phone, out.value.message, encode)
    {
      var billData := context.GenerateBillData();
      if billData.None? {
        return None;
      }
      var b := billData.value;
      var message := Message(b, context.ownerInfo, fmt);
      var phoneNumber := DigitsOnly(b.mobileNumber);
      out := Some(Outgoing(phoneNumber, message, "https://wa.me/91" + phoneNumber + "?text=" + encode(message)));
    }
  }
}
