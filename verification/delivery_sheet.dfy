/**
 * The same-day delivery spreadsheet: one tab per zone, to which each
 * same-day order is written as a 16-column row just below the rows already
 * there. The tab creation, the drop-down validations and the Sheets API calls
 * are not modelled; the texts produced by moment (`DD/MM/YY`) and by
 * `toLocaleString` are passed in.
 */
module DeliverySheet {
  import opened Common
  import opened JsText
  import opened Schemas
  import opened GoogleSheet

  /**
   * `(values?.length || 1) + 1`, given how many rows the tab returns (None
   * when it returns no values): the row just below the existing ones, and
   * never the header row.
   */
  function NextRow(existing: Option<nat>): (r: nat)
    ensures r >= 2
    ensures existing.Some? && existing.value > 0 ==> r == existing.value + 1
    ensures (existing.None? || existing.value == 0) ==> r == 2
  {
    (if existing.Some? && existing.value != 0 then existing.value else 1) + 1
  }

  /** `.filter(Boolean)` on texts: the non-empty ones, in order. */
  function NonEmpty(parts: seq<string>): (r: seq<string>)
    ensures |r| <= |parts|
    ensures forall k :: 0 <= k < |r| ==> r[k] != ""
  {
    if |parts| == 0 then []
    else if parts[0] != "" then [parts[0]] + NonEmpty(parts[1..])
    else NonEmpty(parts[1..])
  }

  /** `.filter(Boolean)` on fields: the texts of the truthy ones, in order. */
  function TruthyTexts(fields: seq<Field>): (r: seq<string>)
    ensures |r| <= |fields|
  {
    if |fields| == 0 then []
    else if Truthy(fields[0]) then [fields[0].s] + TruthyTexts(fields[1..])
    else TruthyTexts(fields[1..])
  }

  /** "Piso X" and "Depto Y" for the given (truthy) numbers, joined by a space. */
  function FloorAndDepartment(a: OrderAddress): (r: string)
    ensures Truthy(a.floorNumber) && Truthy(a.departmentNumber) ==>
      r == "Piso " + a.floorNumber.s + " Depto " + a.departmentNumber.s
    ensures Truthy(a.floorNumber) && !Truthy(a.departmentNumber) ==> r == "Piso " + a.floorNumber.s
    ensures !Truthy(a.floorNumber) && Truthy(a.departmentNumber) ==> r == "Depto " + a.departmentNumber.s
    ensures !Truthy(a.floorNumber) && !Truthy(a.departmentNumber) ==> r == ""
  {
    var floor := if Truthy(a.floorNumber) then "Piso " + Template(a.floorNumber) else "";
    var department := if Truthy(a.departmentNumber) then "Depto " + Template(a.departmentNumber) else "";
    assert NonEmpty([floor, department]) == (if floor != "" then [floor] else []) + (if department != "" then [department] else []) by {
      assert [floor, department][1..] == [department];
      assert [department][1..] == [];
    }
    var kept := NonEmpty([floor, department]);
    assert |kept| == 2 ==> Join(kept, " ") == kept[0] + " " + kept[1] by {
      if |kept| == 2 {
        assert kept[1..] == [kept[1]];
      }
    }
    Join(kept, " ")
  }

  /** The order notes and the address reference, the given ones joined by a newline. */
  function NotesCell(notes: Field, reference: Field): (r: string)
    ensures Truthy(notes) && Truthy(reference) ==> r == notes.s + "\n" + reference.s
    ensures Truthy(notes) && !Truthy(reference) ==> r == notes.s
    ensures !Truthy(notes) && Truthy(reference) ==> r == reference.s
    ensures !Truthy(notes) && !Truthy(reference) ==> r == ""
  {
    assert TruthyTexts([notes, reference]) == (if Truthy(notes) then [notes.s] else []) + (if Truthy(reference) then [reference.s] else []) by {
      assert [notes, reference][1..] == [reference];
      assert [reference][1..] == [];
    }
    var kept := TruthyTexts([notes, reference]);
    assert |kept| == 2 ==> Join(kept, "\n") == kept[0] + "\n" + kept[1] by {
      if |kept| == 2 {
        assert kept[1..] == [kept[1]];
      }
    }
    Join(kept, "\n")
  }

  /** When both notes are given and neither holds a newline, the cell splits back into the two. */
  lemma NotesCellSplits(notes: Field, reference: Field)
    requires Truthy(notes) && Truthy(reference)
    requires Lacks(notes.s, '\n') && Lacks(reference.s, '\n')
    ensures Split(NotesCell(notes, reference), "\n") == [notes.s, reference.s]
  {
    SplitJoin([notes.s, reference.s], "\n");
  }

  /** The 16 columns of a zone tab's row. */
  datatype ZoneOrderRow = ZoneOrderRow(
    date: string, notes: string, shipping: string, deliveryStatus: string, client: string,
    address: string, apartment: string, floors: string, streets: string, phone: string,
    email: string, products: string, total: string, payment: string, paymentStatus: string,
    link: string)

  /** The row as the array of values. */
  function Values(row: ZoneOrderRow): (r: seq<string>)
    ensures |r| == 16 && r[0] == row.date && r[15] == row.link
  {
    [row.date, row.notes, row.shipping, row.deliveryStatus, row.client, row.address,
     row.apartment, row.floors, row.streets, row.phone, row.email, row.products,
     row.total, row.payment, row.paymentStatus, row.link]
  }

  /** `formatOrderValues`: the order's row, date and link left empty, both statuses pending. */
  function FormatOrderValues(order: Order, total: string): (r: ZoneOrderRow)
    ensures r.date == "" && r.shipping == "" && r.link == ""
    ensures r.deliveryStatus == "Pendiente" && r.paymentStatus == "Pendiente" && r.payment == "Transferencia"
    ensures (r.apartment == "Sí") <==> Truthy(order.address.floorNumber)
    ensures (r.floors == " ") <==> (!Truthy(order.address.floorNumber) && !Truthy(order.address.departmentNumber))
    ensures r.streets == (if Truthy(order.address.betweenStreets) then order.address.betweenStreets.s else " ")
  {
    var a := order.address;
    var floors := FloorAndDepartment(a);
    ZoneOrderRow(
      "",
      NotesCell(order.notes, a.reference),
      "",
      "Pendiente",
      order.user.name + " " + Template(order.user.lastName),
      AddressCell(a),
      ApartmentCell(a),
      if floors != "" then floors else " ",
      Template(OrElse(a.betweenStreets, Str(" "))),
      PhoneCell(order.user, a),
      order.user.email,
      ProductsCell(order.items),
      total,
      "Transferencia",
      "Pendiente",
      "")
  }

  /** The link formula written in the last column. */
  const ReceiptLink := "=HIPERVINCULO(\"Insertar link\", \"Ver comprobante\")"

  /**
   * The row as it stands after both writes of `addOrderToZoneSheet`: the
   * creation date, the formatted values but the first and the last, and the
   * link formula. It is the formatted row with its date and link filled in.
   */
  function ZoneRow(order: Order, created: string, total: string): (r: seq<string>)
    ensures r == Values(FormatOrderValues(order, total).(date := created, link := ReceiptLink))
  {
    var row := FormatOrderValues(order, total);
    var filled := row.(date := created, link := ReceiptLink);
    assert Values(row)[1..15] == Values(filled)[1..15];
    assert Values(filled) == [created] + Values(filled)[1..15] + [ReceiptLink];
    [created] + Values(row)[1..15] + [ReceiptLink]
  }

  /**
   * Both sheets describe the order alike: the same client, address,
   * apartment flag, phone, email and products texts. The totals are printed
   * by two different formatters (`formatPrice` and `toLocaleString`), so each
   * sheet gets its own total text and nothing is said of how they compare.
   */
  lemma SheetsAgree(order: Order, stamps: Stamps, zoneTotal: string)
    requires OrderValues(order, stamps).Ok?
    ensures var zone := FormatOrderValues(order, zoneTotal); var row := OrderValues(order, stamps).value;
      && row.client == Str(zone.client) && row.address == Str(zone.address)
      && row.apartment == Str(zone.apartment) && row.phone == Str(zone.phone)
      && row.email == Str(zone.email) && row.products == Str(zone.products)
  {
  }
}
