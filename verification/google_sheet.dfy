/**
 * The orders spreadsheet: the 18-column row written for each new order, the
 * header row written above the first one, where the append starts, and the
 * status overwrite that finds an order's row by its id.
 *
 * The Sheets API calls themselves are not modelled; the texts produced by
 * moment (`DD/MM`) and by formatPrice are passed in as `Stamps`.
 */
module GoogleSheet {
  import opened Common
  import opened JsText
  import opened Schemas

  /** The cells of a sheet row, as the services build or read them. */
  type Row = seq<Field>

  /** The creation date as `DD/MM` and the formatted total, computed outside. */
  datatype Stamps = Stamps(created: string, total: string)

  /** A text made only of whitespace, so that `trim()` leaves nothing. */
  predicate Blank(s: string)
  {
    forall i :: 0 <= i < |s| ==> IsSpace(s[i])
  }

  /** The date half of `deliveryDate.split(' de ')`. */
  function DateCell(deliveryDate: string): Field
  {
    Piece(deliveryDate, " de ", 0)
  }

  /** `${time}` for the time half of the split, "undefined" when there is none. */
  function TimeCell(deliveryDate: string): string
  {
    Template(Piece(deliveryDate, " de ", 1))
  }

  /** A delivery date "D de T" with a single separator yields D and T as its cells. */
  lemma {:induction false} DeliveryDateCells(d: string, t: string)
    requires IndexOf(d + " de " + t, " de ") == Some(|d|)
    requires IndexOf(t, " de ") == None
    ensures DateCell(d + " de " + t) == Str(d)
    ensures TimeCell(d + " de " + t) == t
  {
    var s := d + " de " + t;
    assert s[..|d|] == d;
    assert s[|d| + 4..] == t;
    assert Split(s, " de ") == [d] + Split(t, " de ");
  }

  /** Without the separator the whole date is the date cell and the time is "undefined". */
  lemma DeliveryDateWithoutTime(deliveryDate: string)
    requires IndexOf(deliveryDate, " de ") == None
    ensures DateCell(deliveryDate) == Str(deliveryDate)
    ensures TimeCell(deliveryDate) == "undefined"
  {
  }

  /** `STATUS[order.status]`. */
  function StatusLabel(status: string): (r: Field)
    ensures r.Str? <==> status in ["pending", "confirmed", "shipped", "delivered", "canceled"]
    ensures r.Undefined? <==> !r.Str?
  {
    match status
    case "pending" => Str("Pendiente")
    case "confirmed" => Str("Confirmado")
    case "shipped" => Str("Enviado")
    case "delivered" => Str("Entregado")
    case "canceled" => Str("Cancelado")
    case _ => Undefined
  }

  /** Every status an order can hold has a label, and distinct statuses get distinct labels. */
  lemma StatusLabelsCoverStatuses(a: int, b: int)
    requires StatusName(a).Some? && StatusName(b).Some?
    ensures StatusLabel(StatusName(a).value).Str?
    ensures (StatusLabel(StatusName(a).value) == StatusLabel(StatusName(b).value)) <==> (a == b)
  {
  }

  /** `PAYMENT_METHOD[order.paymentMethod]`: only cash and Mercado Pago have a label. */
  function PaymentLabel(pm: Field): (r: Field)
    ensures r.Str? <==> pm == Str("cash") || pm == Str("mercado-pago")
    ensures r.Undefined? <==> !r.Str?
  {
    match pm
    case Str("cash") => Str("Efectivo")
    case Str("mercado-pago") => Str("MercadoPago")
    case _ => Undefined
  }

  /** Of the payment codes, exactly cash and Mercado Pago are labelled; the rest leave the cell undefined. */
  lemma PaymentLabels(code: int)
    ensures PaymentLabel(PaymentMethodName(code)) == Str("Efectivo") <==> code == Cash
    ensures PaymentLabel(PaymentMethodName(code)) == Str("MercadoPago") <==> code == MercadoPago
    ensures (PaymentLabel(PaymentMethodName(code)) == Undefined) <==> (code != Cash && code != MercadoPago)
  {
  }

  /** `${item.name} - ${item.options[0]?.name} - ${item.options[0]?.quantity}`. */
  function ProductLine(item: OrderItem): string
  {
    if |item.options| > 0 then
      item.name + " - " + item.options[0].name + " - " + IntToString(item.options[0].quantity)
    else
      item.name + " - undefined - undefined"
  }

  function ProductLines(items: seq<OrderItem>): (r: seq<string>)
    ensures |r| == |items|
    ensures forall k :: 0 <= k < |items| ==> r[k] == ProductLine(items[k])
  {
    seq(|items|, k requires 0 <= k < |items| => ProductLine(items[k]))
  }

  /** The products cell: one line per item, joined by newlines. */
  function ProductsCell(items: seq<OrderItem>): string
  {
    Join(ProductLines(items), "\n")
  }

  /**
   * The products cell lists the items in order: when no line contains a
   * newline, splitting the cell on newlines gives back one line per item.
   */
  lemma ProductsCellLines(items: seq<OrderItem>)
    requires |items| >= 1
    requires forall k :: 0 <= k < |items| ==> Lacks(ProductLine(items[k]), '\n')
    ensures Split(ProductsCell(items), "\n") == ProductLines(items)
    ensures |Split(ProductsCell(items), "\n")| == |items|
  {
    SplitJoin(ProductLines(items), "\n");
  }

  /** The street address, with ", city" appended only when a city is given. */
  function AddressCell(a: OrderAddress): (r: string)
    ensures Truthy(a.city) ==> r == a.address + ", " + a.city.s
    ensures !Truthy(a.city) ==> r == a.address
  {
    if Truthy(a.city) then a.address + ", " + Template(a.city) else a.address
  }

  /** `Sí` when a floor number is given (truthy), `No` otherwise. */
  function ApartmentCell(a: OrderAddress): (r: string)
    ensures r == "Sí" <==> Truthy(a.floorNumber)
  {
    if Truthy(a.floorNumber) then "Sí" else "No"
  }

  /** Undefined, null or the text "null". */
  predicate NullLike(f: Field)
  {
    f == Undefined || f == Null || f == Str("null")
  }

  /** The floor and department columns: a blank for undefined, null or the text "null". */
  function NumberCell(f: Field): (r: string)
    ensures NullLike(f) ==> r == " "
    ensures (f.Str? && f.s != "null") ==> r == f.s
  {
    if f != Undefined && f != Str("null") && f != Null then Template(f) else " "
  }

  /** `${phoneNumber || phone || ' '}`: the first given phone, or a blank. */
  function PhoneCell(user: OrderUser, a: OrderAddress): (r: string)
    ensures Truthy(user.phoneNumber) ==> r == user.phoneNumber.s
    ensures !Truthy(user.phoneNumber) && Truthy(a.phone) ==> r == a.phone.s
    ensures !Truthy(user.phoneNumber) && !Truthy(a.phone) ==> r == " "
  {
    Template(OrElse(OrElse(user.phoneNumber, a.phone), Str(" ")))
  }

  /** The notes column: a blank for undefined or blank notes; null notes make `trim` throw. */
  function NotesCell(notes: Field): (r: Result<Field>)
    ensures r.Err? <==> notes == Null
  {
    match notes
    case Undefined => Ok(Str(" "))
    case Null => Err(TypeError("Cannot read properties of null (reading 'trim')"))
    case Str(n) => if Trim(n) != "" then Ok(notes) else Ok(Str(" "))
  }

  /** The between-streets column, prefixed when given and not blank; null makes `trim` throw. */
  function StreetsCell(streets: Field): (r: Result<Field>)
    ensures r.Err? <==> streets == Null
  {
    match streets
    case Undefined => Ok(Str(" "))
    case Null => Err(TypeError("Cannot read properties of null (reading 'trim')"))
    case Str(b) => if Trim(b) != "" then Ok(Str("Entre calles: " + b)) else Ok(Str(" "))
  }

  /** The column titles, in the order of the row. */
  const Headers: seq<string> := [
    "ID de pedido", "Fecha de pedido", "Fecha de entrega", "Horario de entrega",
    "Cliente", "Es departamento?", "Dirección", "Nota de dirección", "Piso",
    "Departamento", "Teléfono", "Email", "Productos", "Total", "Medio de Pago",
    "Estado", "Nota del pedido", "Entre calles"]

  /** The column the status sits in, counted from 0. */
  const StatusColumn := 15

  /** An order's row, one field per column, in the order of `Headers`. */
  datatype OrderRow = OrderRow(
    id: Field, created: Field, deliveryDate: Field, time: Field, client: Field,
    apartment: Field, address: Field, reference: Field, floor: Field, department: Field,
    phone: Field, email: Field, products: Field, total: Field, payment: Field,
    status: Field, notes: Field, streets: Field)

  /** The row as the array of cells sent to the sheet. */
  function Cells(row: OrderRow): (r: Row)
    ensures |r| == |Headers| && r[0] == row.id && r[StatusColumn] == row.status
  {
    [row.id, row.created, row.deliveryDate, row.time, row.client, row.apartment,
     row.address, row.reference, row.floor, row.department, row.phone, row.email,
     row.products, row.total, row.payment, row.status, row.notes, row.streets]
  }

  /** `getOrderValues`: the order's row, or the TypeError a null notes or between-streets field raises. */
  function OrderValues(order: Order, stamps: Stamps): (r: Result<OrderRow>)
    ensures r.Ok? <==> (order.notes != Null && order.address.betweenStreets != Null)
    ensures r.Ok? ==> r.value.id == Str(order.id) && r.value.status == StatusLabel(order.status)
  {
    var a := order.address;
    var notes := NotesCell(order.notes);
    var streets := StreetsCell(a.betweenStreets);
    if notes.Err? then Err(notes.error)
    else if streets.Err? then Err(streets.error)
    else
      Ok(OrderRow(
        Str(order.id),
        Str(stamps.created),
        DateCell(order.deliveryDate),
        Str(TimeCell(order.deliveryDate)),
        Str(order.user.name + " " + Template(order.user.lastName)),
        Str(ApartmentCell(a)),
        Str(AddressCell(a)),
        Str(if a.reference != Undefined then Template(a.reference) else " "),
        Str(NumberCell(a.floorNumber)),
        Str(NumberCell(a.departmentNumber)),
        Str(PhoneCell(order.user, a)),
        Str(order.user.email),
        Str(ProductsCell(order.items)),
        Str(stamps.total),
        PaymentLabel(order.paymentMethod),
        StatusLabel(order.status),
        notes.value,
        streets.value))
  }

  /** The cells sent for an order: as many as there are headers, the id first, its status in the status column. */
  lemma OrderCells(order: Order, stamps: Stamps)
    requires OrderValues(order, stamps).Ok?
    ensures var cells := Cells(OrderValues(order, stamps).value);
      && |cells| == |Headers| && cells[0] == Str(order.id)
      && Headers[StatusColumn] == "Estado" && cells[StatusColumn] == StatusLabel(order.status)
  {
  }

  /**
   * The columns with rules of their own: "Sí" exactly when a floor number is
   * given, and a blank reference, floor or department when there is nothing
   * to show.
   */
  lemma AddressColumns(order: Order, stamps: Stamps)
    requires OrderValues(order, stamps).Ok?
    ensures var row := OrderValues(order, stamps).value;
      && (row.apartment == Str("Sí") <==> Truthy(order.address.floorNumber))
      && (order.address.reference == Undefined ==> row.reference == Str(" "))
      && (NullLike(order.address.floorNumber) ==> row.floor == Str(" "))
      && (NullLike(order.address.departmentNumber) ==> row.department == Str(" "))
  {
  }

  /** Undefined or blank notes leave a blank; notes with any visible character are kept as they are. */
  lemma {:induction false} NotesColumn(order: Order, stamps: Stamps)
    requires OrderValues(order, stamps).Ok?
    ensures var row := OrderValues(order, stamps).value;
      && ((order.notes == Undefined || (order.notes.Str? && Blank(order.notes.s))) ==> row.notes == Str(" "))
      && ((order.notes.Str? && !Blank(order.notes.s)) ==> row.notes == order.notes)
  {
    if order.notes.Str? {
      TrimEmptyIffBlank(order.notes.s);
    }
  }

  /** Between-streets with any visible character is prefixed with "Entre calles: "; otherwise the cell is blank. */
  lemma {:induction false} StreetsColumn(order: Order, stamps: Stamps)
    requires OrderValues(order, stamps).Ok?
    ensures var b := order.address.betweenStreets; var row := OrderValues(order, stamps).value;
      && ((b.Str? && !Blank(b.s)) ==> row.streets == Str("Entre calles: " + b.s))
      && ((b == Undefined || (b.Str? && Blank(b.s))) ==> row.streets == Str(" "))
  {
    var b := order.address.betweenStreets;
    if b.Str? {
      TrimEmptyIffBlank(b.s);
    }
  }

  function HeaderRow(): (r: Row)
    ensures |r| == |Headers| && forall k :: 0 <= k < |r| ==> r[k] == Str(Headers[k])
  {
    seq(|Headers|, k requires 0 <= k < |Headers| => Str(Headers[k]))
  }

  /** `getHeaderValues`: the header row followed by the order's row, which has as many cells. */
  function HeaderValues(order: Order, stamps: Stamps): (r: Result<seq<Row>>)
    ensures r.Ok? <==> OrderValues(order, stamps).Ok?
    ensures r.Ok? ==> |r.value| == 2 && r.value[0] == HeaderRow()
    ensures r.Ok? ==> r.value[1] == Cells(OrderValues(order, stamps).value) && |r.value[0]| == |r.value[1]|
  {
    match OrderValues(order, stamps)
    case Err(e) => Err(e)
    case Ok(row) => Ok([HeaderRow(), Cells(row)])
  }

  /** What `addOrderToSheet` appends and the row its range starts at. */
  datatype Append = Append(values: seq<Row>, startRow: nat)

  /**
   * The append of a new order, given how many rows the sheet already has
   * (None when it returns no values at all): the headers go first only on a
   * sheet without rows, and the range starts just below the existing rows.
   */
  function SheetAppend(existing: Option<nat>, order: Order, stamps: Stamps): (r: Result<Append>)
    ensures r.Ok? <==> OrderValues(order, stamps).Ok?
    ensures r.Ok? ==> |r.value.values| >= 1
    ensures r.Ok? ==> r.value.values[|r.value.values| - 1] == Cells(OrderValues(order, stamps).value)
    ensures r.Ok? ==> (|r.value.values| == 2 <==> (existing.None? || existing.value == 0))
    ensures r.Ok? && |r.value.values| == 2 ==> r.value.values[0] == HeaderRow()
    ensures r.Ok? ==> r.value.startRow == (if existing.Some? then existing.value + 1 else 1)
  {
    match OrderValues(order, stamps)
    case Err(e) => Err(e)
    case Ok(row) =>
      var values := if existing.Some? && existing.value > 0 then [Cells(row)] else HeaderValues(order, stamps).value;
      Ok(Append(values, if existing.Some? then existing.value + 1 else 1))
  }

  /** The row of order `id`: its first cell is the id. */
  predicate RowFor(row: Row, id: string)
  {
    |row| > 0 && row[0] == Str(id)
  }

  /** `rows.findIndex(row => row[0] === id)`, None for -1. */
  function FirstRowFor(rows: seq<Row>, id: string): (r: Option<nat>)
    ensures r.Some? ==> r.value < |rows| && RowFor(rows[r.value], id)
    ensures r.Some? ==> forall j :: 0 <= j < r.value ==> !RowFor(rows[j], id)
    ensures r.None? ==> forall j :: 0 <= j < |rows| ==> !RowFor(rows[j], id)
  {
    if |rows| == 0 then None
    else if RowFor(rows[0], id) then Some(0)
    else match FirstRowFor(rows[1..], id)
      case None => None
      case Some(i) => Some(i + 1)
  }

  /**
   * `row[15] = status` on a JS array: a shorter row grows to 16 cells, the
   * holes in between being sent as null.
   */
  function WithStatus(row: Row, status: string): (r: Row)
    ensures |r| == if |row| > StatusColumn then |row| else StatusColumn + 1
    ensures r[StatusColumn] == Str(status)
    ensures forall k :: 0 <= k < |row| && k != StatusColumn ==> r[k] == row[k]
    ensures forall k :: |row| <= k < StatusColumn ==> r[k] == Null
  {
    if |row| > StatusColumn then row[StatusColumn := Str(status)]
    else row + seq(StatusColumn - |row|, _ => Null) + [Str(status)]
  }

  /** Setting the status twice is setting it once, to the last value. */
  lemma WithStatusTwice(row: Row, s1: string, s2: string)
    ensures WithStatus(WithStatus(row, s1), s2) == WithStatus(row, s2)
  {
  }

  /**
   * `updateOrderStatus` on the rows below the header: the first row whose
   * first cell is the order id gets the new status, and the sheet row number
   * it is written back to (index + 2) is returned; no such row is an error.
   */
  method UpdateOrderStatus(rows: array<Row>, orderId: string, newStatus: string) returns (r: Result<nat>)
    modifies rows
    ensures FirstRowFor(old(rows[..]), orderId).None? ==>
      r == Err(InternalError("Order with ID " + orderId + " not found.")) && rows[..] == old(rows[..])
    ensures FirstRowFor(old(rows[..]), orderId).Some? ==>
      var i := FirstRowFor(old(rows[..]), orderId).value;
      && r == Ok(i + 2)
      && rows[..] == old(rows[..])[i := WithStatus(old(rows[i]), newStatus)]
  {
    var i := 0;
    while i < rows.Length && !RowFor(rows[i], orderId)
      invariant 0 <= i <= rows.Length
      invariant forall j :: 0 <= j < i ==> !RowFor(rows[j], orderId)
    {
      i := i + 1;
    }
    if i == rows.Length {
      return Err(InternalError("Order with ID " + orderId + " not found."));
    }
    assert FirstRowFor(rows[..], orderId) == Some(i) by {
      assert RowFor(rows[..][i], orderId);
      assert forall j :: 0 <= j < i ==> !RowFor(rows[..][j], orderId);
    }
    rows[i] := WithStatus(rows[i], newStatus);
    r := Ok(i + 2);
  }
}
