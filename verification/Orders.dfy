/** The rows of `orders_fired`: what the executor writes of an order, and what a restart reads back. */
module Orders {
  import opened Wrappers

  datatype Direction = Yes | No

  datatype Status = Pending | Submitted | Accepted | Rejected | Filled | Canceled | Error

  /** A fixed-point text column. `Garbage` does not parse; `prefix` is what the database's own cast reads off it. */
  datatype Column = Parsed(value: real) | Garbage(prefix: real)

  /** The number a column counts for when it is read back: garbage counts as zero. */
  function AsFloat(c: Column): real { if c.Parsed? then c.value else 0.0 }

  /** The number the table's constraints see. */
  function Cast(c: Column): real { if c.Parsed? then c.value else c.prefix }

  /** One row; `response` stands for the columns that only copy the exchange's answer. */
  datatype OrderRow = OrderRow(
    id: string, correlation: Option<string>, ticker: string, group: Option<string>, side: Direction,
    count: Column, price: Column, status: Status, response: string, fillCount: Option<Column>, requestedAt: int)
}
