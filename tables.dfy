// The gateway's fixed lookup tables: the (direction, offset) <-> order type
// code map used when placing orders and when reading them back, and the
// exchange status codes (numeric for futures and swap, words for spot).
// A lookup the Python dict would answer with KeyError answers None here.

module Tables {
  import opened Common

  /** vnpy's direction constants; NoDirection is the default of a fresh order record. */
  datatype Direction = NoDirection | Long | Short | Net

  /** vnpy's offset constants; NoOffset is the default of a fresh order record. */
  datatype Offset = NoOffset | Open | Close | CloseToday | CloseYesterday

  /** vnpy's order statuses; NoStatus is the default of a fresh order record. */
  datatype Status = NoStatus | NotTraded | PartTraded | AllTraded | Cancelled | Rejected

  /** typeMap: the order type code for a (direction, offset) pair. */
  function TypeCode(d: Direction, o: Offset): (r: Option<string>)
    ensures r.Some? <==> (d == Long || d == Short) && (o == Open || o == Close)
    ensures r.Some? ==> r.value in {"1", "2", "3", "4"}
  {
    match (d, o)
    case (Long, Open) => Some("1")
    case (Short, Open) => Some("2")
    case (Long, Close) => Some("4")   // cover
    case (Short, Close) => Some("3")  // sell
    case _ => None
  }

  /** typeMapReverse: the dictionary inverse of typeMap. */
  function TypeOf(code: string): (r: Option<(Direction, Offset)>)
    ensures r.Some? <==> code in {"1", "2", "3", "4"}
  {
    match code
    case "1" => Some((Long, Open))
    case "2" => Some((Short, Open))
    case "3" => Some((Short, Close))
    case "4" => Some((Long, Close))
    case _ => None
  }

  /** Decoding an encoded pair gives the pair back. */
  lemma TypeDecodeEncode(d: Direction, o: Offset)
    requires TypeCode(d, o).Some?
    ensures TypeOf(TypeCode(d, o).value) == Some((d, o))
  {
  }

  /** Encoding a decoded code gives the code back. */
  lemma TypeEncodeDecode(code: string)
    requires TypeOf(code).Some?
    ensures TypeCode(TypeOf(code).value.0, TypeOf(code).value.1) == Some(code)
  {
  }

  /** The four pairs get four different codes. */
  lemma TypeCodeInjective(d1: Direction, o1: Offset, d2: Direction, o2: Offset)
    requires TypeCode(d1, o1).Some? && TypeCode(d1, o1) == TypeCode(d2, o2)
    ensures d1 == d2 && o1 == o2
  {
    TypeDecodeEncode(d1, o1);
    TypeDecodeEncode(d2, o2);
  }

  /** statusMapReverse. */
  function StatusOf(code: string): (r: Option<Status>)
    ensures r.Some? <==> code in {"0", "1", "2", "-1", "-2", "open", "part_filled", "filled", "cancelled", "failure"}
    ensures r != Some(NoStatus)
  {
    match code
    // futures and swap
    case "0" => Some(NotTraded)
    case "1" => Some(PartTraded)
    case "2" => Some(AllTraded)
    case "-1" => Some(Cancelled)
    case "-2" => Some(Rejected)
    // spot
    case "open" => Some(NotTraded)
    case "part_filled" => Some(PartTraded)
    case "filled" => Some(AllTraded)
    case "cancelled" => Some(Cancelled)
    case "failure" => Some(Rejected)
    case _ => None
  }

  /** The codes of statusMapReverse, each family in the order the table lists them. */
  const FuturesCodes: seq<string> := ["0", "1", "2", "-1", "-2"]
  const SpotCodes: seq<string> := ["open", "part_filled", "filled", "cancelled", "failure"]

  /** The two code families name the same five statuses position by position, no two
      codes of a family share a status, and every exchange status has a code. */
  lemma StatusFamilies()
    ensures forall i :: 0 <= i < |FuturesCodes| ==>
              StatusOf(FuturesCodes[i]).Some? && StatusOf(FuturesCodes[i]) == StatusOf(SpotCodes[i])
    ensures forall i, j :: 0 <= i < j < |FuturesCodes| ==> StatusOf(FuturesCodes[i]) != StatusOf(FuturesCodes[j])
    ensures forall s :: s != NoStatus ==> exists i :: 0 <= i < |FuturesCodes| && StatusOf(FuturesCodes[i]) == Some(s)
  {
    forall s | s != NoStatus
      ensures exists i :: 0 <= i < |FuturesCodes| && StatusOf(FuturesCodes[i]) == Some(s)
    {
      match s
      case NotTraded => assert StatusOf(FuturesCodes[0]) == Some(s);
      case PartTraded => assert StatusOf(FuturesCodes[1]) == Some(s);
      case AllTraded => assert StatusOf(FuturesCodes[2]) == Some(s);
      case Cancelled => assert StatusOf(FuturesCodes[3]) == Some(s);
      case Rejected => assert StatusOf(FuturesCodes[4]) == Some(s);
    }
  }

  /** The statuses after which the push handlers drop an order's id mappings. */
  predicate ReleasesIds(s: Status)
  {
    s == AllTraded || s == Cancelled
  }

  /** Exactly the codes "2", "-1", "filled" and "cancelled" release the ids; a rejection does not. */
  lemma ReleasingCodes(code: string)
    requires StatusOf(code).Some?
    ensures ReleasesIds(StatusOf(code).value) <==> code in {"2", "-1", "filled", "cancelled"}
  {
  }
}
