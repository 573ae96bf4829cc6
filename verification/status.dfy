/**
 * Presentation of the free-text order status, shared by the admin order list
 * and the buyer tracking page (both define the same colour mapping).
 */
module Status {
  import opened Text

  const Green := "text-green-600"
  const Blue := "text-blue-600"
  const Yellow := "text-yellow-600"
  const Gray := "text-gray-500"

  /** Colour class of a status, compared case-insensitively; unknown statuses are gray. */
  function StatusColor(status: string): (r: string)
    ensures r == Green <==> ToLower(status) == "delivered"
    ensures r == Blue <==> ToLower(status) == "in progress"
    ensures r == Yellow <==> ToLower(status) == "pending"
    ensures r == Gray <==> ToLower(status) !in ["delivered", "in progress", "pending"]
  {
    match ToLower(status)
    case "delivered" => Green
    case "in progress" => Blue
    case "pending" => Yellow
    case _ => Gray
  }

  /** Two spellings that differ only in letter case get the same colour. */
  lemma StatusColorIgnoresCase(a: string, b: string)
    requires ToLower(a) == ToLower(b)
    ensures StatusColor(a) == StatusColor(b)
  {
  }

  /** The admin's three choices and the server's default all get a colour, none is gray. */
  lemma KnownStatusesColoured()
    ensures StatusColor("Pending") == Yellow && StatusColor("pending") == Yellow
    ensures StatusColor("In Progress") == Blue
    ensures StatusColor("Delivered") == Green
  {
    assert ToLower("Pending") == "pending";
    assert ToLower("In Progress") == "in progress";
    assert ToLower("Delivered") == "delivered";
  }
}
