/**
 * `getStatusVariant` of src/components/profile/ProductsList.tsx: the badge variant for a
 * product status of that list ("disponible", "bajo stock", "agotado").
 */
module ProductBadges {

  /** The badge variants the switch can produce. */
  const Variants: set<string> := {"default", "secondary", "destructive"}

  /**
   * The switch with its default: available is the default badge, sold out the
   * destructive one, and low stock as well as every unknown status the secondary one.
   */
  function GetStatusVariant(status: string): (r: string)
    ensures r in Variants
    ensures r == "default" <==> status == "disponible"
    ensures r == "destructive" <==> status == "agotado"
    ensures r == "secondary" <==> status != "disponible" && status != "agotado"
  {
    match status
    case "disponible" => "default"
    case "bajo stock" => "secondary"
    case "agotado" => "destructive"
    case _ => "secondary"
  }
}
