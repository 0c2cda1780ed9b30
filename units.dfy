/**
 * Unit conversions shared by the ledger generations: the current ledger and
 * the tun gauge keep mL and report gallons; the older ledgers keep litres.
 */
module Units {
  const GallonsToML: real := 3785.41
  const MLToGallons: real := 1.0 / GallonsToML

  /** TOGALLONS of the litre-based ledgers. */
  const LitresToGallons: real := 0.264172

  function ToGallons(ml: real): (gallons: real)
    ensures gallons * GallonsToML == ml
  {
    ml * MLToGallons
  }

  function ToMillilitres(gallons: real): (ml: real)
    ensures ToGallons(ml) == gallons
  {
    gallons * GallonsToML
  }

  /** The vessels in reporting order (the `all` list). */
  const All: seq<string> := ["hlt", "tun", "boiler", "carboy"]
}
